/** The authentication library's session value, as the core sees it. */
module NextAuth {
  import opened Wrappers

  datatype Session = Session(userId: string, name: string, image: Option<string>, expires: string)
}
