/** The application shell: the page title derived from the route, and the
    session latch that keeps the first session the client saw. */
module App {
  import opened NextAuth
  import opened JsStrings

  /** The known page routes and their titles. */
  const Pages: seq<(string, string)> := [
    ("/", "Welcome!"),
    ("/[user]", "Daily Summary"),
    ("/[user]/workout/[workout_id]", "Workout Report"),
    ("/[user]/workout/history", "Workout History"),
    ("/[user]/exercise/[exercise_id]", "Exercise Info")
  ]

  predicate IsKnownPath(pathname: string) {
    exists i :: 0 <= i < |Pages| && Pages[i].0 == pathname
  }

  /** `appLocation`: the title of a known route, "404" for any other. */
  function AppLocation(pathname: string): (location: string)
    ensures forall i :: 0 <= i < |Pages| && Pages[i].0 == pathname ==> location == Pages[i].1
    ensures location == "404" <==> !IsKnownPath(pathname)
  {
    match pathname
    case "/" => assert Pages[0].0 == pathname; "Welcome!"
    case "/[user]" => assert Pages[1].0 == pathname; "Daily Summary"
    case "/[user]/workout/[workout_id]" => assert Pages[2].0 == pathname; "Workout Report"
    case "/[user]/workout/history" => assert Pages[3].0 == pathname; "Workout History"
    case "/[user]/exercise/[exercise_id]" => assert Pages[4].0 == pathname; "Exercise Info"
    case _ => "404"
  }

  const SiteName := "ExBuddy"
  const Separator := " | "

  /** The `<title>` text: "ExBuddy" followed by the value of
      `appLocation != '404' && (' | ' + appLocation)`, which is the string
      `false` when the location is "404". */
  function Title(location: string): string {
    SiteName + (if location != "404" then Separator + location else "false")
  }

  /** A known route is titled "ExBuddy | <title>"; any other route is
      titled "ExBuddyfalse". */
  lemma TitleOfPathname(pathname: string)
    ensures IsKnownPath(pathname) ==> Title(AppLocation(pathname)) == SiteName + (Separator + AppLocation(pathname))
    ensures !IsKnownPath(pathname) ==> Title(AppLocation(pathname)) == SiteName + "false"
  {
    var location := AppLocation(pathname);
    assert location == "404" <==> !IsKnownPath(pathname);
  }

  /** An unknown route shows the word `false` in its title. */
  lemma UnknownRouteTitleShowsFalse(pathname: string)
    requires pathname == "/settings"
    ensures Title(AppLocation(pathname)) == "ExBuddyfalse"
  {
    assert AppLocation(pathname) == "404";
    assert SiteName + "false" == "ExBuddyfalse";
  }

  /** The title as evidently intended: the bare site name on a 404. */
  function IntendedTitle(location: string): (title: string)
    ensures StartsWith(title, SiteName)
    ensures location == "404" <==> |title| == |SiteName|
  {
    SiteName + (if location != "404" then Separator + location else "")
  }

  /** Under the intended title a known route reads "ExBuddy | <title>" and
      any other route reads "ExBuddy". */
  lemma IntendedTitleOfPathname(pathname: string)
    ensures IsKnownPath(pathname) ==> IntendedTitle(AppLocation(pathname)) == SiteName + (Separator + AppLocation(pathname))
    ensures !IsKnownPath(pathname) ==> IntendedTitle(AppLocation(pathname)) == SiteName
  {
    var location := AppLocation(pathname);
    assert location == "404" <==> !IsKnownPath(pathname);
    assert SiteName + "" == SiteName;
  }

  /** What the session query returned: still loading, no session, or a
      session object. `ref` is the object's identity: a refetch that
      changed nothing keeps the old object, any other refetch yields a new
      one even when its fields are the same. */
  datatype AuthData = Undefined | Null | Present(ref: nat, session: Session)

  /** Only a session is truthy. */
  predicate Truthy(a: AuthData) {
    a.Present?
  }

  /** JavaScript `==` on these values: null and undefined are loosely
      equal, and two session objects are equal only when they are the same
      object. */
  predicate LooseEquals(a: AuthData, b: AuthData) {
    if a.Present? && b.Present? then a.ref == b.ref
    else !a.Present? && !b.Present?
  }

  /** The `session` memo and its `sessionRef`. */
  class SessionLatch {
    var current: AuthData

    /** The ref starts with the query's first value. */
    constructor (initial: AuthData)
      ensures current == initial
    {
      current := initial;
    }

    /** With nothing latched, a session is latched and returned; a value
        loosely equal to the latched one returns the latched one; anything
        else returns undefined and leaves the latch alone. */
    method Memo(authData: AuthData) returns (session: AuthData)
      modifies this
      ensures !Truthy(old(current)) && Truthy(authData) ==> current == authData && session == authData
      ensures Truthy(old(current)) || !Truthy(authData) ==> current == old(current)
      ensures Truthy(old(current)) || !Truthy(authData) ==>
        session == if LooseEquals(authData, old(current)) then old(current) else Undefined
      ensures Truthy(old(current)) ==> Truthy(current) && current == old(current)
    {
      if !Truthy(current) && Truthy(authData) {
        current := authData;
        return current;
      }
      if LooseEquals(authData, current) {
        return current;
      }
      return Undefined;
    }
  }

  /** Once a session is latched, a different later session is never
      adopted, while the latched object keeps being returned. */
  method LatchScenario(first: Session, second: Session)
  {
    var latch := new SessionLatch(Undefined);
    var s := latch.Memo(Null);
    assert s == Undefined && latch.current == Undefined;
    s := latch.Memo(Present(1, first));
    assert s == Present(1, first);
    s := latch.Memo(Present(2, second));
    assert s == Undefined && latch.current == Present(1, first);
    s := latch.Memo(Present(1, first));
    assert s == Present(1, first);
  }

  /** Signing in, a refetch returning null, then a refetch returning a new
      object with the very same fields: the memo yields undefined, because
      the latched object and the new one are different objects. */
  method RefetchedSessionScenario(session: Session) returns (shown: AuthData)
    ensures shown == Undefined
  {
    var latch := new SessionLatch(Undefined);
    var s := latch.Memo(Present(1, session));
    s := latch.Memo(Null);
    shown := latch.Memo(Present(2, session));
  }
}
