/** The per-request context builders of the tRPC server: a route is public
    when its procedure path mentions "public"; any other route needs a
    session or fails with UNAUTHORIZED. */
module RequestContext {
  import opened Wrappers
  import opened JsStrings
  import opened NextAuth

  /** A value of `req.query.trpc`: a string, a list of strings, or absent. */
  datatype QueryValue = Missing | Text(text: string) | TextList(items: seq<string>)

  datatype Request = Request(trpc: QueryValue, cookies: map<string, string>)

  datatype Response = Response(headers: map<string, string>)

  /** `CreateContextOptions`; the built context has the same shape. */
  datatype ContextOptions = ContextOptions(session: Option<Session>, req: Option<Request>, res: Option<Response>)

  datatype ErrorCode = Unauthorized

  datatype TrpcError = TrpcError(code: ErrorCode, message: string)

  const NoSessionTag := "NO_SESSION"
  const NoSessionMessage := NoSessionTag + ". No auth session found for incoming request."

  /** The message carries the machine-readable reason first. */
  lemma NoSessionMessageIsTagged()
    ensures StartsWith(NoSessionMessage, "NO_SESSION")
  {
    assert NoSessionMessage[..|NoSessionTag|] == NoSessionTag;
  }

  /** `typeof trpc === "string" && trpc.includes("public")`. */
  predicate IsPublicRoute(trpc: QueryValue) {
    trpc.Text? && Includes(trpc.text, "public")
  }

  /** Public exactly when the value is a string in which "public" occurs,
      case-sensitively; absent values, lists and "" are private. */
  lemma PublicRouteIff(trpc: QueryValue)
    ensures IsPublicRoute(trpc) <==> trpc.Text? && exists i: nat :: OccursAt(trpc.text, "public", i)
    ensures trpc.Missing? || trpc.TextList? || trpc == Text("") ==> !IsPublicRoute(trpc)
  {
    if trpc.Text? {
      IncludesIffOccurs(trpc.text, "public");
    }
  }

  /** The directory procedure is public. */
  lemma DirectoryRouteIsPublic(path: string)
    requires path == "exercise.public.directory"
    ensures IsPublicRoute(Text(path))
  {
    assert OccursAt(path, "public", 9) by {
      assert path[9..15] == "public";
    }
    IncludesIffOccurs(path, "public");
  }

  /** The same path with a capital P, or wrapped in a list, is private. */
  lemma CapitalisedRouteIsPrivate(path: string)
    requires path == "exercise.Public.directory"
    ensures !IsPublicRoute(Text(path))
    ensures !IsPublicRoute(TextList(["exercise.public.directory"]))
  {
    assert forall i :: 0 <= i < |path| ==> path[i] != 'p';
    NotIncludedWithoutFirstChar(path, "public");
  }

  /** A batched call carries its procedure paths joined by commas. */
  function JoinPaths(paths: seq<string>): string {
    if paths == [] then ""
    else if |paths| == 1 then paths[0]
    else paths[0] + "," + JoinPaths(paths[1..])
  }

  /** `t` found in the middle piece is found in the whole. */
  lemma IncludesInMiddle(a: string, b: string, c: string, t: string)
    requires Includes(b, t)
    ensures Includes(a + b + c, t)
  {
    IncludesIffOccurs(b, t);
    var i: nat :| OccursAt(b, t, i);
    assert (a + b + c)[|a| + i..|a| + i + |t|] == b[i..i + |t|];
    assert OccursAt(a + b + c, t, |a| + i);
    IncludesIffOccurs(a + b + c, t);
  }

  /** A batch is classified as a whole: one public path makes every
      procedure in the batch public, so none of them gets a session. */
  lemma {:induction false} BatchWithPublicPathIsPublic(paths: seq<string>, k: nat)
    requires k < |paths| && Includes(paths[k], "public")
    ensures IsPublicRoute(Text(JoinPaths(paths)))
  {
    if |paths| > 1 {
      if k == 0 {
        IncludesInMiddle("", paths[0], "," + JoinPaths(paths[1..]), "public");
        assert "" + paths[0] + ("," + JoinPaths(paths[1..])) == JoinPaths(paths);
      } else {
        BatchWithPublicPathIsPublic(paths[1..], k - 1);
        IncludesInMiddle(paths[0] + ",", JoinPaths(paths[1..]), "", "public");
        assert paths[0] + "," + JoinPaths(paths[1..]) + "" == JoinPaths(paths);
      }
    }
  }

  /** `_opts.req?.query.trpc`. */
  function RouteOf(req: Option<Request>): QueryValue {
    if req.None? then Missing else req.value.trpc
  }

  /** `createContextInner`: a public route returns a copy of the options; a
      private one needs the session among the options. */
  function CreateContextInner(opts: ContextOptions): (r: Result<ContextOptions, TrpcError>)
    ensures r.Ok? <==> IsPublicRoute(RouteOf(opts.req)) || opts.session.Some?
    ensures r.Ok? ==> r.value == opts
    ensures r.Err? ==> r.error.code == Unauthorized && StartsWith(r.error.message, "NO_SESSION")
  {
    if IsPublicRoute(RouteOf(opts.req)) then Ok(opts)
    else if opts.session.None? then
      NoSessionMessageIsTagged();
      Err(TrpcError(Unauthorized, NoSessionMessage))
    else Ok(opts.(session := Some(opts.session.value)))
  }

  /** The adapter's options: a request and a response. */
  datatype NextOptions = NextOptions(req: Request, res: Response)

  /** The outer builder's outcome and how many times it asked the
      authentication library for the session. */
  datatype Built = Built(result: Result<ContextOptions, TrpcError>, sessionLookups: nat)

  /** `{ ...opts }`: the adapter's options copied, with no session. */
  function Spread(opts: NextOptions): ContextOptions {
    ContextOptions(None, Some(opts.req), Some(opts.res))
  }

  /** `createTRPCClientContext`: the public check comes first; only a
      private route looks the session up, and fails without one. */
  function CreateTRPCClientContext(opts: NextOptions, getServerSession: (Request, Response) -> Option<Session>)
    : (out: Built)
    ensures IsPublicRoute(opts.req.trpc) ==> out == Built(Ok(Spread(opts)), 0)
    ensures !IsPublicRoute(opts.req.trpc) ==> out.sessionLookups == 1
    ensures !IsPublicRoute(opts.req.trpc) ==>
      (out.result.Ok? <==> getServerSession(opts.req, opts.res).Some?)
    ensures out.result.Ok? ==> out.result.value.req == Some(opts.req) && out.result.value.res == Some(opts.res)
    ensures out.result.Ok? && !IsPublicRoute(opts.req.trpc) ==>
      out.result.value.session == getServerSession(opts.req, opts.res)
    ensures out.result.Err? ==>
      out.result.error.code == Unauthorized && StartsWith(out.result.error.message, "NO_SESSION")
  {
    if IsPublicRoute(opts.req.trpc) then Built(Ok(Spread(opts)), 0)
    else
      var session := getServerSession(opts.req, opts.res);
      if session.None? then
        NoSessionMessageIsTagged();
        Built(Err(TrpcError(Unauthorized, NoSessionMessage)), 1)
      else Built(Ok(Spread(opts).(session := session)), 1)
  }

  /** On a public route the session lookup cannot affect the outcome. */
  lemma PublicRouteIgnoresSessionLookup(opts: NextOptions, f: (Request, Response) -> Option<Session>,
                                        g: (Request, Response) -> Option<Session>)
    requires IsPublicRoute(opts.req.trpc)
    ensures CreateTRPCClientContext(opts, f) == CreateTRPCClientContext(opts, g)
  {
  }

  /** Given the same request and session, the two builders agree: same
      classification, same error, and on a private route the same context;
      on a public route they differ only in that the inner one keeps
      whatever session it was given. */
  lemma BuildersAgree(req: Request, res: Response, getServerSession: (Request, Response) -> Option<Session>)
    ensures var outer := CreateTRPCClientContext(NextOptions(req, res), getServerSession).result;
      var inner := CreateContextInner(ContextOptions(getServerSession(req, res), Some(req), Some(res)));
      && (outer.Ok? <==> inner.Ok?)
      && (outer.Err? ==> outer.error == inner.error)
      && (!IsPublicRoute(req.trpc) ==> outer == inner)
      && (IsPublicRoute(req.trpc) ==> outer.Ok? && outer.value == inner.value.(session := None))
  {
  }
}
