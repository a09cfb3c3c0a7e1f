/**
 * The bearer-token authentication middleware exercised by
 * tasks/http/middleware/auth/auth_test.go: the test's map-backed token
 * checker, the error chain it returns, the request context that carries the
 * resolved user, and the decision the middleware takes for one request.
 */
module Auth {
  import opened Wrappers

  /** The identity a token resolves to. */
  datatype User = User(name: string, email: string)

  /** One link of a Go error chain: the sentinel ErrInvalidToken, or any other error with its text. */
  datatype ErrorKind = InvalidToken | Other(message: string)

  /**
   * An error as `errors.Unwrap` walks it: element 0 is the error value itself,
   * each following element the error the previous one wraps with `%w`.  A
   * non-nil error always has at least itself in its chain.
   */
  type Error = e: seq<ErrorKind> | |e| >= 1 witness [InvalidToken]

  /** The sentinel `auth.ErrInvalidToken`. */
  const ErrInvalidToken: Error := [InvalidToken]

  /** `fmt.Errorf(message)` with no `%w` verb: a chain of one. */
  function NewError(message: string): (e: Error)
    ensures |e| == 1 && e[0].Other?
  {
    [Other(message)]
  }

  /** `fmt.Errorf(message + ": %w", cause)`: a new link in front of the cause's chain. */
  function Wrap(message: string, cause: Error): (e: Error)
    ensures |e| == |cause| + 1 && e[0].Other? && e[1..] == cause
  {
    [Other(message)] + cause
  }

  /** `errors.Is(err, ErrInvalidToken)`: walks the chain link by link. */
  function IsInvalidToken(chain: seq<ErrorKind>): bool
  {
    if chain == [] then false
    else chain[0] == InvalidToken || IsInvalidToken(chain[1..])
  }

  /** The chain walk finds the sentinel exactly when it is a member of the chain. */
  lemma {:induction false} IsInvalidTokenIffInChain(chain: seq<ErrorKind>)
    ensures IsInvalidToken(chain) <==> InvalidToken in chain
  {
    if chain != [] {
      IsInvalidTokenIffInChain(chain[1..]);
      assert chain == [chain[0]] + chain[1..];
    }
  }

  /** Wrapping an error keeps what it matches: `%w` preserves the sentinel and adds none. */
  lemma WrapPreservesSentinel(message: string, cause: Error)
    ensures IsInvalidToken(Wrap(message, cause)) == IsInvalidToken(cause)
  {
  }

  /** An error made from text alone never matches, whatever the text says. */
  lemma TextNeverMatches(message: string)
    ensures !IsInvalidToken(NewError(message))
  {
  }

  /** What `CheckToken` returns: a user (nil when None) and an error (nil when None). */
  datatype CheckResult = CheckResult(user: Option<User>, err: Option<Error>)

  /** The test's `fakeChecker`: a map from token to the answer to give for it. */
  type FakeChecker = map<string, CheckResult>

  /**
   * `fakeChecker.CheckToken`: the stored answer for a known token, and for an
   * unknown one Go's zero-valued entry, a nil user and a nil error.
   */
  function CheckToken(c: FakeChecker, token: string): (r: CheckResult)
    ensures token in c ==> r == c[token]
    ensures token !in c ==> r.user.None? && r.err.None?
  {
    if token in c then c[token] else CheckResult(None, None)
  }

  /** The per-request context, seen only through its optional user slot. */
  datatype Context = Context(user: Option<User>)

  /** The context of a fresh request, which carries no user. */
  const Background: Context := Context(None)

  /**
   * `context.WithValue(parent, userKey, u)`: a derived context that carries `u`.
   * A context is seen only through its user slot, and the new value shadows
   * whatever the parent held there, so nothing of `parent` remains visible.
   */
  function WithUser(parent: Context, u: User): (ctx: Context)
    ensures ctx.user == Some(u)
  {
    Context(Some(u))
  }

  /** What `auth.ContextUser` returns: the user (nil when None) and whether one was stored. */
  datatype Lookup = Lookup(user: Option<User>, ok: bool)

  /** `auth.ContextUser`: the stored user, and `ok` exactly when there is one. */
  function ContextUser(ctx: Context): (r: Lookup)
    ensures r.ok <==> r.user.Some?
    ensures r.user == ctx.user
  {
    Lookup(ctx.user, ctx.user.Some?)
  }

  /** A user stored in a context is the one the lookup yields, with `ok` set. */
  lemma ContextUserAfterWithUser(parent: Context, u: User)
    ensures ContextUser(WithUser(parent, u)) == Lookup(Some(u), true)
  {
  }

  /** A context nobody stored a user in yields a nil user and `ok` false. */
  lemma ContextUserOfBackground()
    ensures ContextUser(Background) == Lookup(None, false)
  {
  }

  const BearerPrefix: string := "Bearer "

  /** The credential in an `Authorization` header of the form `Bearer <token>`, if any. */
  function BearerToken(header: Option<string>): (t: Option<string>)
    ensures t.Some? <==> header.Some? && |header.value| >= |BearerPrefix|
                         && header.value[..|BearerPrefix|] == BearerPrefix
    ensures t.Some? ==> header.value == BearerPrefix + t.value
  {
    match header
    case None => None
    case Some(h) =>
      if |h| >= |BearerPrefix| && h[..|BearerPrefix|] == BearerPrefix
      then Some(h[|BearerPrefix|..])
      else None
  }

  /** The token handed to the checker is exactly the text after the prefix. */
  lemma BearerTokenRoundTrip(token: string)
    ensures BearerToken(Some(BearerPrefix + token)) == Some(token)
  {
  }

  const StatusOK := 200
  const StatusUnauthorized := 401
  const StatusConflict := 409
  const StatusInternalServerError := 500

  /** How the middleware reads an answer of the checker. */
  datatype Verdict = Reject(status: int) | Admit(user: User)

  /**
   * Any error decides first: 401 when it wraps the sentinel, 500 otherwise;
   * with no error, a user admits the request, and no user is a missing
   * identity, 401.
   */
  function Classify(r: CheckResult): (v: Verdict)
    ensures v.Admit? <==> r.err.None? && r.user.Some?
    ensures v.Admit? ==> Some(v.user) == r.user
    ensures v == Reject(StatusInternalServerError) <==> r.err.Some? && InvalidToken !in r.err.value
    ensures v == Reject(StatusUnauthorized) <==>
      (r.err.Some? && InvalidToken in r.err.value) || (r.err.None? && r.user.None?)
  {
    IsInvalidTokenIffIn(r.err);
    match r.err
    case Some(e) =>
      if IsInvalidToken(e) then Reject(StatusUnauthorized) else Reject(StatusInternalServerError)
    case None =>
      match r.user
      case Some(u) => Admit(u)
      case None => Reject(StatusUnauthorized)
  }

  /** `IsInvalidTokenIffInChain` for an error that may be nil. */
  lemma IsInvalidTokenIffIn(err: Option<Error>)
    ensures err.Some? ==> (IsInvalidToken(err.value) <==> InvalidToken in err.value)
  {
    if err.Some? {
      IsInvalidTokenIffInChain(err.value);
    }
  }

  /** An inbound request: its route, its `Authorization` header, its context. */
  datatype Request = Request(path: string, authorization: Option<string>, ctx: Context)

  /**
   * What one request leads to: the final status, and the context the
   * downstream handler was invoked with (None when it was not invoked).
   */
  datatype Response = Response(status: int, handlerCtx: Option<Context>)

  /**
   * `auth.CheckAuth(c)` wrapped around `next`, serving `req`.  The handler is
   * given as the status it writes for the context it is invoked with.  The
   * router picks that handler from `req.path` before the middleware runs, so
   * the decision itself never reads the path.
   */
  function CheckAuth(c: FakeChecker, next: Context -> int, req: Request): (resp: Response)
    ensures resp.handlerCtx.None? ==>
      resp.status == StatusUnauthorized || resp.status == StatusInternalServerError
    ensures resp.handlerCtx.Some? ==>
      resp.status == next(resp.handlerCtx.value) && ContextUser(resp.handlerCtx.value).ok
  {
    match BearerToken(req.authorization)
    case None => Response(StatusUnauthorized, None)
    case Some(token) =>
      match Classify(CheckToken(c, token))
      case Reject(status) => Response(status, None)
      case Admit(u) =>
        var ctx := WithUser(req.ctx, u);
        Response(next(ctx), Some(ctx))
  }

  /** No credential: 401, and the handler is not invoked. */
  lemma NoCredentialIsUnauthorized(c: FakeChecker, next: Context -> int, req: Request)
    requires BearerToken(req.authorization).None?
    ensures CheckAuth(c, next, req) == Response(StatusUnauthorized, None)
  {
  }

  /** A checker error that wraps the sentinel anywhere in its chain: 401, handler not invoked. */
  lemma InvalidTokenIsUnauthorized(c: FakeChecker, next: Context -> int, req: Request, token: string)
    requires req.authorization == Some(BearerPrefix + token)
    requires CheckToken(c, token).err.Some? && InvalidToken in CheckToken(c, token).err.value
    ensures CheckAuth(c, next, req) == Response(StatusUnauthorized, None)
  {
  }

  /** Any other checker error: 500, handler not invoked. */
  lemma CheckerFailureIsInternalError(c: FakeChecker, next: Context -> int, req: Request, token: string)
    requires req.authorization == Some(BearerPrefix + token)
    requires CheckToken(c, token).err.Some? && InvalidToken !in CheckToken(c, token).err.value
    ensures CheckAuth(c, next, req) == Response(StatusInternalServerError, None)
  {
  }

  /**
   * A credential the checker answers with neither a user nor an error (an
   * unknown token among them): 401, handler not invoked.
   */
  lemma NoIdentityIsUnauthorized(c: FakeChecker, next: Context -> int, req: Request, token: string)
    requires req.authorization == Some(BearerPrefix + token)
    requires CheckToken(c, token).err.None? && CheckToken(c, token).user.None?
    ensures CheckAuth(c, next, req) == Response(StatusUnauthorized, None)
  {
  }

  /** A token the checker does not know: 401, handler not invoked. */
  lemma UnknownTokenIsUnauthorized(c: FakeChecker, next: Context -> int, req: Request, token: string)
    requires req.authorization == Some(BearerPrefix + token)
    requires token !in c
    ensures CheckAuth(c, next, req) == Response(StatusUnauthorized, None)
  {
  }

  /**
   * A token the checker resolves without error: the handler is invoked once,
   * with a context whose lookup yields the checker's user and `ok`, and the
   * status is whatever the handler writes.
   */
  lemma ResolvedTokenReachesHandler(c: FakeChecker, next: Context -> int, req: Request, token: string, u: User)
    requires req.authorization == Some(BearerPrefix + token)
    requires CheckToken(c, token) == CheckResult(Some(u), None)
    ensures CheckAuth(c, next, req).handlerCtx.Some?
    ensures ContextUser(CheckAuth(c, next, req).handlerCtx.value) == Lookup(Some(u), true)
    ensures CheckAuth(c, next, req).status == next(CheckAuth(c, next, req).handlerCtx.value)
  {
  }

  /**
   * The handler runs only for a credential the checker resolved to a user
   * with no error, and every request it does not reach ends in 401 or 500.
   */
  lemma HandlerOnlyOnSuccess(c: FakeChecker, next: Context -> int, req: Request)
    ensures CheckAuth(c, next, req).handlerCtx.Some? <==>
      BearerToken(req.authorization).Some?
      && CheckToken(c, BearerToken(req.authorization).value).err.None?
      && CheckToken(c, BearerToken(req.authorization).value).user.Some?
    ensures CheckAuth(c, next, req).handlerCtx.None? ==>
      CheckAuth(c, next, req).status in {StatusUnauthorized, StatusInternalServerError}
  {
  }

  /**
   * Two requests with the same resolvable credential both reach their
   * handlers, and both handlers see the same user.
   */
  lemma SameTokenTwice(c: FakeChecker, next1: Context -> int, req1: Request, next2: Context -> int, req2: Request, token: string, u: User)
    requires req1.authorization == Some(BearerPrefix + token) && req2.authorization == req1.authorization
    requires CheckToken(c, token) == CheckResult(Some(u), None)
    ensures CheckAuth(c, next1, req1).handlerCtx.Some? && CheckAuth(c, next2, req2).handlerCtx.Some?
    ensures ContextUser(CheckAuth(c, next1, req1).handlerCtx.value)
         == ContextUser(CheckAuth(c, next2, req2).handlerCtx.value)
         == Lookup(Some(u), true)
  {
  }

  /** The user the test's `token0` resolves to. */
  const Fedor: User := User("Fedor", "dartslon@gmail.com")

  /** The checker table of the test. */
  function TestChecker(): (c: FakeChecker)
    ensures c.Keys == {"token0", "token1", "token2"}
    ensures c["token0"] == CheckResult(Some(Fedor), None)
    ensures c["token1"] == CheckResult(None, Some(NewError("database offline")))
    ensures c["token2"] == CheckResult(None, Some(Wrap("token expired", ErrInvalidToken)))
  {
    map[
      "token0" := CheckResult(Some(Fedor), None),
      "token1" := CheckResult(None, Some(NewError("database offline"))),
      "token2" := CheckResult(None, Some(Wrap("token expired", ErrInvalidToken)))
    ]
  }

  /** The handlers of the test's two routes, as the status each writes. */
  const PathOk: Context -> int := (ctx: Context) => StatusOK
  const PathError: Context -> int := (ctx: Context) => StatusConflict

  /** The four scenarios of `TestAuth`, each with the outcome the test asserts. */
  lemma TestAuthScenarios()
    ensures CheckAuth(TestChecker(), PathOk, Request("/path/ok", None, Background))
         == Response(StatusUnauthorized, None)
    ensures CheckAuth(TestChecker(), PathOk, Request("/path/ok", Some("Bearer token2"), Background))
         == Response(StatusUnauthorized, None)
    ensures CheckAuth(TestChecker(), PathOk, Request("/path/ok", Some("Bearer token1"), Background))
         == Response(StatusInternalServerError, None)
    ensures var resp := CheckAuth(TestChecker(), PathOk, Request("/path/ok", Some("Bearer token0"), Background));
            resp.status == StatusOK && resp.handlerCtx.Some?
            && ContextUser(resp.handlerCtx.value) == Lookup(Some(Fedor), true)
    ensures var resp := CheckAuth(TestChecker(), PathError, Request("/path/error", Some("Bearer token0"), Background));
            resp.status == StatusConflict && resp.handlerCtx.Some?
  {
  }
}
