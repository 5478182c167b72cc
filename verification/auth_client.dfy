/** The auth backend as the gateway sees it: the reserved namespace it owns, the authorization
    query the gateway sends it, and the reading of its answer as a verdict. */
module AuthClient {
  import opened Wrappers
  import opened Text
  import opened Http
  import Cookies

  /** Paths under this prefix belong to the auth backend (login pages, its API, its scripts). */
  const ReservedPrefix := "/wwwhisper/"
  /** Request target of the authorization query, completed by the original path. */
  const IsAuthorizedTarget := "/wwwhisper/auth/api/is-authorized/?path="
  /** The client-agent header: this library's name and version. */
  const ClientAgent := "node-1.1.1"

  /** The path belongs to the auth backend: it is the reserved prefix followed by anything. */
  function IsReserved(path: string): (reserved: bool)
    ensures reserved <==> |ReservedPrefix| <= |path| && path == ReservedPrefix + path[|ReservedPrefix|..]
  {
    assert |ReservedPrefix| <= |path| ==> path == path[..|ReservedPrefix|] + path[|ReservedPrefix|..];
    StartsWith(path, ReservedPrefix)
  }

  /** The path an authorization-query target asks about, if it is one. */
  function QueriedPath(target: string): (path: Option<string>)
    ensures path.Some? <==> StartsWith(target, IsAuthorizedTarget)
    ensures path.Some? ==> target == IsAuthorizedTarget + path.value
  {
    if StartsWith(target, IsAuthorizedTarget) then
      assert target == target[..|IsAuthorizedTarget|] + target[|IsAuthorizedTarget|..];
      Some(target[|IsAuthorizedTarget|..])
    else None
  }

  /** The authorization query for `req`: a GET of the is-authorized endpoint, carrying only the
      backend's own cookies and the client-agent header. */
  function Query(req: Request): (q: Request)
    ensures QueriedPath(q.path) == Some(req.path)
    ensures IsReserved(q.path)
    ensures q.verb == "GET" && q.userAgent == ClientAgent
  {
    var target := IsAuthorizedTarget + req.path;
    assert target[..|IsAuthorizedTarget|] == IsAuthorizedTarget;
    assert target[|IsAuthorizedTarget|..] == req.path;
    assert target[..|ReservedPrefix|] == IsAuthorizedTarget[..|ReservedPrefix|];
    Request("GET", target, Cookies.Filter(req.cookie), ClientAgent)
  }

  /** The query carries every auth cookie of the request, in order, and nothing else. */
  lemma QueryCookies(req: Request)
    ensures Cookies.Keep(Cookies.Pairs(Query(req).cookie)) == Cookies.Keep(Cookies.Pairs(req.cookie))
    ensures Query(req).cookie == "" || forall p :: p in Cookies.Pairs(Query(req).cookie) ==> Cookies.IsAuthCookie(p)
  {
  }

  /** The query target of the tests that request /foo/bar and /: the path is appended as is. */
  lemma QueryTargetOfTestPaths(req: Request)
    requires req.path == "/foo/bar" || req.path == "/"
    ensures Query(req).path == "/wwwhisper/auth/api/is-authorized/?path=" + req.path
    ensures Query(req).userAgent == "node-1.1.1"
  {
  }

  /** The backend's decision. Its status code is the only signal; on 200 the identity is the
      `User` header of the answer, absent for an open location. */
  datatype Verdict = Granted(identity: Option<string>) | LoginRequired | Denied

  datatype GatewayError = UnexpectedBackendStatus(status: int)

  /** Reads the backend's answer to an authorization query. */
  function Interpret(answer: Response): (v: Result<Verdict, GatewayError>)
    ensures v == Success(Granted(answer.user)) <==> answer.status == 200
    ensures v == Success(LoginRequired) <==> answer.status == 401
    ensures v == Success(Denied) <==> answer.status == 403
    ensures v.Failure? <==> answer.status !in {200, 401, 403}
    ensures v.Failure? ==> v.error == UnexpectedBackendStatus(answer.status)
  {
    if answer.status == 200 then Success(Granted(answer.user))
    else if answer.status == 401 then Success(LoginRequired)
    else if answer.status == 403 then Success(Denied)
    else Failure(UnexpectedBackendStatus(answer.status))
  }

  /** The status code by which the backend announces each verdict. */
  function StatusOf(v: Verdict): int {
    match v
    case Granted(_) => 200
    case LoginRequired => 401
    case Denied => 403
  }

  /** Interpret and StatusOf are inverse: every verdict is read back from its own status, and a
      verdict is only ever read from the status that announces it. */
  lemma InterpretStatusRoundTrip(v: Verdict, answer: Response)
    ensures answer.status == StatusOf(v) && (v.Granted? ==> v.identity == answer.user)
            <==> Interpret(answer) == Success(v)
  {
  }
}
