/** The gateway: per request, either hands the request straight to the application (disabled),
    proxies it to the auth backend (reserved namespace), or asks the backend for a verdict and
    enforces it, running the application's response through the rewriter when access is granted.
    The application and the backend are parameters; an Exchange records what the gateway did
    with them and what the client received. */
module Gateway {
  import opened Wrappers
  import opened Text
  import opened Http
  import opened Config
  import opened AuthClient
  import opened Rewriter
  import Cookies

  /** One request sent to the auth backend at `baseUrl`. */
  datatype BackendCall = BackendCall(baseUrl: string, request: Request)

  /** Whether the application ran, and with which `remoteUser` attached to the request. */
  datatype AppCall = NotInvoked | Invoked(remoteUser: Option<string>)

  datatype Outcome = Served(response: Response) | Failed(error: GatewayError)

  datatype Exchange = Exchange(backendCalls: seq<BackendCall>, app: AppCall, outcome: Outcome)

  /** The Exchange of one request. `backend` answers requests sent to the auth backend; `app`
      is the application, given the request and the identity attached to it. */
  function Handle(cfg: Config, req: Request, backend: Request -> Response,
                  app: (Request, Option<string>) -> AppResponse): (x: Exchange)
    // The disabled gateway is invisible: no backend call, the response as the app wrote it.
    ensures cfg.Disabled? ==> x.backendCalls == [] && x.app == Invoked(None)
                              && x.outcome == Served(AsSent(app(req, None)))
    // The reserved namespace is proxied verbatim; the application never runs.
    ensures cfg.Enabled? && IsReserved(req.path) ==>
              x.backendCalls == [BackendCall(cfg.backendUrl, req)] && x.app == NotInvoked
              && x.outcome == Served(backend(req))
    // Every other request costs exactly one backend call: the authorization query for its path.
    ensures cfg.Enabled? && !IsReserved(req.path) ==>
              x.backendCalls == [BackendCall(cfg.backendUrl, Query(req))]
    // The application runs only when disabled or when the backend granted this very request.
    ensures x.app.Invoked? <==>
              cfg.Disabled? || (!IsReserved(req.path) && backend(Query(req)).status == 200)
    ensures x.app.Invoked? && cfg.Enabled? ==> x.app.remoteUser == backend(Query(req)).user
  {
    match cfg
    case Disabled =>
      Exchange([], Invoked(None), Served(AsSent(app(req, None))))
    case Enabled(url) =>
      if IsReserved(req.path) then
        Exchange([BackendCall(url, req)], NotInvoked, Served(backend(req)))
      else
        var query := Query(req);
        var answer := backend(query);
        match Interpret(answer)
        case Failure(e) =>
          Exchange([BackendCall(url, query)], NotInvoked, Failed(e))
        case Success(Granted(user)) =>
          var out := app(req, user);
          Exchange([BackendCall(url, query)], Invoked(user), Served(Rewritten(out).(user := user)))
        case Success(_) =>
          var blocked := Response(answer.status, answer.contentType, None, answer.body);
          Exchange([BackendCall(url, query)], NotInvoked, Served(blocked))
  }

  /** Handles a request the way the middleware does it: the granted application writes its
      response into a rewriter, which flushes it once at the end. */
  method Serve(cfg: Config, req: Request, backend: Request -> Response,
               app: (Request, Option<string>) -> AppResponse) returns (x: Exchange)
    ensures x == Handle(cfg, req, backend, app)
  {
    match cfg
    case Disabled =>
      x := Exchange([], Invoked(None), Served(AsSent(app(req, None))));
    case Enabled(url) =>
      if IsReserved(req.path) {
        x := Exchange([BackendCall(url, req)], NotInvoked, Served(backend(req)));
      } else {
        var query := Query(req);
        var answer := backend(query);
        var verdict := Interpret(answer);
        if verdict.Failure? {
          x := Exchange([BackendCall(url, query)], NotInvoked, Failed(verdict.error));
        } else if verdict.value.Granted? {
          var user := verdict.value.identity;
          var out := app(req, user);
          var response := Pipe(out);
          x := Exchange([BackendCall(url, query)], Invoked(user), Served(response.(user := user)));
        } else {
          var blocked := Response(answer.status, answer.contentType, None, answer.body);
          x := Exchange([BackendCall(url, query)], NotInvoked, Served(blocked));
        }
      }
  }

  /** A granted request reaches the application with the backend's `User` header as its
      `remoteUser`, and the client's response carries the same `user` header (absent for an
      open location); the body is the application's, rewritten. */
  lemma GrantedRunsAppAsUser(cfg: Config, req: Request, backend: Request -> Response,
                             app: (Request, Option<string>) -> AppResponse)
    requires cfg.Enabled? && !IsReserved(req.path) && backend(Query(req)).status == 200
    ensures var x := Handle(cfg, req, backend, app);
            var user := backend(Query(req)).user;
            && x.app == Invoked(user)
            && x.outcome == Served(Rewritten(app(req, user)).(user := user))
  {
  }

  /** A request the backend answers with 401 or 403 never reaches the application; the client
      receives the backend's status and body and no `user` header. */
  lemma BlockedGetsBackendAnswer(cfg: Config, req: Request, backend: Request -> Response,
                                 app: (Request, Option<string>) -> AppResponse)
    requires cfg.Enabled? && !IsReserved(req.path)
    requires backend(Query(req)).status == 401 || backend(Query(req)).status == 403
    ensures var x := Handle(cfg, req, backend, app);
            var answer := backend(Query(req));
            && x.app == NotInvoked
            && x.outcome.Served?
            && x.outcome.response.status == answer.status
            && x.outcome.response.body == answer.body
            && x.outcome.response.user == None
  {
    var answer := backend(Query(req));
    var blocked := Response(answer.status, answer.contentType, None, answer.body);
    assert Interpret(answer) == Success(LoginRequired) || Interpret(answer) == Success(Denied);
    assert Handle(cfg, req, backend, app).outcome == Served(blocked);
  }

  /** No application cookie reaches the backend through the authorization query, and the
      backend's own cookies reach it all, in order. */
  lemma QueryForwardsOnlyAuthCookies(cfg: Config, req: Request, backend: Request -> Response,
                                     app: (Request, Option<string>) -> AppResponse)
    requires cfg.Enabled? && !IsReserved(req.path)
    ensures var sent := Handle(cfg, req, backend, app).backendCalls[0].request;
            && (sent.cookie == "" || forall p :: p in Cookies.Pairs(sent.cookie) ==> Cookies.IsAuthCookie(p))
            && Cookies.Keep(Cookies.Pairs(sent.cookie)) == Cookies.Keep(Cookies.Pairs(req.cookie))
  {
    QueryCookies(req);
  }

  /** A `user` header reaches the client only on a granted request, with the identity the
      application ran as; passthrough answers are the backend's own. */
  lemma UserHeaderOnlyWhenGranted(cfg: Config, req: Request, backend: Request -> Response,
                                  app: (Request, Option<string>) -> AppResponse)
    requires !IsReserved(req.path)
    ensures var x := Handle(cfg, req, backend, app);
            x.outcome.Served? && x.outcome.response.user.Some? ==>
              x.app == Invoked(x.outcome.response.user)
  {
    if cfg.Enabled? {
      var answer := backend(Query(req));
      match Interpret(answer)
      case Failure(_) =>
      case Success(Granted(user)) =>
      case Success(_) =>
    }
  }

  /** The tests' backend and application. */
  const TestUser := "foo@example.com"

  function Granting(user: Option<string>): Request -> Response {
    (q: Request) => Response(200, None, user, "")
  }

  function HtmlDoc(req: Request, remoteUser: Option<string>): AppResponse {
    AppResponse(200, Some("text/html"), ["<html><body><b>Hello World</body></html>"])
  }

  lemma FooBarQueryTarget(req: Request)
    requires req.path == "/foo/bar"
    ensures Query(req).path == "/wwwhisper/auth/api/is-authorized/?path=" + "/foo/bar"
  {
  }

  /** A backend that answers every query with `status` and `body`, no content type, no user. */
  function Answering(status: int, body: string): Request -> Response {
    (q: Request) => Response(status, None, None, body)
  }

  lemma HtmlDocServed(req: Request, user: Option<string>)
    ensures Rewritten(HtmlDoc(req, user)).status == 200
    ensures Mentions(Rewritten(HtmlDoc(req, user)).body, "Hello World")
    ensures ScriptReference(Rewritten(HtmlDoc(req, user)).body)
  {
    var body := "<html><body><b>Hello World</body></html>";
    assert HtmlDoc(req, user).chunks == [body];
    assert Concat([body]) == body;
    HtmlDocRewritten(body);
  }

  /** What happens to any unreserved request when the backend grants it to foo@example.com
      and the application is `html_doc`. */
  lemma GrantedHtmlDocExchange(cfg: Config, req: Request)
    requires cfg.Enabled? && !IsReserved(req.path)
    ensures var user := Some(TestUser);
            Handle(cfg, req, Granting(user), HtmlDoc)
              == Exchange([BackendCall(cfg.backendUrl, Query(req))], Invoked(user),
                          Served(Rewritten(HtmlDoc(req, user)).(user := user)))
  {
    var backend := Granting(Some(TestUser));
    assert backend(Query(req)) == Response(200, None, Some(TestUser), "");
    GrantedRunsAppAsUser(cfg, req, backend, HtmlDoc);
  }

  /** The 'request allowed' scenario: /foo/bar is queried as such, the application runs as
      foo@example.com and the client sees that user and the page. */
  lemma RequestAllowedScenario(cfg: Config, req: Request)
    requires cfg.Enabled? && req.path == "/foo/bar"
    ensures var x := Handle(cfg, req, Granting(Some(TestUser)), HtmlDoc);
            && x.backendCalls[0].request.path == "/wwwhisper/auth/api/is-authorized/?path=" + "/foo/bar"
            && x.app == Invoked(Some(TestUser))
            && x.outcome.Served?
            && x.outcome.response.status == 200
            && x.outcome.response.user == Some(TestUser)
            && Mentions(x.outcome.response.body, "Hello World")
  {
    FooBarQueryTarget(req);
    HtmlDocServed(req, Some(TestUser));
    GrantedHtmlDocExchange(cfg, req);
  }

  /** The 'auth query not sent for login request' scenario: the login page is fetched from the
      backend under its own path and the application does not run. */
  lemma LoginPagePassthroughScenario(cfg: Config, req: Request, backend: Request -> Response,
                                     app: (Request, Option<string>) -> AppResponse)
    requires cfg.Enabled? && req.path == "/wwwhisper/auth/api/login"
    requires backend(req) == Response(200, Some("text/plain"), None, "Login page")
    ensures var x := Handle(cfg, req, backend, app);
            && x.backendCalls == [BackendCall(cfg.backendUrl, req)]
            && x.app == NotInvoked
            && x.outcome == Served(Response(200, Some("text/plain"), None, "Login page"))
  {
    assert req.path[..|ReservedPrefix|] == ReservedPrefix;
  }

  /** The 'open location request allowed' scenario: the backend grants / without naming a user,
      so the application runs without a remote user and the client sees no `user` header. */
  lemma OpenLocationScenario(cfg: Config, req: Request)
    requires cfg.Enabled? && req.path == "/"
    ensures var x := Handle(cfg, req, Granting(None), HtmlDoc);
            && x.backendCalls[0].request.path == "/wwwhisper/auth/api/is-authorized/?path=" + "/"
            && x.app == Invoked(None)
            && x.outcome.Served?
            && x.outcome.response.status == 200
            && x.outcome.response.user == None
            && Mentions(x.outcome.response.body, "Hello World")
  {
    QueryTargetOfTestPaths(req);
    HtmlDocServed(req, None);
    var backend := Granting(None);
    assert backend(Query(req)) == Response(200, None, None, "");
    GrantedRunsAppAsUser(cfg, req, backend, HtmlDoc);
  }

  /** The 'login required' and 'request denied' scenarios: the backend's 401 or 403 answer,
      body included, is what the client receives, with no `user` header, and the application
      does not run. */
  lemma BlockedScenario(cfg: Config, req: Request, status: int, body: string,
                        app: (Request, Option<string>) -> AppResponse)
    requires cfg.Enabled? && req.path == "/foo/bar"
    requires status == 401 || status == 403
    ensures var x := Handle(cfg, req, Answering(status, body), app);
            && |x.backendCalls| == 1
            && x.app == NotInvoked
            && x.outcome == Served(Response(status, None, None, body))
  {
    FooBarQueryTarget(req);
    assert !IsReserved(req.path) by {
      assert req.path[1] != ReservedPrefix[1];
    }
    BlockedGetsBackendAnswer(cfg, req, Answering(status, body), app);
  }

  /** The 'iframe injected to html response' scenario: the granted HTML page reaches the client
      with its text and with a script element loading from the wwwhisper namespace. */
  lemma IframeInjectedScenario(cfg: Config, req: Request)
    requires cfg.Enabled? && !IsReserved(req.path)
    ensures var x := Handle(cfg, req, Granting(Some(TestUser)), HtmlDoc);
            && x.outcome.Served?
            && x.outcome.response.status == 200
            && Mentions(x.outcome.response.body, "Hello World")
            && ScriptReference(x.outcome.response.body)
  {
    HtmlDocServed(req, Some(TestUser));
    GrantedHtmlDocExchange(cfg, req);
  }

  /** The 'iframe injected to non-html response' scenario: whatever a granted application
      writes as text/plain reaches the client byte for byte. */
  lemma PlainTextServedVerbatim(cfg: Config, req: Request, backend: Request -> Response,
                                app: (Request, Option<string>) -> AppResponse)
    requires cfg.Enabled? && !IsReserved(req.path) && backend(Query(req)).status == 200
    requires forall r, u :: app(r, u).contentType == Some("text/plain")
    ensures var x := Handle(cfg, req, backend, app);
            var out := app(req, backend(Query(req)).user);
            && x.outcome.Served?
            && x.outcome.response.status == out.status
            && x.outcome.response.body == Concat(out.chunks)
  {
    var user := backend(Query(req)).user;
    GrantedRunsAppAsUser(cfg, req, backend, app);
    PlainTextUnchanged(app(req, user));
  }

  /** The 'disable wwwhisper' scenario: the backend is never asked and the page is served as
      the application wrote it. */
  lemma DisabledScenario(req: Request, backend: Request -> Response)
    ensures var x := Handle(Disabled, req, backend, HtmlDoc);
            && x.backendCalls == []
            && x.outcome.Served?
            && x.outcome.response.status == 200
            && Mentions(x.outcome.response.body, "Hello World")
  {
    var body := "<html><body><b>Hello World</body></html>";
    assert Concat([body]) == body;
    HtmlDocLayout(body);
  }

  /** The 'library version passed to wwwhisper' scenario: every authorization query announces
      the library's client agent. */
  lemma QueryAnnouncesClientAgent(cfg: Config, req: Request, backend: Request -> Response,
                                  app: (Request, Option<string>) -> AppResponse)
    requires cfg.Enabled? && !IsReserved(req.path)
    ensures Handle(cfg, req, backend, app).backendCalls[0].request.userAgent == "node-1.1.1"
  {
  }
}
