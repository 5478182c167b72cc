# connect-wwwhisper, modelled in Dafny

connect-wwwhisper is a Connect middleware that puts an application behind the wwwhisper
authorization service. For every incoming request the gateway does one of three things:

- when wwwhisper is disabled, it hands the request straight to the application;
- when the path is in the service's reserved `/wwwhisper/` namespace, it proxies the request
  verbatim to the auth backend;
- otherwise it sends the backend an authorization query for the path and follows the verdict.
  On 200 the application runs as the user the backend names, and its response is buffered and
  rewritten. HTML responses get a script from the wwwhisper namespace injected. On 401 or 403 the
  backend's answer goes to the client and the application never runs.

The behaviour is modelled after the repository's test suite, `test/connect-wwwhisper.js`. The
implementation file `lib/connect-wwwhisper.js` is not part of this model. Where the tests leave a
detail open, the model makes a choice, and each such choice is listed under "## Left out".

Modules, one file each:

- `Wrappers` (`wrappers.dfy`): `Option` and `Result`.
- `Text` (`text.dfy`): prefix and occurrence predicates and chunk concatenation.
- `Http` (`http.dfy`): requests, responses as the client sees them, and responses as the
  application writes them (status, content type, body chunks).
- `Cookies` (`cookies.dfy`): the cookie filter. A Cookie header is split on `;` and leading
  spaces are dropped from each pair. Only the `wwwhisper-` pairs are kept, in order, and joined
  again with `; `.
- `AuthClient` (`auth_client.dfy`): the reserved namespace, the authorization query (target,
  filtered cookies, client agent `node-1.1.1`), and the reading of the backend's status as a
  verdict.
- `Config` (`config.dfy`): startup from the `WWWHISPER_URL` and `WWWHISPER_DISABLE` settings.
- `Rewriter` (`rewriter.dfy`):
  - the pure rewrite (join the chunks, inject the script in front of the first `</body>` of an
    HTML document);
  - the `ResponseRewriter` class, which stands in for the application's response object and
    buffers head and chunks until the end;
  - `Pipe`, which plays an application response through it.
- `Gateway` (`gateway.dfy`):
  - `Handle`, the whole per-request decision as a function of the configuration, the request,
    the backend and the application;
  - `Serve`, the same decision carried out step by step through the rewriter;
  - the test scenarios as lemmas.

The backend and the application are function parameters. An `Exchange` records:

- every request sent to the backend;
- whether the application ran, and with which `remoteUser`;
- what the client received.

## Model

| member | source | states |
|---|---|---|
| Config.Startup | test/connect-wwwhisper.js:67-100 | startup fails exactly when neither setting is given, with an error naming both settings; a given URL always enables the gateway with that URL, even when the disable flag is set too (the suite never clears the flag it sets at line 90, and every later test expects an enabled gateway); the gateway is disabled exactly when the flag is given and the URL is not |
| Cookies.Split | test/connect-wwwhisper.js:286-287 | the header splits into at least one field, no field holds a `;`, and joining the fields with `;` gives the header back |
| Cookies.TrimStart | test/connect-wwwhisper.js:286-287 | the trimmed pair is the raw pair with exactly its leading spaces removed: a suffix that does not start with a space, and everything removed is a space |
| Cookies.Pairs | test/connect-wwwhisper.js:286-287 | the pairs are the `;`-separated fields of the header, one for one and in order, each without its leading spaces; there is at least one and none holds a `;` |
| Cookies.Keep | test/connect-wwwhisper.js:275-296 | keeps exactly the pairs that are auth cookies, never more pairs than it was given |
| Cookies.FilterEmpty | test/connect-wwwhisper.js:113 | a request without a Cookie header (modelled as `""`) forwards none |
| Cookies.KeepConcat | test/connect-wwwhisper.js:275-296 | filtering works pair by pair, so forwarded pairs keep the header's order |
| Cookies.PairsOfJoin | test/connect-wwwhisper.js:253-273 | parsing a header serialised from auth pairs gives those pairs back |
| Cookies.AuthPairsRoundTrip | test/connect-wwwhisper.js:253-273 | auth pairs serialised with `; ` parse back to themselves, all of them kept, and nothing but auth pairs |
| Cookies.Filter | test/connect-wwwhisper.js:253-296 | the forwarded header carries exactly the auth pairs of the client's header, in order, and every pair it carries is an auth pair |
| Cookies.FilterIdempotent | test/connect-wwwhisper.js:253-273 | filtering the forwarded header again changes nothing |
| Cookies.FilterFixesAuthOnlyHeader | test/connect-wwwhisper.js:253-273 | a header of auth pairs joined with `; ` is forwarded unchanged |
| Cookies.FilterDropsApplicationCookies | test/connect-wwwhisper.js:275-296 | the test's mixed header is forwarded as `wwwhisper-auth=xyz; wwwhisper-csrftoken=abc` |
| Cookies.FilterKeepsAuthOnlyHeader | test/connect-wwwhisper.js:253-273 | the test's auth-only header is forwarded as it is |
| AuthClient.IsReserved | test/connect-wwwhisper.js:231-251 | a path belongs to the auth backend exactly when it is `/wwwhisper/` followed by anything |
| AuthClient.QueriedPath | test/connect-wwwhisper.js:104-105 | a target is an authorization query exactly when it starts with the is-authorized prefix, and then it is that prefix followed by the queried path |
| AuthClient.Query | test/connect-wwwhisper.js:102-107 | the query asks about the request's own path, lies in the reserved namespace, and is a GET with the client agent `node-1.1.1` |
| AuthClient.QueryCookies | test/connect-wwwhisper.js:253-296 | the query carries exactly the request's auth cookies, in order, and no other cookie |
| AuthClient.QueryTargetOfTestPaths | test/connect-wwwhisper.js:123-128 | for `/foo/bar` and `/` the target is `/wwwhisper/auth/api/is-authorized/?path=` followed by the path, with agent `node-1.1.1` |
| AuthClient.Interpret | test/connect-wwwhisper.js:21-43 | 200 grants access as the `User` header's identity (none for an open location), 401 asks for login, 403 denies; every other status is an error naming it; each in both directions |
| AuthClient.InterpretStatusRoundTrip | test/connect-wwwhisper.js:21-43 | a verdict is read from an answer exactly when the answer carries the status that announces that verdict (and, for a grant, its identity) |
| Rewriter.IsHtml | test/connect-wwwhisper.js:179-209 | a content type announces HTML exactly when it is `text/html` followed by anything (parameters such as a charset) |
| Rewriter.TestContentTypes | test/connect-wwwhisper.js:193-209 | `text/html` is HTML; `text/plain` and a missing content type are not |
| Rewriter.FindFrom | test/connect-wwwhisper.js:179-191 | finds the first occurrence of a pattern at or after a position, or reports that there is none |
| Rewriter.Inject | test/connect-wwwhisper.js:179-191 | the script goes in front of the first closing body tag; a document without one is left as it is |
| Rewriter.InsertBeforeFirst | test/connect-wwwhisper.js:179-191 | the inserted text goes in front of the first occurrence of the pattern, and the body is unchanged when there is none |
| Rewriter.Rewrite | test/connect-wwwhisper.js:179-209 | a non-HTML body is delivered unchanged; any `text/html…` body goes through `Inject`, so it gains the script before its first `</body>`; either way the body is unchanged or gains exactly one snippet and nothing else |
| Rewriter.Rewritten | test/connect-wwwhisper.js:179-229 | the client receives the application's status and content type with no `user` header; a non-HTML response arrives exactly as written, and an HTML one has the script injected into its joined chunks |
| Rewriter.NoTagNoInjection | test/connect-wwwhisper.js:212-229 | a document without `<` is delivered unchanged |
| Rewriter.InjectionReferencesScript | test/connect-wwwhisper.js:188 | after injection the body matches `<script.*src="\/wwwhisper` |
| Rewriter.InjectionKeepsText | test/connect-wwwhisper.js:187 | text without `<` stays in the rewritten document: in place when the document has no closing body tag or the text lies before the first one, shifted by the script's length when it lies after |
| Rewriter.InjectionKeepsMention | test/connect-wwwhisper.js:187 | text without `<` that the document mentions is still mentioned after injection |
| Rewriter.HtmlDocRewritten | test/connect-wwwhisper.js:179-191 | the rewritten `html_doc` page still mentions `Hello World` and references the wwwhisper script |
| Rewriter.CombinedChunksUnchanged | test/connect-wwwhisper.js:212-229 | the chunks `abc`, `def`, `ghi` written as text/html reach the client as `abcdefghi` |
| Rewriter.PlainTextUnchanged | test/connect-wwwhisper.js:193-209 | a text/plain response reaches the client exactly as written, even when it looks like HTML |
| Rewriter.ResponseRewriter.constructor | test/connect-wwwhisper.js:212-220 | a fresh rewriter holds the default head and no chunks |
| Rewriter.ResponseRewriter.WriteHead | test/connect-wwwhisper.js:215 | the head is captured, not sent, and only before anything was written |
| Rewriter.ResponseRewriter.Write | test/connect-wwwhisper.js:216-218 | each chunk is appended to the buffer in order and nothing is sent; a write after the end is refused |
| Rewriter.ResponseRewriter.End | test/connect-wwwhisper.js:219 | the first end flushes the rewritten response of everything captured, the last chunk included; a second end flushes nothing |
| Rewriter.Pipe | test/connect-wwwhisper.js:212-229 | playing the head, every chunk in order and the end through a rewriter flushes exactly the rewritten response |
| Gateway.Handle | test/connect-wwwhisper.js:102-251 | a disabled gateway calls no backend and serves the application's own response; a reserved path is proxied verbatim and the application never runs; any other request costs one authorization query (exactly one, a modelling choice); the application runs exactly when disabled or granted, as the backend's user |
| Gateway.Serve | test/connect-wwwhisper.js:50-57 | the middleware, run step by step with the rewriter, produces exactly the Exchange `Handle` describes |
| Gateway.GrantedRunsAppAsUser | test/connect-wwwhisper.js:102-121 | a granted request runs the application as the backend's `User` and the client gets the rewritten page with that same `user` header |
| Gateway.BlockedGetsBackendAnswer | test/connect-wwwhisper.js:145-177 | on 401 or 403 the application does not run and the client gets the backend's status and body with no `user` header |
| Gateway.QueryForwardsOnlyAuthCookies | test/connect-wwwhisper.js:253-296 | the request sent to the backend carries only auth cookies, and all the client's auth cookies in order |
| Gateway.UserHeaderOnlyWhenGranted | test/connect-wwwhisper.js:113-177 | for a path outside the reserved namespace, a `user` header reaches the client only on a granted request, and names the user the application ran as |
| Gateway.FooBarQueryTarget | test/connect-wwwhisper.js:103-105 | the query for `/foo/bar` targets `/wwwhisper/auth/api/is-authorized/?path=/foo/bar` |
| Gateway.HtmlDocServed | test/connect-wwwhisper.js:45-48 | the rewritten `html_doc` page has status 200, mentions `Hello World` and references the wwwhisper script |
| Gateway.GrantedHtmlDocExchange | test/connect-wwwhisper.js:102-121 | with a backend that grants `foo@example.com`, an unreserved request costs one query, runs `html_doc` as that user and serves its rewritten page with that `user` header |
| Gateway.RequestAllowedScenario | test/connect-wwwhisper.js:102-121 | `/foo/bar` is queried as such, the application runs as `foo@example.com`, and the client gets 200, that `user` header and the page |
| Gateway.OpenLocationScenario | test/connect-wwwhisper.js:123-143 | `/` is queried as such, the application runs without a remote user, and the client gets 200, no `user` header and the page |
| Gateway.BlockedScenario | test/connect-wwwhisper.js:145-177 | with a 401 or 403 backend, one query is sent, the application does not run, and the client gets exactly the backend's status and body |
| Gateway.IframeInjectedScenario | test/connect-wwwhisper.js:179-191 | the granted HTML page reaches the client with status 200, its text, and a script reference into the wwwhisper namespace |
| Gateway.PlainTextServedVerbatim | test/connect-wwwhisper.js:193-209 | a granted text/plain response reaches the client with the application's status and exactly its body |
| Gateway.DisabledScenario | test/connect-wwwhisper.js:88-100 | a disabled gateway sends nothing to the backend and serves the page with status 200 |
| Gateway.LoginPagePassthroughScenario | test/connect-wwwhisper.js:231-251 | the login page is fetched from the backend under its own path, with no authorization query and no application run |
| Gateway.QueryAnnouncesClientAgent | test/connect-wwwhisper.js:298-310 | every authorization query carries the client agent `node-1.1.1` |

## Left out

- `lib/connect-wwwhisper.js` is not part of this model. The model follows the behaviour its
  test suite asserts.
- `Rewriter.Inject` leaves an HTML document without `</body>` unchanged, an empty one included.
  Appending the script at the end is ruled out by `test/connect-wwwhisper.js:212-229`, which
  expects the text/html chunks `abc`, `def`, `ghi` back as exactly `abcdefghi`.
- The exact script text and its position in front of the first `</body>` are modelling choices.
  The tests only require a `<script … src="/wwwhisper…` reference and the original text.
- The HTTP servers, ports, the Connect chain and the `request` client are left out. The
  application and the backend are function parameters, and so are the process environment
  variables, which `Config.Startup` takes as arguments.
- Asynchrony and concurrency are left out. Each request is one synchronous Exchange.
- Network failures are left out, and so is what the client receives when the backend answers with
  a status other than 200, 401 or 403. The model stops at `Failed(UnexpectedBackendStatus)`.
- The following are left out:
  - percent-encoding of the queried path (the path is appended as is);
  - `Content-Length` and other headers besides content type and `user`;
  - request bodies;
  - the reserved-namespace proxy's own header handling (the backend's answer is passed through
    as a whole).
- Cookies.TrimStart: drops only leading spaces from a cookie pair. Trailing whitespace and tabs
  are kept, because the tests exercise only the `; ` separator.
- Gateway.Handle: sends exactly one authorization query per unreserved request. This is a
  modelling choice: the suite's call counter (line 13) is never reset, so its checks (lines 17-19)
  show only that the backend was called at least once so far.
- Gateway.Handle: a 401 or 403 answer reaches the client without any `User` header the backend may
  have set. This is a modelling choice; the suite's blocking backends (lines 27-37) set no such
  header, and the tests check only that none arrives (lines 156, 173).
- Rewriter.IsHtml: the content-type test is a case-sensitive prefix test on `text/html`, so
  `Text/HTML` is not rewritten. This is a modelling choice; the tests use only `text/html`.
- Cookies.Filter: re-serialises the kept pairs with `; `, whatever separator the client used
  (`a;b` is forwarded as `a; b`). This is a modelling choice; the tests use only `; `.
- Rewriter.ResponseRewriter.WriteHead: a head written after the first chunk is refused and changes
  nothing. Node's response object raises an error there instead; the model does not capture it.
- Rewriter.ResponseRewriter.Write: a write after the end is refused and changes nothing. Node's
  response object raises an error there instead; the model does not capture it.
- Config.Startup: treats an empty setting like a missing one. The tests only set or delete the
  settings, so this reading of an empty value is a choice.
