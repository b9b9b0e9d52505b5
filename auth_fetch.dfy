/** `authFetch`: one request to the backend with a bearer token, and on a 401
    a single refresh-and-retry cycle. The backend's replies are given as a
    script; what the client sends (requests, refresh posts, redirects) is
    recorded in a trace. */
module AuthFetch {
  import opened Common
  import opened Auth

  const BaseUrl: string := "http://localhost:8080"
  const RefreshPath: string := "/auth/refresh"
  const LoginPage: string := "/login"
  const AuthorizationHeader: string := "Authorization"
  const ContentTypeHeader: string := "Content-Type"
  const Json: string := "application/json"

  /** A request body: none, a serialised JSON string, or a `FormData`
      (multipart) payload given by its fields. */
  datatype Body = NoBody | JsonText(text: string) | FormData(fields: seq<(string, string)>)

  /** The caller's `RequestInit`. */
  datatype RequestInit = RequestInit(verb: Option<string>, headers: map<string, string>, body: Body)

  /** A request as it leaves the client. */
  datatype Request = Request(url: string, verb: Option<string>, headers: map<string, string>, body: Body)

  /** The reply to one `fetch`: a status, or a rejected promise. */
  datatype Reply = NetworkFailure | Status(code: int)

  /** A parsed refresh reply body; `None` for a field that is absent. */
  datatype RefreshBody = NotJson | TokenJson(accessToken: Option<string>, refreshToken: Option<string>)

  datatype RefreshReply = RefreshUnreachable | RefreshStatus(code: int, body: RefreshBody)

  /** What the backend will answer, in the order the client asks. */
  datatype Script = Script(first: Reply, refresh: RefreshReply, retry: Reply)

  datatype Failure =
    | NotLoggedIn          // 401 and no refresh token
    | RefreshRejected      // the refresh endpoint answered non-OK
    | StillUnauthorized    // the retry answered 401 again
    | Forbidden            // 403
    | TransportError       // a fetch rejected
    | MalformedRefreshBody // the refresh reply was not JSON

  datatype Outcome = Returned(status: int) | Thrown(failure: Failure)

  /** Everything the call sent: requests through `makeRequest`, refresh tokens
      posted to the refresh endpoint, and client redirects. */
  datatype Trace = Trace(requests: seq<Request>, refreshPosts: seq<string>, redirects: seq<string>)

  datatype Run = Run(outcome: Outcome, trace: Trace, storage: map<string, string>)

  /** `response.ok`. */
  predicate IsOk(code: int) {
    200 <= code <= 299
  }

  /** How `setItem` stores a value that may be `undefined`. */
  function Stringified(v: Option<string>): string {
    if v.Some? then v.value else "undefined"
  }

  /** The headers `makeRequest` builds: Authorization first, then the caller's
      headers (which may override it), then a forced JSON content type unless
      the body is a `FormData`. */
  function Headers(accessToken: string, init: RequestInit): (h: map<string, string>)
    ensures AuthorizationHeader in h
    ensures h[AuthorizationHeader] ==
      if AuthorizationHeader in init.headers then init.headers[AuthorizationHeader] else "Bearer " + accessToken
    ensures !init.body.FormData? ==> ContentTypeHeader in h && h[ContentTypeHeader] == Json
    ensures init.body.FormData? ==> Lookup(h, ContentTypeHeader) == Lookup(init.headers, ContentTypeHeader)
    ensures forall k :: k != AuthorizationHeader && k != ContentTypeHeader ==> Lookup(h, k) == Lookup(init.headers, k)
  {
    var h := map[AuthorizationHeader := "Bearer " + accessToken] + init.headers;
    if init.body.FormData? then h else h[ContentTypeHeader := Json]
  }

  /** `makeRequest(accessToken)`. */
  function MakeRequest(url: string, init: RequestInit, accessToken: string): Request {
    Request(BaseUrl + url, init.verb, Headers(accessToken, init), init.body)
  }

  /** The final 403 check, reached with the first response or the retry's. */
  function Finish(status: int, trace: Trace, storage: map<string, string>): Run {
    if status == 403 then Run(Thrown(Forbidden), trace, storage) else Run(Returned(status), trace, storage)
  }

  /** The policy as a function of the stored tokens and the backend's script. */
  function Policy(storage: map<string, string>, url: string, init: RequestInit, script: Script): Run {
    var stored := Lookup(storage, AccessKey);
    var first := MakeRequest(url, init, if Truthy(stored) then stored.value else "");
    var t1 := Trace([first], [], []);
    match script.first
    case NetworkFailure => Run(Thrown(TransportError), t1, storage)
    case Status(code) =>
      if code != 401 then Finish(code, t1, storage)
      else
        var refreshToken := Lookup(storage, RefreshKey);
        if !Truthy(refreshToken) then Run(Thrown(NotLoggedIn), t1, WithoutTokens(storage))
        else
          var t2 := t1.(refreshPosts := [refreshToken.value]);
          match script.refresh
          case RefreshUnreachable => Run(Thrown(TransportError), t2, storage)
          case RefreshStatus(rc, body) =>
            if !IsOk(rc) then Run(Thrown(RefreshRejected), t2.(redirects := [LoginPage]), WithoutTokens(storage))
            else if body.NotJson? then Run(Thrown(MalformedRefreshBody), t2, storage)
            else
              var access := Stringified(body.accessToken);
              var renewed := WithTokens(storage, access, Stringified(body.refreshToken));
              var t3 := t2.(requests := [first, MakeRequest(url, init, access)]);
              match script.retry
              case NetworkFailure => Run(Thrown(TransportError), t3, renewed)
              case Status(code2) =>
                if code2 == 401 then Run(Thrown(StillUnauthorized), t3.(redirects := [LoginPage]), WithoutTokens(renewed))
                else Finish(code2, t3, renewed)
  }

  /** `authFetch(url, init)` against the token store and the scripted backend. */
  method Fetch(store: TokenStore, url: string, init: RequestInit, script: Script) returns (outcome: Outcome, trace: Trace)
    modifies store
    ensures Run(outcome, trace, store.storage) == Policy(old(store.storage), url, init, script)
  {
    var stored := store.GetAccessToken();
    var token := if Truthy(stored) then stored.value else "";
    var first := MakeRequest(url, init, token);
    trace := Trace([first], [], []);
    var response := script.first;
    if response.NetworkFailure? {
      outcome := Thrown(TransportError);
      return;
    }
    if response.code == 401 {
      var refreshToken := store.GetRefreshToken();
      if !Truthy(refreshToken) {
        store.ClearTokens();
        outcome := Thrown(NotLoggedIn);
        return;
      }
      trace := trace.(refreshPosts := trace.refreshPosts + [refreshToken.value]);
      var refreshRes := script.refresh;
      if refreshRes.RefreshUnreachable? {
        outcome := Thrown(TransportError);
        return;
      }
      if !IsOk(refreshRes.code) {
        store.ClearTokens();
        trace := trace.(redirects := trace.redirects + [LoginPage]);
        outcome := Thrown(RefreshRejected);
        return;
      }
      if refreshRes.body.NotJson? {
        outcome := Thrown(MalformedRefreshBody);
        return;
      }
      var access := Stringified(refreshRes.body.accessToken);
      store.SetTokens(access, Stringified(refreshRes.body.refreshToken));
      trace := trace.(requests := trace.requests + [MakeRequest(url, init, access)]);
      response := script.retry;
      if response.NetworkFailure? {
        outcome := Thrown(TransportError);
        return;
      }
      if response.code == 401 {
        store.ClearTokens();
        trace := trace.(redirects := trace.redirects + [LoginPage]);
        outcome := Thrown(StillUnauthorized);
        return;
      }
    }
    if response.code == 403 {
      outcome := Thrown(Forbidden);
      return;
    }
    outcome := Returned(response.code);
  }

  // -----------------------------------------------------------------------
  // Properties of the policy

  /** The stored access token, or the empty string, goes out as the bearer
      token of the first request, which is always sent. */
  lemma FirstRequestCarriesStoredToken(storage: map<string, string>, url: string, init: RequestInit, script: Script)
    requires AuthorizationHeader !in init.headers
    ensures var run := Policy(storage, url, init, script);
      && 1 <= |run.trace.requests|
      && run.trace.requests[0].url == BaseUrl + url
      && run.trace.requests[0].headers[AuthorizationHeader] ==
         "Bearer " + (if Truthy(Lookup(storage, AccessKey)) then storage[AccessKey] else "")
  {
  }

  /** A first answer other than 401 and 403 is handed back unchanged, with no
      refresh and no change to the store. */
  lemma PassThrough(storage: map<string, string>, url: string, init: RequestInit, script: Script)
    requires script.first.Status? && script.first.code != 401 && script.first.code != 403
    ensures var run := Policy(storage, url, init, script);
      && run.outcome == Returned(script.first.code)
      && |run.trace.requests| == 1 && run.trace.refreshPosts == [] && run.trace.redirects == []
      && run.storage == storage
  {
  }

  /** A 401 with no refresh token clears the pair and fails without calling
      the refresh endpoint. */
  lemma MissingRefreshTokenShortCircuits(storage: map<string, string>, url: string, init: RequestInit, script: Script)
    requires script.first == Status(401) && !Truthy(Lookup(storage, RefreshKey))
    ensures var run := Policy(storage, url, init, script);
      && run.outcome == Thrown(NotLoggedIn)
      && run.trace.refreshPosts == [] && |run.trace.requests| == 1
      && run.storage == WithoutTokens(storage)
  {
  }

  /** A 401 with a refresh token posts exactly that token once; a non-OK
      answer clears the pair, redirects to the login page and fails. */
  lemma RejectedRefreshLogsOut(storage: map<string, string>, url: string, init: RequestInit, script: Script)
    requires script.first == Status(401) && Truthy(Lookup(storage, RefreshKey))
    requires script.refresh.RefreshStatus? && !IsOk(script.refresh.code)
    ensures var run := Policy(storage, url, init, script);
      && run.outcome == Thrown(RefreshRejected)
      && run.trace.refreshPosts == [storage[RefreshKey]]
      && run.trace.redirects == [LoginPage]
      && run.storage == WithoutTokens(storage)
  {
  }

  /** After a successful refresh the new pair is stored and the original
      request is sent again exactly once, with the new access token. */
  lemma RetryUsesRenewedToken(storage: map<string, string>, url: string, init: RequestInit, script: Script,
                              access: string, refresh: string)
    requires script.first == Status(401) && Truthy(Lookup(storage, RefreshKey))
    requires script.refresh.RefreshStatus? && IsOk(script.refresh.code)
    requires script.refresh.body == TokenJson(Some(access), Some(refresh))
    requires script.retry.Status? && script.retry.code != 401
    requires AuthorizationHeader !in init.headers
    ensures var run := Policy(storage, url, init, script);
      && |run.trace.requests| == 2
      && run.trace.requests[1].url == run.trace.requests[0].url
      && run.trace.requests[1].body == init.body
      && run.trace.requests[1].headers[AuthorizationHeader] == "Bearer " + access
      && run.storage == WithTokens(storage, access, refresh)
      && run.outcome == (if script.retry.code == 403 then Thrown(Forbidden) else Returned(script.retry.code))
  {
  }

  /** A retry that is still unauthorised clears the pair, redirects and
      fails; there is no third request. */
  lemma SecondUnauthorizedGivesUp(storage: map<string, string>, url: string, init: RequestInit, script: Script)
    requires script.first == Status(401) && Truthy(Lookup(storage, RefreshKey))
    requires script.refresh.RefreshStatus? && IsOk(script.refresh.code) && script.refresh.body.TokenJson?
    requires script.retry == Status(401)
    ensures var run := Policy(storage, url, init, script);
      && run.outcome == Thrown(StillUnauthorized)
      && |run.trace.requests| == 2 && |run.trace.refreshPosts| == 1
      && run.trace.redirects == [LoginPage]
      && Lookup(run.storage, AccessKey) == None && Lookup(run.storage, RefreshKey) == None
  {
  }

  /** Whatever the backend answers, a call sends at most two requests, posts
      at most one refresh, and a second request only follows a refresh. */
  lemma RetryBound(storage: map<string, string>, url: string, init: RequestInit, script: Script)
    ensures var run := Policy(storage, url, init, script);
      && 1 <= |run.trace.requests| <= 2
      && |run.trace.refreshPosts| <= 1
      && |run.trace.redirects| <= 1
      && (|run.trace.requests| == 2 ==> |run.trace.refreshPosts| == 1)
  {
  }

  /** A 403 on the first request fails with "forbidden" without refreshing and
      without touching the store. */
  lemma ForbiddenNeverRefreshes(storage: map<string, string>, url: string, init: RequestInit, script: Script)
    requires script.first == Status(403)
    ensures var run := Policy(storage, url, init, script);
      && run.outcome == Thrown(Forbidden)
      && run.trace.refreshPosts == [] && |run.trace.requests| == 1
      && run.storage == storage
  {
  }

  /** Every authentication failure (not logged in, refresh rejected, still
      unauthorised after the refresh) leaves no token stored; a forbidden
      answer never clears the tokens. */
  lemma AuthFailuresClearTokens(storage: map<string, string>, url: string, init: RequestInit, script: Script)
    ensures var run := Policy(storage, url, init, script);
      && (run.outcome in {Thrown(NotLoggedIn), Thrown(RefreshRejected), Thrown(StillUnauthorized)} ==>
            Lookup(run.storage, AccessKey) == None && Lookup(run.storage, RefreshKey) == None)
      && (run.outcome == Thrown(Forbidden) ==>
            run.storage == storage || exists a, r :: run.storage == WithTokens(storage, a, r))
  {
  }

  /** A `FormData` body goes out without the forced JSON content type (only a
      content type the caller put in the headers survives); any other body
      goes out as JSON. */
  lemma FormDataKeepsCallerContentType(url: string, init: RequestInit, token: string)
    ensures init.body.FormData? && ContentTypeHeader !in init.headers ==>
      ContentTypeHeader !in MakeRequest(url, init, token).headers
    ensures !init.body.FormData? ==> MakeRequest(url, init, token).headers[ContentTypeHeader] == Json
  {
    var h := Headers(token, init);
    assert Lookup(h, ContentTypeHeader).None? <==> ContentTypeHeader !in h;
  }
}
