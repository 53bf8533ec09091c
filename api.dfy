/** The API client: requests carry the JSON content type and, when a token
    is stored, a bearer token; a 401 answer wipes the session; `login` admits
    contractors only; `logout` always ends with the session wiped; a failed
    refresh wipes the session. `fetch` is an input: the reply it gives. */
module Api {
  import opened Common
  import opened Text
  import opened Storage

  const CONTENT_TYPE := "Content-Type"
  const AUTHORIZATION := "Authorization"
  const JSON_MEDIA_TYPE := "application/json"
  const DEFAULT_ERROR := "An error occurred"
  const CONTRACTOR_ONLY := "This app is only available for contractors. Please use the web app."

  const LOGIN_PATH := "/api/auth/login"
  const LOGOUT_PATH := "/api/auth/logout"
  const REFRESH_PATH := "/api/auth/refresh"
  const ME_PATH := "/api/users/me"
  const HEALTH_PATH := "/health"

  /** The body of a reply: text that is not JSON, or JSON with an optional
      `message` and the fields the endpoint's declared response type has. */
  datatype Json<+T> = Unparsable(reason: string) | Parsed(message: Option<string>, payload: T)

  /** What `fetch` gives: a rejection (no answer), or an answer. */
  datatype Reply<+T> = NetworkFailure(reason: string) | Response(status: int, json: Json<T>)

  /** The request handed to `fetch`; `verb` is the method given in the options. */
  datatype Request = Request(verb: Option<string>, url: string, headers: map<string, string>)

  datatype LoginPayload = LoginPayload(token: string, user: User)

  datatype Session = Session(user: User, token: string)

  /** `response.ok`. */
  predicate IsOk(status: int)
  {
    200 <= status <= 299
  }

  /** The headers of a request made with caller headers `caller` while the
      token read gives `token`: the JSON content type unless the caller set
      one, every caller header, and a bearer token when the token is truthy,
      overriding the caller's. */
  ghost predicate HeadersFor(h: map<string, string>, caller: map<string, string>, token: Option<string>)
  {
    && (forall k :: k in h <==> k in caller || k == CONTENT_TYPE || (k == AUTHORIZATION && Truthy(token)))
    && CONTENT_TYPE in h
    && h[CONTENT_TYPE] == (if CONTENT_TYPE in caller then caller[CONTENT_TYPE] else JSON_MEDIA_TYPE)
    && (Truthy(token) ==> AUTHORIZATION in h && h[AUTHORIZATION] == "Bearer " + token.value)
    && (forall k :: k in caller && k != CONTENT_TYPE && !(k == AUTHORIZATION && Truthy(token)) ==> k in h && h[k] == caller[k])
  }

  /** `HeadersFor` determines the headers. */
  lemma HeadersForUnique(h1: map<string, string>, h2: map<string, string>, caller: map<string, string>, token: Option<string>)
    requires HeadersFor(h1, caller, token) && HeadersFor(h2, caller, token)
    ensures h1 == h2
  {
    assert h1.Keys == h2.Keys;
    forall k | k in h1 ensures h1[k] == h2[k] {
      if k == CONTENT_TYPE {
      } else if k == AUTHORIZATION && Truthy(token) {
      } else {
        assert k in caller;
      }
    }
  }

  /** Fills the header dictionary as the client does, content type first. */
  method BuildHeaders(caller: map<string, string>, token: Option<string>) returns (headers: map<string, string>)
    ensures HeadersFor(headers, caller, token)
  {
    headers := map[CONTENT_TYPE := JSON_MEDIA_TYPE] + caller;
    if Truthy(token) {
      headers := headers[AUTHORIZATION := "Bearer " + token.value];
    }
  }

  /** How a reply settles the request: the parsed body of a 2xx answer, or
      the error that is thrown. A non-2xx answer throws the body's message (or
      a default) with the status; a network failure and a body that is not
      JSON throw errors without a status. */
  function Settle<T>(reply: Reply<T>): (r: Result<T, Thrown>)
    ensures r.Success? <==> reply.Response? && IsOk(reply.status) && reply.json.Parsed?
    ensures r.Success? ==> r.value == reply.json.payload
    ensures reply.Response? && !IsOk(reply.status) && reply.json.Parsed? ==>
      r == Failure(Thrown(None, Some(if Truthy(reply.json.message) then reply.json.message.value else DEFAULT_ERROR), Some(reply.status)))
    ensures r.Failure? && r.error.statusCode.Some? ==>
      reply.Response? && reply.json.Parsed? && !IsOk(reply.status) && r.error.statusCode.value == reply.status
  {
    match reply
    case NetworkFailure(reason) => Failure(Thrown(Some("TypeError"), Some(reason), None))
    case Response(status, Unparsable(reason)) => Failure(Thrown(Some("SyntaxError"), Some(reason), None))
    case Response(status, Parsed(message, payload)) =>
      if IsOk(status) then Success(payload)
      else Failure(Thrown(None, Some(if Truthy(message) then message.value else DEFAULT_ERROR), Some(status)))
  }

  predicate Unauthorized<T>(r: Result<T, Thrown>)
  {
    r.Failure? && r.error.statusCode == Some(401)
  }

  /** The body is read before the status is checked, so a 401 whose body is
      not JSON throws a parse error without a status and leaves the session. */
  lemma UnparsableUnauthorizedKeepsSession(reason: string)
    ensures !Unauthorized(Settle<()>(Response(401, Unparsable(reason))))
    ensures Unauthorized(Settle<()>(Response(401, Parsed(None, ()))))
  {
  }

  /** `apiRequest`: builds the request, settles it, and on a 401 clears the
      session before the error is rethrown. */
  method ApiRequest<T>(store: SessionStore, apiUrl: string, endpoint: string, verb: Option<string>,
                       caller: map<string, string>, reply: Reply<T>)
    returns (request: Request, r: Result<T, Thrown>)
    modifies store`secure, store`general
    ensures request.verb == verb && request.url == apiUrl + endpoint
    ensures HeadersFor(request.headers, caller, old(store.GetToken()))
    ensures r == Settle(reply)
    ensures Unauthorized(r) ==> store.ClearedFrom(old(store.secure), old(store.general))
    ensures !Unauthorized(r) ==> store.secure == old(store.secure) && store.general == old(store.general)
  {
    var token := store.GetToken();
    var headers := BuildHeaders(caller, token);
    request := Request(verb, apiUrl + endpoint, headers);
    r := Settle(reply);
    if Unauthorized(r) {
      store.ClearAuth();
    }
  }

  /** `login`: stores token and profile, then admits contractors only. */
  method Login(store: SessionStore, apiUrl: string, reply: Reply<LoginPayload>)
    returns (request: Request, r: Result<Session, Thrown>)
    modifies store`secure, store`general
    ensures request.verb == Some("POST") && request.url == apiUrl + LOGIN_PATH
    ensures HeadersFor(request.headers, map[], old(store.GetToken()))
    // The request fails: rethrown as is, the session cleared on a 401 only.
    ensures Settle(reply).Failure? ==> r == Failure(Settle(reply).error)
    ensures Settle(reply).Failure? && Unauthorized(r) ==> store.ClearedFrom(old(store.secure), old(store.general))
    ensures Settle(reply).Failure? && !Unauthorized(r) ==>
      store.secure == old(store.secure) && store.general == old(store.general)
    // The token cannot be stored.
    ensures Settle(reply).Success? && store.faults.tokenSet ==>
      r == Failure(ErrorObject(TOKEN_WRITE_ERROR)) && store.secure == old(store.secure) && store.general == old(store.general)
    // The token is stored, the profile cannot be.
    ensures Settle(reply).Success? && !store.faults.tokenSet && store.faults.userSet ==>
      r == Failure(ErrorObject(USER_WRITE_ERROR)) &&
      store.secure == old(store.secure)[TOKEN_KEY := reply.json.payload.token] && store.general == old(store.general)
    // Both are stored; then the role decides.
    ensures Settle(reply).Success? && !store.faults.tokenSet && !store.faults.userSet ==>
      var p := reply.json.payload;
      var s1 := old(store.secure)[TOKEN_KEY := p.token];
      var g1 := old(store.general)[USER_KEY := store.codec.stringify(p.user)];
      if p.user.role == CONTRACTOR then
        r == Success(Session(p.user, p.token)) && store.secure == s1 && store.general == g1
      else
        r == Failure(Thrown(None, Some(CONTRACTOR_ONLY), None)) && store.ClearedFrom(s1, g1)
    ensures r.Success? ==> r.value.user.role == CONTRACTOR
    ensures r.Success? && !store.faults.tokenGet ==> store.GetToken() == Some(r.value.token)
    ensures r == Failure(Thrown(None, Some(CONTRACTOR_ONLY), None)) && !store.faults.tokenDelete ==>
      store.GetToken() == None
  {
    var response;
    request, response := ApiRequest(store, apiUrl, LOGIN_PATH, Some("POST"), map[], reply);
    if response.Failure? {
      return request, Failure(response.error);
    }
    var p := response.value;
    var stored := store.SetToken(p.token);
    if stored.Fail? {
      return request, Failure(stored.error);
    }
    stored := store.SetUser(p.user);
    if stored.Fail? {
      return request, Failure(stored.error);
    }
    if p.user.role != CONTRACTOR {
      store.ClearAuth();
      return request, Failure(Thrown(None, Some(CONTRACTOR_ONLY), None));
    }
    r := Success(Session(p.user, p.token));
  }

  /** `logout`: the remote call's failure is swallowed and the session is
      always cleared afterwards. */
  method Logout<T>(store: SessionStore, apiUrl: string, reply: Reply<T>) returns (request: Request)
    modifies store`secure, store`general
    ensures request.verb == Some("POST") && request.url == apiUrl + LOGOUT_PATH
    ensures HeadersFor(request.headers, map[], old(store.GetToken()))
    ensures store.ClearedFrom(old(store.secure), old(store.general))
    ensures !store.faults.tokenDelete ==> store.GetToken() == None
    ensures !store.faults.refreshDelete ==> store.GetRefreshToken() == None
    ensures !store.faults.userDelete ==> store.GetUser() == None
  {
    var response;
    request, response := ApiRequest(store, apiUrl, LOGOUT_PATH, Some("POST"), map[], reply);
    ghost var s0, g0 := old(store.secure), old(store.general);
    store.ClearAuth();
    ClearIdempotent(s0, g0, store.faults);
  }

  /** `refreshToken`: stores and returns the new token; any failure clears
      the session and is rethrown. */
  method RefreshToken(store: SessionStore, apiUrl: string, reply: Reply<string>)
    returns (request: Request, r: Result<string, Thrown>)
    modifies store`secure, store`general
    ensures request.verb == Some("POST") && request.url == apiUrl + REFRESH_PATH
    ensures HeadersFor(request.headers, map[], old(store.GetToken()))
    ensures Settle(reply).Failure? ==> r == Settle(reply)
    ensures Settle(reply).Success? && store.faults.tokenSet ==> r == Failure(ErrorObject(TOKEN_WRITE_ERROR))
    ensures Settle(reply).Success? && !store.faults.tokenSet ==>
      r == Success(reply.json.payload) &&
      store.secure == old(store.secure)[TOKEN_KEY := reply.json.payload] && store.general == old(store.general)
    ensures r.Failure? ==> store.ClearedFrom(old(store.secure), old(store.general))
    ensures r.Success? && !store.faults.tokenGet ==> store.GetToken() == Some(r.value)
  {
    var response;
    request, response := ApiRequest(store, apiUrl, REFRESH_PATH, Some("POST"), map[], reply);
    ghost var s0, g0 := old(store.secure), old(store.general);
    if response.Failure? {
      store.ClearAuth();
      ClearIdempotent(s0, g0, store.faults);
      return request, response;
    }
    var stored := store.SetToken(response.value);
    if stored.Fail? {
      store.ClearAuth();
      return request, Failure(stored.error);
    }
    r := Success(response.value);
  }

  /** `getMe`: fetches the profile and caches it. */
  method GetMe(store: SessionStore, apiUrl: string, reply: Reply<User>)
    returns (request: Request, r: Result<User, Thrown>)
    modifies store`secure, store`general
    ensures request.verb == None && request.url == apiUrl + ME_PATH
    ensures HeadersFor(request.headers, map[], old(store.GetToken()))
    ensures Settle(reply).Failure? ==> r == Settle(reply)
    ensures Settle(reply).Failure? && Unauthorized(r) ==> store.ClearedFrom(old(store.secure), old(store.general))
    ensures Settle(reply).Failure? && !Unauthorized(r) ==>
      store.secure == old(store.secure) && store.general == old(store.general)
    ensures Settle(reply).Success? && store.faults.userSet ==>
      r == Failure(ErrorObject(USER_WRITE_ERROR)) && store.secure == old(store.secure) && store.general == old(store.general)
    ensures Settle(reply).Success? && !store.faults.userSet ==>
      r == Success(reply.json.payload) && store.secure == old(store.secure) &&
      store.general == old(store.general)[USER_KEY := store.codec.stringify(reply.json.payload)]
  {
    var response;
    request, response := ApiRequest(store, apiUrl, ME_PATH, None, map[], reply);
    if response.Failure? {
      return request, response;
    }
    var stored := store.SetUser(response.value);
    if stored.Fail? {
      return request, Failure(stored.error);
    }
    r := response;
  }

  /** `testConnection`: a bare `fetch` of `/health` (no method, no headers,
      so no bearer token) that is up when the answer is 2xx; the body is not
      read and nothing is thrown. */
  function TestConnection<T>(apiUrl: string, reply: Reply<T>): (r: (Request, bool))
    ensures r.0.verb == None && r.0.url == apiUrl + HEALTH_PATH && r.0.headers == map[]
    ensures r.1 <==> reply.Response? && IsOk(reply.status)
  {
    (Request(None, apiUrl + HEALTH_PATH, map[]),
     match reply
     case NetworkFailure(_) => false
     case Response(status, _) => IsOk(status))
  }

  /** The health check counts a 2xx answer as up even when its body is not
      JSON, where an API request given the same answer throws. */
  lemma HealthIgnoresBody(apiUrl: string, status: int, reason: string)
    ensures TestConnection<()>(apiUrl, Response(status, Unparsable(reason))).1 <==> IsOk(status)
    ensures Settle<()>(Response(status, Unparsable(reason))).Failure?
  {
  }

  const INVALID_CREDENTIALS := "Invalid email or password"
  const ACCESS_DENIED := "Access denied"
  const NOT_FOUND := "Resource not found"
  const SERVER_ERROR := "Server error. Please try again later."
  const NETWORK_ERROR := "Network error. Please check your internet connection."
  const UNEXPECTED_ERROR := "An unexpected error occurred"

  /** The fixed message for the statuses the classifier knows. */
  function StatusMessage(status: Option<int>): Option<string>
  {
    if status == Some(401) then Some(INVALID_CREDENTIALS)
    else if status == Some(403) then Some(ACCESS_DENIED)
    else if status == Some(404) then Some(NOT_FOUND)
    else if status == Some(500) then Some(SERVER_ERROR)
    else None
  }

  /** A failed `fetch`: a TypeError whose message mentions the failed request. */
  predicate IsNetworkFailure(e: Thrown)
  {
    e.name == Some("TypeError") && e.message.Some? && Contains(e.message.value, "Network request failed")
  }

  /** `getErrorMessage` as written. None means the call itself throws: that
      happens for an object named `TypeError` whose `message` is missing or
      null, so that `message.includes` is called on undefined or null. A real
      `TypeError` built without a message has the empty message, which is
      falsy and does not include the network text. */
  function GetErrorMessage(e: Thrown): (r: Option<string>)
    ensures Truthy(e.message) ==> r == e.message
    ensures !Truthy(e.message) && StatusMessage(e.statusCode).Some? ==> r == StatusMessage(e.statusCode)
    ensures r.None? <==> !Truthy(e.message) && StatusMessage(e.statusCode).None? && e.name == Some("TypeError") && e.message.None?
    ensures !Truthy(e.message) && StatusMessage(e.statusCode).None? && r.Some? ==> r == Some(UNEXPECTED_ERROR)
    ensures r.Some? ==> r.value != ""
  {
    if Truthy(e.message) then e.message
    else if StatusMessage(e.statusCode).Some? then StatusMessage(e.statusCode)
    else if e.name == Some("TypeError") then
      match e.message
      case None => None
      case Some(m) => if Contains(m, "Network request failed") then Some(NETWORK_ERROR) else Some(UNEXPECTED_ERROR)
    else Some(UNEXPECTED_ERROR)
  }

  /** The network branch cannot return: a network failure has a truthy
      message, which is returned first. */
  lemma NetworkBranchUnreachable(e: Thrown)
    requires IsNetworkFailure(e)
    ensures GetErrorMessage(e) == e.message
  {
  }

  /** A plain object `{name: 'TypeError'}` without a `message` makes the
      classifier throw. */
  lemma PlainTypeErrorThrows()
    ensures GetErrorMessage(Thrown(Some("TypeError"), None, None)).None?
    ensures GetErrorMessage(Thrown(Some("TypeError"), None, Some(403))) == Some(ACCESS_DENIED)
  {
  }

  /** A real `TypeError` with the empty message falls through every test. */
  lemma EmptyTypeErrorUnexpected()
    ensures GetErrorMessage(Thrown(Some("TypeError"), Some(""), None)) == Some(UNEXPECTED_ERROR)
  {
  }

  /** The rejection of a failed `fetch` is shown as its own text. */
  lemma FetchFailureShownRaw()
    ensures GetErrorMessage(Thrown(Some("TypeError"), Some("Network request failed"), None)) == Some("Network request failed")
  {
  }

  /** `getErrorMessage` as evidently intended: network failures are
      recognised first, and it never throws. */
  function GetErrorMessageIntended(e: Thrown): (r: string)
    ensures IsNetworkFailure(e) ==> r == NETWORK_ERROR
    ensures !IsNetworkFailure(e) && Truthy(e.message) ==> r == e.message.value
    ensures !IsNetworkFailure(e) && !Truthy(e.message) && StatusMessage(e.statusCode).Some? ==> r == StatusMessage(e.statusCode).value
    ensures !IsNetworkFailure(e) && !Truthy(e.message) && StatusMessage(e.statusCode).None? ==> r == UNEXPECTED_ERROR
    ensures r != ""
  {
    if IsNetworkFailure(e) then NETWORK_ERROR
    else if Truthy(e.message) then e.message.value
    else if StatusMessage(e.statusCode).Some? then StatusMessage(e.statusCode).value
    else UNEXPECTED_ERROR
  }

  /** Away from network failures the two agree wherever the original returns. */
  lemma IntendedAgrees(e: Thrown)
    requires !IsNetworkFailure(e) && GetErrorMessage(e).Some?
    ensures GetErrorMessageIntended(e) == GetErrorMessage(e).value
  {
  }
}
