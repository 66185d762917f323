/**
 * The two interceptors of the shared client and the browser state they touch.
 * The stored token (`localStorage`), the page location (`window.location.href`)
 * and the toast channel become fields of ApiClient; toasts are a log of messages.
 */
module Interceptors {
  import opened Wrappers
  import opened Http
  import opened Routes
  import Endpoints

  const AuthorizationHeader := "Authorization"
  const BearerPrefix := "Bearer "
  const LoginLocation := "/login"
  const SessionExpiredNotice := "Session expired. Please login again."
  const ServerErrorNotice := "Server error. Please try again later."
  const UnexpectedNotice := "An unexpected error occurred."

  // ----- Request stamping -----

  /** The request interceptor on a configuration, given what the token store holds. */
  function Stamped(token: Option<string>, cfg: Config): (r: Config)
    ensures r.baseUrl == cfg.baseUrl && r.request == cfg.request
    ensures Truthy(token) ==>
      && r.headers.Keys == cfg.headers.Keys + {AuthorizationHeader}
      && r.headers[AuthorizationHeader] == BearerPrefix + token.value
      && forall h :: h in cfg.headers && h != AuthorizationHeader ==> r.headers[h] == cfg.headers[h]
    ensures !Truthy(token) ==> r == cfg
  {
    if Truthy(token) then
      cfg.(headers := cfg.headers[AuthorizationHeader := BearerPrefix + token.value])
    else
      cfg
  }

  /**
   * Reads the token back out of an `Authorization: Bearer <token>` header,
   * the client's header scheme; the partner the request interceptor is proved against.
   */
  function BearerToken(headers: map<string, string>): Option<string> {
    if AuthorizationHeader in headers
       && |headers[AuthorizationHeader]| >= |BearerPrefix|
       && headers[AuthorizationHeader][..|BearerPrefix|] == BearerPrefix
    then Some(headers[AuthorizationHeader][|BearerPrefix|..])
    else None
  }

  /** A stamped request carries exactly the stored token, and a request built by the client without a token carries none. */
  lemma BearerTokenOfStamped(token: Option<string>, req: Request, baseUrl: string)
    ensures Truthy(token) ==> BearerToken(Stamped(token, Prepare(baseUrl, req)).headers) == token
    ensures !Truthy(token) ==> BearerToken(Stamped(token, Prepare(baseUrl, req)).headers) == None
  {
  }

  // ----- Error classification -----

  predicate HasStatus(e: HttpError, code: int) {
    e.response.Some? && e.response.value.status == code
  }

  predicate StatusAtLeast(e: HttpError, code: int) {
    e.response.Some? && e.response.value.status >= code
  }

  /** `error.response?.data?.message`. */
  function BodyMessage(e: HttpError): Option<string> {
    if e.response.Some? then e.response.value.message else None
  }

  datatype ErrorKind = Unauthorized | ServerError | ApiError(message: string) | Unknown

  /**
   * The response interceptor's precedence: exactly 401, then 500 and above,
   * then a non-empty body message, then anything else (no response included).
   */
  function Classify(e: HttpError): (k: ErrorKind)
    ensures k == Unauthorized <==> HasStatus(e, 401)
    ensures k == ServerError <==> StatusAtLeast(e, 500)
    ensures k.ApiError? <==> !HasStatus(e, 401) && !StatusAtLeast(e, 500) && Truthy(BodyMessage(e))
    ensures k.ApiError? ==> BodyMessage(e) == Some(k.message)
    ensures k == Unknown <==> !HasStatus(e, 401) && !StatusAtLeast(e, 500) && !Truthy(BodyMessage(e))
  {
    if HasStatus(e, 401) then Unauthorized
    else if StatusAtLeast(e, 500) then ServerError
    else if Truthy(BodyMessage(e)) then ApiError(BodyMessage(e).value)
    else Unknown
  }

  /**
   * The toast text for a kind of failure: the server's own message for an
   * API error, otherwise one of three fixed texts, a different one per kind.
   */
  function Notice(k: ErrorKind): (m: string)
    ensures k.ApiError? ==> m == k.message
    ensures !k.ApiError? ==>
      && (m == SessionExpiredNotice <==> k == Unauthorized)
      && (m == ServerErrorNotice <==> k == ServerError)
      && (m == UnexpectedNotice <==> k == Unknown)
  {
    match k
    case Unauthorized => SessionExpiredNotice
    case ServerError => ServerErrorNotice
    case ApiError(message) => message
    case Unknown => UnexpectedNotice
  }

  /** Every failure is surfaced with a visible message. */
  lemma NoticeNotEmpty(e: HttpError)
    ensures Notice(Classify(e)) != ""
  {
  }

  // ----- Session state -----

  /** The browser state the interceptors read and write. */
  datatype SessionState = SessionState(token: Option<string>, location: string, notifications: seq<string>)

  /** The state after the response interceptor handles one failed call. */
  function AfterError(s: SessionState, e: HttpError): (t: SessionState)
    ensures t.notifications == s.notifications + [Notice(Classify(e))]
    ensures HasStatus(e, 401) ==> t.token == None && t.location == LoginLocation
    ensures !HasStatus(e, 401) ==> t.token == s.token && t.location == s.location
  {
    match Classify(e)
    case Unauthorized => SessionState(None, LoginLocation, s.notifications + [SessionExpiredNotice])
    case ServerError => s.(notifications := s.notifications + [ServerErrorNotice])
    case ApiError(message) => s.(notifications := s.notifications + [message])
    case Unknown => s.(notifications := s.notifications + [UnexpectedNotice])
  }

  /** The state after a run of failed calls, handled in order. */
  function Replay(s: SessionState, errors: seq<HttpError>): SessionState
    decreases |errors|
  {
    if errors == [] then s else Replay(AfterError(s, errors[0]), errors[1..])
  }

  /** The messages a run of failed calls shows, one per failure, in order. */
  function Notices(errors: seq<HttpError>): (ns: seq<string>)
    ensures |ns| == |errors|
    ensures forall i :: 0 <= i < |errors| ==> ns[i] == Notice(Classify(errors[i]))
  {
    seq(|errors|, i requires 0 <= i < |errors| => Notice(Classify(errors[i])))
  }

  predicate AnyUnauthorized(errors: seq<HttpError>) {
    exists i :: 0 <= i < |errors| && HasStatus(errors[i], 401)
  }

  /** Exactly one notification per failed call, appended in order, earlier ones kept. */
  lemma {:induction false} ReplayNotifications(s: SessionState, errors: seq<HttpError>)
    ensures Replay(s, errors).notifications == s.notifications + Notices(errors)
    decreases |errors|
  {
    if errors != [] {
      var t := AfterError(s, errors[0]);
      ReplayNotifications(t, errors[1..]);
      assert Notices(errors) == [Notice(Classify(errors[0]))] + Notices(errors[1..]);
    }
  }

  /**
   * Failed calls never set a token: after a run the token is cleared exactly
   * when some call answered 401, and the page is then the login page.
   */
  lemma {:induction false} ReplaySession(s: SessionState, errors: seq<HttpError>)
    ensures AnyUnauthorized(errors) ==> Replay(s, errors).token == None
    ensures AnyUnauthorized(errors) ==> Replay(s, errors).location == LoginLocation
    ensures !AnyUnauthorized(errors) ==> Replay(s, errors).token == s.token
    ensures !AnyUnauthorized(errors) ==> Replay(s, errors).location == s.location
    decreases |errors|
  {
    if errors != [] {
      var t := AfterError(s, errors[0]);
      ReplaySession(t, errors[1..]);
      if AnyUnauthorized(errors[1..]) {
        var i :| 0 <= i < |errors[1..]| && HasStatus(errors[1..][i], 401);
        assert HasStatus(errors[i + 1], 401);
      }
      if !HasStatus(errors[0], 401) && AnyUnauthorized(errors) {
        var i :| 0 <= i < |errors| && HasStatus(errors[i], 401);
        assert HasStatus(errors[1..][i - 1], 401);
      }
    }
  }

  // ----- The client -----

  /** The shared client: its base URL, and the browser state its interceptors use. */
  class ApiClient {
    const baseUrl: string
    var token: Option<string>
    var location: string
    var notifications: seq<string>

    function State(): SessionState
      reads this
    {
      SessionState(token, location, notifications)
    }

    /** `axios.create`: the base URL comes from the environment override or the fallback. */
    constructor (env: Option<string>, storedToken: Option<string>, currentLocation: string)
      ensures baseUrl == BaseUrl(env)
      ensures State() == SessionState(storedToken, currentLocation, [])
    {
      baseUrl := BaseUrl(env);
      token := storedToken;
      location := currentLocation;
      notifications := [];
    }

    /** The request interceptor: adds `Authorization: Bearer <token>` when a token is stored; never fails. */
    method InterceptRequest(cfg: Config) returns (r: Config)
      ensures r == Stamped(token, cfg)
    {
      r := cfg;
      var stored := token;
      if Truthy(stored) {
        r := r.(headers := r.headers[AuthorizationHeader := BearerPrefix + stored.value]);
      }
    }

    /** The request interceptor's error path: the error is rejected again as it is. */
    method InterceptRequestError(e: HttpError) returns (rejected: HttpError)
      ensures rejected == e
    {
      rejected := e;
    }

    /** The response interceptor's success path: the response passes through untouched. */
    method InterceptResponse<R>(response: R) returns (r: R)
      ensures r == response
    {
      r := response;
    }

    /**
     * The response interceptor's error path: clear the session on 401, show one
     * toast, and reject again with the original error.
     */
    method InterceptResponseError(e: HttpError) returns (rejected: HttpError)
      modifies this
      ensures rejected == e
      ensures State() == AfterError(old(State()), e)
    {
      if HasStatus(e, 401) {
        token := None;
        location := LoginLocation;
        notifications := notifications + [SessionExpiredNotice];
      } else if StatusAtLeast(e, 500) {
        notifications := notifications + [ServerErrorNotice];
      } else if Truthy(BodyMessage(e)) {
        notifications := notifications + [BodyMessage(e).value];
      } else {
        notifications := notifications + [UnexpectedNotice];
      }
      rejected := e;
    }

    /**
     * One API call end to end: the API object's request, the client's
     * configuration, the request interceptor, then the transport's outcome
     * (a parameter here) through the response interceptor.
     */
    method Call<R>(op: Operation, outcome: Outcome<R>) returns (sent: Config, result: Outcome<R>)
      modifies this
      ensures sent == Stamped(old(token), Prepare(baseUrl, Endpoints.Endpoint(op)))
      ensures Route(sent.request) == Some(op)
      ensures result == outcome
      ensures outcome.Succeeded? ==> State() == old(State())
      ensures outcome.Failed? ==> State() == AfterError(old(State()), outcome.error)
    {
      var cfg := Prepare(baseUrl, Endpoints.Endpoint(op));
      sent := InterceptRequest(cfg);
      match outcome
      case Succeeded(response) =>
        var passed := InterceptResponse(response);
        result := Succeeded(passed);
      case Failed(error) =>
        var rejected := InterceptResponseError(error);
        result := Failed(rejected);
    }
  }

  /** A session that expires: a stamped call, a 401, then an unauthenticated call. */
  method ExpiredSessionScenario() {
    var client := new ApiClient(None, Some("abc123"), "/dashboard");
    assert client.baseUrl == "http://localhost:8080/api";
    var expired := HttpError(Some(ErrorResponse(401, Some("Token expired"))), "Request failed with status code 401");
    var sent, result := client.Call<int>(GetCurrentUser, Failed(expired));
    assert sent.headers[AuthorizationHeader] == "Bearer abc123";
    assert result == Failed(expired);
    assert client.token == None && client.location == "/login";
    assert client.notifications == ["Session expired. Please login again."];
    var retried, _ := client.Call<int>(GetCurrentUser, Succeeded(0));
    assert AuthorizationHeader !in retried.headers;
  }

  /** A rejected duplicate SKU: the server's message is shown verbatim. */
  lemma DuplicateSkuScenario()
    ensures Classify(HttpError(Some(ErrorResponse(409, Some("SKU already exists"))), "")) == ApiError("SKU already exists")
    ensures Notice(ApiError("SKU already exists")) == "SKU already exists"
  {
  }
}
