/** The authenticated request gateway (apiFetch in src/api/client.ts).
    fetch is an oracle: the responses it will give, in order; an exhausted
    oracle is a network failure. localStorage is a map from keys to strings,
    and the navigation to the login page is recorded in `location`. */
module Gateway {
  import opened Types

  const BaseUrl: string := "http://localhost:8080"
  const RefreshEndpoint: string := "/auth/refresh"
  const AccessTokenKey: string := "accessToken"
  const RefreshTokenKey: string := "refreshToken"
  const LoginPath: string := "/login"
  const ContentTypeHeader: string := "Content-Type"
  const AuthorizationHeader: string := "Authorization"
  const JsonMediaType: string := "application/json"
  const ErrorMessageField: string := "Error Message"

  /** A decoded JSON value (numbers restricted to integers). */
  datatype Json = JNull | JBool(b: bool) | JNum(n: int) | JStr(s: string) | JArr(items: seq<Json>) | JObj(fields: map<string, Json>)

  /** JavaScript truthiness of a decoded value. */
  predicate Truthy(v: Json) {
    match v
    case JNull => false
    case JBool(b) => b
    case JNum(n) => n != 0
    case JStr(s) => s != ""
    case _ => true
  }

  /** A response body: text that decodes as JSON, or text that response.json() rejects. */
  datatype Body = Parsed(value: Json) | NotJson

  datatype Response = Response(status: int, body: Body)

  /** response.ok */
  predicate IsOk(r: Response) {
    200 <= r.status <= 299
  }

  /** The caller's RequestInit: method, body text and headers. */
  datatype Options = Options(verb: Option<string>, body: Option<string>, headers: map<string, string>)

  /** What fetch was called with; `JsonOf(v)` stands for the text JSON.stringify(v). */
  datatype RequestBody = NoBody | Text(text: string) | JsonOf(value: Json)

  datatype Request = Request(url: string, verb: Option<string>, headers: map<string, string>, body: RequestBody)

  /** Why apiFetch threw. */
  datatype ApiError =
    | NetworkFailure                // fetch itself rejected
    | NoRefreshToken                // 401 and no refresh token stored
    | RefreshExpired                // the refresh request failed
    | ServerMessage(message: Json)  // the body's "Error Message"
    | StatusMessage(status: int)    // `API Error: <status>`
    | NullErrorBody                 // reading "Error Message" of a null body throws
    | BadJson                       // response.json() rejected a success body
    | MalformedRefreshBody          // the refresh answer lacks the two token strings

  datatype Result = Success(value: Json) | Failure(error: ApiError)

  /** localStorage.getItem(key), when it is truthy (present and non-empty). */
  function StoredToken(storage: map<string, string>, key: string): (t: Option<string>)
    ensures t.Some? <==> key in storage && storage[key] != ""
    ensures t.Some? ==> t.value == storage[key]
  {
    if key in storage && storage[key] != "" then Some(storage[key]) else None
  }

  /** The first request's headers: JSON content type, the bearer token when one is
      stored, then the caller's headers, which win on conflict. */
  function Headers(storage: map<string, string>, caller: map<string, string>): (h: map<string, string>)
    ensures ContentTypeHeader in h
    ensures ContentTypeHeader !in caller ==> h[ContentTypeHeader] == JsonMediaType
    ensures AuthorizationHeader in h <==> StoredToken(storage, AccessTokenKey).Some? || AuthorizationHeader in caller
    ensures AuthorizationHeader !in caller && StoredToken(storage, AccessTokenKey).Some? ==>
      h[AuthorizationHeader] == "Bearer " + StoredToken(storage, AccessTokenKey).value
    ensures forall k :: k in caller ==> k in h && h[k] == caller[k]
    ensures forall k :: k in h ==> k == ContentTypeHeader || k == AuthorizationHeader || k in caller
  {
    var bearer := StoredToken(storage, AccessTokenKey);
    map[ContentTypeHeader := JsonMediaType]
      + (if bearer.Some? then map[AuthorizationHeader := "Bearer " + bearer.value] else map[])
      + caller
  }

  function BodyOf(options: Options): RequestBody {
    if options.body.Some? then Text(options.body.value) else NoBody
  }

  /** POST /auth/refresh with the refresh token in a JSON body. */
  function RefreshRequest(refreshToken: string): Request {
    Request(BaseUrl + RefreshEndpoint, Some("POST"), map[ContentTypeHeader := JsonMediaType],
            JsonOf(JObj(map[RefreshTokenKey := JStr(refreshToken)])))
  }

  datatype TokenPair = TokenPair(accessToken: string, refreshToken: string)
  datatype TokenAnswer = Tokens(pair: TokenPair) | TokenError(error: ApiError)

  /** The decoded refresh answer {accessToken, refreshToken}. */
  function TokensOf(body: Body): TokenAnswer {
    match body
    case NotJson => TokenError(BadJson)
    case Parsed(v) =>
      if v.JObj? && AccessTokenKey in v.fields && RefreshTokenKey in v.fields
         && v.fields[AccessTokenKey].JStr? && v.fields[RefreshTokenKey].JStr?
      then Tokens(TokenPair(v.fields[AccessTokenKey].s, v.fields[RefreshTokenKey].s))
      else TokenError(MalformedRefreshBody)
  }

  /** The error thrown for a final non-ok response; an undecodable body counts as {}. */
  function ErrorOf(r: Response): (e: ApiError)
    ensures e.ServerMessage? ==> Truthy(e.message)
    ensures e.ServerMessage? ==>
      r.body.Parsed? && r.body.value.JObj? && ErrorMessageField in r.body.value.fields
      && e.message == r.body.value.fields[ErrorMessageField]
    ensures e.StatusMessage? ==> e.status == r.status
    ensures e.ServerMessage? || e.StatusMessage? || e.NullErrorBody?
    ensures e.ServerMessage? <==>
      r.body.Parsed? && r.body.value.JObj? && ErrorMessageField in r.body.value.fields
      && Truthy(r.body.value.fields[ErrorMessageField])
    ensures e.NullErrorBody? <==> r.body == Parsed(JNull)
  {
    var errorData := if r.body.Parsed? then r.body.value else JObj(map[]);
    if errorData.JNull? then NullErrorBody
    else if errorData.JObj? && ErrorMessageField in errorData.fields && Truthy(errorData.fields[ErrorMessageField])
    then ServerMessage(errorData.fields[ErrorMessageField])
    else StatusMessage(r.status)
  }

  /** What apiFetch yields for the response it settles on. */
  function FinalResult(r: Response): (res: Result)
    ensures !IsOk(r) ==> res == Failure(ErrorOf(r))
    ensures r.status == 204 ==> res == Success(JObj(map[]))
    ensures IsOk(r) && r.status != 204 && r.body.Parsed? ==> res == Success(r.body.value)
    ensures IsOk(r) && r.status != 204 && r.body.NotJson? ==> res == Failure(BadJson)
  {
    if !IsOk(r) then Failure(ErrorOf(r))
    else if r.status == 204 then Success(JObj(map[]))
    else if r.body.Parsed? then Success(r.body.value)
    else Failure(BadJson)
  }

  /** One call of apiFetch: its result, the storage afterwards, whether it sent the
      page to the login screen, and the requests it issued in order. */
  datatype Trace = Trace(result: Result, storage: map<string, string>, redirect: bool, requests: seq<Request>)

  /** The request apiFetch sends first. */
  function FirstRequest(storage: map<string, string>, endpoint: string, options: Options): Request {
    Request(BaseUrl + endpoint, options.verb, Headers(storage, options.headers), BodyOf(options))
  }

  /** The same request again, with the renewed bearer token. */
  function RetryRequest(first: Request, accessToken: string): Request {
    first.(headers := first.headers[AuthorizationHeader := "Bearer " + accessToken])
  }

  /** The storage after a successful refresh. */
  function Renewed(storage: map<string, string>, pair: TokenPair): map<string, string> {
    storage[AccessTokenKey := pair.accessToken][RefreshTokenKey := pair.refreshToken]
  }

  /** The rest of the call after the refresh succeeded: the retry and its answer. */
  function AfterRefresh(storage: map<string, string>, rest: seq<Response>, first: Request, refresh: Request,
                        pair: TokenPair): Trace {
    var retry := RetryRequest(first, pair.accessToken);
    if rest == [] then Trace(Failure(NetworkFailure), Renewed(storage, pair), false, [first, refresh, retry])
    else Trace(FinalResult(rest[0]), Renewed(storage, pair), false, [first, refresh, retry])
  }

  /** The rest of the call after a 401 from an ordinary endpoint; `rest` are the answers still to come. */
  function AfterUnauthorized(storage: map<string, string>, rest: seq<Response>, first: Request): Trace {
    match StoredToken(storage, RefreshTokenKey)
    case None => Trace(Failure(NoRefreshToken), storage - {AccessTokenKey}, true, [first])
    case Some(rt) =>
      var refresh := RefreshRequest(rt);
      if rest == [] then Trace(Failure(NetworkFailure), storage, false, [first, refresh])
      else if !IsOk(rest[0]) then
        Trace(Failure(RefreshExpired), storage - {AccessTokenKey, RefreshTokenKey}, true, [first, refresh])
      else
        match TokensOf(rest[0].body)
        case TokenError(e) => Trace(Failure(e), storage, false, [first, refresh])
        case Tokens(pair) => AfterRefresh(storage, rest[1..], first, refresh, pair)
  }

  /** apiFetch(endpoint, options) against the stored credentials and the oracle's answers. */
  function Run(storage: map<string, string>, answers: seq<Response>, endpoint: string, options: Options): Trace {
    var first := FirstRequest(storage, endpoint, options);
    if answers == [] then Trace(Failure(NetworkFailure), storage, false, [first])
    else if answers[0].status == 401 && endpoint != RefreshEndpoint then AfterUnauthorized(storage, answers[1..], first)
    else Trace(FinalResult(answers[0]), storage, false, [first])
  }

  /** The part of the oracle left after `n` fetches. */
  function Remaining(answers: seq<Response>, n: nat): seq<Response> {
    if n <= |answers| then answers[n..] else []
  }

  /** The first request carries the built headers. */
  lemma FirstRequestHeaders(storage: map<string, string>, answers: seq<Response>, endpoint: string, options: Options)
    ensures var t := Run(storage, answers, endpoint, options);
      |t.requests| >= 1 && t.requests[0] == Request(BaseUrl + endpoint, options.verb, Headers(storage, options.headers), BodyOf(options))
  {
  }

  /** At most three fetches, and never more answers consumed than exist plus the one that failed. */
  lemma FetchBound(storage: map<string, string>, answers: seq<Response>, endpoint: string, options: Options)
    ensures var t := Run(storage, answers, endpoint, options);
      1 <= |t.requests| <= 3 && |t.requests| <= |answers| + 1
  {
  }

  /** Not a 401, or the refresh endpoint itself: one fetch, storage untouched, no redirect. */
  lemma SingleFetch(storage: map<string, string>, answers: seq<Response>, endpoint: string, options: Options)
    requires answers != [] && (answers[0].status != 401 || endpoint == RefreshEndpoint)
    ensures var t := Run(storage, answers, endpoint, options);
      |t.requests| == 1 && t.storage == storage && !t.redirect && t.result == FinalResult(answers[0])
  {
  }

  /** A 401 with no refresh token: the access token is removed, the login redirect happens,
      the call fails after one fetch and every other stored entry is left as it was. */
  lemma NoRefreshTokenFailsAtOnce(storage: map<string, string>, answers: seq<Response>, endpoint: string, options: Options)
    requires answers != [] && answers[0].status == 401 && endpoint != RefreshEndpoint
    requires StoredToken(storage, RefreshTokenKey).None?
    ensures var t := Run(storage, answers, endpoint, options);
      && t.result == Failure(NoRefreshToken) && |t.requests| == 1 && t.redirect
      && t.storage == storage - {AccessTokenKey}
  {
  }

  /** A 401, then a successful refresh: both new tokens are stored and the original request
      is sent once more with the new bearer; whatever that retry answers is final. */
  lemma RefreshThenRetry(storage: map<string, string>, answers: seq<Response>, endpoint: string, options: Options,
                         pair: TokenPair)
    requires |answers| >= 3 && answers[0].status == 401 && endpoint != RefreshEndpoint
    requires StoredToken(storage, RefreshTokenKey).Some?
    requires IsOk(answers[1]) && TokensOf(answers[1].body) == Tokens(pair)
    ensures var t := Run(storage, answers, endpoint, options);
      && |t.requests| == 3
      && t.requests[1] == RefreshRequest(storage[RefreshTokenKey])
      && t.requests[2].url == t.requests[0].url && t.requests[2].verb == options.verb
      && t.requests[2].body == t.requests[0].body
      && t.requests[2].headers == t.requests[0].headers[AuthorizationHeader := "Bearer " + pair.accessToken]
      && t.storage == storage[AccessTokenKey := pair.accessToken][RefreshTokenKey := pair.refreshToken]
      && !t.redirect
      && t.result == FinalResult(answers[2])
      && (answers[2].status == 401 ==> t.result.Failure? && t.result.error != NoRefreshToken && t.result.error != RefreshExpired)
  {
  }

  /** A 401, then a failed refresh: both tokens are removed, the login redirect happens,
      and the call fails without a retry. */
  lemma RefreshFailureNoRetry(storage: map<string, string>, answers: seq<Response>, endpoint: string, options: Options)
    requires |answers| >= 2 && answers[0].status == 401 && endpoint != RefreshEndpoint
    requires StoredToken(storage, RefreshTokenKey).Some? && !IsOk(answers[1])
    ensures var t := Run(storage, answers, endpoint, options);
      && t.result == Failure(RefreshExpired) && |t.requests| == 2 && t.redirect
      && t.storage == storage - {AccessTokenKey, RefreshTokenKey}
  {
  }

  /** The redirect happens exactly on the two terminal authentication failures. */
  lemma RedirectIffAuthFailure(storage: map<string, string>, answers: seq<Response>, endpoint: string, options: Options)
    ensures var t := Run(storage, answers, endpoint, options);
      t.redirect <==> t.result == Failure(NoRefreshToken) || t.result == Failure(RefreshExpired)
  {
    var t := Run(storage, answers, endpoint, options);
    if answers != [] && !(answers[0].status == 401 && endpoint != RefreshEndpoint) {
      assert t.result == FinalResult(answers[0]);
    }
    if |answers| >= 3 && answers[0].status == 401 && endpoint != RefreshEndpoint
       && StoredToken(storage, RefreshTokenKey).Some? && IsOk(answers[1]) && TokensOf(answers[1].body).Tokens? {
      assert t.result == FinalResult(answers[2]);
    }
  }

  /** The browser state apiFetch reads and writes. */
  class Browser {
    var storage: map<string, string>
    var location: Option<string>
    var pending: seq<Response>
    var sent: seq<Request>

    constructor (storage0: map<string, string>, answers: seq<Response>)
      ensures storage == storage0 && location == None && pending == answers && sent == []
    {
      storage, location, pending, sent := storage0, None, answers, [];
    }

    /** fetch: record the request and take the oracle's next answer, if any. */
    method Fetch(req: Request) returns (resp: Option<Response>)
      modifies this`pending, this`sent
      ensures sent == old(sent) + [req]
      ensures old(pending) == [] ==> resp == None && pending == []
      ensures old(pending) != [] ==> resp == Some(old(pending)[0]) && pending == old(pending)[1..]
    {
      sent := sent + [req];
      if pending == [] {
        resp := None;
      } else {
        resp := Some(pending[0]);
        pending := pending[1..];
      }
    }

    /** apiFetch */
    method ApiFetch(endpoint: string, options: Options) returns (result: Result)
      modifies this
      ensures var t := Run(old(storage), old(pending), endpoint, options);
        && result == t.result
        && storage == t.storage
        && location == (if t.redirect then Some(LoginPath) else old(location))
        && sent == old(sent) + t.requests
        && pending == Remaining(old(pending), |t.requests|)
    {
      var headers := Headers(storage, options.headers);
      var first := Request(BaseUrl + endpoint, options.verb, headers, BodyOf(options));
      var response := Fetch(first);
      if response.None? {
        return Failure(NetworkFailure);
      }
      if response.value.status == 401 && endpoint != RefreshEndpoint {
        result := Reauthorize(first);
        return;
      }
      return FinalResult(response.value);
    }

    /** The 401 branch of apiFetch, after `first` was answered with 401: refresh the
        tokens once and retry once, or clear them and send the page to the login screen. */
    method Reauthorize(first: Request) returns (result: Result)
      modifies this
      ensures var t := AfterUnauthorized(old(storage), old(pending), first);
        && result == t.result
        && storage == t.storage
        && location == (if t.redirect then Some(LoginPath) else old(location))
        && sent == old(sent) + t.requests[1..]
        && pending == Remaining(old(pending), |t.requests| - 1)
    {
      var refreshToken := StoredToken(storage, RefreshTokenKey);
      if refreshToken.None? {
        storage := storage - {AccessTokenKey};
        location := Some(LoginPath);
        return Failure(NoRefreshToken);
      }
      var refreshRequest := RefreshRequest(refreshToken.value);
      var refreshResponse := Fetch(refreshRequest);
      if refreshResponse.None? {
        return Failure(NetworkFailure);
      }
      if !IsOk(refreshResponse.value) {
        storage := storage - {AccessTokenKey};
        storage := storage - {RefreshTokenKey};
        location := Some(LoginPath);
        return Failure(RefreshExpired);
      }
      var data := TokensOf(refreshResponse.value.body);
      if data.TokenError? {
        return Failure(data.error);
      }
      result := RetryAfterRefresh(first, refreshRequest, data.pair);
    }

    /** The successful-refresh branch of apiFetch: store both new tokens and send the
        original request once more with the new bearer; its answer is final. */
    method RetryAfterRefresh(first: Request, refresh: Request, pair: TokenPair) returns (result: Result)
      modifies this`storage, this`pending, this`sent
      ensures var t := AfterRefresh(old(storage), old(pending), first, refresh, pair);
        && result == t.result
        && storage == t.storage
        && sent == old(sent) + t.requests[2..]
        && pending == Remaining(old(pending), |t.requests| - 2)
    {
      storage := storage[AccessTokenKey := pair.accessToken];
      storage := storage[RefreshTokenKey := pair.refreshToken];
      var newHeaders := first.headers[AuthorizationHeader := "Bearer " + pair.accessToken];
      var response := Fetch(first.(headers := newHeaders));
      if response.None? {
        return Failure(NetworkFailure);
      }
      return FinalResult(response.value);
    }
  }
}
