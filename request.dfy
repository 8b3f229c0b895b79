/**
 * The axios wrapper every REST call goes through: the request interceptor
 * that decorates a configuration, the response interceptors that turn the
 * server's `{code, data, message}` envelope, an HTTP error status or a
 * transport failure into a resolved value or an Error message, the sign-out
 * performed on 401, and the per-verb helpers that build a configuration.
 */
module Request {
  import opened Text
  import opened Json
  import opened Browser
  import opened Results
  import AuthState

  const LoginPath := "/auth/login"

  const Unauthorized := "未授权访问"
  const Forbidden := "禁止访问"
  const NotFound := "请求的资源不存在"
  const ServerError := "服务器内部错误"
  const RequestFailed := "请求失败"
  const Timeout := "请求超时，请稍后重试"
  const Offline := "网络连接失败，请检查网络"
  const NetworkTrouble := "网络异常，请稍后重试"
  const BadRequest := "请求参数错误"
  const RequestTimeout := "请求超时"
  const TooManyRequests := "请求过于频繁，请稍后重试"
  const BadGateway := "网关错误"
  const Unavailable := "服务暂不可用"
  const GatewayTimeout := "网关超时"

  /** What an interceptor decides: how the call settles, and whether it signs the user out first. */
  datatype Verdict = Verdict(settled: Settled, signOut: bool)

  /** `message || fallback` followed by `new Error(...)`: a truthy message is converted with `String`. */
  function MessageOr(message: Option<Json>, fallback: string): (r: string)
    ensures message.Some? && Truthy(message.value) ==> r == JsString(message.value)
    ensures !(message.Some? && Truthy(message.value)) ==> r == fallback
  {
    if message.Some? && Truthy(message.value) then JsString(message.value) else fallback
  }

  /** The numeric value of an envelope code, when it is a number. */
  predicate CodeIs(code: Option<Json>, n: int)
  {
    code == Some(Num(n))
  }

  // ---------------------------------------------------------------------------
  // Response interceptor, success path: the business envelope
  // ---------------------------------------------------------------------------

  /**
   * The fulfilled-response interceptor on the response body. Codes 200 and 0
   * resolve with `data` untouched; 401, 403, 404 and codes of 500 and above
   * reject with the server's message or a fixed label; every other code,
   * a missing one included, rejects with the message or '请求失败'. Only 401
   * signs out. Destructuring a null body throws a TypeError.
   */
  function OnEnvelope(body: Json): (r: Verdict)
    ensures body == Null ==> r == Verdict(Rejected(EngineTypeError), false)
    ensures body != Null ==>
      var code := Field(body, "code");
      var message := Field(body, "message");
      && (r.settled.Resolved? <==> CodeIs(code, 200) || CodeIs(code, 0))
      && (r.settled.Resolved? ==> r.settled.value == Field(body, "data"))
      && (r.signOut <==> CodeIs(code, 401))
      && (CodeIs(code, 401) ==> r.settled == Rejected(MessageOr(message, Unauthorized)))
      && (CodeIs(code, 403) ==> r.settled == Rejected(MessageOr(message, Forbidden)))
      && (CodeIs(code, 404) ==> r.settled == Rejected(MessageOr(message, NotFound)))
      && (code.Some? && code.value.Num? && code.value.n >= 500 ==> r.settled == Rejected(MessageOr(message, ServerError)))
      && (!(code.Some? && code.value.Num? && (code.value.n in {0, 200, 401, 403, 404} || code.value.n >= 500))
          ==> r.settled == Rejected(MessageOr(message, RequestFailed)))
  {
    if body == Null then Verdict(Rejected(EngineTypeError), false)
    else
      var code := Field(body, "code");
      var message := Field(body, "message");
      if CodeIs(code, 200) || CodeIs(code, 0) then Verdict(Resolved(Field(body, "data")), false)
      else if CodeIs(code, 401) then Verdict(Rejected(MessageOr(message, Unauthorized)), true)
      else if CodeIs(code, 403) then Verdict(Rejected(MessageOr(message, Forbidden)), false)
      else if CodeIs(code, 404) then Verdict(Rejected(MessageOr(message, NotFound)), false)
      else if code.Some? && code.value.Num? && code.value.n >= 500 then Verdict(Rejected(MessageOr(message, ServerError)), false)
      else Verdict(Rejected(MessageOr(message, RequestFailed)), false)
  }

  // ---------------------------------------------------------------------------
  // Response interceptor, error path
  // ---------------------------------------------------------------------------

  /** An axios error: no response at all (with the error's `code` and `message`), or an HTTP error response. */
  datatype HttpFailure =
    | NoResponse(code: Option<string>, message: string)
    | Response(status: int, data: Option<Json>)

  /** The message for a request that got no response: timeout, offline, or anything else. */
  function TransportMessage(code: Option<string>, message: string): (r: string)
    ensures code == Some("ECONNABORTED") ==> r == Timeout
    ensures code != Some("ECONNABORTED") && message == "Network Error" ==> r == Offline
    ensures code != Some("ECONNABORTED") && message != "Network Error" ==> r == NetworkTrouble
  {
    if code == Some("ECONNABORTED") then Timeout
    else if message == "Network Error" then Offline
    else NetworkTrouble
  }

  /** The three transport messages are distinct, so the user can tell the cases apart. */
  lemma TransportMessagesDistinct()
    ensures TransportMessage(Some("ECONNABORTED"), "") != TransportMessage(None, "Network Error")
    ensures TransportMessage(Some("ECONNABORTED"), "") != TransportMessage(None, "")
    ensures TransportMessage(None, "Network Error") != TransportMessage(None, "")
  {
  }

  /** `data?.message`: undefined when `data` is null or undefined or has no such property. */
  function DataMessage(data: Option<Json>): (r: Option<Json>)
    ensures r.Some? ==> data.Some? && data.value.Obj?
  {
    if data.Some? then Field(data.value, "message") else None
  }

  /**
   * The message for an HTTP error status: 400 and unmapped statuses prefer
   * the body's `message`; the other listed statuses have a fixed label; the
   * unmapped fallback names the status. Only 401 signs out.
   */
  function OnStatus(status: int, data: Option<Json>): (r: Verdict)
    ensures r.settled.Rejected?
    ensures r.signOut <==> status == 401
    ensures status == 400 ==> r.settled.message == MessageOr(DataMessage(data), BadRequest)
    ensures status == 401 ==> r.settled.message == Unauthorized
    ensures status == 403 ==> r.settled.message == Forbidden
    ensures status == 404 ==> r.settled.message == NotFound
    ensures status == 408 ==> r.settled.message == RequestTimeout
    ensures status == 429 ==> r.settled.message == TooManyRequests
    ensures status == 500 ==> r.settled.message == ServerError
    ensures status == 502 ==> r.settled.message == BadGateway
    ensures status == 503 ==> r.settled.message == Unavailable
    ensures status == 504 ==> r.settled.message == GatewayTimeout
    ensures status !in {400, 401, 403, 404, 408, 429, 500, 502, 503, 504} ==>
      r.settled.message == MessageOr(DataMessage(data), RequestFailed + " (" + IntToDecimal(status) + ")")
  {
    var message :=
      if status == 400 then MessageOr(DataMessage(data), BadRequest)
      else if status == 401 then Unauthorized
      else if status == 403 then Forbidden
      else if status == 404 then NotFound
      else if status == 408 then RequestTimeout
      else if status == 429 then TooManyRequests
      else if status == 500 then ServerError
      else if status == 502 then BadGateway
      else if status == 503 then Unavailable
      else if status == 504 then GatewayTimeout
      else MessageOr(DataMessage(data), RequestFailed + " (" + IntToDecimal(status) + ")");
    Verdict(Rejected(message), status == 401)
  }

  /** The rejected-response interceptor: every failure rejects; only an HTTP 401 signs out. */
  function OnFailure(failure: HttpFailure): (r: Verdict)
    ensures r.settled.Rejected?
    ensures r.signOut <==> failure.Response? && failure.status == 401
    ensures failure.NoResponse? ==> r.settled.message == TransportMessage(failure.code, failure.message)
    ensures failure.Response? ==> r == OnStatus(failure.status, failure.data)
  {
    match failure
    case NoResponse(code, message) => Verdict(Rejected(TransportMessage(code, message)), false)
    case Response(status, data) => OnStatus(status, data)
  }

  /**
   * The envelope and the HTTP status layers word the shared cases alike: a
   * 401, 403, 404 or 500 without a server message carries the same label
   * whether it arrives as a business code or as a status.
   */
  lemma SharedLabelsAgree(c: int)
    requires c in {401, 403, 404, 500}
    ensures OnEnvelope(Obj([("code", Num(c))])).settled == OnStatus(c, None).settled
  {
    var body := Obj([("code", Num(c))]);
    assert Field(body, "code") == Some(Num(c));
    assert Field(body, "message") == None;
  }

  // ---------------------------------------------------------------------------
  // Signing out on 401
  // ---------------------------------------------------------------------------

  /**
   * `handleUnauthorized()`: the three session keys leave storage, the auth
   * store logs out, and the browser goes to the login page unless already
   * there (`redirected` says whether it navigated).
   */
  method HandleUnauthorized(storage: LocalStorage, auth: AuthState.AuthStore, location: Location) returns (redirected: bool)
    modifies storage, auth, location
    ensures storage.items == WithoutSession(old(storage.items))
    ensures auth.user == Null && !auth.isLoggedIn && auth.error == "" && auth.loading == old(auth.loading)
    ensures redirected <==> old(location.pathname) != LoginPath
    ensures location.pathname == LoginPath
  {
    storage.RemoveItem(TokenKey);
    storage.RemoveItem(UserKey);
    storage.RemoveItem(LoggedInKey);
    auth.Logout(storage);
    redirected := location.pathname != LoginPath;
    if redirected {
      location.pathname := LoginPath;
    }
  }

  /** A second sign-out finds nothing more to remove. */
  lemma SignOutIdempotent(items: map<string, string>)
    ensures WithoutSession(WithoutSession(items)) == WithoutSession(items)
  {
  }

  /** After a sign-out a reload restores nothing: `initAuth` keeps the logged-out state. */
  lemma SignOutSticks(items: map<string, string>, parse: Parse)
    ensures AuthState.Hydrate(Null, false, WithoutSession(items), parse) == (Null, false)
  {
  }

  /** The fulfilled-response interceptor with its side effect. */
  method OnFulfilled(body: Json, storage: LocalStorage, auth: AuthState.AuthStore, location: Location) returns (settled: Settled)
    modifies storage, auth, location
    ensures settled == OnEnvelope(body).settled
    ensures OnEnvelope(body).signOut ==> (storage.items == WithoutSession(old(storage.items))
      && auth.user == Null && !auth.isLoggedIn && auth.error == "" && auth.loading == old(auth.loading)
      && location.pathname == LoginPath)
    ensures !OnEnvelope(body).signOut ==> unchanged(storage, auth, location)
  {
    var verdict := OnEnvelope(body);
    if verdict.signOut {
      var _ := HandleUnauthorized(storage, auth, location);
    }
    settled := verdict.settled;
  }

  /** The rejected-response interceptor with its side effect. */
  method OnRejected(failure: HttpFailure, storage: LocalStorage, auth: AuthState.AuthStore, location: Location) returns (settled: Settled)
    modifies storage, auth, location
    ensures settled == OnFailure(failure).settled
    ensures OnFailure(failure).signOut ==> (storage.items == WithoutSession(old(storage.items))
      && auth.user == Null && !auth.isLoggedIn && auth.error == "" && auth.loading == old(auth.loading)
      && location.pathname == LoginPath)
    ensures !OnFailure(failure).signOut ==> unchanged(storage, auth, location)
  {
    var verdict := OnFailure(failure);
    if verdict.signOut {
      var _ := HandleUnauthorized(storage, auth, location);
    }
    settled := verdict.settled;
  }

  // ---------------------------------------------------------------------------
  // Request interceptor
  // ---------------------------------------------------------------------------

  /** `{...params, _t: now}`: the cache-busting stamp, every other parameter kept. */
  function StampedParams(params: Option<Json>, now: int): (r: Json)
    ensures r.Obj?
    ensures Lookup(r.fields, "_t") == Some(Num(now))
    ensures forall k :: k != "_t" && params.Some? ==> Lookup(r.fields, k) == Lookup(SpreadFields(params.value), k)
    ensures forall k :: k != "_t" && params.None? ==> Lookup(r.fields, k) == None
  {
    var base := if params.Some? then SpreadFields(params.value) else [];
    Obj(Put(base, "_t", Num(now)))
  }

  /** The Authorization header a stored token produces, if any: only a non-empty token counts. */
  function AuthorizationHeader(token: Option<string>): (r: Option<string>)
    ensures r.Some? <==> StoredTruthy(token)
    ensures r.Some? ==> r.value == "Bearer " + token.value
  {
    if StoredTruthy(token) then Some("Bearer " + token.value) else None
  }

  /** The part of an axios request configuration the request interceptor reads and writes (`verb` is its `method`). */
  class RequestConfig {
    var verb: string
    var params: Option<Json>
    var headers: Fields

    constructor (verb: string, params: Option<Json>, headers: Fields)
      ensures this.verb == verb && this.params == params && this.headers == headers
    {
      this.verb, this.params, this.headers := verb, params, headers;
    }

    /**
     * The request interceptor: GET requests get the `_t` stamp, a stored
     * token becomes `Authorization: Bearer <token>`, and every request gets
     * `X-Request-ID`. The clock and the random id are parameters.
     */
    method Decorate(storage: LocalStorage, now: int, requestId: string)
      modifies this
      ensures verb == old(verb)
      ensures old(verb) == "get" ==> params == Some(StampedParams(old(params), now))
      ensures old(verb) != "get" ==> params == old(params)
      ensures Lookup(headers, "X-Request-ID") == Some(Str(requestId))
      ensures Lookup(headers, "Authorization") ==
        if StoredTruthy(storage.GetItem(TokenKey)) then Some(Str(AuthorizationHeader(storage.GetItem(TokenKey)).value))
        else Lookup(old(headers), "Authorization")
      ensures forall k :: k != "X-Request-ID" && k != "Authorization" ==> Lookup(headers, k) == Lookup(old(headers), k)
    {
      if verb == "get" {
        params := Some(StampedParams(params, now));
      }
      var token := storage.GetItem(TokenKey);
      var authorization := AuthorizationHeader(token);
      if authorization.Some? {
        headers := Put(headers, "Authorization", Str(authorization.value));
      }
      headers := Put(headers, "X-Request-ID", Str(requestId));
    }
  }

  // ---------------------------------------------------------------------------
  // Verb helpers
  // ---------------------------------------------------------------------------

  /** The entries a caller's `config` contributes; `{...undefined}` contributes none. */
  function Overrides(config: Option<Json>): (r: Fields)
    ensures config.None? ==> r == []
  {
    if config.Some? then SpreadFields(config.value) else []
  }

  /** A parameter with default `{}`: only `undefined` takes the default, null stays null. */
  function OrEmptyObject(payload: Option<Json>): (r: Json)
    ensures payload.Some? ==> r == payload.value
    ensures payload.None? ==> r == Obj([])
  {
    if payload.Some? then payload.value else Obj([])
  }

  /**
   * `{...base, ...config}`: the caller's configuration is spread last, so
   * each of its keys overrides the helper's own, and the helper's other keys
   * stay. The helpers below write their own object literal entry by entry.
   */
  function CallConfig(base: Fields, config: Option<Json>): (r: Fields)
    ensures forall k :: Lookup(r, k) == Later(Lookup(base, k), Lookup(Overrides(config), k))
  {
    Assign(base, Overrides(config))
  }

  /** `get(url, params = {}, config = {})`: the payload travels as `params`. */
  function GetRequest(url: string, params: Option<Json>, config: Option<Json>): (r: Fields)
    ensures "method" !in Keys(Overrides(config)) ==> Lookup(r, "method") == Some(Str("get"))
    ensures "params" !in Keys(Overrides(config)) ==> Lookup(r, "params") == Some(OrEmptyObject(params))
    ensures "data" !in Keys(Overrides(config)) ==> Lookup(r, "data") == None
    ensures "url" !in Keys(Overrides(config)) ==> Lookup(r, "url") == Some(Str(url))
  {
    var base := [("method", Str("get")), ("url", Str(url)), ("params", OrEmptyObject(params))];
    LookupDistinct(base, 0); LookupDistinct(base, 1); LookupDistinct(base, 2);
    CallConfig(base, config)
  }

  /** `post(url, data = {}, config = {})`: the payload travels as `data`. */
  function PostRequest(url: string, data: Option<Json>, config: Option<Json>): (r: Fields)
    ensures "method" !in Keys(Overrides(config)) ==> Lookup(r, "method") == Some(Str("post"))
    ensures "data" !in Keys(Overrides(config)) ==> Lookup(r, "data") == Some(OrEmptyObject(data))
    ensures "params" !in Keys(Overrides(config)) ==> Lookup(r, "params") == None
    ensures "url" !in Keys(Overrides(config)) ==> Lookup(r, "url") == Some(Str(url))
  {
    var base := [("method", Str("post")), ("url", Str(url)), ("data", OrEmptyObject(data))];
    LookupDistinct(base, 0); LookupDistinct(base, 1); LookupDistinct(base, 2);
    CallConfig(base, config)
  }

  /** `put(url, data = {}, config = {})`. */
  function PutRequest(url: string, data: Option<Json>, config: Option<Json>): (r: Fields)
    ensures "method" !in Keys(Overrides(config)) ==> Lookup(r, "method") == Some(Str("put"))
    ensures "data" !in Keys(Overrides(config)) ==> Lookup(r, "data") == Some(OrEmptyObject(data))
    ensures "params" !in Keys(Overrides(config)) ==> Lookup(r, "params") == None
    ensures "url" !in Keys(Overrides(config)) ==> Lookup(r, "url") == Some(Str(url))
  {
    var base := [("method", Str("put")), ("url", Str(url)), ("data", OrEmptyObject(data))];
    LookupDistinct(base, 0); LookupDistinct(base, 1); LookupDistinct(base, 2);
    CallConfig(base, config)
  }

  /** `del(url, params = {}, config = {})`: method 'delete', payload as `params`. */
  function DelRequest(url: string, params: Option<Json>, config: Option<Json>): (r: Fields)
    ensures "method" !in Keys(Overrides(config)) ==> Lookup(r, "method") == Some(Str("delete"))
    ensures "params" !in Keys(Overrides(config)) ==> Lookup(r, "params") == Some(OrEmptyObject(params))
    ensures "data" !in Keys(Overrides(config)) ==> Lookup(r, "data") == None
    ensures "url" !in Keys(Overrides(config)) ==> Lookup(r, "url") == Some(Str(url))
  {
    var base := [("method", Str("delete")), ("url", Str(url)), ("params", OrEmptyObject(params))];
    LookupDistinct(base, 0); LookupDistinct(base, 1); LookupDistinct(base, 2);
    CallConfig(base, config)
  }

  /** `patch(url, data = {}, config = {})`. */
  function PatchRequest(url: string, data: Option<Json>, config: Option<Json>): (r: Fields)
    ensures "method" !in Keys(Overrides(config)) ==> Lookup(r, "method") == Some(Str("patch"))
    ensures "data" !in Keys(Overrides(config)) ==> Lookup(r, "data") == Some(OrEmptyObject(data))
    ensures "params" !in Keys(Overrides(config)) ==> Lookup(r, "params") == None
    ensures "url" !in Keys(Overrides(config)) ==> Lookup(r, "url") == Some(Str(url))
  {
    var base := [("method", Str("patch")), ("url", Str(url)), ("data", OrEmptyObject(data))];
    LookupDistinct(base, 0); LookupDistinct(base, 1); LookupDistinct(base, 2);
    CallConfig(base, config)
  }

  const MultipartHeaders: Json := Obj([("Content-Type", Str("multipart/form-data"))])

  /**
   * `upload(url, formData, config = {})`: a POST whose `headers` are the
   * multipart content type — unless the caller passes `headers`, which then
   * replace that object as a whole.
   */
  function UploadRequest(url: string, formData: Json, config: Option<Json>): (r: Fields)
    ensures "method" !in Keys(Overrides(config)) ==> Lookup(r, "method") == Some(Str("post"))
    ensures "data" !in Keys(Overrides(config)) ==> Lookup(r, "data") == Some(formData)
    ensures "headers" !in Keys(Overrides(config)) ==> Lookup(r, "headers") == Some(MultipartHeaders)
    ensures "headers" in Keys(Overrides(config)) ==> Lookup(r, "headers") == Lookup(Overrides(config), "headers")
    ensures "url" !in Keys(Overrides(config)) ==> Lookup(r, "url") == Some(Str(url))
  {
    var base := [("method", Str("post")), ("url", Str(url)), ("data", formData), ("headers", MultipartHeaders)];
    LookupDistinct(base, 0); LookupDistinct(base, 1); LookupDistinct(base, 2); LookupDistinct(base, 3);
    CallConfig(base, config)
  }

  /** `download(url, params = {}, config = {})`: a GET asking for a Blob. */
  function DownloadRequest(url: string, params: Option<Json>, config: Option<Json>): (r: Fields)
    ensures "method" !in Keys(Overrides(config)) ==> Lookup(r, "method") == Some(Str("get"))
    ensures "params" !in Keys(Overrides(config)) ==> Lookup(r, "params") == Some(OrEmptyObject(params))
    ensures "responseType" !in Keys(Overrides(config)) ==> Lookup(r, "responseType") == Some(Str("blob"))
    ensures "url" !in Keys(Overrides(config)) ==> Lookup(r, "url") == Some(Str(url))
  {
    var base := [("method", Str("get")), ("url", Str(url)), ("params", OrEmptyObject(params)), ("responseType", Str("blob"))];
    LookupDistinct(base, 0); LookupDistinct(base, 1); LookupDistinct(base, 2); LookupDistinct(base, 3);
    CallConfig(base, config)
  }
}
