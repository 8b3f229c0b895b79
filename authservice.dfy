/**
 * `AuthService` (src/api/auth.js): the static methods that talk to the
 * authentication endpoints and keep the session in `localStorage`, and the
 * read-only checks over the stored session (`isTokenValid`, `isLoggedIn`,
 * `getCurrentUser`).
 *
 * How each request settles is a parameter (`Settled`); `JSON.parse`,
 * `JSON.stringify` and `atob` are oracles; `Date.now()` is `nowMs`.
 */
module AuthService {
  import opened Text
  import opened Json
  import opened Results
  import opened Browser

  const LoginSucceeded := "登录成功"
  const LoginFailed := "登录失败"
  const LogoutSucceeded := "登出成功"
  const LogoutFailed := "登出失败"
  const RefreshSucceeded := "Token刷新成功"
  const RefreshFailed := "Token刷新失败"

  /** `atob`: the decoded text, or None when the input is not valid base64 (it throws). */
  type Base64Decode = string -> Option<string>

  /** A resolved response that is undefined or null: reading any property of it throws a TypeError. */
  predicate Nullish(v: Option<Json>)
  {
    v.None? || v.value == Null
  }

  /** `localStorage.setItem(k, JSON.stringify(v))`: `JSON.stringify(undefined)` is undefined, stored as "undefined". */
  function Serialized(v: Option<Json>, stringify: Stringify): string
  {
    if v.None? then "undefined" else stringify(v.value)
  }

  /** The storage a login response leaves: token, user and flag when the token is truthy, untouched otherwise. */
  function SessionFrom(items: map<string, string>, response: Json, stringify: Stringify): (r: map<string, string>)
    ensures var token := Field(response, "token");
      token.Some? && Truthy(token.value) ==>
        r.Keys == items.Keys + SessionKeys
        && r[TokenKey] == JsString(token.value)
        && r[UserKey] == Serialized(Field(response, "user"), stringify)
        && r[LoggedInKey] == "true"
        && forall k :: k in items && k !in SessionKeys ==> r[k] == items[k]
    ensures var token := Field(response, "token");
      !(token.Some? && Truthy(token.value)) ==> r == items
  {
    var token := Field(response, "token");
    if token.Some? && Truthy(token.value) then
      items[TokenKey := JsString(token.value)]
           [UserKey := Serialized(Field(response, "user"), stringify)]
           [LoggedInKey := "true"]
    else items
  }

  /**
   * `login(credentials)`: reading a field of null credentials throws before
   * any request; a rejected request or a null response fails without
   * touching storage; otherwise the result is a success, and the session is
   * stored only when the response carries a truthy token.
   */
  method Login(credentials: Json, outcome: Settled, storage: LocalStorage, stringify: Stringify)
    returns (r: ServiceResult)
    modifies storage
    ensures credentials == Null ==> r == Failed(EngineTypeError, LoginFailed) && storage.items == old(storage.items)
    ensures credentials != Null && outcome.Rejected? ==>
      r == Failed(outcome.message, LoginFailed) && storage.items == old(storage.items)
    ensures credentials != Null && outcome.Resolved? && Nullish(outcome.value) ==>
      r == Failed(EngineTypeError, LoginFailed) && storage.items == old(storage.items)
    ensures credentials != Null && outcome.Resolved? && !Nullish(outcome.value) ==>
      r == Succeeded(outcome.value, LoginSucceeded)
      && storage.items == SessionFrom(old(storage.items), outcome.value.value, stringify)
  {
    if credentials == Null {
      return Failed(EngineTypeError, LoginFailed);
    }
    match outcome
    case Rejected(e) =>
      r := Failed(e, LoginFailed);
    case Resolved(response) =>
      if Nullish(response) {
        return Failed(EngineTypeError, LoginFailed);
      }
      var token := Field(response.value, "token");
      if token.Some? && Truthy(token.value) {
        storage.SetItem(TokenKey, JsString(token.value));
        storage.SetItem(UserKey, Serialized(Field(response.value, "user"), stringify));
        storage.SetItem(LoggedInKey, "true");
      }
      r := Succeeded(response, LoginSucceeded);
  }

  /** `logout()`: the three session keys go whether the request succeeds or not; only the result differs. */
  method Logout(outcome: Settled, storage: LocalStorage) returns (r: ServiceResult)
    modifies storage
    ensures storage.items == WithoutSession(old(storage.items))
    ensures r.Succeeded? <==> outcome.Resolved?
    ensures outcome.Resolved? ==> r == Succeeded(None, LogoutSucceeded)
    ensures outcome.Rejected? ==> r == Failed(outcome.message, LogoutFailed)
  {
    storage.RemoveItem(TokenKey);
    storage.RemoveItem(UserKey);
    storage.RemoveItem(LoggedInKey);
    if outcome.Resolved? {
      r := Succeeded(None, LogoutSucceeded);
    } else {
      r := Failed(outcome.message, LogoutFailed);
    }
  }

  /**
   * `refreshToken()`: a response with a truthy token overwrites `token` and
   * nothing else; a null response fails; a rejection fails; storage changes
   * in no other case.
   */
  method RefreshToken(outcome: Settled, storage: LocalStorage) returns (r: ServiceResult)
    modifies storage
    ensures outcome.Rejected? ==> r == Failed(outcome.message, RefreshFailed) && storage.items == old(storage.items)
    ensures outcome.Resolved? && Nullish(outcome.value) ==>
      r == Failed(EngineTypeError, RefreshFailed) && storage.items == old(storage.items)
    ensures outcome.Resolved? && !Nullish(outcome.value) ==>
      var token := Field(outcome.value.value, "token");
      r == Succeeded(outcome.value, RefreshSucceeded)
      && storage.items == if token.Some? && Truthy(token.value)
                          then old(storage.items)[TokenKey := JsString(token.value)]
                          else old(storage.items)
  {
    match outcome
    case Rejected(e) =>
      r := Failed(e, RefreshFailed);
    case Resolved(response) =>
      if Nullish(response) {
        return Failed(EngineTypeError, RefreshFailed);
      }
      var token := Field(response.value, "token");
      if token.Some? && Truthy(token.value) {
        storage.SetItem(TokenKey, JsString(token.value));
      }
      r := Succeeded(response, RefreshSucceeded);
  }

  // ---------------------------------------------------------------------------
  // Reading the session
  // ---------------------------------------------------------------------------

  /** `token.split('.')[1]` as `atob` receives it: the second part, or "undefined" when there is none. */
  function PayloadPart(token: string): (p: string)
    ensures '.' !in p
  {
    var parts := Split(token, '.');
    if |parts| > 1 then parts[1] else "undefined"
  }

  /**
   * The `exp` claim of the token's payload, when `atob` accepts the payload
   * part, the decoded text parses, the payload is not null and its `exp` is
   * a number. Any other outcome makes `isTokenValid` false.
   */
  function TokenExpiry(token: string, atob: Base64Decode, parse: Parse): (exp: Option<int>)
    ensures exp.Some? ==>
      && atob(PayloadPart(token)).Some?
      && parse(atob(PayloadPart(token)).value).Parsed?
      && Field(parse(atob(PayloadPart(token)).value).value, "exp") == Some(Num(exp.value))
  {
    match atob(PayloadPart(token))
    case None => None
    case Some(text) =>
      match parse(text)
      case SyntaxError(_) => None
      case Parsed(payload) =>
        if payload == Null then None
        else match Field(payload, "exp")
          case Some(Num(n)) => Some(n)
          case _ => None
  }

  /**
   * `isTokenValid()`: a stored, non-empty token whose `exp` (in seconds) is
   * later than `nowMs / 1000`, compared exactly.
   */
  function IsTokenValid(items: map<string, string>, atob: Base64Decode, parse: Parse, nowMs: int): (valid: bool)
    ensures valid ==> TokenKey in items && items[TokenKey] != ""
    ensures valid ==> TokenExpiry(items[TokenKey], atob, parse).Some?
  {
    if TokenKey in items && items[TokenKey] != "" then
      match TokenExpiry(items[TokenKey], atob, parse)
      case None => false
      case Some(exp) => exp * 1000 > nowMs
    else false
  }

  /**
   * Expiry is a point in time: a token valid now was valid at every earlier
   * time, it is valid one millisecond before `exp` seconds, and invalid from
   * `exp` seconds on.
   */
  lemma TokenExpiryBoundary(items: map<string, string>, atob: Base64Decode, parse: Parse, earlier: int, later: int)
    requires earlier <= later
    ensures IsTokenValid(items, atob, parse, later) ==> IsTokenValid(items, atob, parse, earlier)
    ensures TokenKey in items && items[TokenKey] != "" && TokenExpiry(items[TokenKey], atob, parse).Some? ==>
      var exp := TokenExpiry(items[TokenKey], atob, parse).value;
      IsTokenValid(items, atob, parse, exp * 1000 - 1) && !IsTokenValid(items, atob, parse, exp * 1000)
  {
  }

  /** A three-part token `header.payload.signature` is judged on its middle part. */
  lemma PayloadOfThreeParts(header: string, payload: string, signature: string)
    requires '.' !in header && '.' !in payload
    ensures PayloadPart(header + "." + payload + "." + signature) == payload
  {
    SplitPrefix(payload, '.', signature);
    assert header + "." + payload + "." + signature == header + ['.'] + (payload + ['.'] + signature);
    SplitPrefix(header, '.', payload + ['.'] + signature);
  }

  /** `isLoggedIn()`: the flag is exactly 'true' and the token is valid. */
  function IsLoggedIn(items: map<string, string>, atob: Base64Decode, parse: Parse, nowMs: int): (b: bool)
    ensures b ==> LoggedInKey in items && items[LoggedInKey] == "true"
    ensures b ==> IsTokenValid(items, atob, parse, nowMs)
    ensures LoggedInKey in items && items[LoggedInKey] == "true" && IsTokenValid(items, atob, parse, nowMs) ==> b
  {
    LoggedInKey in items && items[LoggedInKey] == "true" && IsTokenValid(items, atob, parse, nowMs)
  }

  /** `getCurrentUser()`: the parsed stored user; null when it is missing, empty or does not parse. */
  function GetCurrentUser(items: map<string, string>, parse: Parse): (user: Json)
    ensures !(UserKey in items && items[UserKey] != "") ==> user == Null
    ensures UserKey in items && items[UserKey] != "" && parse(items[UserKey]).SyntaxError? ==> user == Null
    ensures UserKey in items && items[UserKey] != "" && parse(items[UserKey]).Parsed? ==>
      user == parse(items[UserKey]).value
  {
    if UserKey in items && items[UserKey] != "" then
      match parse(items[UserKey])
      case Parsed(v) => v
      case SyntaxError(_) => Null
    else Null
  }

  /** After `logout` nobody is logged in and there is no current user. */
  lemma LogoutEndsSession(items: map<string, string>, atob: Base64Decode, parse: Parse, nowMs: int)
    ensures !IsLoggedIn(WithoutSession(items), atob, parse, nowMs)
    ensures GetCurrentUser(WithoutSession(items), parse) == Null
  {
    assert LoggedInKey !in WithoutSession(items);
    assert UserKey !in WithoutSession(items);
  }

  /**
   * After a login whose response carries a string token, the user is logged
   * in exactly while that token is valid, and `getCurrentUser` gives back
   * the response's user when serializing it round-trips.
   */
  lemma LoginStartsSession(items: map<string, string>, response: Json, token: string, atob: Base64Decode,
                           parse: Parse, stringify: Stringify, nowMs: int)
    requires Field(response, "token") == Some(Str(token)) && token != ""
    ensures var after := SessionFrom(items, response, stringify);
      IsLoggedIn(after, atob, parse, nowMs) <==>
        TokenExpiry(token, atob, parse).Some? && TokenExpiry(token, atob, parse).value * 1000 > nowMs
    ensures var user := Field(response, "user");
      user.Some? && stringify(user.value) != "" && parse(stringify(user.value)) == Parsed(user.value) ==>
        GetCurrentUser(SessionFrom(items, response, stringify), parse) == user.value
  {
    var after := SessionFrom(items, response, stringify);
    assert after[TokenKey] == token;
  }
}
