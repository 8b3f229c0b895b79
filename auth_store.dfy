/**
 * The authentication store (`useAuthStore`): four reactive fields —
 * `isLoggedIn`, `user`, `loading`, `error` — and the actions that change them
 * while mirroring the user and the login flag into `localStorage`.
 */
module AuthState {
  import opened Json
  import opened Browser

  /** The only account the store's built-in check accepts. */
  const AdminName := "admin"
  const AdminPassword := "123456"
  const AdminUser: Json := Obj([("id", Num(1)), ("username", Str(AdminName)), ("name", Str("管理员"))])
  const BadCredentials := "用户名或密码错误"

  datatype LoginResult = LoginOk | LoginFailed(error: string)

  /**
   * Why `login` fails for these credentials, or None when it succeeds:
   * only username 'admin' with password '123456' (both strings) pass;
   * reading `username` of null throws a TypeError, which login catches too.
   */
  function CredentialError(credentials: Json): (r: Option<string>)
    ensures r.None? <==> (credentials != Null
      && Field(credentials, "username") == Some(Str(AdminName))
      && Field(credentials, "password") == Some(Str(AdminPassword)))
    ensures credentials == Null ==> r == Some(EngineTypeError)
    ensures credentials != Null && r.Some? ==> r == Some(BadCredentials)
  {
    if credentials == Null then Some(EngineTypeError)
    else if Field(credentials, "username") == Some(Str(AdminName))
         && Field(credentials, "password") == Some(Str(AdminPassword))
    then None
    else Some(BadCredentials)
  }

  /**
   * What `initAuth` reads from storage: the user to hydrate with, when a
   * non-empty saved user exists and the flag is exactly 'true'. Parsing the
   * saved user can throw; `Some(SyntaxError(_))` is that case.
   */
  function SavedSession(items: map<string, string>, parse: Parse): (r: Option<Parsed>)
    ensures r.Some? <==> (UserKey in items && items[UserKey] != ""
      && LoggedInKey in items && items[LoggedInKey] == "true")
    ensures r.Some? ==> r.value == parse(items[UserKey])
  {
    if UserKey in items && items[UserKey] != "" && LoggedInKey in items && items[LoggedInKey] == "true"
    then Some(parse(items[UserKey]))
    else None
  }

  class AuthStore {
    var isLoggedIn: bool
    var user: Json
    var loading: bool
    var error: string

    constructor ()
      ensures !isLoggedIn && user == Null && !loading && error == ""
    {
      isLoggedIn, user, loading, error := false, Null, false, "";
    }

    /**
     * `login(credentials)`: on success the admin user is set and persisted
     * with the flag 'true'; on failure only `error` changes. Either way
     * `loading` ends false.
     */
    method Login(credentials: Json, storage: LocalStorage, stringify: Stringify) returns (r: LoginResult)
      modifies this, storage
      ensures r.LoginOk? <==> CredentialError(credentials).None?
      ensures !loading
      ensures r.LoginOk? ==> (user == AdminUser && isLoggedIn && error == ""
        && storage.items == old(storage.items)[UserKey := stringify(AdminUser)][LoggedInKey := "true"])
      ensures r.LoginFailed? ==> (r.error == CredentialError(credentials).value && error == r.error
        && user == old(user) && isLoggedIn == old(isLoggedIn) && storage.items == old(storage.items))
    {
      loading := true;
      error := "";
      var failure := CredentialError(credentials);
      if failure.None? {
        user := AdminUser;
        isLoggedIn := true;
        storage.SetItem(UserKey, stringify(user));
        storage.SetItem(LoggedInKey, "true");
        r := LoginOk;
      } else {
        error := failure.value;
        r := LoginFailed(failure.value);
      }
      loading := false;
    }

    /** `logout()`: clears the user, the flag and the error; removes `user` and `isLoggedIn`, not `token`. */
    method Logout(storage: LocalStorage)
      modifies this, storage
      ensures user == Null && !isLoggedIn && error == "" && loading == old(loading)
      ensures storage.items == old(storage.items) - {UserKey, LoggedInKey}
    {
      user := Null;
      isLoggedIn := false;
      error := "";
      storage.RemoveItem(UserKey);
      storage.RemoveItem(LoggedInKey);
    }

    /**
     * `initAuth()`: hydrates from storage when `SavedSession` finds a session;
     * `ok` is false when parsing the saved user threw, which leaves the state
     * as it was. Storage is only read.
     */
    method InitAuth(storage: LocalStorage, parse: Parse) returns (ok: bool)
      modifies this
      ensures loading == old(loading) && error == old(error)
      ensures ok <==> !(SavedSession(storage.items, parse).Some? && SavedSession(storage.items, parse).value.SyntaxError?)
      ensures (user, isLoggedIn) == Hydrate(old(user), old(isLoggedIn), storage.items, parse)
    {
      var savedUser := storage.GetItem(UserKey);
      var savedLoginStatus := storage.GetItem(LoggedInKey);
      ok := true;
      if StoredTruthy(savedUser) && savedLoginStatus == Some("true") {
        match parse(savedUser.value)
        case Parsed(v) =>
          user := v;
          isLoggedIn := true;
        case SyntaxError(_) =>
          ok := false;
      }
    }

    /** `clearError()`. */
    method ClearError()
      modifies this
      ensures error == "" && user == old(user) && isLoggedIn == old(isLoggedIn) && loading == old(loading)
    {
      error := "";
    }

    /**
     * `updateUser(userData)`: with a user present, `{...user, ...userData}`
     * becomes the user and is persisted; with none, nothing happens.
     */
    method UpdateUser(userData: Json, storage: LocalStorage, stringify: Stringify)
      modifies this, storage
      ensures isLoggedIn == old(isLoggedIn) && loading == old(loading) && error == old(error)
      ensures !Truthy(old(user)) ==> user == old(user) && storage.items == old(storage.items)
      ensures Truthy(old(user)) ==> (user == Spread(old(user), userData)
        && storage.items == old(storage.items)[UserKey := stringify(user)])
    {
      if Truthy(user) {
        user := Spread(user, userData);
        storage.SetItem(UserKey, stringify(user));
      }
    }
  }

  /**
   * The `(user, isLoggedIn)` pair `initAuth` leaves: the parsed saved user and
   * true when a session is saved and parses, the old pair otherwise.
   */
  function Hydrate(user: Json, isLoggedIn: bool, items: map<string, string>, parse: Parse): (r: (Json, bool))
    ensures SavedSession(items, parse).Some? && SavedSession(items, parse).value.Parsed? ==>
      r == (SavedSession(items, parse).value.value, true)
    ensures !(SavedSession(items, parse).Some? && SavedSession(items, parse).value.Parsed?) ==>
      r == (user, isLoggedIn)
  {
    match SavedSession(items, parse)
    case Some(Parsed(v)) => (v, true)
    case _ => (user, isLoggedIn)
  }

  /** `initAuth` reads storage without writing it, so running it twice is running it once. */
  lemma HydrateIdempotent(user: Json, isLoggedIn: bool, items: map<string, string>, parse: Parse)
    ensures var once := Hydrate(user, isLoggedIn, items, parse);
      Hydrate(once.0, once.1, items, parse) == once
  {
  }

  /**
   * What a successful login stores is what `initAuth` reads back: as long as
   * the serialized admin user is non-empty and parsing undoes stringifying,
   * a reload restores the admin user as logged in.
   */
  lemma LoginThenHydrate(items: map<string, string>, parse: Parse, stringify: Stringify, user: Json, isLoggedIn: bool)
    requires stringify(AdminUser) != ""
    requires parse(stringify(AdminUser)) == Parsed(AdminUser)
    ensures Hydrate(user, isLoggedIn, items[UserKey := stringify(AdminUser)][LoggedInKey := "true"], parse)
      == (AdminUser, true)
  {
    var stored := items[UserKey := stringify(AdminUser)][LoggedInKey := "true"];
    assert UserKey != LoggedInKey;
    assert stored[UserKey] == stringify(AdminUser);
  }

  /** After logout no session is saved, so `initAuth` leaves the logged-out state alone. */
  lemma LogoutThenHydrate(items: map<string, string>, parse: Parse)
    ensures Hydrate(Null, false, items - {UserKey, LoggedInKey}, parse) == (Null, false)
  {
  }
}
