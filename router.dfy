/**
 * The navigation guard of the router (src/router/index.js): before every
 * route change the authentication store is hydrated from storage, then the
 * navigation proceeds, or is redirected to 'login' or to 'home'. The route
 * table is the one of src/router/base.routes.js.
 */
module Router {
  import opened Json
  import opened Browser
  import AuthState

  /** One matched route record; `meta` is {} when the record declares none. */
  datatype RouteRecord = RouteRecord(name: Option<string>, meta: Json)

  /** The target route: its name and every record it matches, outermost first. */
  datatype Target = Target(name: Option<string>, matched: seq<RouteRecord>)

  /** What the guard passes to `next`: nothing (proceed) or `{ name }`. */
  datatype Nav = Proceed | RedirectTo(name: string)

  const LoginName := "login"
  const HomeName := "home"

  /** `record.meta.requiresAuth` is truthy. */
  predicate MarksAuth(record: RouteRecord)
  {
    var flag := Field(record.meta, "requiresAuth");
    flag.Some? && Truthy(flag.value)
  }

  /** `to.matched.some(record => record.meta.requiresAuth)`. */
  function RequiresAuth(matched: seq<RouteRecord>): (b: bool)
    ensures b <==> exists i :: 0 <= i < |matched| && MarksAuth(matched[i])
  {
    if matched == [] then false
    else MarksAuth(matched[0]) || RequiresAuth(matched[1..])
  }

  /**
   * The guard's choice once `isLoggedIn` is known: a route needing
   * authentication sends a logged-out visitor to 'login', the login page
   * sends a logged-in visitor 'home', and everything else proceeds.
   */
  function Decide(to: Target, isLoggedIn: bool): (nav: Nav)
    ensures nav == RedirectTo(LoginName) <==> RequiresAuth(to.matched) && !isLoggedIn
    ensures nav == RedirectTo(HomeName) <==>
      !(RequiresAuth(to.matched) && !isLoggedIn) && to.name == Some(LoginName) && isLoggedIn
    ensures nav == Proceed <==>
      !(RequiresAuth(to.matched) && !isLoggedIn) && !(to.name == Some(LoginName) && isLoggedIn)
  {
    if RequiresAuth(to.matched) && !isLoggedIn then RedirectTo(LoginName)
    else if to.name == Some(LoginName) && isLoggedIn then RedirectTo(HomeName)
    else Proceed
  }

  /**
   * `router.beforeEach`: `initAuth()` runs first, and the decision is taken
   * on the logged-in flag it leaves.
   */
  method BeforeEach(to: Target, auth: AuthState.AuthStore, storage: LocalStorage, parse: Parse) returns (nav: Nav)
    modifies auth
    ensures (auth.user, auth.isLoggedIn) == AuthState.Hydrate(old(auth.user), old(auth.isLoggedIn), storage.items, parse)
    ensures auth.loading == old(auth.loading) && auth.error == old(auth.error)
    ensures nav == Decide(to, AuthState.Hydrate(old(auth.user), old(auth.isLoggedIn), storage.items, parse).1)
  {
    var _ := auth.InitAuth(storage, parse);
    nav := Decide(to, auth.isLoggedIn);
  }

  // ---------------------------------------------------------------------------
  // The route table
  // ---------------------------------------------------------------------------

  /** The '/auth' layout record and the '/' layout record, which requires authentication. */
  const AuthLayout := RouteRecord(None, Obj([]))
  const MainLayout := RouteRecord(None, Obj([("requiresAuth", Bool(true))]))

  /** The child routes of the main layout. */
  const MainChildren := ["home", "userprofile", "chat", "welcome", "usersettings", "contactus"]

  /** The target a navigation by name resolves to in the route table, if the name exists. */
  function Resolve(name: string): (t: Option<Target>)
    ensures t.Some? ==> t.value.name == Some(name)
    ensures t.Some? <==> name == LoginName || name in MainChildren
  {
    if name == LoginName then Some(Target(Some(name), [AuthLayout, RouteRecord(Some(name), Obj([]))]))
    else if name in MainChildren then Some(Target(Some(name), [MainLayout, RouteRecord(Some(name), Obj([]))]))
    else None
  }

  /** Exactly the pages under the main layout need authentication; the login page does not. */
  lemma RouteTableAuth(name: string)
    requires Resolve(name).Some?
    ensures RequiresAuth(Resolve(name).value.matched) <==> name != LoginName
  {
    var matched := Resolve(name).value.matched;
    if name == LoginName {
      assert !MarksAuth(matched[0]) && !MarksAuth(matched[1]);
    } else {
      assert MarksAuth(matched[0]);
    }
  }

  /**
   * No redirect loop: whatever the guard redirects to exists in the table
   * and, with the login state unchanged, is let through on the next guard run.
   */
  lemma RedirectSettles(to: Target, isLoggedIn: bool)
    requires Decide(to, isLoggedIn).RedirectTo?
    ensures Resolve(Decide(to, isLoggedIn).name).Some?
    ensures Decide(Resolve(Decide(to, isLoggedIn).name).value, isLoggedIn) == Proceed
  {
    var target := Decide(to, isLoggedIn).name;
    RouteTableAuth(target);
  }

  /** A logged-out visit to the login page proceeds; a logged-in one is sent home. */
  lemma LoginPage(isLoggedIn: bool)
    ensures Decide(Resolve(LoginName).value, isLoggedIn) == if isLoggedIn then RedirectTo(HomeName) else Proceed
  {
    RouteTableAuth(LoginName);
  }
}
