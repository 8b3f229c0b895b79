/**
 * The two pieces of browser state the application touches: `localStorage`,
 * a string-to-string store, and `window.location`, whose path changes when
 * the application assigns `href`.
 */
module Browser {
  import opened Json

  /** The three keys that hold a session: the bearer token, the serialized user and the login flag. */
  const TokenKey := "token"
  const UserKey := "user"
  const LoggedInKey := "isLoggedIn"
  const SessionKeys: set<string> := {TokenKey, UserKey, LoggedInKey}

  class LocalStorage {
    var items: map<string, string>

    constructor (initial: map<string, string>)
      ensures items == initial
    {
      items := initial;
    }

    /** `getItem(key)`: the stored string, or null (None). */
    function GetItem(key: string): (r: Option<string>)
      reads this
      ensures r.Some? <==> key in items
      ensures r.Some? ==> r.value == items[key]
    {
      if key in items then Some(items[key]) else None
    }

    method SetItem(key: string, value: string)
      modifies this
      ensures items == old(items)[key := value]
    {
      items := items[key := value];
    }

    method RemoveItem(key: string)
      modifies this
      ensures items == old(items) - {key}
    {
      items := items - {key};
    }
  }

  /** The storage left once the three session keys are removed. */
  function WithoutSession(items: map<string, string>): (r: map<string, string>)
    ensures forall k :: k in r <==> k in items && k !in SessionKeys
    ensures forall k :: k in r ==> r[k] == items[k]
  {
    items - SessionKeys
  }

  /** A stored value is "truthy" when it is present and not the empty string. */
  predicate StoredTruthy(v: Option<string>)
  {
    v.Some? && v.value != ""
  }

  class Location {
    var pathname: string

    constructor (path: string)
      ensures pathname == path
    {
      pathname := path;
    }
  }
}
