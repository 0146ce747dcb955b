/**
 * The browser session shared by the login pages and the dashboard: the
 * three `localStorage` keys they write and read, the routes they navigate
 * to, and the user record of the hard-coded credential tables.
 */
module Session {
  import opened Options

  /** The in-app routes a handler can push. */
  datatype Route = LoginRoute | DashboardRoute | AdminRoute

  const IsLoggedInKey: string := "isLoggedIn"
  const UserRoleKey: string := "userRole"
  const UsernameKey: string := "username"

  /** One entry of a hard-coded credential table. */
  datatype User = User(username: string, password: string, role: string)

  const InvalidCredentials: string := "Invalid username or password"

  /** What a login handler decides: write the session and navigate, or show an error. */
  datatype LoginDecision =
    | Accept(role: string, username: string, route: Route)
    | Reject(message: string)

  /** Role-based routing after a successful login. */
  function RouteForRole(role: string): (r: Route)
    ensures r == AdminRoute <==> role == "admin"
    ensures r != LoginRoute
  {
    if role == "admin" then AdminRoute else DashboardRoute
  }

  /** The session a successful login leaves in storage, written key by key. */
  function WithSession(items: map<string, string>, role: string, username: string): (r: map<string, string>)
    ensures r.Keys == items.Keys + {IsLoggedInKey, UserRoleKey, UsernameKey}
    ensures r[IsLoggedInKey] == "true" && r[UserRoleKey] == role && r[UsernameKey] == username
    ensures forall k :: k in items && k !in {IsLoggedInKey, UserRoleKey, UsernameKey} ==> r[k] == items[k]
  {
    items[IsLoggedInKey := "true"][UserRoleKey := role][UsernameKey := username]
  }

  /** The value stored under `key`, or `None` (JavaScript's `null`) when there is none. */
  function Lookup(items: map<string, string>, key: string): (r: Option<string>)
    ensures r.Some? <==> key in items
    ensures r.Some? ==> r.value == items[key]
  {
    if key in items then Some(items[key]) else None
  }

  /** The browser's `localStorage`: a string-to-string map changed in place. */
  class LocalStorage {
    var items: map<string, string>

    constructor (initial: map<string, string>)
      ensures items == initial
    {
      items := initial;
    }

    /** `getItem`: the stored value, or `null` when the key is absent. */
    function GetItem(key: string): (r: Option<string>)
      reads this
      ensures r == Lookup(items, key)
    {
      Lookup(items, key)
    }

    method SetItem(key: string, value: string)
      modifies this
      ensures items == old(items)[key := value]
    {
      items := items[key := value];
    }

    method RemoveItem(key: string)
      modifies this
      ensures items == old(items) - {key}
    {
      items := items - {key};
    }
  }
}
