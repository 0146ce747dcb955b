/**
 * The login form component (`FakeAuthentication`): credentials are looked
 * up in a fixed user table, a match writes the session and routes by role,
 * anything else shows an error.
 */
module LoginForm {
  import opened Options
  import opened Session

  /** The component's own credential table. */
  const Users: seq<User> := [
    User("admin", "admin", "admin"),
    User("user1", "user1", "user")
  ]

  /** Both fields equal, compared exactly (case-sensitively). */
  predicate Matches(u: User, username: string, password: string) {
    u.username == username && u.password == password
  }

  /** `users.find(...)`: the first entry whose username and password both match. */
  function Find(users: seq<User>, username: string, password: string): (r: Option<User>)
    ensures r.None? <==> forall i :: 0 <= i < |users| ==> !Matches(users[i], username, password)
    ensures r.Some? ==> exists i :: 0 <= i < |users| && users[i] == r.value && Matches(r.value, username, password)
                                    && forall j :: 0 <= j < i ==> !Matches(users[j], username, password)
  {
    if users == [] then None
    else if Matches(users[0], username, password) then Some(users[0])
    else
      var r := Find(users[1..], username, password);
      assert forall i :: 1 <= i < |users| ==> users[i] == users[1..][i - 1];
      r
  }

  /** What `handleLogin` does for a username and password. */
  function Decide(username: string, password: string): (d: LoginDecision)
    ensures d.Reject? ==> d.message == InvalidCredentials
    ensures d.Accept? ==> d.route == RouteForRole(d.role)
  {
    match Find(Users, username, password)
    case Some(u) => Accept(u.role, u.username, RouteForRole(u.role))
    case None => Reject(InvalidCredentials)
  }

  /** Login succeeds exactly when some table entry matches both fields, and then stores that entry's role and name. */
  lemma DecideAcceptsIff(username: string, password: string)
    ensures Decide(username, password).Accept? <==> exists i :: 0 <= i < |Users| && Matches(Users[i], username, password)
    ensures Decide(username, password).Accept? ==>
              exists i :: 0 <= i < |Users| && Matches(Users[i], username, password)
                          && Decide(username, password).role == Users[i].role
                          && Decide(username, password).username == username
  {
  }

  /** Usernames in the table are distinct, so at most one entry can match. */
  lemma AtMostOneMatch(i: int, j: int, username: string, password: string)
    requires 0 <= i < |Users| && 0 <= j < |Users|
    requires Matches(Users[i], username, password) && Matches(Users[j], username, password)
    ensures i == j
  {
  }

  /** The comparison is case-sensitive: a differently-cased username is refused. */
  lemma CaseSensitive()
    ensures Decide("Admin", "admin") == Reject(InvalidCredentials)
  {
    assert !Matches(Users[0], "Admin", "admin");
    assert !Matches(Users[1], "Admin", "admin");
  }

  /** The form's state: the two inputs and the error line. */
  class FakeAuthentication {
    var username: string
    var password: string
    var error: string

    constructor ()
      ensures username == "" && password == "" && error == ""
    {
      username, password, error := "", "", "";
    }

    method SetUsername(value: string)
      modifies this`username
      ensures username == value
    {
      username := value;
    }

    method SetPassword(value: string)
      modifies this`password
      ensures password == value
    {
      password := value;
    }

    /**
     * `handleLogin`: on a match, three storage writes and a route by role;
     * otherwise the error text, with storage and route untouched.
     */
    method HandleLogin(storage: LocalStorage) returns (route: Option<Route>)
      modifies this`error, storage
      ensures Decide(username, password).Accept? ==>
                && storage.items == WithSession(old(storage.items), Decide(username, password).role, Decide(username, password).username)
                && route == Some(Decide(username, password).route)
                && error == old(error)
      ensures Decide(username, password).Reject? ==>
                && storage.items == old(storage.items)
                && route == None
                && error == InvalidCredentials
    {
      var user := Find(Users, username, password);
      if user.Some? {
        storage.SetItem(IsLoggedInKey, "true");
        storage.SetItem(UserRoleKey, user.value.role);
        storage.SetItem(UsernameKey, user.value.username);
        if user.value.role == "admin" {
          route := Some(AdminRoute);
        } else {
          route := Some(DashboardRoute);
        }
      } else {
        error := InvalidCredentials;
        route := None;
      }
    }
  }
}
