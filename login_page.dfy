/**
 * The stand-alone login page: the same check as the login form, written as
 * an if/else chain over two hard-coded credential pairs.
 */
module LoginPage {
  import opened Options
  import opened Session
  import LoginForm

  /** What the page's `handleLogin` does for a username and password. */
  function Decide(username: string, password: string): (d: LoginDecision)
    ensures d.Accept? <==> (username, password) == ("admin", "admin") || (username, password) == ("user1", "user1")
    ensures d.Accept? ==> d.username == username && d.route == RouteForRole(d.role)
    ensures d.Reject? ==> d.message == InvalidCredentials
  {
    if username == "admin" && password == "admin" then Accept("admin", username, AdminRoute)
    else if username == "user1" && password == "user1" then Accept("user", username, DashboardRoute)
    else Reject(InvalidCredentials)
  }

  /** For every input pair the page and the table-driven form make the same storage writes, route and error. */
  lemma AgreesWithLoginForm(username: string, password: string)
    ensures Decide(username, password) == LoginForm.Decide(username, password)
  {
    var users := LoginForm.Users;
    if username == "admin" && password == "admin" {
      assert LoginForm.Matches(users[0], username, password);
    } else if username == "user1" && password == "user1" {
      assert !LoginForm.Matches(users[0], username, password);
      assert LoginForm.Matches(users[1], username, password);
    } else {
      assert !LoginForm.Matches(users[0], username, password);
      assert !LoginForm.Matches(users[1], username, password);
    }
  }

  class LoginPage {
    var username: string
    var password: string
    var error: string

    constructor ()
      ensures username == "" && password == "" && error == ""
    {
      username, password, error := "", "", "";
    }

    method SetUsername(value: string)
      modifies this`username
      ensures username == value
    {
      username := value;
    }

    method SetPassword(value: string)
      modifies this`password
      ensures password == value
    {
      password := value;
    }

    /** `handleLogin`: admin/admin and user1/user1 write the session and route; any other pair only sets the error. */
    method HandleLogin(storage: LocalStorage) returns (route: Option<Route>)
      modifies this`error, storage
      ensures Decide(username, password).Accept? ==>
                && storage.items == WithSession(old(storage.items), Decide(username, password).role, username)
                && route == Some(Decide(username, password).route)
                && error == old(error)
      ensures Decide(username, password).Reject? ==>
                && storage.items == old(storage.items)
                && route == None
                && error == InvalidCredentials
    {
      if username == "admin" && password == "admin" {
        storage.SetItem(IsLoggedInKey, "true");
        storage.SetItem(UserRoleKey, "admin");
        storage.SetItem(UsernameKey, username);
        route := Some(AdminRoute);
      } else if username == "user1" && password == "user1" {
        storage.SetItem(IsLoggedInKey, "true");
        storage.SetItem(UserRoleKey, "user");
        storage.SetItem(UsernameKey, username);
        route := Some(DashboardRoute);
      } else {
        error := InvalidCredentials;
        route := None;
      }
    }
  }
}
