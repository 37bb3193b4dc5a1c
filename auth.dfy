/**
 * The authentication store. Nothing is checked against a server: login always
 * succeeds with the demo user, whose address is the one typed if any.
 */
module Auth {
  import opened Wrappers

  datatype User = User(id: string, name: string, email: string, avatar: string)

  const DemoEmail := "demo@smarthomehub.com"
  const DemoAvatar := "https://images.pexels.com/photos/614810/pexels-photo-614810.jpeg?auto=compress&cs=tinysrgb&w=150"

  /** The user `login(email, …)` signs in: the demo user, under `email || DemoEmail`. */
  function LoginUser(email: string): (u: User)
    ensures u.id == "1" && u.name == "Demo User" && u.avatar == DemoAvatar
    ensures email != "" ==> u.email == email
    ensures email == "" ==> u.email == DemoEmail
    ensures u.email != ""
  {
    User("1", "Demo User", if email != "" then email else DemoEmail, DemoAvatar)
  }

  class AuthStore {
    var isAuthenticated: bool
    var user: Option<User>

    /** The store starts signed in as the demo user. */
    constructor ()
      ensures isAuthenticated && user == Some(LoginUser(""))
    {
      isAuthenticated := true;
      user := Some(LoginUser(""));
    }

    /** `login(email, password)`: the password is ignored and the result is always true. */
    method Login(email: string, password: string) returns (ok: bool)
      modifies this
      ensures ok && isAuthenticated
      ensures user == Some(LoginUser(email))
    {
      isAuthenticated, user := true, Some(LoginUser(email));
      ok := true;
    }

    /** `logout()`. */
    method Logout()
      modifies this
      ensures !isAuthenticated && user == None
    {
      isAuthenticated, user := false, None;
    }

    /** `checkAuth()`: reports true and leaves the state alone. */
    method CheckAuth() returns (ok: bool)
      ensures ok
    {
      ok := true;
    }
  }
}
