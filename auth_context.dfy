/** The client-side session of the React app: the current `user` (or none) and its
    persisted copy under the `mlrit_user` key of local storage. The one-second
    delay of the mock login and the `fetch` of signup are not part of this model;
    signup receives the outcome of its request as a parameter. */
module AuthContext {
  import opened Text

  /** The `User` of the client. `userType` is one of 'student', 'staff',
      'outsider', 'admin' when the value comes from this app. */
  datatype User = User(id: string, name: string, email: string, userType: string, profilePic: Option<string>)

  /** The user the mock `login` makes up for an email. */
  function MockUser(email: string): (u: User)
    ensures u.id == "1" && u.email == email && u.profilePic == None
    ensures u.userType == "admin" <==> Includes(email, "admin")
    ensures u.userType == "student" <==> !Includes(email, "admin")
    ensures u.name == "Admin User" <==> Includes(email, "admin")
    ensures u.name == "John Doe" <==> !Includes(email, "admin")
  {
    var admin := Includes(email, "admin");
    User("1", if admin then "Admin User" else "John Doe", email, if admin then "admin" else "student", None)
  }

  /** What the signup request ended in: an ok response with the `user` of its body,
      a response that is not ok, or a thrown exception. */
  datatype SignupResponse = ResponseOk(user: User) | ResponseNotOk(status: int) | RequestThrew

  class Session {
    var user: Option<User>
    /** The `mlrit_user` entry of local storage. */
    var persisted: Option<User>

    /** The provider before its mount effect ran: no user yet, storage as found. */
    constructor (stored: Option<User>)
      ensures user == None && persisted == stored
    {
      user := None;
      persisted := stored;
    }

    /** `isAuthenticated`: `!!user`. */
    function IsAuthenticated(): bool
      reads this
    {
      user.Some?
    }

    /** The mount effect: a stored session becomes the current user. */
    method Restore()
      modifies this
      ensures persisted == old(persisted)
      ensures user == if old(persisted).Some? then old(persisted) else old(user)
    {
      if persisted.Some? {
        user := persisted;
      }
    }

    /** The mock `login`: any non-empty email and password succeed. */
    method Login(email: string, password: string) returns (ok: bool)
      modifies this
      ensures ok <==> email != "" && password != ""
      ensures ok ==> user == Some(MockUser(email)) && persisted == user
      ensures !ok ==> user == old(user) && persisted == old(persisted)
      ensures ok ==> IsAuthenticated()
    {
      if email != "" && password != "" {
        var u := MockUser(email);
        user := Some(u);
        persisted := Some(u);
        return true;
      }
      return false;
    }

    method LoginWithGoogle(u: User)
      modifies this
      ensures user == Some(u) && persisted == Some(u) && IsAuthenticated()
    {
      user := Some(u);
      persisted := Some(u);
    }

    /** `signup`: only an ok response logs the new user in. */
    method Signup(response: SignupResponse) returns (ok: bool)
      modifies this
      ensures ok <==> response.ResponseOk?
      ensures ok ==> user == Some(response.user) && persisted == user
      ensures !ok ==> user == old(user) && persisted == old(persisted)
    {
      if response.ResponseOk? {
        user := Some(response.user);
        persisted := Some(response.user);
        return true;
      }
      return false;
    }

    method Logout()
      modifies this
      ensures user == None && persisted == None && !IsAuthenticated()
    {
      user := None;
      persisted := None;
    }
  }

  /** A session that logs in, reloads the page and restores from storage ends with
      the same user; after logout a reload finds nobody. */
  method LoginSurvivesReload(email: string, password: string) returns (before: Option<User>, after: Option<User>, afterLogout: Option<User>)
    requires email != "" && password != ""
    ensures before == after == Some(MockUser(email))
    ensures afterLogout == None
  {
    var s := new Session(None);
    var ok := s.Login(email, password);
    before := s.user;
    var reloaded := new Session(s.persisted);
    reloaded.Restore();
    after := reloaded.user;
    s.Logout();
    var again := new Session(s.persisted);
    again.Restore();
    afterLogout := again.user;
  }
}
