/** The application provider: a single user slot that login overwrites and
    logout clears. */
module AppContext {
  import opened Values

  class AppProvider<U> {
    var user: Option<U>

    /** useState(null). */
    constructor ()
      ensures user == None
    {
      user := None;
    }

    /** login: the given user replaces whatever was held. */
    method Login(userData: U)
      modifies this
      ensures user == Some(userData)
    {
      user := Some(userData);
    }

    /** logout: no user is held afterwards, whatever was held before. */
    method Logout()
      modifies this
      ensures user == None
    {
      user := None;
    }
  }

  /** A later login overwrites an earlier one without a logout between. */
  method LoginOverwrites<U>(first: U, second: U) returns (held: Option<U>)
    ensures held == Some(second)
  {
    var p := new AppProvider<U>();
    p.Login(first);
    p.Login(second);
    held := p.user;
  }

  /** Login followed by logout gives back the initial state, and a second
      logout changes nothing. */
  method LoginThenLogout<U>(u: U) returns (initial: Option<U>, once: Option<U>, twice: Option<U>)
    ensures once == initial && twice == once
    ensures initial == None
  {
    var p := new AppProvider<U>();
    initial := p.user;
    p.Login(u);
    p.Logout();
    once := p.user;
    p.Logout();
    twice := p.user;
  }
}
