/** The holder of the current user. Only what the profile editor and the
    reminder use of it is modelled: the user, possibly absent, and its
    setter. */
module UserContext {
  import opened Types

  class UserStore {
    var user: Option<User>

    constructor (initial: Option<User>)
      ensures user == initial
    {
      user := initial;
    }

    method SetUser(u: User)
      modifies this
      ensures user == Some(u)
    {
      user := Some(u);
    }
  }
}
