/**
 * The authentication store: the current user, whether someone is signed in,
 * and whether a sign-in is under way. `login` and `register` are simulated:
 * each first marks the store as loading and, after a delay, signs in a user
 * with id "1" built from its arguments.
 */
module Auth {
  import opened Wrappers
  import Text

  datatype User = User(id: string, email: string, name: string, avatar: Option<string>, createdAt: int)

  /** `email.split('@')[0]`: the text before the first `@`, or the whole address. */
  function NameFromEmail(email: string): (name: string)
    ensures '@' !in name
    ensures name <= email
    ensures '@' in email ==> name + "@" <= email
    ensures name == email <==> '@' !in email
  {
    Text.SplitFirstPiece(email, '@');
    Text.Split(email, '@')[0]
  }

  /** The user `login` signs in. */
  function LoginUser(email: string, now: int): User {
    User("1", email, NameFromEmail(email), None, now)
  }

  /** The user `register` signs in. */
  function RegisteredUser(email: string, name: string, now: int): User {
    User("1", email, name, None, now)
  }

  class AuthStore {
    var user: Option<User>
    var isAuthenticated: bool
    var isLoading: bool

    /** Signed in exactly when there is a user. */
    ghost predicate Valid()
      reads this
    {
      isAuthenticated <==> user.Some?
    }

    constructor ()
      ensures Valid()
      ensures user.None? && !isAuthenticated && !isLoading
    {
      user := None;
      isAuthenticated := false;
      isLoading := false;
    }

    /** The first step of `login` and `register`: only the loading flag is set. */
    method BeginRequest()
      requires Valid()
      modifies this
      ensures Valid()
      ensures isLoading
      ensures user == old(user) && isAuthenticated == old(isAuthenticated)
    {
      isLoading := true;
    }

    /** The step after the delay: the user is signed in and loading is over. */
    method CompleteSignIn(u: User)
      modifies this
      ensures Valid()
      ensures user == Some(u) && isAuthenticated && !isLoading
    {
      user := Some(u);
      isAuthenticated := true;
      isLoading := false;
    }

    /** `login(email, password)`; the password is not looked at. */
    method Login(email: string, password: string, now: int)
      requires Valid()
      modifies this
      ensures Valid()
      ensures user == Some(LoginUser(email, now)) && isAuthenticated && !isLoading
    {
      BeginRequest();
      CompleteSignIn(LoginUser(email, now));
    }

    /** `register(email, password, name)`; the password is not looked at. */
    method Register(email: string, password: string, name: string, now: int)
      requires Valid()
      modifies this
      ensures Valid()
      ensures user == Some(RegisteredUser(email, name, now)) && isAuthenticated && !isLoading
    {
      BeginRequest();
      CompleteSignIn(RegisteredUser(email, name, now));
    }

    /** `logout()`: signs out but leaves the loading flag as it is. */
    method Logout()
      modifies this
      ensures Valid()
      ensures user.None? && !isAuthenticated && isLoading == old(isLoading)
    {
      user := None;
      isAuthenticated := false;
    }

    /** `setUser(user)`: signed in exactly when a user is given. */
    method SetUser(u: Option<User>)
      modifies this
      ensures Valid()
      ensures user == u && isAuthenticated == u.Some? && isLoading == old(isLoading)
    {
      user := u;
      isAuthenticated := u.Some?;
    }
  }

  /**
   * For an address `local@rest` with no `@` in `local` the derived name is
   * `local`, whatever `rest` holds, further `@` signs included.
   */
  lemma LoginNameIsLocalPart(local: string, rest: string)
    requires '@' !in local
    ensures NameFromEmail(local + "@" + rest) == local
  {
    Text.SplitPrefix(local, "@" + rest, '@');
    assert local + "@" + rest == local + ("@" + rest);
  }
}
