/** The session controller: the signed-in user, the loading flag, the last error
    message and the two persisted browser-storage entries `user` and `token`.

    Each service call is replaced by its outcome, passed in as a parameter: the
    response, or the value the call threw.  JSON is replaced by two functions, a
    serializer fixed when the session is created and a parser passed to the
    start-up restore. */
module AuthContext {
  import opened Results
  import opened AuthService

  /** What a `catch` receives: an `Error` with its message, or any other value. */
  datatype Thrown = ErrorObject(message: string) | NonError

  /** The fields the session reads from a decoded Google credential. */
  datatype Claims = Claims(email: string, name: string, picture: Option<string>)

  const UserKey: string := "user"
  const TokenKey: string := "token"

  const LoginFallback: string := "Login failed. Please try again."
  const RegisterFallback: string := "Registration failed. Please try again."
  const GoogleFallback: string := "Google login failed. Please try again."
  const LogoutFallback: string := "Logout failed. Please try again."

  /** `err instanceof Error ? err.message : fallback`. */
  function ErrorText(err: Thrown, fallback: string): string
  {
    match err
    case ErrorObject(message) => message
    case NonError => fallback
  }

  /** A stored string is used only when present and non-empty (truthy). */
  predicate Truthy(storage: map<string, string>, key: string)
  {
    key in storage && storage[key] != ""
  }

  /** `decoded.picture || userData.avatar`: an absent or empty picture falls back. */
  function MergedAvatar(picture: Option<string>, avatar: Option<string>): (r: Option<string>)
    ensures r == picture || r == avatar
    ensures picture.Some? && picture.value != "" ==> r == picture
    ensures !(picture.Some? && picture.value != "") ==> r == avatar
  {
    if picture.Some? && picture.value != "" then picture else avatar
  }

  class AuthSession {
    var user: Option<User>
    var loading: bool
    var error: Option<string>
    /** The browser storage the session writes to; keys other than `user` and `token` are left alone. */
    var storage: map<string, string>
    /** JSON.stringify for a user. */
    const serialize: User -> string

    /** A signed-in user always has both entries persisted. */
    ghost predicate Valid()
      reads this
    {
      user.Some? ==> UserKey in storage && TokenKey in storage
    }

    /** The provider's first render: no user, loading, no error. */
    constructor (stored: map<string, string>, serialize: User -> string)
      ensures Valid()
      ensures user == None && loading && error == None
      ensures storage == stored && this.serialize == serialize
    {
      user := None;
      loading := true;
      error := None;
      storage := stored;
      this.serialize := serialize;
    }

    /** initializeAuth: restores the stored user when both entries are truthy; a
        parse failure removes both entries.  Loading ends in every case.  It runs once,
        when the provider mounts, so no user is signed in yet. */
    method InitializeAuth(parse: string -> Result<Option<User>, Thrown>)
      requires user == None
      modifies this
      ensures Valid()
      ensures !loading && error == old(error)
      ensures !(Truthy(old(storage), UserKey) && Truthy(old(storage), TokenKey)) ==>
        user == None && storage == old(storage)
      ensures Truthy(old(storage), UserKey) && Truthy(old(storage), TokenKey) ==>
        match parse(old(storage)[UserKey])
        case Ok(parsed) => user == parsed && storage == old(storage)
        case Err(_) => user == None && storage == old(storage) - {UserKey, TokenKey}
    {
      if Truthy(storage, UserKey) && Truthy(storage, TokenKey) {
        var parsed := parse(storage[UserKey]);
        match parsed {
          case Ok(value) =>
            user := value;
          case Err(_) =>
            storage := storage - {UserKey};
            storage := storage - {TokenKey};
        }
      }
      loading := false;
    }

    /** handleAuthSuccess: signs the user in, persists both entries, clears the error. */
    method HandleAuthSuccess(userData: User, token: string)
      modifies this
      ensures Valid()
      ensures user == Some(userData) && error == None && loading == old(loading)
      ensures storage == old(storage)[UserKey := serialize(userData)][TokenKey := token]
    {
      user := Some(userData);
      storage := storage[UserKey := serialize(userData)];
      storage := storage[TokenKey := token];
      error := None;
    }

    /** The shared shape of login and register: success signs in, failure records the
        message and hands the thrown value back to the caller. */
    method Attempt(outcome: Result<AuthResponse, Thrown>, fallback: string) returns (raised: Option<Thrown>)
      requires Valid()
      modifies this
      ensures Valid() && !loading
      ensures outcome.Ok? ==>
        && raised == None && user == Some(outcome.value.user) && error == None
        && storage == old(storage)[UserKey := serialize(outcome.value.user)][TokenKey := outcome.value.token]
      ensures outcome.Err? ==>
        && raised == Some(outcome.error) && user == old(user) && storage == old(storage)
        && error == Some(ErrorText(outcome.error, fallback))
    {
      loading := true;
      error := None;
      match outcome {
        case Ok(response) =>
          HandleAuthSuccess(response.user, response.token);
          raised := None;
        case Err(err) =>
          error := Some(ErrorText(err, fallback));
          raised := Some(err);
      }
      loading := false;
    }

    /** login, given the outcome of loginUser(email, password). */
    method Login(outcome: Result<AuthResponse, Thrown>) returns (raised: Option<Thrown>)
      requires Valid()
      modifies this
      ensures Valid() && !loading
      ensures outcome.Ok? ==>
        && raised == None && user == Some(outcome.value.user) && error == None
        && storage == old(storage)[UserKey := serialize(outcome.value.user)][TokenKey := outcome.value.token]
      ensures outcome.Err? ==>
        && raised == Some(outcome.error) && user == old(user) && storage == old(storage)
        && error == Some(ErrorText(outcome.error, LoginFallback))
    {
      raised := Attempt(outcome, LoginFallback);
    }

    /** register, given the outcome of registerUser(email, password, name). */
    method Register(outcome: Result<AuthResponse, Thrown>) returns (raised: Option<Thrown>)
      requires Valid()
      modifies this
      ensures Valid() && !loading
      ensures outcome.Ok? ==>
        && raised == None && user == Some(outcome.value.user) && error == None
        && storage == old(storage)[UserKey := serialize(outcome.value.user)][TokenKey := outcome.value.token]
      ensures outcome.Err? ==>
        && raised == Some(outcome.error) && user == old(user) && storage == old(storage)
        && error == Some(ErrorText(outcome.error, RegisterFallback))
    {
      raised := Attempt(outcome, RegisterFallback);
    }

    /** googleLogin, given the outcome of decoding the credential and, when decoding
        succeeds, the outcome of googleAuth(credential).  The stored avatar is the
        decoded picture when there is one. */
    method GoogleLogin(decoded: Result<Claims, Thrown>, outcome: Result<AuthResponse, Thrown>)
      returns (raised: Option<Thrown>)
      requires Valid()
      modifies this
      ensures Valid() && !loading
      ensures decoded.Err? ==>
        && raised == Some(decoded.error) && user == old(user) && storage == old(storage)
        && error == Some(ErrorText(decoded.error, GoogleFallback))
      ensures decoded.Ok? && outcome.Err? ==>
        && raised == Some(outcome.error) && user == old(user) && storage == old(storage)
        && error == Some(ErrorText(outcome.error, GoogleFallback))
      ensures decoded.Ok? && outcome.Ok? ==>
        var signedIn := outcome.value.user.(avatar := MergedAvatar(decoded.value.picture, outcome.value.user.avatar));
        && raised == None && user == Some(signedIn) && error == None
        && storage == old(storage)[UserKey := serialize(signedIn)][TokenKey := outcome.value.token]
    {
      loading := true;
      error := None;
      match decoded {
        case Err(err) =>
          error := Some(ErrorText(err, GoogleFallback));
          raised := Some(err);
        case Ok(claims) =>
          match outcome {
            case Err(err) =>
              error := Some(ErrorText(err, GoogleFallback));
              raised := Some(err);
            case Ok(response) =>
              var complete := response.user.(avatar := MergedAvatar(claims.picture, response.user.avatar));
              HandleAuthSuccess(complete, response.token);
              raised := None;
          }
      }
      loading := false;
    }

    /** logout, given what logoutUser threw, if anything.  Success signs out and
        removes both entries; failure only records the message and is not re-raised. */
    method Logout(thrown: Option<Thrown>)
      requires Valid()
      modifies this
      ensures Valid() && !loading
      ensures thrown.None? ==> user == None && error == None && storage == old(storage) - {UserKey, TokenKey}
      ensures thrown.Some? ==>
        user == old(user) && storage == old(storage) && error == Some(ErrorText(thrown.value, LogoutFallback))
    {
      loading := true;
      match thrown {
        case None =>
          user := None;
          storage := storage - {UserKey};
          storage := storage - {TokenKey};
          error := None;
        case Some(err) =>
          error := Some(ErrorText(err, LogoutFallback));
      }
      loading := false;
    }

    /** clearError: forgets the error and nothing else. */
    method ClearError()
      modifies this
      ensures error == None && user == old(user) && loading == old(loading) && storage == old(storage)
    {
      error := None;
    }
  }
}
