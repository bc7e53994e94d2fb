/** The mock authentication service: a dictionary of user records keyed by user id
    (USERS_DB) and a dictionary of each user's current token (TOKENS_DB).

    The operations are first stated as functions from one database value to the
    next, which is what the lemmas talk about; the class AuthStore then performs
    them step by step on its two dictionaries and promises the state the functions
    describe.  `Date.now()` is an integer parameter. */
module AuthService {
  import opened Results
  import Text

  /** A stored user: the public fields plus the password and the federated id. */
  datatype UserRecord = UserRecord(
    id: string,
    email: string,
    name: string,
    password: string,
    avatar: Option<string>,
    googleId: Option<string>)

  /** What the service hands out: a record without password and googleId. */
  datatype User = User(id: string, email: string, name: string, avatar: Option<string>)

  datatype AuthResponse = AuthResponse(user: User, token: string)

  datatype AuthError = UserNotFound | InvalidPassword | EmailInUse | WeakPassword | InvalidToken
  {
    /** The message of the `Error` the service throws. */
    function Message(): string
    {
      match this
      case UserNotFound => "User not found"
      case InvalidPassword => "Invalid password"
      case EmailInUse => "Email already in use"
      case WeakPassword => "Password must be at least 6 characters"
      case InvalidToken => "Invalid token"
    }
  }

  /** The profile `googleAuth` makes up instead of decoding its credential. */
  datatype GoogleProfile = GoogleProfile(email: string, name: string, picture: string, sub: string)

  datatype Db = Db(users: map<string, UserRecord>, tokens: map<string, string>)

  /** The new database and the answer of a successful call. */
  datatype Answer = Answer(db: Db, response: AuthResponse)

  const MinPasswordLength: nat := 6

  /** `const { password, googleId, ...userData } = user`. */
  function Public(r: UserRecord): User
  {
    User(r.id, r.email, r.name, r.avatar)
  }

  /** `user_${Date.now()}`. */
  function UserId(now: int): string
  {
    "user_" + Text.IntToString(now)
  }

  /** generateMockToken: `mock_jwt_${userId}_${Date.now()}`. */
  function MockToken(id: string, now: int): string
  {
    "mock_jwt_" + id + "_" + Text.IntToString(now)
  }

  /** The profile built from the number of stored users and the clock. */
  function MockProfile(userCount: nat, now: int): (p: GoogleProfile)
    ensures |p.sub| > 7 && p.sub[..7] == "google_" && Text.ParseInt(p.sub[7..]) == now
    ensures |p.email| > 16 && p.email[..4] == "user" && p.email[|p.email| - 12..] == "@example.com"
    ensures Text.ParseInt(p.email[4..|p.email| - 12]) == userCount + 1
  {
    Text.IntToStringRoundTrip(now);
    Text.IntToStringRoundTrip(userCount + 1);
    var count := Text.IntToString(userCount + 1);
    var email := "user" + count + "@example.com";
    assert email[4..|email| - 12] == count;
    assert ("google_" + Text.IntToString(now))[7..] == Text.IntToString(now);
    GoogleProfile("user" + Text.IntToString(userCount + 1) + "@example.com",
                  "Google User", "https://example.com/avatar.jpg", "google_" + Text.IntToString(now))
  }

  // ---------------------------------------------------------------------------
  // the shape of tokens

  function TokenPrefix(id: string): string
  {
    "mock_jwt_" + id + "_"
  }

  /** `t` is a token minted for `id`: its prefix names `id` and no `_` follows it. */
  predicate IsTokenOf(t: string, id: string)
  {
    var n := |TokenPrefix(id)|;
    n <= |t| && t[..n] == TokenPrefix(id) && '_' !in t[n..]
  }

  lemma MockTokenIsTokenOf(id: string, now: int)
    ensures IsTokenOf(MockToken(id, now), id)
  {
    var t := MockToken(id, now);
    var n := |TokenPrefix(id)|;
    assert t == TokenPrefix(id) + Text.IntToString(now);
    assert t[n..] == Text.IntToString(now);
  }

  /** A token names one user only: the last `_` of a token ends the user id. */
  lemma TokenOfOneUser(t: string, a: string, b: string)
    requires IsTokenOf(t, a) && IsTokenOf(t, b)
    ensures a == b
  {
    var n := |TokenPrefix(a)|;
    var m := |TokenPrefix(b)|;
    assert t[n - 1] == '_' && t[m - 1] == '_';
    forall p | n <= p < |t| ensures t[p] != '_' { assert t[p] == t[n..][p - n]; }
    forall p | m <= p < |t| ensures t[p] != '_' { assert t[p] == t[m..][p - m]; }
    assert TokenPrefix(a) == TokenPrefix(b);
    assert a == TokenPrefix(a)[9..n - 1];
  }

  // ---------------------------------------------------------------------------
  // the database invariant

  /** Every record is stored under its own non-empty id, and no two records share an
      email or a googleId. */
  ghost predicate UsersWellFormed(users: map<string, UserRecord>)
  {
    && (forall id :: id in users ==> users[id].id == id && id != "")
    && (forall a, b :: a in users && b in users && users[a].email == users[b].email ==> a == b)
    && (forall a, b :: a in users && b in users && users[a].googleId.Some? && users[a].googleId == users[b].googleId ==> a == b)
  }

  /** ... and every token belongs to a stored user and was minted for that user. */
  ghost predicate ValidDb(db: Db)
  {
    && UsersWellFormed(db.users)
    && (forall id :: id in db.tokens ==> id in db.users && IsTokenOf(db.tokens[id], id))
  }

  lemma EmptyDbValid()
    ensures ValidDb(Db(map[], map[]))
  {
  }

  /** Under the invariant, no two users hold the same token. */
  lemma TokensDistinct(db: Db, a: string, b: string)
    requires ValidDb(db) && a in db.tokens && b in db.tokens && db.tokens[a] == db.tokens[b]
    ensures a == b
  {
    TokenOfOneUser(db.tokens[a], a, b);
  }

  // ---------------------------------------------------------------------------
  // lookups

  /** `Object.values(USERS_DB).find(u => u.email === email)`, as an id. */
  ghost function EmailOwner(users: map<string, UserRecord>, email: string): (o: Option<string>)
    ensures o.Some? <==> exists id :: id in users && users[id].email == email
    ensures o.Some? ==> o.value in users && users[o.value].email == email
  {
    if exists id :: id in users && users[id].email == email then
      var id :| id in users && users[id].email == email; Some(id)
    else None
  }

  /** `Object.values(USERS_DB).find(u => u.googleId === sub)`, as an id. */
  ghost function GoogleOwner(users: map<string, UserRecord>, sub: string): (o: Option<string>)
    ensures o.Some? <==> exists id :: id in users && users[id].googleId == Some(sub)
    ensures o.Some? ==> o.value in users && users[o.value].googleId == Some(sub)
  {
    if exists id :: id in users && users[id].googleId == Some(sub) then
      var id :| id in users && users[id].googleId == Some(sub); Some(id)
    else None
  }

  /** `Object.keys(TOKENS_DB).find(id => TOKENS_DB[id] === token)`. */
  ghost function TokenOwner(tokens: map<string, string>, token: string): (o: Option<string>)
    ensures o.Some? <==> exists id :: id in tokens && tokens[id] == token
    ensures o.Some? ==> o.value in tokens && tokens[o.value] == token
  {
    if exists id :: id in tokens && tokens[id] == token then
      var id :| id in tokens && tokens[id] == token; Some(id)
    else None
  }

  // ---------------------------------------------------------------------------
  // the operations on database values

  /** loginUser. */
  ghost function Login(db: Db, email: string, password: string, now: int): (r: Result<Answer, AuthError>)
    requires ValidDb(db)
    ensures r == Err(UserNotFound) <==> forall id :: id in db.users ==> db.users[id].email != email
    ensures r == Err(InvalidPassword) <==>
      exists id :: id in db.users && db.users[id].email == email && db.users[id].password != password
    ensures r.Err? ==> r.error == UserNotFound || r.error == InvalidPassword
    ensures r.Ok? ==>
      var id := r.value.response.user.id;
      && id in db.users && db.users[id].email == email && db.users[id].password == password
      && r.value.response == AuthResponse(Public(db.users[id]), MockToken(id, now))
      && r.value.db == Db(db.users, db.tokens[id := MockToken(id, now)])
  {
    match EmailOwner(db.users, email)
    case None => Err(UserNotFound)
    case Some(id) =>
      var user := db.users[id];
      if user.password != password then Err(InvalidPassword)
      else
        var token := MockToken(user.id, now);
        Ok(Answer(Db(db.users, db.tokens[user.id := token]), AuthResponse(Public(user), token)))
  }

  /** registerUser: the email check comes before the password check. */
  function Register(db: Db, email: string, password: string, name: string, now: int): (r: Result<Answer, AuthError>)
    ensures r == Err(EmailInUse) <==> exists id :: id in db.users && db.users[id].email == email
    ensures r == Err(WeakPassword) <==>
      (forall id :: id in db.users ==> db.users[id].email != email) && |password| < MinPasswordLength
    ensures r.Err? ==> r.error == EmailInUse || r.error == WeakPassword
    ensures r.Ok? ==>
      var id := UserId(now);
      && r.value.response == AuthResponse(User(id, email, name, None), MockToken(id, now))
      && r.value.db.users == db.users[id := UserRecord(id, email, name, password, None, None)]
      && r.value.db.tokens == db.tokens[id := MockToken(id, now)]
  {
    if exists id :: id in db.users && db.users[id].email == email then Err(EmailInUse)
    else if |password| < MinPasswordLength then Err(WeakPassword)
    else
      var id := UserId(now);
      var record := UserRecord(id, email, name, password, None, None);
      var token := MockToken(id, now);
      Ok(Answer(Db(db.users[id := record], db.tokens[id := token]), AuthResponse(Public(record), token)))
  }

  /** The three-step resolution of googleAuth: the users after it and the id it settles on. */
  ghost function ResolveGoogleUser(users: map<string, UserRecord>, p: GoogleProfile, now: int)
    : (res: (map<string, UserRecord>, string))
    ensures res.1 in res.0 && res.0[res.1].googleId == Some(p.sub)
    ensures res.0.Keys == users.Keys + {res.1}
    ensures GoogleOwner(users, p.sub).Some? ==> res.0 == users
    ensures GoogleOwner(users, p.sub).None? && EmailOwner(users, p.email).Some? ==>
      && res.1 in users && users[res.1].email == p.email
      && res.0 == users[res.1 := users[res.1].(googleId := Some(p.sub), avatar := Some(p.picture))]
    ensures GoogleOwner(users, p.sub).None? && EmailOwner(users, p.email).None? ==>
      && res.1 == UserId(now)
      && res.0 == users[res.1 := UserRecord(res.1, p.email, p.name, "", Some(p.picture), Some(p.sub))]
  {
    match GoogleOwner(users, p.sub)
    case Some(id) => (users, id)
    case None =>
      match EmailOwner(users, p.email)
      case Some(id) => (users[id := users[id].(googleId := Some(p.sub), avatar := Some(p.picture))], id)
      case None =>
        var id := UserId(now);
        (users[id := UserRecord(id, p.email, p.name, "", Some(p.picture), Some(p.sub))], id)
  }

  /** googleAuth: it never fails; the credential plays no part. */
  ghost function GoogleSignIn(db: Db, now: int): (r: Answer)
    requires ValidDb(db)
    ensures (r.db.users, r.response.user.id) == ResolveGoogleUser(db.users, MockProfile(|db.users|, now), now)
    ensures var id := r.response.user.id;
      && id in r.db.users && r.response == AuthResponse(Public(r.db.users[id]), MockToken(id, now))
      && r.db.tokens == db.tokens[id := MockToken(id, now)]
  {
    var resolved := ResolveGoogleUser(db.users, MockProfile(|db.users|, now), now);
    var users := resolved.0;
    var id := resolved.1;
    var token := MockToken(id, now);
    Answer(Db(users, db.tokens[id := token]), AuthResponse(Public(users[id]), token))
  }

  /** verifyToken: the public record of the user whose current token is `token`. */
  ghost function VerifyToken(db: Db, token: string): (r: Result<User, AuthError>)
    requires ValidDb(db)
    ensures r.Ok? <==> exists id :: id in db.tokens && db.tokens[id] == token
    ensures r.Ok? ==>
      r.value.id in db.tokens && db.tokens[r.value.id] == token && r.value == Public(db.users[r.value.id])
    ensures r.Err? ==> r.error == InvalidToken
  {
    match TokenOwner(db.tokens, token)
    case None => Err(InvalidToken)
    case Some(id) =>
      if id == "" || id !in db.users then Err(InvalidToken) else Ok(Public(db.users[id]))
  }

  // ---------------------------------------------------------------------------
  // what the operations preserve and how they fit together

  lemma LoginKeepsValid(db: Db, email: string, password: string, now: int)
    requires ValidDb(db) && Login(db, email, password, now).Ok?
    ensures ValidDb(Login(db, email, password, now).value.db)
  {
    var id := Login(db, email, password, now).value.response.user.id;
    MockTokenIsTokenOf(id, now);
  }

  lemma RegisterKeepsValid(db: Db, email: string, password: string, name: string, now: int)
    requires ValidDb(db) && UserId(now) !in db.users
    requires Register(db, email, password, name, now).Ok?
    ensures ValidDb(Register(db, email, password, name, now).value.db)
  {
    MockTokenIsTokenOf(UserId(now), now);
  }

  /** Google sign-in keeps the invariant when the clock gives an unused user id. */
  lemma GoogleKeepsValid(db: Db, now: int)
    requires ValidDb(db) && UserId(now) !in db.users
    ensures ValidDb(GoogleSignIn(db, now).db)
  {
    var r := GoogleSignIn(db, now);
    var p := MockProfile(|db.users|, now);
    var resolved := ResolveGoogleUser(db.users, p, now);
    ResolveKeepsWellFormed(db.users, p, now);
    MockTokenIsTokenOf(resolved.1, now);
    assert r.db == Db(resolved.0, db.tokens[resolved.1 := MockToken(resolved.1, now)]);
  }

  /** Linking or creating the account keeps ids, emails and googleIds unique. */
  lemma ResolveKeepsWellFormed(users: map<string, UserRecord>, p: GoogleProfile, now: int)
    requires UsersWellFormed(users) && UserId(now) !in users
    ensures UsersWellFormed(ResolveGoogleUser(users, p, now).0)
  {
    var res := ResolveGoogleUser(users, p, now);
    if GoogleOwner(users, p.sub).None? {
      assert forall u :: u in users ==> users[u].googleId != Some(p.sub);
      if EmailOwner(users, p.email).None? {
        assert forall u :: u in users ==> users[u].email != p.email;
        assert res.1 == UserId(now) != "";
      }
    }
  }

  /** Google sign-in adds at most one user and never removes one. */
  lemma GoogleUserCount(db: Db, now: int)
    requires ValidDb(db)
    ensures db.users.Keys <= GoogleSignIn(db, now).db.users.Keys
    ensures |db.users| <= |GoogleSignIn(db, now).db.users| <= |db.users| + 1
  {
    var resolved := ResolveGoogleUser(db.users, MockProfile(|db.users|, now), now);
    assert resolved.0.Keys == db.users.Keys + {resolved.1};
  }

  /** An account created by registerUser can log in with the same email and password,
      and login returns the user registration returned. */
  lemma RegisterThenLogin(db: Db, email: string, password: string, name: string, t1: int, t2: int)
    requires ValidDb(db) && UserId(t1) !in db.users
    requires Register(db, email, password, name, t1).Ok?
    ensures var reg := Register(db, email, password, name, t1).value;
      ValidDb(reg.db) &&
      var log := Login(reg.db, email, password, t2);
      log.Ok? && log.value.response.user == reg.response.user
  {
    RegisterKeepsValid(db, email, password, name, t1);
    var reg := Register(db, email, password, name, t1).value;
    var id := UserId(t1);
    assert id in reg.db.users && reg.db.users[id].email == email;
  }

  /** The token a successful login hands out verifies to the user it returned. */
  lemma LoginTokenVerifies(db: Db, email: string, password: string, now: int)
    requires ValidDb(db) && Login(db, email, password, now).Ok?
    ensures var a := Login(db, email, password, now).value;
      ValidDb(a.db) && VerifyToken(a.db, a.response.token) == Ok(a.response.user)
  {
    LoginKeepsValid(db, email, password, now);
    var a := Login(db, email, password, now).value;
    var v := VerifyToken(a.db, a.response.token);
    var id := a.response.user.id;
    assert id in a.db.tokens && a.db.tokens[id] == a.response.token;
    TokensDistinct(a.db, id, v.value.id);
  }

  /** The token registration hands out verifies to the new user. */
  lemma RegisterTokenVerifies(db: Db, email: string, password: string, name: string, now: int)
    requires ValidDb(db) && UserId(now) !in db.users
    requires Register(db, email, password, name, now).Ok?
    ensures var a := Register(db, email, password, name, now).value;
      ValidDb(a.db) && VerifyToken(a.db, a.response.token) == Ok(a.response.user)
  {
    RegisterKeepsValid(db, email, password, name, now);
    var a := Register(db, email, password, name, now).value;
    var v := VerifyToken(a.db, a.response.token);
    var id := UserId(now);
    assert id in a.db.tokens && a.db.tokens[id] == a.response.token;
    TokensDistinct(a.db, id, v.value.id);
  }

  /** Once a login gives a user a token different from their previous one, the
      previous token no longer verifies, for that user or for anyone. */
  lemma SupersededTokenRejected(db: Db, email: string, password: string, now: int)
    requires ValidDb(db) && Login(db, email, password, now).Ok?
    requires var a := Login(db, email, password, now).value;
      a.response.user.id in db.tokens && db.tokens[a.response.user.id] != a.response.token
    ensures var a := Login(db, email, password, now).value;
      ValidDb(a.db) && VerifyToken(a.db, db.tokens[a.response.user.id]) == Err(InvalidToken)
  {
    LoginKeepsValid(db, email, password, now);
    var a := Login(db, email, password, now).value;
    var id := a.response.user.id;
    var old_token := db.tokens[id];
    forall other | other in a.db.tokens ensures a.db.tokens[other] != old_token {
      if other != id && a.db.tokens[other] == old_token {
        TokenOfOneUser(old_token, id, other);
      }
    }
  }

  // ---------------------------------------------------------------------------
  // the store

  /** USERS_DB and TOKENS_DB, both starting empty. */
  class AuthStore {
    var users: map<string, UserRecord>
    var tokens: map<string, string>

    ghost function Contents(): Db
      reads this
    {
      Db(users, tokens)
    }

    ghost predicate Valid()
      reads this
    {
      ValidDb(Contents())
    }

    constructor ()
      ensures Valid() && users == map[] && tokens == map[]
    {
      users := map[];
      tokens := map[];
    }

    /** loginUser: on success only TOKENS_DB[user.id] changes; on failure nothing does. */
    method LoginUser(email: string, password: string, now: int) returns (r: Result<AuthResponse, AuthError>)
      requires Valid()
      modifies this
      ensures Valid()
      ensures var o := Login(old(Contents()), email, password, now);
        && (o.Ok? ==> r == Ok(o.value.response) && Contents() == o.value.db)
        && (o.Err? ==> r == Err(o.error) && Contents() == old(Contents()))
    {
      ghost var before := Contents();
      if !exists id :: id in users && users[id].email == email {
        return Err(UserNotFound);
      }
      var id :| id in users && users[id].email == email;
      var user := users[id];
      if user.password != password {
        return Err(InvalidPassword);
      }
      var token := MockToken(user.id, now);
      tokens := tokens[user.id := token];
      r := Ok(AuthResponse(Public(user), token));
      LoginKeepsValid(before, email, password, now);
    }

    /** registerUser; the clock must give an id not in use. */
    method RegisterUser(email: string, password: string, name: string, now: int)
      returns (r: Result<AuthResponse, AuthError>)
      requires Valid() && UserId(now) !in users
      modifies this
      ensures Valid()
      ensures var o := Register(old(Contents()), email, password, name, now);
        && (o.Ok? ==> r == Ok(o.value.response) && Contents() == o.value.db)
        && (o.Err? ==> r == Err(o.error) && Contents() == old(Contents()))
    {
      ghost var before := Contents();
      if exists u :: u in users && users[u].email == email {
        return Err(EmailInUse);
      }
      if |password| < MinPasswordLength {
        return Err(WeakPassword);
      }
      var id := UserId(now);
      var newUser := UserRecord(id, email, name, password, None, None);
      users := users[id := newUser];
      var token := MockToken(id, now);
      tokens := tokens[id := token];
      r := Ok(AuthResponse(Public(newUser), token));
      RegisterKeepsValid(before, email, password, name, now);
    }

    /** googleAuth; the credential is not read, and the clock must give an id not in use. */
    method GoogleAuth(credential: string, now: int) returns (r: AuthResponse)
      requires Valid() && UserId(now) !in users
      modifies this
      ensures Valid()
      ensures var o := GoogleSignIn(old(Contents()), now);
        r == o.response && Contents() == o.db
    {
      ghost var before := Contents();
      var profile := MockProfile(|users|, now);
      var id: string;
      if exists u :: u in users && users[u].googleId == Some(profile.sub) {
        id :| id in users && users[id].googleId == Some(profile.sub);
        assert id == GoogleOwner(users, profile.sub).value;
      } else if exists u :: u in users && users[u].email == profile.email {
        id :| id in users && users[id].email == profile.email;
        assert id == EmailOwner(users, profile.email).value;
        users := users[id := users[id].(googleId := Some(profile.sub), avatar := Some(profile.picture))];
      } else {
        id := UserId(now);
        users := users[id := UserRecord(id, profile.email, profile.name, "", Some(profile.picture), Some(profile.sub))];
      }
      assert (users, id) == ResolveGoogleUser(before.users, profile, now);
      var user := users[id];
      var token := MockToken(user.id, now);
      tokens := tokens[user.id := token];
      r := AuthResponse(Public(user), token);
      GoogleKeepsValid(before, now);
    }

    /** logoutUser: no token is invalidated, so both dictionaries are left as they are. */
    method LogoutUser()
      requires Valid()
      ensures Valid() && Contents() == old(Contents())
    {
    }

    /** verifyToken: a read-only reverse lookup. */
    method VerifyTokenOf(token: string) returns (r: Result<User, AuthError>)
      requires Valid()
      ensures r == VerifyToken(Contents(), token)
    {
      if !exists id :: id in tokens && tokens[id] == token {
        return Err(InvalidToken);
      }
      var id :| id in tokens && tokens[id] == token;
      TokensDistinct(Contents(), id, TokenOwner(tokens, token).value);
      if id == "" || id !in users {
        return Err(InvalidToken);
      }
      r := Ok(Public(users[id]));
    }
  }
}
