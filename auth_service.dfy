/** AuthService: registration with a unique email, login against a stored
    password hash, and the password-reset token that is issued for 24 hours
    and consumed by a reset. Hashing, verification, JWT signing and the
    random reset token are calls the model receives as parameters. */
module AuthService {
  import opened Common
  import opened Entities
  import opened Sequences
  import opened Data

  /** BCrypt.Verify either answers or throws (a malformed hash, say). */
  datatype VerifyOutcome = Verified(matches: bool) | Threw

  datatype RegisterRequest = RegisterRequest(email: string, password: string, firstName: string, lastName: string)

  datatype LoginRequest = LoginRequest(email: string, password: string)

  datatype LoginResponse = LoginResponse(token: string, email: string, firstName: string, lastName: string, role: string)

  datatype PasswordResetConfirm = PasswordResetConfirm(token: string, newPassword: string)

  /** DateTime.AddHours(24), in seconds. */
  const ResetTokenLifetime: int := 24 * 60 * 60

  function EmailTaken(): Error { InvalidOperation("User with this email already exists") }
  function BadCredentials(): Error { Unauthorized("Invalid email or password") }
  function BadResetToken(): Error { InvalidOperation("Invalid or expired reset token") }

  // ---------------------------------------------------------------------
  // Lookups
  // ---------------------------------------------------------------------

  /** FindAsync(u => u.Email == email).FirstOrDefault(), as a position. */
  function FindUserByEmail(users: seq<User>, email: string): (r: Option<nat>)
    ensures r.None? <==> forall k :: 0 <= k < |users| ==> users[k].email != email
    ensures r.Some? ==> r.value < |users| && users[r.value].email == email
    ensures r.Some? ==> forall k :: 0 <= k < r.value ==> users[k].email != email
  {
    FirstIndex(users, (u: User) => u.email == email)
  }

  /** The user holds this reset token and it expires strictly after now. */
  predicate HoldsLiveToken(u: User, token: string, now: Time)
  {
    u.passwordResetToken == Some(token)
    && u.passwordResetTokenExpiry.Some? && u.passwordResetTokenExpiry.value > now
  }

  /** FindAsync(u => u.PasswordResetToken == token && u.PasswordResetTokenExpiry > now)
      .FirstOrDefault(), as a position. */
  function FindUserByToken(users: seq<User>, token: string, now: Time): (r: Option<nat>)
    ensures r.None? <==> forall k :: 0 <= k < |users| ==> !HoldsLiveToken(users[k], token, now)
    ensures r.Some? ==> r.value < |users| && HoldsLiveToken(users[r.value], token, now)
    ensures r.Some? ==> forall k :: 0 <= k < r.value ==> !HoldsLiveToken(users[k], token, now)
  {
    FirstIndex(users, (u: User) => HoldsLiveToken(u, token, now))
  }

  // ---------------------------------------------------------------------
  // Register and login
  // ---------------------------------------------------------------------

  /** VerifyPassword: a verifier that throws counts as a mismatch. */
  predicate PasswordMatches(verify: (string, string) -> VerifyOutcome, password: string, hash: string)
  {
    match verify(password, hash)
    case Verified(matches) => matches
    case Threw => false
  }

  function Response(user: User, jwt: User -> string): (r: LoginResponse)
    ensures r.token == jwt(user) && r.email == user.email && r.role == RoleName(user.role)
    ensures r.firstName == user.firstName && r.lastName == user.lastName
  {
    LoginResponse(jwt(user), user.email, user.firstName, user.lastName, RoleName(user.role))
  }

  /** The user RegisterAsync stores: a confirmed customer with the hash of the
      password and no reset token. */
  function NewUser(id: Guid, request: RegisterRequest, passwordHash: string, now: Time): (u: User)
    ensures u.id == id && u.email == request.email && u.passwordHash == passwordHash
    ensures u.firstName == request.firstName && u.lastName == request.lastName
    ensures u.role == Customer && u.isEmailConfirmed
    ensures u.passwordResetToken.None? && u.passwordResetTokenExpiry.None?
    ensures u.createdAt == now && u.updatedAt.None?
  {
    User(id, request.email, passwordHash, request.firstName, request.lastName, Customer, true, None, None, now, None)
  }

  /** RegisterAsync: an email already on file is refused; otherwise exactly
      one user is added and signed in. */
  method Register(db: Database, request: RegisterRequest, newId: Guid, hash: string -> string,
                  jwt: User -> string, now: Time) returns (r: Result<LoginResponse>)
    requires db.Valid()
    modifies db
    ensures db.Valid()
    ensures unchanged(db`products, db`carts, db`orders, db`payments, db`addresses)
    ensures FindUserByEmail(old(db.users), request.email).Some? ==>
      r == Err(EmailTaken()) && db.users == old(db.users)
    ensures FindUserByEmail(old(db.users), request.email).None? ==>
      var user := NewUser(newId, request, hash(request.password), now);
      db.users == old(db.users) + [user] && r == Ok(Response(user, jwt))
  {
    var existing := FindUserByEmail(db.users, request.email);
    if existing.Some? {
      return Err(EmailTaken());
    }
    var user := NewUser(newId, request, hash(request.password), now);
    db.users := db.users + [user];
    r := Ok(Response(user, jwt));
  }

  /** The outcome of LoginAsync: the first user with the email, if the
      password verifies against that user's hash. */
  function Authenticate(users: seq<User>, request: LoginRequest, verify: (string, string) -> VerifyOutcome,
                        jwt: User -> string): (r: Result<LoginResponse>)
    ensures r.Ok? <==>
      && FindUserByEmail(users, request.email).Some?
      && PasswordMatches(verify, request.password, users[FindUserByEmail(users, request.email).value].passwordHash)
    ensures r.Err? ==> r.error == BadCredentials()
    ensures r.Ok? ==> r.value == Response(users[FindUserByEmail(users, request.email).value], jwt)
  {
    match FindUserByEmail(users, request.email)
    case None => Err(BadCredentials())
    case Some(k) =>
      if PasswordMatches(verify, request.password, users[k].passwordHash) then Ok(Response(users[k], jwt))
      else Err(BadCredentials())
  }

  /** LoginAsync: looks the user up by email and checks the password; an
      unknown email and a wrong password give the same error. */
  method Login(db: Database, request: LoginRequest, verify: (string, string) -> VerifyOutcome,
               jwt: User -> string) returns (r: Result<LoginResponse>)
    ensures r == Authenticate(db.users, request, verify, jwt)
    ensures r.Ok? ==> r.value.email == request.email
  {
    var found := FindUserByEmail(db.users, request.email);
    if found.None? {
      return Err(BadCredentials());
    }
    var user := db.users[found.value];
    var ok := PasswordMatches(verify, request.password, user.passwordHash);
    if !ok {
      return Err(BadCredentials());
    }
    r := Ok(Response(user, jwt));
  }

  /** A user who has just registered can log in with the same password, as
      long as the verifier accepts a password against its own hash. */
  lemma RegisterThenLogin(users: seq<User>, request: RegisterRequest, newId: Guid, hash: string -> string,
                          verify: (string, string) -> VerifyOutcome, jwt: User -> string, now: Time)
    requires FindUserByEmail(users, request.email).None?
    requires verify(request.password, hash(request.password)) == Verified(true)
    ensures
      var user := NewUser(newId, request, hash(request.password), now);
      Authenticate(users + [user], LoginRequest(request.email, request.password), verify, jwt)
        == Ok(Response(user, jwt))
  {
    var user := NewUser(newId, request, hash(request.password), now);
    var after := users + [user];
    assert after[|users|].email == request.email;
    assert FindUserByEmail(after, request.email) == Some(|users|);
  }

  // ---------------------------------------------------------------------
  // Password reset
  // ---------------------------------------------------------------------

  /** The user with a reset token issued now, valid for 24 hours. */
  function WithResetToken(u: User, token: string, now: Time): (r: User)
    ensures r.passwordResetToken == Some(token) && r.passwordResetTokenExpiry == Some(now + ResetTokenLifetime)
    ensures r == u.(passwordResetToken := r.passwordResetToken, passwordResetTokenExpiry := r.passwordResetTokenExpiry)
  {
    u.(passwordResetToken := Some(token), passwordResetTokenExpiry := Some(now + ResetTokenLifetime))
  }

  /** RequestPasswordResetAsync: an unknown email changes nothing; otherwise
      the first user with the email, and no other, gets a fresh token. */
  method RequestPasswordReset(db: Database, email: string, token: string, now: Time)
    requires db.Valid()
    modifies db
    ensures db.Valid()
    ensures unchanged(db`products, db`carts, db`orders, db`payments, db`addresses)
    ensures match FindUserByEmail(old(db.users), email)
      case None => db.users == old(db.users)
      case Some(k) => db.users == old(db.users)[k := WithResetToken(old(db.users)[k], token, now)]
  {
    var found := FindUserByEmail(db.users, email);
    if found.Some? {
      var k := found.value;
      var user := db.users[k];
      user := user.(passwordResetToken := Some(token));
      user := user.(passwordResetTokenExpiry := Some(now + ResetTokenLifetime));
      db.users := db.users[k := user];
    }
  }

  /** The user once the password is reset: the new hash, no token. */
  function AfterReset(u: User, passwordHash: string, now: Time): (r: User)
    ensures r.passwordHash == passwordHash
    ensures r.passwordResetToken.None? && r.passwordResetTokenExpiry.None?
    ensures r.updatedAt == Some(now)
    ensures r == u.(passwordHash := passwordHash, passwordResetToken := None,
                    passwordResetTokenExpiry := None, updatedAt := Some(now))
  {
    u.(passwordHash := passwordHash, passwordResetToken := None, passwordResetTokenExpiry := None, updatedAt := Some(now))
  }

  /** ResetPasswordAsync: the first user holding the token, unexpired, gets
      the new password's hash and loses the token; without such a user the
      reset fails and nothing changes. */
  method ResetPassword(db: Database, request: PasswordResetConfirm, hash: string -> string, now: Time)
    returns (r: Outcome)
    requires db.Valid()
    modifies db
    ensures db.Valid()
    ensures unchanged(db`products, db`carts, db`orders, db`payments, db`addresses)
    ensures match FindUserByToken(old(db.users), request.token, now)
      case None => r == Outcome.Failed(BadResetToken()) && db.users == old(db.users)
      case Some(k) =>
        r == Done && db.users == old(db.users)[k := AfterReset(old(db.users)[k], hash(request.newPassword), now)]
  {
    var found := FindUserByToken(db.users, request.token, now);
    if found.None? {
      return Outcome.Failed(BadResetToken());
    }
    var k := found.value;
    var user := db.users[k];
    user := user.(passwordHash := hash(request.newPassword));
    user := user.(passwordResetToken := None);
    user := user.(passwordResetTokenExpiry := None);
    user := user.(updatedAt := Some(now));
    db.users := db.users[k := user];
    r := Done;
  }

  /** A token issued at `issued` resets the password of the user it was
      issued to at any time before it expires, and at no time after, as
      long as no earlier user holds the same token. */
  lemma IssuedTokenWorksUntilExpiry(users: seq<User>, k: nat, token: string, issued: Time, now: Time)
    requires k < |users|
    requires forall j :: 0 <= j < k ==> users[j].passwordResetToken != Some(token)
    ensures var after := users[k := WithResetToken(users[k], token, issued)];
      && (now < issued + ResetTokenLifetime ==> FindUserByToken(after, token, now) == Some(k))
      && (now >= issued + ResetTokenLifetime ==> FindUserByToken(after, token, now) != Some(k))
  {
    var after := users[k := WithResetToken(users[k], token, issued)];
    assert forall j :: 0 <= j < k ==> !HoldsLiveToken(after[j], token, now);
    if now < issued + ResetTokenLifetime {
      assert HoldsLiveToken(after[k], token, now);
    }
  }

  /** A reset consumes the token: the user whose password was reset holds no
      token, so the same token finds that user no more, and finds nobody if
      no one else held it. */
  lemma ResetConsumesToken(users: seq<User>, k: nat, token: string, passwordHash: string, now: Time, later: Time)
    requires k < |users|
    ensures FindUserByToken(users[k := AfterReset(users[k], passwordHash, now)], token, later) != Some(k)
    ensures (forall j :: 0 <= j < |users| && j != k ==> users[j].passwordResetToken != Some(token)) ==>
      FindUserByToken(users[k := AfterReset(users[k], passwordHash, now)], token, later).None?
  {
    var after := users[k := AfterReset(users[k], passwordHash, now)];
    assert !HoldsLiveToken(after[k], token, later);
    if forall j :: 0 <= j < |users| && j != k ==> users[j].passwordResetToken != Some(token) {
      forall j | 0 <= j < |after| ensures !HoldsLiveToken(after[j], token, later) {
        if j != k {
          assert after[j] == users[j];
        }
      }
    }
  }

  /** After a reset the user logs in with the new password, as long as the
      verifier accepts a password against its own hash. */
  lemma ResetThenLogin(users: seq<User>, k: nat, newPassword: string, hash: string -> string,
                       verify: (string, string) -> VerifyOutcome, jwt: User -> string, now: Time)
    requires k < |users| && EmailsUnique(users)
    requires verify(newPassword, hash(newPassword)) == Verified(true)
    ensures var after := users[k := AfterReset(users[k], hash(newPassword), now)];
      Authenticate(after, LoginRequest(users[k].email, newPassword), verify, jwt) == Ok(Response(after[k], jwt))
  {
    var after := users[k := AfterReset(users[k], hash(newPassword), now)];
    assert after[k].email == users[k].email;
    assert forall j :: 0 <= j < |after| && j != k ==> after[j].email != users[k].email;
    assert FindUserByEmail(after, users[k].email) == Some(k);
  }
}
