/** The user lifecycle of the backend: registration creates a record pending
    email verification, verification consumes the emailed token, and login
    issues a session token only to a verified account.

    The password hasher, the password verifier, the session-token issuer and
    the mail sender are not part of this model; each handler receives them as
    function parameters and the model says nothing about what they compute.
    The clock, the random verification token and the identity the store
    assigns to a new record are parameters as well. */
module Users {
  import opened Common
  import opened Validators

  /** The identity of a user record, in its textual form. */
  type Id = string

  /** A stored user document. A field the store may lack is an Option. */
  datatype UserRecord = UserRecord(
    username: string,
    email: string,
    hashedPassword: Option<string>,
    isEmailVerified: bool,
    verificationToken: Option<string>,
    verificationTokenExpires: Option<Time>,
    createdAt: Time,
    emailVerifiedAt: Option<Time>)

  /** The public profile returned to clients: no password, no token. */
  datatype UserResponse = UserResponse(
    id: Id,
    username: string,
    email: string,
    createdAt: Time,
    emailVerifiedAt: Option<Time>,
    isEmailVerified: bool)

  datatype LoginResponse = LoginResponse(accessToken: string, tokenType: string, user: UserResponse)

  /** What the success page of the verification link shows. */
  datatype Greeting = Greeting(username: string, email: string)

  /** The states of a registered account. */
  datatype UserState = PendingVerification | Verified

  /** A verification token stays usable for 24 hours. */
  const VerificationLifetime: int := 24 * MillisPerHour
  /** A session token is issued for 60 minutes. */
  const SessionLifetimeMinutes: int := 60
  const BearerTokenType: string := "bearer"

  const EmailRegistered: HttpError := HttpError(400, "Email has been registered")
  const UsernameInUse: HttpError := HttpError(400, "Username already in use")
  const DuplicateAccount: HttpError := HttpError(400, "Email or username already exists!")
  const VerificationFailed: HttpError := HttpError(400, "The verification link is invalid or has expired.")
  const IncorrectCredentials: HttpError := HttpError(400, "Incorrect email or password!")
  const MissingPassword: HttpError := HttpError(500, "User data error: missing password!")
  const EmailNotVerified: HttpError :=
    HttpError(403, "Please verify your email before logging in. Check your inbox for verification.")

  function StateOf(rec: UserRecord): UserState {
    if rec.isEmailVerified then Verified else PendingVerification
  }

  /** The token fields and the verification time agree with the state: a
      pending account holds a token and its expiry, a verified one holds
      neither and records when it was verified. */
  predicate LifecycleConsistent(rec: UserRecord) {
    match StateOf(rec)
    case PendingVerification =>
      rec.verificationToken.Some? && rec.verificationTokenExpires.Some? && rec.emailVerifiedAt.None?
    case Verified =>
      rec.verificationToken.None? && rec.verificationTokenExpires.None? && rec.emailVerifiedAt.Some?
  }

  /** The verification lookup: the record holds this token and the token's
      expiry is strictly later than now. */
  predicate Consumable(rec: UserRecord, token: string, now: Time) {
    && rec.verificationToken == Some(token)
    && rec.verificationTokenExpires.Some?
    && rec.verificationTokenExpires.value > now
  }

  /** The record registration inserts. */
  function PendingRecord(username: string, email: string, hashed: string, token: string, now: Time): (rec: UserRecord)
    ensures StateOf(rec) == PendingVerification && LifecycleConsistent(rec)
    ensures rec.username == username && rec.email == email && rec.hashedPassword == Some(hashed)
    ensures rec.createdAt == now
    ensures forall t :: Consumable(rec, token, t) <==> t < now + VerificationLifetime
    ensures forall other, t :: other != token ==> !Consumable(rec, other, t)
  {
    UserRecord(username, email, Some(hashed), false, Some(token), Some(now + VerificationLifetime), now, None)
  }

  /** The update a successful verification applies to the matched record. */
  function MarkVerified(rec: UserRecord, now: Time): (rec': UserRecord)
    ensures StateOf(rec') == Verified && LifecycleConsistent(rec')
    ensures rec'.emailVerifiedAt == Some(now)
    ensures rec'.username == rec.username && rec'.email == rec.email
    ensures rec'.hashedPassword == rec.hashedPassword && rec'.createdAt == rec.createdAt
    ensures forall token, t :: !Consumable(rec', token, t)
  {
    rec.(isEmailVerified := true, verificationToken := None, verificationTokenExpires := None,
         emailVerifiedAt := Some(now))
  }

  function Profile(id: Id, rec: UserRecord): UserResponse {
    UserResponse(id, rec.username, rec.email, rec.createdAt, rec.emailVerifiedAt, rec.isEmailVerified)
  }

  /** The checks login runs on the record found for the email, in their order:
      missing hash, wrong password, unverified account. */
  function LoginChecks(id: Id, rec: UserRecord, password: string,
                       verifyPassword: (string, string) -> bool,
                       createAccessToken: (string, int) -> string): (r: Result<LoginResponse>)
    ensures rec.hashedPassword.None? ==> r == Err(MissingPassword)
    ensures rec.hashedPassword.Some? && !verifyPassword(password, rec.hashedPassword.value) ==>
              r == Err(IncorrectCredentials)
    ensures rec.hashedPassword.Some? && verifyPassword(password, rec.hashedPassword.value) && !rec.isEmailVerified ==>
              r == Err(EmailNotVerified)
    ensures r.Ok? <==>
              rec.hashedPassword.Some? && verifyPassword(password, rec.hashedPassword.value) && StateOf(rec) == Verified
    ensures r.Ok? ==>
              && r.value.tokenType == BearerTokenType
              && r.value.accessToken == createAccessToken(id, SessionLifetimeMinutes)
              && r.value.user.id == id && r.value.user.isEmailVerified
              && r.value.user == Profile(id, rec)
  {
    if rec.hashedPassword.None? then Err(MissingPassword)
    else if !verifyPassword(password, rec.hashedPassword.value) then Err(IncorrectCredentials)
    else if !rec.isEmailVerified then Err(EmailNotVerified)
    else Ok(LoginResponse(createAccessToken(id, SessionLifetimeMinutes), BearerTokenType, Profile(id, rec)))
  }

  // ---------------------------------------------------------------------
  // The directory and its invariant
  // ---------------------------------------------------------------------

  predicate EmailTaken(users: map<Id, UserRecord>, email: string) {
    exists id :: id in users && users[id].email == email
  }

  predicate UsernameTaken(users: map<Id, UserRecord>, username: string) {
    exists id :: id in users && users[id].username == username
  }

  predicate TokenInUse(users: map<Id, UserRecord>, token: string) {
    exists id :: id in users && users[id].verificationToken == Some(token)
  }

  /** Emails are unique, usernames are unique, a pending token belongs to one
      record, and every record's token fields agree with its state. */
  predicate DirectoryInvariant(users: map<Id, UserRecord>) {
    && (forall a, b :: a in users && b in users && users[a].email == users[b].email ==> a == b)
    && (forall a, b :: a in users && b in users && users[a].username == users[b].username ==> a == b)
    && (forall a, b ::
          (a in users && b in users && users[a].verificationToken.Some? &&
           users[a].verificationToken == users[b].verificationToken) ==> a == b)
    && (forall id :: id in users ==> LifecycleConsistent(users[id]))
  }

  /** Inserting a pending record whose email, username and token are all new
      keeps the invariant. */
  lemma InsertPendingKeepsInvariant(users: map<Id, UserRecord>, newId: Id, rec: UserRecord)
    requires DirectoryInvariant(users) && newId !in users
    requires StateOf(rec) == PendingVerification && LifecycleConsistent(rec)
    requires !EmailTaken(users, rec.email) && !UsernameTaken(users, rec.username)
    requires !TokenInUse(users, rec.verificationToken.value)
    ensures DirectoryInvariant(users[newId := rec])
  {
    assert forall id :: id in users ==> users[id].email != rec.email;
    assert forall id :: id in users ==> users[id].username != rec.username;
    assert forall id :: id in users ==> users[id].verificationToken != rec.verificationToken;
  }

  /** Verifying the record that holds a consumable token keeps the invariant,
      and afterwards no record holds that token: the link works once. */
  lemma MarkVerifiedKeepsInvariant(users: map<Id, UserRecord>, id: Id, token: string, now: Time)
    requires DirectoryInvariant(users) && id in users && Consumable(users[id], token, now)
    ensures DirectoryInvariant(users[id := MarkVerified(users[id], now)])
    ensures !TokenInUse(users[id := MarkVerified(users[id], now)], token)
  {
    var users' := users[id := MarkVerified(users[id], now)];
    forall a, b | a in users' && b in users' && users'[a].email == users'[b].email
      ensures a == b
    {
      assert users[a].email == users'[a].email && users[b].email == users'[b].email;
    }
    forall a, b | a in users' && b in users' && users'[a].username == users'[b].username
      ensures a == b
    {
      assert users[a].username == users'[a].username && users[b].username == users'[b].username;
    }
    forall a | a in users' ensures users'[a].verificationToken != Some(token) {
      if a != id {
        assert users[a].verificationToken != users[id].verificationToken;
      }
    }
  }

  // ---------------------------------------------------------------------
  // The handlers
  // ---------------------------------------------------------------------

  /** Both validators accept the registration input. */
  predicate InputAccepted(username: string, password: string) {
    ValidateUsername(username).ok && ValidatePassword(password).ok
  }

  /** The user collection and the three handlers that read and change it. */
  class UserDirectory {
    var users: map<Id, UserRecord>

    ghost predicate Valid()
      reads this
    {
      DirectoryInvariant(users)
    }

    constructor ()
      ensures Valid() && users == map[]
    {
      users := map[];
    }

    /** Registration. The username is validated before the password; then
        one record matching the username or the email is looked up (when an
        email matches one record and the username another, either may be
        found), and a match on the email is reported before a match on the
        username. Otherwise a pending record is inserted unless the store
        rejects it as a duplicate key, and the verification email is sent;
        the sender's outcome is discarded. */
    method Register(username: string, email: string, password: string, now: Time,
                    token: string, newId: Id, hashPassword: string -> string,
                    sendVerificationEmail: (string, string) -> bool, insertRejected: bool)
      returns (r: Result<UserResponse>)
      requires Valid()
      requires newId !in users
      requires !TokenInUse(users, token)
      modifies this
      ensures Valid()
      ensures r.Err? ==> users == old(users)
      ensures !ValidateUsername(username).ok ==>
                r == Err(HttpError(400, ValidateUsername(username).message))
      ensures ValidateUsername(username).ok && !ValidatePassword(password).ok ==>
                r == Err(HttpError(400, ValidatePassword(password).message))
      ensures (InputAccepted(username, password) && EmailTaken(old(users), email) &&
               !UsernameTaken(old(users), username)) ==> r == Err(EmailRegistered)
      ensures (InputAccepted(username, password) && !EmailTaken(old(users), email) &&
               UsernameTaken(old(users), username)) ==> r == Err(UsernameInUse)
      ensures (InputAccepted(username, password) && EmailTaken(old(users), email) &&
               UsernameTaken(old(users), username)) ==> r == Err(EmailRegistered) || r == Err(UsernameInUse)
      ensures InputAccepted(username, password) &&
              (exists id :: id in old(users) && old(users)[id].email == email && old(users)[id].username == username) ==>
                r == Err(EmailRegistered)
      ensures (InputAccepted(username, password) && !EmailTaken(old(users), email) &&
               !UsernameTaken(old(users), username) && insertRejected) ==> r == Err(DuplicateAccount)
      ensures (InputAccepted(username, password) && !EmailTaken(old(users), email) &&
               !UsernameTaken(old(users), username) && !insertRejected) ==>
                && users == old(users)[newId := PendingRecord(username, email, hashPassword(password), token, now)]
                && r == Ok(UserResponse(newId, username, email, now, None, false))
    {
      var nameCheck := ValidateUsername(username);
      if !nameCheck.ok {
        return Err(HttpError(400, nameCheck.message));
      }
      var passwordCheck := ValidatePassword(password);
      if !passwordCheck.ok {
        return Err(HttpError(400, passwordCheck.message));
      }
      if existing :| existing in users && (users[existing].username == username || users[existing].email == email) {
        if users[existing].email == email {
          return Err(EmailRegistered);
        }
        return Err(UsernameInUse);
      }
      var hashed := hashPassword(password);
      var record := PendingRecord(username, email, hashed, token, now);
      if insertRejected {
        return Err(DuplicateAccount);
      }
      InsertPendingKeepsInvariant(users, newId, record);
      users := users[newId := record];
      var _ := sendVerificationEmail(email, token);
      r := Ok(Profile(newId, record));
    }

    /** Email verification: find a record holding the token with an expiry
        later than now; if there is none, fail without telling a wrong token
        from an expired one; otherwise mark that record verified and clear
        its token. */
    method VerifyEmail(token: string, now: Time) returns (r: Result<Greeting>)
      requires Valid()
      modifies this
      ensures Valid()
      ensures r.Ok? <==> exists id :: id in old(users) && Consumable(old(users)[id], token, now)
      ensures r.Err? ==> r.error == VerificationFailed && users == old(users)
      ensures r.Ok? ==>
                exists id ::
                  && id in old(users) && Consumable(old(users)[id], token, now)
                  && users == old(users)[id := MarkVerified(old(users)[id], now)]
                  && r.value == Greeting(old(users)[id].username, old(users)[id].email)
      ensures r.Ok? ==> !TokenInUse(users, token)
      ensures forall id :: id in users ==> !Consumable(users[id], token, now)
    {
      if id :| id in users && Consumable(users[id], token, now) {
        var found := users[id];
        MarkVerifiedKeepsInvariant(users, id, token, now);
        users := users[id := MarkVerified(found, now)];
        r := Ok(Greeting(found.username, found.email));
      } else {
        r := Err(VerificationFailed);
      }
    }

    /** Login: an unknown email and a wrong password give the same error;
        a record without a password hash is a server error; a correct
        password on an unverified account is refused with 403. The
        directory is only read. */
    method Login(email: string, password: string, verifyPassword: (string, string) -> bool,
                 createAccessToken: (string, int) -> string) returns (r: Result<LoginResponse>)
      ensures !EmailTaken(users, email) ==> r == Err(IncorrectCredentials)
      ensures EmailTaken(users, email) ==>
                exists id :: id in users && users[id].email == email &&
                  r == LoginChecks(id, users[id], password, verifyPassword, createAccessToken)
      ensures r.Ok? ==> exists id :: id in users && users[id].email == email && StateOf(users[id]) == Verified
      ensures (forall id :: id in users && users[id].email == email ==>
                 users[id].hashedPassword.Some? && !verifyPassword(password, users[id].hashedPassword.value)) ==>
                r == Err(IncorrectCredentials)
    {
      if id :| id in users && users[id].email == email {
        r := LoginChecks(id, users[id], password, verifyPassword, createAccessToken);
      } else {
        r := Err(IncorrectCredentials);
      }
    }
  }

  /** The sample registration input passes both validators. */
  lemma SampleInputAccepted()
    ensures InputAccepted("alice", "Abcd123!")
  {
    assert IsLetter("alice"[0]);
    var p := "Abcd123!";
    assert IsUpper(p[0]) && IsLower(p[1]) && IsDigit(p[4]) && IsSpecial(p[7]);
    assert forall i :: 0 <= i < |PasswordRules| ==> Holds(p, PasswordRules[i]);
  }

  /** The whole lifecycle of one account, from an empty directory, for any
      input the validators accept (such as the sample above): registration,
      then a login refused because the email is unverified, then the rest of
      the lifecycle below. */
  method LifecycleScenario(username: string, email: string, password: string, token: string, id: Id,
                           hashPassword: string -> string, verifyPassword: (string, string) -> bool,
                           createAccessToken: (string, int) -> string,
                           sendVerificationEmail: (string, string) -> bool, now: Time)
    returns (registered: Result<UserResponse>, early: Result<LoginResponse>,
             verified: Result<Greeting>, login: Result<LoginResponse>, reuse: Result<Greeting>)
    requires InputAccepted(username, password)
    requires verifyPassword(password, hashPassword(password))
    ensures registered == Ok(UserResponse(id, username, email, now, None, false))
    ensures early == Err(EmailNotVerified)
    ensures verified == Ok(Greeting(username, email))
    ensures login.Ok? && login.value.tokenType == BearerTokenType
    ensures login.Ok? && login.value.accessToken == createAccessToken(id, SessionLifetimeMinutes)
    ensures login.Ok? && login.value.user.isEmailVerified && login.value.user.emailVerifiedAt == Some(now + MillisPerMinute)
    ensures reuse == Err(VerificationFailed)
  {
    var directory := new UserDirectory();
    registered := directory.Register(username, email, password, now, token, id,
                                     hashPassword, sendVerificationEmail, false);
    var pending := PendingRecord(username, email, hashPassword(password), token, now);
    assert directory.users == map[id := pending];
    early := directory.Login(email, password, verifyPassword, createAccessToken);
    verified, login, reuse := VerifyThenLogin(directory, pending, id, password, token,
                                              verifyPassword, createAccessToken, now);
  }

  /** The second half of the lifecycle, on a directory holding one pending
      account: verification with its token a minute after registration, a
      successful login, and a second use of the token that fails. */
  method VerifyThenLogin(directory: UserDirectory, pending: UserRecord, id: Id, password: string, token: string,
                         verifyPassword: (string, string) -> bool,
                         createAccessToken: (string, int) -> string, now: Time)
    returns (verified: Result<Greeting>, login: Result<LoginResponse>, reuse: Result<Greeting>)
    requires directory.Valid() && directory.users == map[id := pending]
    requires pending.hashedPassword.Some? && verifyPassword(password, pending.hashedPassword.value)
    requires pending.verificationToken == Some(token) && pending.verificationTokenExpires == Some(now + VerificationLifetime)
    requires StateOf(pending) == PendingVerification
    modifies directory
    ensures verified == Ok(Greeting(pending.username, pending.email))
    ensures login.Ok? && login.value.tokenType == BearerTokenType
    ensures login.Ok? && login.value.accessToken == createAccessToken(id, SessionLifetimeMinutes)
    ensures login.Ok? && login.value.user.isEmailVerified && login.value.user.emailVerifiedAt == Some(now + MillisPerMinute)
    ensures reuse == Err(VerificationFailed)
  {
    assert Consumable(directory.users[id], token, now + MillisPerMinute);
    verified := directory.VerifyEmail(token, now + MillisPerMinute);
    assert directory.users == map[id := MarkVerified(pending, now + MillisPerMinute)];
    ghost var done := MarkVerified(pending, now + MillisPerMinute);
    assert directory.users[id] == done && done.email == pending.email;
    login := directory.Login(pending.email, password, verifyPassword, createAccessToken);
    assert login == LoginChecks(id, done, password, verifyPassword, createAccessToken);
    reuse := directory.VerifyEmail(token, now + 2 * MillisPerMinute);
  }
}
