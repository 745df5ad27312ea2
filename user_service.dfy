/** The account operations: registration, the login gate with its resend
    cooldown, token consumption, forgotten and reset passwords, and the
    ownership check. */
module Users {
  import opened Outcomes
  import opened VerificationTokens
  import opened Mail
  import opened Registration
  import opened Accounts
  import opened Text

  /** One hour in milliseconds: the verification-email resend cooldown. */
  const ResendCooldownMillis: int := 60 * 60 * 1000

  /** The resend decision at login: no token at all, or the FIRST (oldest)
      token in the list created strictly before `now` minus one hour. */
  function ShouldResend(tokens: seq<Token>, now: int): bool
  {
    tokens == [] || tokens[0].createdTimestamp < now - ResendCooldownMillis
  }

  /** A token created exactly one hour ago does not trigger a resend; one
      created a millisecond earlier does. */
  lemma ResendBoundary(t: Token, rest: seq<Token>, now: int)
    ensures t.createdTimestamp == now - ResendCooldownMillis ==> !ShouldResend([t] + rest, now)
    ensures t.createdTimestamp == now - ResendCooldownMillis - 1 ==> ShouldResend([t] + rest, now)
  {
  }

  /** Appending a token to a non-empty list never changes the decision:
      only the oldest token is read. Once that token is over an hour old,
      every later login of the still unverified user sends another email,
      with no cooldown. (An empty list always resends, and gaining its
      first token can turn that off.) */
  lemma ResendReadsOnlyOldestToken(tokens: seq<Token>, t: Token, now: int, later: int)
    requires tokens != []
    ensures ShouldResend(tokens + [t], now) == ShouldResend(tokens, now)
    ensures ShouldResend(tokens, now) && now <= later ==> ShouldResend(tokens + [t], later)
  {
    assert (tokens + [t])[0] == tokens[0];
  }

  /** The ownership check: the authenticated user's id equals `id`. */
  function UserHasPermissionToUser(user: User, id: int): bool
  {
    user.id == id
  }

  /** In a valid store each user has permission to its own record and to
      no other user's. */
  lemma PermissionOnlyToOwnRecord(db: Db, i: nat, j: nat)
    requires Inv(db) && i < |db.users| && j < |db.users|
    ensures UserHasPermissionToUser(db.users[i], db.users[j].id) <==> i == j
  {
  }

  class UserService {
    var users: seq<User>
    var tokens: map<string, Token>
    const emailService: EmailService
    /** The password hasher. */
    const encryptPassword: string -> string
    /** The hasher's check of a plain password against a stored hash. */
    const verifyPassword: (string, string) -> bool
    /** Session token for a user. */
    const generateJwt: User -> string
    /** Verification token for a user, issued at the given time. */
    const generateVerificationJwt: (User, int) -> string
    /** Password-reset token for a user. */
    const generatePasswordResetJwt: User -> string
    /** The email a password-reset token carries, or `None` when the token
        library refuses the token. */
    const resetPasswordEmail: string -> Option<string>

    function State(): Db
      reads this
    {
      Db(users, tokens)
    }

    ghost predicate Valid()
      reads this
    {
      Inv(State())
    }

    constructor (
      emailService: EmailService,
      encryptPassword: string -> string,
      verifyPassword: (string, string) -> bool,
      generateJwt: User -> string,
      generateVerificationJwt: (User, int) -> string,
      generatePasswordResetJwt: User -> string,
      resetPasswordEmail: string -> Option<string>)
      ensures Valid() && users == [] && tokens == map[]
      ensures this.emailService == emailService
      ensures this.encryptPassword == encryptPassword && this.verifyPassword == verifyPassword
      ensures this.generateJwt == generateJwt && this.generateVerificationJwt == generateVerificationJwt
      ensures this.generatePasswordResetJwt == generatePasswordResetJwt
      ensures this.resetPasswordEmail == resetPasswordEmail
    {
      users, tokens := [], map[];
      this.emailService := emailService;
      this.encryptPassword := encryptPassword;
      this.verifyPassword := verifyPassword;
      this.generateJwt := generateJwt;
      this.generateVerificationJwt := generateVerificationJwt;
      this.generatePasswordResetJwt := generatePasswordResetJwt;
      this.resetPasswordEmail := resetPasswordEmail;
      EmptyStoreIsValid();
    }

    /** A new token bean for `user`, stamped `now` and linked to the user,
        and the user with that token appended to its list. */
    method CreateVerificationToken(user: User, now: int) returns (vt: VerificationToken, owner: User)
      ensures fresh(vt) && vt.id == None
      ensures vt.Row() == Some(Token(generateVerificationJwt(user, now), now, user.id))
      ensures owner == user.(verificationTokens := user.verificationTokens +
                                                   [Token(generateVerificationJwt(user, now), now, user.id)])
    {
      vt := new VerificationToken();
      vt.SetToken(Some(generateVerificationJwt(user, now)));
      vt.SetCreatedTimestamp(Some(now));
      vt.SetUser(Some(user.id));
      owner := user.(verificationTokens := user.verificationTokens + [vt.Row().value]);
    }

    /** Registration. Taken usernames and emails (ignoring case) are refused
        before anything happens. Otherwise the verification email is sent
        BEFORE the user is saved: a failed send leaves the store as it was;
        a failed save leaves the email sent. */
    method RegisterUser(body: RegistrationBody, now: int) returns (r: Result<User>)
      requires Valid()
      requires body.username.Some? && body.email.Some? && body.password.Some?
      requires body.firstName.Some? && body.lastName.Some?
      modifies this, emailService
      ensures Valid()
      ensures
        var taken := FindBy(old(users), Email, body.email.value).Some? ||
                     FindBy(old(users), Username, body.username.value).Some?;
        var pending := User(|old(users)|, body.username.value, body.email.value,
                            encryptPassword(body.password.value),
                            body.firstName.value, body.lastName.value, false, []);
        var t := Token(generateVerificationJwt(pending, now), now, |old(users)|);
        var saved := pending.(verificationTokens := [t]);
        var email := emailService.VerificationEmail(body.email.value, t.token);
        if taken then
          r == Err(UserAlreadyExists) && State() == old(State()) &&
          emailService.outbox == old(emailService.outbox)
        else
          || (r == Err(EmailFailure) && State() == old(State()) &&
              emailService.outbox == old(emailService.outbox))
          || (r == Err(TokenConflict) && t.token in old(tokens) && State() == old(State()) &&
              emailService.outbox == old(emailService.outbox) + [email])
          || (r == Ok(saved) && t.token !in old(tokens) &&
              State() == SaveNewUser(old(State()), saved) &&
              emailService.outbox == old(emailService.outbox) + [email])
    {
      var email, username := body.email.value, body.username.value;
      if FindBy(users, Email, email).Some? || FindBy(users, Username, username).Some? {
        return Err(UserAlreadyExists);
      }
      var user := User(|users|, username, email, encryptPassword(body.password.value),
                       body.firstName.value, body.lastName.value, false, []);
      var vt, owner := CreateVerificationToken(user, now);
      var t := vt.Row().value;
      assert owner.verificationTokens == [t];
      var sent := emailService.SendVerificationEmail(email, t.token);
      if sent.Fail? {
        return Err(EmailFailure);
      }
      if t.token in tokens {
        return Err(TokenConflict);
      }
      SaveNewUserKeepsInv(State(), owner);
      var db := SaveNewUser(State(), owner);
      users, tokens := db.users, db.tokens;
      r := Ok(owner);
    }

    /** Login. No user of that name (ignoring case) or a wrong password:
        `None`, no effect. A verified user: a session token, no effect. An
        unverified user: always `UserNotVerified(resend)`; only when the
        resend decision holds is a token saved and then an email sent; a
        failed send leaves the token saved and raises `EmailFailure`. */
    method LoginUser(username: string, password: string, now: int) returns (r: Result<Option<string>>)
      requires Valid()
      modifies this, emailService
      ensures Valid()
      ensures
        var found := FindBy(old(users), Username, username);
        if found.None? || !verifyPassword(password, old(users)[found.value].password) then
          r == Ok(None) && State() == old(State()) && emailService.outbox == old(emailService.outbox)
        else
          var i := found.value;
          var user := old(users)[i];
          if user.emailVerified then
            r == Ok(Some(generateJwt(user))) && State() == old(State()) &&
            emailService.outbox == old(emailService.outbox)
          else if !ShouldResend(user.verificationTokens, now) then
            r == Err(UserNotVerified(false)) && State() == old(State()) &&
            emailService.outbox == old(emailService.outbox)
          else
            var t := Token(generateVerificationJwt(user, now), now, i);
            if t.token in old(tokens) then
              r == Err(TokenConflict) && State() == old(State()) &&
              emailService.outbox == old(emailService.outbox)
            else
              State() == AttachToken(old(State()), i, t) &&
              ((r == Err(UserNotVerified(true)) &&
                emailService.outbox == old(emailService.outbox) +
                                       [emailService.VerificationEmail(user.email, t.token)]) ||
               (r == Err(EmailFailure) && emailService.outbox == old(emailService.outbox)))
    {
      var found := FindBy(users, Username, username);
      if found.None? {
        return Ok(None);
      }
      var i := found.value;
      var user := users[i];
      if !verifyPassword(password, user.password) {
        return Ok(None);
      }
      if user.emailVerified {
        return Ok(Some(generateJwt(user)));
      }
      var resend := ShouldResend(user.verificationTokens, now);
      if resend {
        var vt, owner := CreateVerificationToken(user, now);
        var t := vt.Row().value;
        if t.token in tokens {
          return Err(TokenConflict);
        }
        AttachTokenKeepsInv(State(), i, t);
        users, tokens := users[i := owner], tokens[t.token := t];
        var sent := emailService.SendVerificationEmail(user.email, t.token);
        if sent.Fail? {
          return Err(EmailFailure);
        }
      }
      r := Err(UserNotVerified(resend));
    }

    /** Consumes a verification token. True exactly when the token is in the
        table and its owner is unverified; the owner is then verified and
        all of its tokens are deleted. Otherwise nothing changes. */
    method VerifyUser(token: string) returns (verified: bool)
      requires Valid()
      modifies this
      ensures Valid()
      ensures verified <==> Consumable(old(State()), token)
      ensures verified ==> State() == MarkVerified(old(State()), old(tokens)[token].owner)
      ensures !verified ==> State() == old(State())
    {
      if token in tokens {
        var owner := tokens[token].owner;
        if !users[owner].emailVerified {
          MarkVerifiedKeepsInv(State(), owner);
          var db := MarkVerified(State(), owner);
          users, tokens := db.users, db.tokens;
          return true;
        }
      }
      return false;
    }

    /** Sends a password-reset email to the user with that email (ignoring
        case), addressed to the email as stored; writes nothing. */
    method ForgotPassword(email: string) returns (r: Outcome)
      requires Valid()
      modifies emailService
      ensures Valid() && State() == old(State())
      ensures
        var found := FindBy(users, Email, email);
        if found.None? then
          r == Fail(EmailNotFound) && emailService.outbox == old(emailService.outbox)
        else
          var user := users[found.value];
          var m := emailService.PasswordResetEmail(user.email, generatePasswordResetJwt(user));
          || (r == Pass && emailService.outbox == old(emailService.outbox) + [m])
          || (r == Fail(EmailFailure) && emailService.outbox == old(emailService.outbox))
    {
      var found := FindBy(users, Email, email);
      if found.Some? {
        var user := users[found.value];
        var token := generatePasswordResetJwt(user);
        r := emailService.SendPasswordResetEmail(user.email, token);
      } else {
        r := Fail(EmailNotFound);
      }
    }

    /** Sets the password of the user the reset token names (ignoring case)
        to the hash of `password`; nothing when no user has that email. */
    method ResetPassword(token: string, password: string) returns (r: Outcome)
      requires Valid()
      modifies this
      ensures Valid()
      ensures
        match resetPasswordEmail(token)
        case None => r == Fail(InvalidResetToken) && State() == old(State())
        case Some(email) =>
          r == Pass &&
          match FindBy(old(users), Email, email)
          case None => State() == old(State())
          case Some(i) => State() == SetPassword(old(State()), i, encryptPassword(password))
    {
      var email := resetPasswordEmail(token);
      if email.None? {
        return Fail(InvalidResetToken);
      }
      var found := FindBy(users, Email, email.value);
      if found.Some? {
        SetPasswordKeepsInv(State(), found.value, encryptPassword(password));
        var db := SetPassword(State(), found.value, encryptPassword(password));
        users := db.users;
      }
      r := Pass;
    }
  }

  /** A client of the contracts: register, try to log in before verifying
      (no resend, since the only token is fresh), consume the token, then
      log in; a second consumption of the same token is refused. */
  method RegisterVerifyLoginScenario(now: int)
  {
    var mail := new EmailService("noreply@example.org", "https://app.example.org");
    var service := new UserService(
      mail,
      p => p,
      (p, h) => h == p,
      u => "session",
      (u, t) => "verify",
      u => "reset",
      t => None);
    var body := new RegistrationBody();
    body.SetUsername(Some("alice"));
    body.SetEmail(Some("alice@example.org"));
    body.SetPassword(Some("ab\\dcd"));
    body.SetConfirmPassword(Some("ab\\dcd"));
    body.SetFirstName(Some("Alice"));
    body.SetLastName(Some("Liddell"));
    var registered := service.RegisterUser(body, now);
    if registered.Ok? {
      assert registered.value == Alice(now);
      assert |mail.outbox| == 1 && mail.outbox[0].to == Some("alice@example.org");
      LoginVerifyLogin(service, now);
    }
  }

  function Alice(now: int): User
  {
    User(0, "alice", "alice@example.org", "ab\\dcd", "Alice", "Liddell", false,
         [Token("verify", now, 0)])
  }

  method LoginVerifyLogin(service: UserService, now: int)
    requires service.Valid()
    requires service.users == [Alice(now)] && service.tokens == map["verify" := Token("verify", now, 0)]
    requires service.verifyPassword("ab\\dcd", Alice(now).password)
    requires service.generateJwt(Alice(now).(emailVerified := true, verificationTokens := [])) == "session"
    modifies service, service.emailService
  {
    assert EqualsIgnoreCase("ALICE", "alice");
    var blocked := service.LoginUser("ALICE", "ab\\dcd", now + 1000);
    assert blocked == Err(UserNotVerified(false));

    var verified := service.VerifyUser("verify");
    assert verified;
    assert service.users == [Alice(now).(emailVerified := true, verificationTokens := [])];

    var session := service.LoginUser("alice", "ab\\dcd", now + 2000);
    assert session == Ok(Some("session"));
    var twice := service.VerifyUser("verify");
    assert !twice;
  }
}
