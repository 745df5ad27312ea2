# Account lifecycle of the Spring user service, in Dafny

This project models the account lifecycle of the `UserService` of a Spring
Boot application, with the pieces it leans on:

- **Users** (`user_service.dfy`): `UserService` as a class over the stored users and
  the verification-token table. Its methods are registration, login with
  the email-verification gate and the verification-email resend cooldown,
  token consumption, forgotten password, password reset, and the
  ownership check.
- **Accounts** (`user_store.dfy`): the stored state as a value (`Db`), the ignore-case
  finders, the four store writes the service makes, the store invariant,
  and lemmas that each write keeps it.
- **VerificationTokens** (`verification_token.dfy`): the token bean with its setters, and
  the stored row, whose three columns cannot be null.
- **Mail** (`email_service.dfy`): `EmailService`. It composes the verification and
  password-reset messages, and hands them to a transport that may fail.
- **Registration** (`registration_body.dfy`): the registration request and its field
  constraints, each written as a predicate.
- **Text** and **Outcomes**: upper-casing, Java's `trim`, and the result and
  exception datatypes.

The store invariant (`Accounts.Inv`) says:
- a user's id is its position;
- no two users share a username or an email, ignoring case;
- every table row is filed under its own token string and belongs to exactly
  one existing user, in whose list it appears;
- every listed token is the row the table holds for it;
- no token string repeats within a list;
- a verified user holds no tokens.

Every operation keeps it.

## Behaviour kept as the code has it

In these places the code does something other than what a reader might
expect from the names and comments around it. The model keeps what the code
does:

- The resend decision reads the FIRST token in the user's list, which is
  the oldest, and not the newest. The test is "created strictly before
  now minus one hour". So a token exactly one hour old does not trigger a
  resend (`Users.ResendBoundary`). Once the oldest token of a user who
  holds tokens is over an hour old, every later login of that still
  unverified user sends another email, with no cooldown
  (`Users.ResendReadsOnlyOldestToken`).
- Registration sends the verification email before it saves the user. A
  failed send saves nothing. A failed save leaves the email sent.
- The login resend path saves the new token before it sends the email. A
  failed send leaves the token saved and raises `EmailFailure` instead of
  `UserNotVerified`.
- `confirmPassword` is never compared with `password`
  (`Registration.PasswordsNeedNotAgree`).
- The password pattern's `\\\\d` reaches the regex engine as `\\d`. That is
  an escaped backslash followed by the letter `d`, not a digit. As
  written, a password must be at least six characters long. It may
  contain only ASCII letters and backslashes. It must contain a backslash
  directly followed by `d`. No password containing a digit is accepted
  (`Registration.PasswordPatternAsWritten`).
- `userHasPermissionToUser` compares with `==`. It is modelled as id
  equality; see the caveat under "Left out".

## Model

| member | source | states |
|---|---|---|
| Text.EqualsIgnoreCasePointwise | src/main/java/com/capellax/spring_fundamentals/models/dao/LocalUserDAO.java:10-12 | Ignore-case equality (equal upper-cased strings) holds exactly when the lengths agree and every position agrees after upper-casing, both directions |
| Text.NotBlankIffVisibleChar | src/main/java/com/capellax/spring_fundamentals/api/model/RegistrationBody.java:11-12 | `@NotBlank` (something left after Java's `trim`) holds exactly when some character lies above U+0020 |
| Registration.MatchesPasswordPattern | src/main/java/com/capellax/spring_fundamentals/api/model/RegistrationBody.java:23 | Encodes the `@Pattern` regex clause by clause (the two lookaheads reachable by `.*`, then six or more characters of the class); a match has at least six characters and never a digit |
| Registration.ValidUsername | src/main/java/com/capellax/spring_fundamentals/api/model/RegistrationBody.java:11-14 | Encodes `@NotNull @NotBlank @Size(min = 3, max = 255)`: holds exactly when the value is non-null, has a character above U+0020, and is 3 to 255 characters long |
| Registration.ValidEmail | src/main/java/com/capellax/spring_fundamentals/api/model/RegistrationBody.java:16-19 | Encodes `@NotNull @NotBlank @Email`: holds exactly when the value is non-null, has a character above U+0020, and is an address by the given `@Email` test |
| Registration.ValidPassword | src/main/java/com/capellax/spring_fundamentals/api/model/RegistrationBody.java:21-29 | Encodes `@NotNull @NotBlank @Pattern` for both password fields: holds exactly when the value is non-null, at least six characters, all letters, `\` or `d`, and contains `\d`; `@NotBlank` adds nothing to the pattern |
| Registration.PatternAdmitsNoBlank | src/main/java/com/capellax/spring_fundamentals/api/model/RegistrationBody.java:21-24 | A string the password pattern accepts is never blank |
| Registration.ValidName | src/main/java/com/capellax/spring_fundamentals/api/model/RegistrationBody.java:31-37 | Encodes `@NotNull @NotBlank` for first and last name: holds exactly when the value is non-null and has a character above U+0020 |
| Registration.PasswordPatternAsWritten | src/main/java/com/capellax/spring_fundamentals/api/model/RegistrationBody.java:21-29 | The pattern, clause by clause, holds exactly when the password has at least six characters, all letters, `\` or `d`, and contains `\d`; the letter lookahead adds nothing |
| Registration.PasswordPatternExamples | src/main/java/com/capellax/spring_fundamentals/api/model/RegistrationBody.java:23 | `Passw0rd` is refused and `pass\dword` accepted |
| Registration.PasswordsNeedNotAgree | src/main/java/com/capellax/spring_fundamentals/api/model/RegistrationBody.java:21-29 | Two different passwords each satisfy their field's constraints: nothing requires confirmPassword to equal password |
| Registration.RegistrationBody.SatisfiesConstraints | src/main/java/com/capellax/spring_fundamentals/api/model/RegistrationBody.java:11-37 | All six field constraints; when they hold, every field is non-null, the username is 3 to 255 characters and both passwords match the pattern, which is what registration relies on. The two passwords are never compared |
| Registration.RegistrationBody.constructor | src/main/java/com/capellax/spring_fundamentals/api/model/RegistrationBody.java:9-37 | Every field starts out null |
| Registration.RegistrationBody.SetUsername | src/main/java/com/capellax/spring_fundamentals/api/model/RegistrationBody.java:66-68 | The username field becomes the argument; no other field changes |
| Registration.RegistrationBody.SetEmail | src/main/java/com/capellax/spring_fundamentals/api/model/RegistrationBody.java:70-72 | The email field becomes the argument; no other field changes |
| Registration.RegistrationBody.SetPassword | src/main/java/com/capellax/spring_fundamentals/api/model/RegistrationBody.java:74-76 | The password field becomes the argument; no other field changes |
| Registration.RegistrationBody.SetConfirmPassword | src/main/java/com/capellax/spring_fundamentals/api/model/RegistrationBody.java:78-80 | The confirmPassword field becomes the argument; no other field changes |
| Registration.RegistrationBody.SetFirstName | src/main/java/com/capellax/spring_fundamentals/api/model/RegistrationBody.java:82-84 | The firstName field becomes the argument; no other field changes |
| Registration.RegistrationBody.SetLastName | src/main/java/com/capellax/spring_fundamentals/api/model/RegistrationBody.java:86-88 | The lastName field becomes the argument; no other field changes |
| VerificationTokens.VerificationToken.constructor | src/main/java/com/capellax/spring_fundamentals/models/VerificationToken.java:12-36 | A new bean has all four fields null |
| VerificationTokens.VerificationToken.SetToken | src/main/java/com/capellax/spring_fundamentals/models/VerificationToken.java:80-82 | The token field becomes the argument; no other field changes |
| VerificationTokens.VerificationToken.SetCreatedTimestamp | src/main/java/com/capellax/spring_fundamentals/models/VerificationToken.java:64-66 | The timestamp field becomes the argument; no other field changes |
| VerificationTokens.VerificationToken.SetUser | src/main/java/com/capellax/spring_fundamentals/models/VerificationToken.java:105-107 | The user field becomes the argument; no other field changes |
| VerificationTokens.VerificationToken.SetId | src/main/java/com/capellax/spring_fundamentals/models/VerificationToken.java:96-98 | The id field becomes the argument; no other field changes |
| VerificationTokens.VerificationToken.Row | src/main/java/com/capellax/spring_fundamentals/models/VerificationToken.java:21-34 | The insert is refused exactly when the token, the timestamp or the user is null (the three not-null columns); otherwise the row carries those three values |
| Mail.EmailService.constructor | src/main/java/com/capellax/spring_fundamentals/service/EmailService.java:18-36 | Sender and link base are the configured ones; nothing has been sent |
| Mail.EmailService.MakeMailMessage | src/main/java/com/capellax/spring_fundamentals/service/EmailService.java:43-48 | A fresh message has From = the configured sender and nothing else set |
| Mail.EmailService.VerificationEmail | src/main/java/com/capellax/spring_fundamentals/service/EmailService.java:56-62 | From the sender, to the given address, with the fixed subject; the text is the fixed sentence, newline, link base, `/auth/verify?token=`, and reading past that prefix gives back exactly the token |
| Mail.EmailService.PasswordResetEmail | src/main/java/com/capellax/spring_fundamentals/service/EmailService.java:79-86 | From the sender, to the given address, with the fixed subject; the text is the fixed paragraph, newline, link base, `/auth/reset?token=`, and reading past that prefix gives back exactly the token |
| Mail.EmailService.LinksAreNotInterchangeable | src/main/java/com/capellax/spring_fundamentals/service/EmailService.java:56-86 | A verification email never yields a token when read as a reset link, nor the reverse |
| Mail.EmailService.Deliver | src/main/java/com/capellax/spring_fundamentals/service/EmailService.java:64-69 | The transport either accepts the message, which is appended to the outbox, or fails with EmailFailure and the outbox is unchanged |
| Mail.EmailService.SendVerificationEmail | src/main/java/com/capellax/spring_fundamentals/service/EmailService.java:56-70 | Exactly the verification message is handed over; on failure EmailFailure and nothing is sent |
| Mail.EmailService.SendPasswordResetEmail | src/main/java/com/capellax/spring_fundamentals/service/EmailService.java:79-94 | Exactly the reset message is handed over; on failure EmailFailure and nothing is sent |
| Accounts.FindBy | src/main/java/com/capellax/spring_fundamentals/models/dao/LocalUserDAO.java:10-12 | The result, if any, is a user whose username or email equals the argument ignoring case, and no earlier user matches; none means no user matches |
| Accounts.FindByIsUnique | src/main/java/com/capellax/spring_fundamentals/service/UserService.java:76-80 | In a valid store, looking up any user's username or email, in any case, finds that very user |
| Accounts.SaveNewUser | src/main/java/com/capellax/spring_fundamentals/service/UserService.java:87-89 | Saving a new user appends it after the stored users, leaves them unchanged, and adds its one token to the table under its string, every other row unchanged |
| Accounts.AttachToken | src/main/java/com/capellax/spring_fundamentals/service/UserService.java:130-132 | Saving a new token appends it to its owner's list and files it in the table under its string; other users and other rows unchanged |
| Accounts.MarkVerified | src/main/java/com/capellax/spring_fundamentals/service/UserService.java:158-161 | The user becomes verified with an empty list; exactly the rows it owned leave the table, the others stay as they were; other users unchanged |
| Accounts.SetPassword | src/main/java/com/capellax/spring_fundamentals/service/UserService.java:201-203 | Only that user's password changes; the table and every other user stay as they were |
| Accounts.SaveNewUserKeepsInv | src/main/java/com/capellax/spring_fundamentals/service/UserService.java:76-89 | Saving an unverified user whose username and email are free, with one new token, keeps the store invariant |
| Accounts.NewKeysKeepUnique | src/main/java/com/capellax/spring_fundamentals/service/UserService.java:77-79 | The registration check keeps usernames and emails unique ignoring case |
| Accounts.SaveNewUserKeepsTable | src/main/java/com/capellax/spring_fundamentals/service/UserService.java:87-89 | The cascaded token save keeps the table and the token lists consistent |
| Accounts.AttachTokenKeepsInv | src/main/java/com/capellax/spring_fundamentals/service/UserService.java:130-132 | Saving a new token for an unverified user keeps the invariant |
| Accounts.MarkVerifiedKeepsInv | src/main/java/com/capellax/spring_fundamentals/service/UserService.java:158-161 | Verifying a user and deleting all its tokens keeps the invariant |
| Accounts.SetPasswordKeepsInv | src/main/java/com/capellax/spring_fundamentals/service/UserService.java:199-203 | Changing a password keeps the invariant |
| Accounts.EmailVerifiedNeverReverts | src/main/java/com/capellax/spring_fundamentals/service/UserService.java:87-203 | No store write (saving a new user, attaching a token, verifying, setting a password) turns a verified user back into an unverified one, and none changes a stored user's id, username or email |
| Accounts.ConsumableIffStored | src/main/java/com/capellax/spring_fundamentals/service/UserService.java:152-158 | In a valid store a token can be consumed exactly when it is in the table: the owner of a stored token is never verified |
| Accounts.ConsumeInvalidatesAllTokensOfOwner | src/main/java/com/capellax/spring_fundamentals/service/UserService.java:158-163 | After one token is consumed, no token its owner held is consumable any more, that one included |
| Users.ShouldResend | src/main/java/com/capellax/spring_fundamentals/service/UserService.java:127-128 | The resend decision: no token, or the first listed token created strictly before now minus one hour; what it implies is stated by the two lemmas below |
| Users.ResendBoundary | src/main/java/com/capellax/spring_fundamentals/service/UserService.java:128 | A first token exactly one hour old does not trigger a resend; one a millisecond older does |
| Users.ResendReadsOnlyOldestToken | src/main/java/com/capellax/spring_fundamentals/service/UserService.java:127-128 | For a non-empty token list, appending a token never changes the resend decision; once it holds, it holds for every later time too |
| Users.UserHasPermissionToUser | src/main/java/com/capellax/spring_fundamentals/service/UserService.java:214-216 | The ownership check as id equality; what it grants in a store is stated by the lemma below |
| Users.PermissionOnlyToOwnRecord | src/main/java/com/capellax/spring_fundamentals/service/UserService.java:214-216 | In a valid store a user has permission to its own id and to no other user's |
| Users.UserService.constructor | src/main/java/com/capellax/spring_fundamentals/service/UserService.java:55-67 | Empty store, the given collaborators, invariant established |
| Users.UserService.CreateVerificationToken | src/main/java/com/capellax/spring_fundamentals/service/UserService.java:98-108 | A fresh bean holding the issued token, stamped now, linked to the user, with no id; the user's list gains that token at its end, the earlier tokens untouched |
| Users.UserService.RegisterUser | src/main/java/com/capellax/spring_fundamentals/service/UserService.java:76-90 | A taken username or email (ignoring case) gives UserAlreadyExists with no write and no email. Otherwise one of three: EmailFailure with nothing changed; TokenConflict with the email sent and nothing saved; or the saved user (body fields, hashed password, unverified, one token) plus one verification email to its address |
| Users.UserService.LoginUser | src/main/java/com/capellax/spring_fundamentals/service/UserService.java:116-142 | Unknown name or wrong password: none, no effect. Verified: the session token, no effect. Unverified: UserNotVerified(resend), where resend is the oldest-token test; only then is one token saved and one email sent; a failed send leaves the token and raises EmailFailure |
| Users.UserService.VerifyUser | src/main/java/com/capellax/spring_fundamentals/service/UserService.java:150-168 | True exactly when the token is stored and its owner unverified; the owner is then verified and loses all its tokens; otherwise nothing changes |
| Users.UserService.ForgotPassword | src/main/java/com/capellax/spring_fundamentals/service/UserService.java:177-188 | No user with the email (ignoring case): EmailNotFound. Otherwise exactly one reset email, to the stored address with that user's reset token, or EmailFailure. The store is never written |
| Users.UserService.ResetPassword | src/main/java/com/capellax/spring_fundamentals/service/UserService.java:195-205 | A refused token: InvalidResetToken, no change. Otherwise only the matching user's password becomes the hash of the new one; no matching user: no change |

## Left out

- Password hashing and token issuing and parsing are not part of this model. They are opaque functions given to `UserService`. Nothing is claimed about hashes, signatures, expiry or token kinds.
- The mail transport is network I/O. Whether it accepts a message is a nondeterministic choice.
- The clock is the `now` parameter. The two clock readings inside one login are taken to be the same instant.
- `@Transactional`, concurrency and locking are not modelled. Every operation is one sequential step, so races between two registrations or two verifications are not modelled.
- Address CRUD, `AuthenticationController`, `WebSecurityConfig`, `LoginBody` and `LoginResponse` are transport, framework configuration or data carriers with no logic. They are not part of this model.
- `LocalUser`, `PasswordResetBody` and the verification-token repository are not part of this model. The user's fields are assumed from their use. Other assumptions about them:
  - `emailVerified` starts false.
  - Saving a user cascades to its tokens.
  - A user's token list reads back in save order, oldest first.
  - User ids are store positions from 0.
  - The reset request's token and password are parameters.
- The generated id of a token row is not kept in the store, because nothing reads it. The bean keeps its id field.
- Saving a token whose string is already in the table fails with `TokenConflict`. This is the unique constraint on the token column, so it is store behaviour rather than service code.
- Getters are field reads. `SetId` is modelled but never called.
- Case-insensitive matching upper-cases ASCII letters only. Database collations and Unicode case mapping are not modelled.
- `@Size` counts UTF-16 code units. The model counts characters, so the two differ for characters outside the Basic Multilingual Plane.
- `@Email` address syntax is library-defined. It is a predicate parameter.
- Users.RegisterUser: requires the body's username, email, password, first and last name to be non-null. The controller's validation of the request body guarantees this.
- Users.UserHasPermissionToUser: compares ids by value. If `LocalUser.getId()` returns a boxed `Long`, Java's `==` compares references. Equal ids outside the `Long` cache range (-128 to 127) would then be refused.
