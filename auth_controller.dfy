/**
 * The account handlers as a state machine over the user rows: register,
 * verify the e-mail, log in, ask for a password reset and reset the
 * password. Tokens and the clock are parameters (`crypto.randomBytes` and
 * `Date.now()`); the password check of the user model is the parameter
 * `matches(stored, given)`.
 */
module AuthController {
  import opened Wrappers
  import opened ServerStore
  import opened Sums

  /** A reset token is valid for one hour. */
  const ResetWindowMs: int := 3600000

  function HasEmail(email: string): UserRow -> bool {
    (u: UserRow) => u.email == email
  }

  function HasVerificationToken(token: string): UserRow -> bool {
    (u: UserRow) => u.verificationToken == Some(token)
  }

  /** `resetPasswordToken = token AND resetPasswordExpires > now`. */
  function HasLiveResetToken(token: string, now: int): UserRow -> bool {
    (u: UserRow) => u.resetPasswordToken == Some(token) && u.resetPasswordExpires.Some? && u.resetPasswordExpires.value > now
  }

  /** No two users share an e-mail address. */
  predicate UniqueEmails(users: seq<UserRow>) {
    forall i, j :: 0 <= i < j < |users| ==> users[i].email != users[j].email
  }

  /** The row `register` creates: not yet verified, holding its verification token, no reset pending. */
  function NewUser(id: nat, name: string, email: string, password: string, token: string): UserRow {
    UserRow(id, name, email, password, false, Some(token), None, None)
  }

  /** The fields `verifyEmail` sets. */
  function Verified(u: UserRow): UserRow {
    u.(isVerified := true, verificationToken := None)
  }

  /** The fields `forgotPassword` sets. */
  function WithResetToken(u: UserRow, token: string, now: int): UserRow {
    u.(resetPasswordToken := Some(token), resetPasswordExpires := Some(now + ResetWindowMs))
  }

  /** The fields `resetPassword` sets. */
  function WithNewPassword(u: UserRow, password: string): UserRow {
    u.(password := password, resetPasswordToken := None, resetPasswordExpires := None)
  }

  /** Setting fields other than the e-mail keeps the addresses unique. */
  lemma ReplaceKeepsEmails(users: seq<UserRow>, k: nat, u: UserRow)
    requires UniqueEmails(users) && k < |users| && u.email == users[k].email
    ensures UniqueEmails(users[k := u])
  {
  }

  /**
   * `register`: 400 and no change when the e-mail is taken; otherwise a new
   * unverified user holding the verification token is stored, and the answer
   * is 201 when the verification mail goes out (`mailSent`) and 500 when the
   * send fails, the user staying stored. E-mails stay unique.
   */
  method Register(db: Database, name: string, email: string, password: string, token: string, mailSent: bool)
    returns (status: Status)
    requires db.Valid()
    modifies db
    ensures db.Valid()
    ensures db.categories == old(db.categories) && db.transactions == old(db.transactions)
    ensures db.recommendations == old(db.recommendations)
    ensures FindFirst(old(db.users), HasEmail(email)).Some? ==> status == BadRequest && db.users == old(db.users)
    ensures FindFirst(old(db.users), HasEmail(email)).None? ==>
      && status == (if mailSent then Created else ServerError)
      && db.users == old(db.users) + [NewUser(old(db.nextId), name, email, password, token)]
    ensures UniqueEmails(old(db.users)) ==> UniqueEmails(db.users)
  {
    if FindFirst(db.users, HasEmail(email)).Some? {
      return BadRequest;
    }
    var id := db.FreshId();
    var user := NewUser(id, name, email, password, token);
    AppendFresh(db.users, UserKey, id, user);
    db.users := db.users + [user];
    status := if mailSent then Created else ServerError;
  }

  /** `verifyEmail`: 400 and no change for an unknown token; otherwise the user is verified and the token cleared. */
  method VerifyEmail(db: Database, token: string) returns (status: Status)
    requires db.Valid()
    modifies db
    ensures db.Valid()
    ensures db.categories == old(db.categories) && db.transactions == old(db.transactions)
    ensures db.recommendations == old(db.recommendations) && db.nextId == old(db.nextId)
    ensures FindFirst(old(db.users), HasVerificationToken(token)).None? ==> status == BadRequest && db.users == old(db.users)
    ensures FindFirst(old(db.users), HasVerificationToken(token)).Some? ==>
      var k := FindFirst(old(db.users), HasVerificationToken(token)).value;
      status == Ok && db.users == old(db.users)[k := Verified(old(db.users)[k])]
    ensures UniqueEmails(old(db.users)) ==> UniqueEmails(db.users)
  {
    var found := FindFirst(db.users, HasVerificationToken(token));
    if found.None? {
      return BadRequest;
    }
    var k := found.value;
    SameKeys(db.users, db.users[k := Verified(db.users[k])], UserKey, db.nextId);
    if UniqueEmails(db.users) {
      ReplaceKeepsEmails(db.users, k, Verified(db.users[k]));
    }
    db.users := db.users[k := Verified(db.users[k])];
    status := Ok;
  }

  /** The three answers of `login`: a session for the user, 401 for bad credentials, 401 for an unverified account. */
  datatype LoginOutcome = LoggedIn(id: nat) | BadCredentials | Unverified

  /** The HTTP status of a login outcome. */
  function LoginStatus(r: LoginOutcome): Status {
    if r.LoggedIn? then Ok else Unauthorized
  }

  /**
   * `login`: the user found by e-mail must exist and accept the password;
   * only then is the verification flag consulted.
   */
  function Login(users: seq<UserRow>, email: string, password: string, matches: (string, string) -> bool): (r: LoginOutcome)
    ensures r.LoggedIn? ==> exists u :: u in users && u.email == email && u.id == r.id && u.isVerified && matches(u.password, password)
    ensures (forall u :: u in users ==> u.email != email) ==> r == BadCredentials
    ensures r == Unverified ==> exists u :: u in users && u.email == email && !u.isVerified && matches(u.password, password)
  {
    match FindFirst(users, HasEmail(email))
    case None => BadCredentials
    case Some(k) =>
      var u := users[k];
      if !matches(u.password, password) then BadCredentials
      else if !u.isVerified then Unverified
      else LoggedIn(u.id)
  }

  /** With unique e-mails, the user with the address decides the login alone: 200 exactly for a verified user with the right password. */
  lemma LoginByOwner(users: seq<UserRow>, k: nat, password: string, matches: (string, string) -> bool)
    requires UniqueEmails(users) && k < |users|
    ensures Login(users, users[k].email, password, matches) == (
      if !matches(users[k].password, password) then BadCredentials
      else if !users[k].isVerified then Unverified
      else LoggedIn(users[k].id))
  {
    assert HasEmail(users[k].email)(users[k]);
    assert forall i :: 0 <= i < |users| && i != k ==> !HasEmail(users[k].email)(users[i]);
  }

  /**
   * `forgotPassword`: 404 and no change for an unknown e-mail; otherwise the
   * user holds the new reset token, valid until one hour from now, and the
   * answer is 200 when the reset mail goes out (`mailSent`) and 500 when the
   * send fails, the token staying stored.
   */
  method ForgotPassword(db: Database, email: string, token: string, now: int, mailSent: bool) returns (status: Status)
    requires db.Valid()
    modifies db
    ensures db.Valid()
    ensures db.categories == old(db.categories) && db.transactions == old(db.transactions)
    ensures db.recommendations == old(db.recommendations) && db.nextId == old(db.nextId)
    ensures FindFirst(old(db.users), HasEmail(email)).None? ==> status == NotFound && db.users == old(db.users)
    ensures FindFirst(old(db.users), HasEmail(email)).Some? ==>
      var k := FindFirst(old(db.users), HasEmail(email)).value;
      && status == (if mailSent then Ok else ServerError)
      && db.users == old(db.users)[k := WithResetToken(old(db.users)[k], token, now)]
    ensures UniqueEmails(old(db.users)) ==> UniqueEmails(db.users)
  {
    var found := FindFirst(db.users, HasEmail(email));
    if found.None? {
      return NotFound;
    }
    var k := found.value;
    var user := WithResetToken(db.users[k], token, now);
    SameKeys(db.users, db.users[k := user], UserKey, db.nextId);
    if UniqueEmails(db.users) {
      ReplaceKeepsEmails(db.users, k, user);
    }
    db.users := db.users[k := user];
    status := if mailSent then Ok else ServerError;
  }

  /**
   * `resetPassword` as written: the query object reads `Op.gt`, and `Op` is
   * never imported, so evaluating it throws a ReferenceError that the
   * handler's `catch` turns into 500 before any user is looked up.
   */
  function ResetPasswordAsWritten(users: seq<UserRow>, token: string, password: string, now: int): (status: Status)
    ensures status == ServerError
  {
    ServerError
  }

  /**
   * The handler as written rejects even the request it exists for: a token
   * issued by `forgotPassword` and used within the hour gets 500.
   */
  lemma ResetAsWrittenRejectsFreshToken(u: UserRow, token: string, password: string, now: int)
    ensures var users := [WithResetToken(u, token, now)];
      FindFirst(users, HasLiveResetToken(token, now)).Some?
      && ResetPasswordAsWritten(users, token, password, now) == ServerError
  {
    assert HasLiveResetToken(token, now)(WithResetToken(u, token, now));
  }

  /**
   * `resetPassword` as intended: the first user holding the token with an
   * expiry after now gets the new password and both reset fields cleared;
   * an unknown or expired token gives 400 and no change.
   */
  method ResetPassword(db: Database, token: string, password: string, now: int) returns (status: Status)
    requires db.Valid()
    modifies db
    ensures db.Valid()
    ensures db.categories == old(db.categories) && db.transactions == old(db.transactions)
    ensures db.recommendations == old(db.recommendations) && db.nextId == old(db.nextId)
    ensures FindFirst(old(db.users), HasLiveResetToken(token, now)).None? ==> status == BadRequest && db.users == old(db.users)
    ensures FindFirst(old(db.users), HasLiveResetToken(token, now)).Some? ==>
      var k := FindFirst(old(db.users), HasLiveResetToken(token, now)).value;
      status == Ok && db.users == old(db.users)[k := WithNewPassword(old(db.users)[k], password)]
    ensures UniqueEmails(old(db.users)) ==> UniqueEmails(db.users)
  {
    var found := FindFirst(db.users, HasLiveResetToken(token, now));
    if found.None? {
      return BadRequest;
    }
    var k := found.value;
    var user := WithNewPassword(db.users[k], password);
    SameKeys(db.users, db.users[k := user], UserKey, db.nextId);
    if UniqueEmails(db.users) {
      ReplaceKeepsEmails(db.users, k, user);
    }
    db.users := db.users[k := user];
    status := Ok;
  }

  /** A reset token is accepted strictly before its expiry, issued time plus one hour, and no later. */
  lemma ResetTokenLifetime(u: UserRow, token: string, issued: int, now: int)
    ensures HasLiveResetToken(token, now)(WithResetToken(u, token, issued)) <==> now < issued + ResetWindowMs
  {
  }

  /** A used reset token is gone: the same token cannot reset the password a second time. */
  lemma ResetTokenSingleUse(u: UserRow, password: string, token: string, now: int)
    ensures !HasLiveResetToken(token, now)(WithNewPassword(u, password))
  {
  }

  /**
   * The account lifecycle: after registering a fresh address and verifying
   * with the mailed token, logging in with the registered password succeeds
   * when the password check accepts it, and before verifying it is refused as
   * unverified.
   */
  lemma {:induction false} Lifecycle(users: seq<UserRow>, id: nat, name: string, email: string, password: string, token: string,
                                     matches: (string, string) -> bool)
    requires UniqueEmails(users) && FindFirst(users, HasEmail(email)).None?
    requires forall u :: u in users ==> u.verificationToken != Some(token)
    requires matches(password, password)
    ensures var registered := users + [NewUser(id, name, email, password, token)];
      && UniqueEmails(registered)
      && Login(registered, email, password, matches) == Unverified
      && FindFirst(registered, HasVerificationToken(token)) == Some(|users|)
      && Login(registered[|users| := Verified(registered[|users|])], email, password, matches) == LoggedIn(id)
  {
    var user := NewUser(id, name, email, password, token);
    var registered := users + [user];
    assert registered[|users|] == user;
    forall i | 0 <= i < |users| ensures registered[i].email != email && registered[i].verificationToken != Some(token) {
      assert !HasEmail(email)(users[i]);
      assert users[i] in users;
    }
    assert UniqueEmails(registered);
    LoginByOwner(registered, |users|, password, matches);
    assert HasVerificationToken(token)(registered[|users|]);
    assert forall i :: 0 <= i < |users| ==> !HasVerificationToken(token)(registered[i]);
    var verified := registered[|users| := Verified(user)];
    ReplaceKeepsEmails(registered, |users|, Verified(user));
    LoginByOwner(verified, |users|, password, matches);
  }
}
