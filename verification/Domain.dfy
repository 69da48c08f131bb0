/** The persisted contents of the entities and the domain rules on them. */
module Domain {
  import opened Events
  import opened PasswordValidator
  import Strings
  import EmailValidator
  import opened Results

  /** Seconds on the clock that `utc_now` reads. */
  type Time = int

  /** A SHA-256 digest, idealised: distinct tokens have distinct digests. */
  datatype TokenHash = Sha256(token: string)

  datatype Purpose = VERIFY_EMAIL | RECOVER_PASSWORD

  datatype UserData = UserData(
    email: string, passwordHash: PasswordHash, active: bool, verified: bool, createdAt: Time)

  datatype OneTimeData = OneTimeData(
    userId: Id, tokenHash: TokenHash, expiresAt: Time, purpose: Purpose, used: bool)

  /** Client metadata is a field of the entity only: the table has no column for it. */
  datatype RefreshData = RefreshData(
    userId: Id, tokenHash: TokenHash, expiresAt: Time, createdAt: Time,
    revokedAt: Option<Time>, replacedBy: Option<Id>)

  /** An access token as far as the service looks into it: whom it was issued to. */
  datatype AccessToken = AccessToken(subject: Id)

  /** What a login or a refresh answers: an access token and the raw refresh token. */
  datatype TokenPair = TokenPair(access: AccessToken, refresh: string)

  /** An entity after a successful call, with the events the call appended. */
  datatype Change<T> = Change(data: T, events: seq<Event>)

  /** Everything a use case draws from the outside: fresh ids, a fresh token, and its clock readings. */
  datatype Draw = Draw(
    userId: Id, tokenId: Id, token: string,
    bornAt: Time,     // User.create
    checkedAt: Time,  // the expiry test
    revokedAt: Time,  // the second reading in use() and revoke()
    issuedAt: Time)   // creation of a token

  // The default settings of the service.
  const EMAIL_TOKEN_EXPIRY: Time := 720 * 60
  const PASSWORD_RECOVER_TOKEN_EXPIRY: Time := 15 * 60
  const REFRESH_TOKEN_EXPIRY: Time := 336 * 60 * 60

  // ---- User

  function CreateUser(id: Id, email: string, password: string, now: Time): Result<Change<UserData>> {
    var normal :- EmailValidator.ValidateEmail(Text(email));
    var hash :- ValidateHashPassword(Text(password));
    Ok(Change(UserData(normal, hash, true, false, now), [UserCreated(id, normal)]))
  }

  function RequestEmailVerification(id: Id, u: UserData, token: string): Result<Change<UserData>> {
    if u.verified then Err(EmailAlreadyVerified)
    else Ok(Change(u, [UserEmailVerificationRequested(id, u.email, token)]))
  }

  function RequestPasswordRecover(id: Id, u: UserData, token: string): Result<Change<UserData>> {
    if !u.verified then Err(EmailNotVerified)
    else Ok(Change(u, [UserPasswordRecoverRequested(id, u.email, token)]))
  }

  function VerifyEmail(id: Id, u: UserData): Result<Change<UserData>> {
    if u.verified then Err(EmailAlreadyVerified)
    else Ok(Change(u.(verified := true), [UserEmailVerified(id, u.email)]))
  }

  function AssertCanLogin(u: UserData, password: string): Outcome {
    if !u.active then Raised(AccountDeactivated)
    else if !u.verified then Raised(EmailNotVerified)
    else if !VerifyPassword(password, u.passwordHash) then Raised(InvalidPassword)
    else Done
  }

  function ChangePassword(id: Id, u: UserData, oldPassword: string, newPassword: string)
    : Result<Change<UserData>>
  {
    if !VerifyPassword(oldPassword, u.passwordHash) then Err(WrongOldPassword)
    else if oldPassword == newPassword then Err(SamePassword)
    else
      var hash :- ValidateHashPassword(Text(newPassword));
      Ok(Change(u.(passwordHash := hash), [UserPasswordChanged(id)]))
  }

  function RecoverPassword(id: Id, u: UserData, newPassword: string): Result<Change<UserData>> {
    var hash :- ValidateHashPassword(Text(newPassword));
    Ok(Change(u.(passwordHash := hash), [UserPasswordRecovered(id)]))
  }

  // ---- OneTimeToken

  function CreateOneTime(userId: Id, token: string, now: Time, expiry: Time, purpose: Purpose): OneTimeData {
    OneTimeData(userId, Sha256(token), now + expiry, purpose, false)
  }

  predicate OneTimeUsable(t: OneTimeData, now: Time) {
    !t.used && now <= t.expiresAt
  }

  function UseOneTime(t: OneTimeData, purpose: Purpose, now: Time): Result<OneTimeData> {
    if t.purpose != purpose then Err(TokenPurposeMismatch)
    else if !OneTimeUsable(t, now) then Err(TokenInvalid)
    else Ok(t.(used := true))
  }

  // ---- RefreshToken

  function CreateRefresh(userId: Id, token: string, now: Time): RefreshData {
    RefreshData(userId, Sha256(token), now + REFRESH_TOKEN_EXPIRY, now, None, None)
  }

  predicate RevokedOrExpired(t: RefreshData, now: Time) {
    t.revokedAt.Some? || now > t.expiresAt
  }

  predicate RefreshUsable(t: RefreshData, now: Time) {
    !RevokedOrExpired(t, now) && t.replacedBy.None?
  }

  function RevokeRefresh(id: Id, t: RefreshData, checkedAt: Time, revokedAt: Time): Result<Change<RefreshData>> {
    if RevokedOrExpired(t, checkedAt) then Err(TokenInvalid)
    else Ok(Change(t.(revokedAt := Some(revokedAt)), [RefreshTokenRevoked(t.userId, id)]))
  }

  function UseRefresh(id: Id, t: RefreshData, checkedAt: Time, revokedAt: Time): Result<Change<RefreshData>> {
    if t.replacedBy.Some? then Err(RefreshTokenReuse)
    else RevokeRefresh(id, t, checkedAt, revokedAt)
  }

  function MarkReplaced(t: RefreshData, newId: Id): Result<RefreshData> {
    if t.replacedBy.Some? then Err(TokenAlreadyReplaced) else Ok(t.(replacedBy := Some(newId)))
  }

  // ---- RefreshTokenSecurityPolicy

  const AGENT_MISMATCH_RISK := 2
  const LOCATION_MISMATCH_RISK := 2
  const IP_RANGE_MISMATCH_RISK := 1

  predicate Mismatch(a: Option<string>, b: Option<string>) {
    a.Some? && b.Some? && a.value != "" && b.value != "" && a != b
  }

  predicate SameIpRange(a: Option<Address>, b: Option<Address>) {
    a.Some? && b.Some? && a.value.Ipv4? && b.value.Ipv4? && a.value.network == b.value.network
  }

  function AssessRisk(token: Client, current: Client): nat {
    (if Mismatch(token.agent, current.agent) then AGENT_MISMATCH_RISK else 0)
    + (if Mismatch(token.location, current.location) then LOCATION_MISMATCH_RISK else 0)
    + (if SameIpRange(token.ip, current.ip) then 0 else IP_RANGE_MISMATCH_RISK)
  }

  /** No risk is seen only between two addresses of one /24 network and without a known mismatch. */
  lemma RiskIsZeroIff(token: Client, current: Client)
    ensures AssessRisk(token, current) == 0 <==>
            && token.ip.Some? && current.ip.Some? && token.ip.value.Ipv4? && current.ip.value.Ipv4?
            && token.ip.value.network == current.ip.value.network
            && (token.agent == current.agent || token.agent in {None, Some("")} || current.agent in {None, Some("")})
            && (token.location == current.location || token.location in {None, Some("")}
                || current.location in {None, Some("")})
    ensures AssessRisk(token, current) <= 5
  {
  }

  // ---- What one call forbids the next

  /** Verifying an email works once, ends the requests for it and opens the recovery of the password. */
  lemma VerifiesOnce(id: Id, u: UserData, token: string)
    requires !u.verified
    ensures VerifyEmail(id, u) == Ok(Change(u.(verified := true), [UserEmailVerified(id, u.email)]))
    ensures RequestEmailVerification(id, u, token)
            == Ok(Change(u, [UserEmailVerificationRequested(id, u.email, token)]))
    ensures RequestPasswordRecover(id, u, token) == Err(EmailNotVerified)
    ensures var after := VerifyEmail(id, u).value.data;
            && VerifyEmail(id, after) == Err(EmailAlreadyVerified)
            && RequestEmailVerification(id, after, token) == Err(EmailAlreadyVerified)
            && RequestPasswordRecover(id, after, token)
               == Ok(Change(after, [UserPasswordRecoverRequested(id, u.email, token)]))
  {
  }

  /** A token is used once, at whatever times and for whatever purpose it is presented again. */
  lemma UsedOnce(t: OneTimeData, p: Purpose, q: Purpose, now: Time, later: Time)
    requires UseOneTime(t, p, now).Ok?
    ensures UseOneTime(t, p, now).value == t.(used := true)
    ensures UseOneTime(t.(used := true), q, later) == Err(if q == p then TokenInvalid else TokenPurposeMismatch)
  {
  }

  /** A refresh token is ended once and linked once; only the link makes a later use reuse. */
  lemma EndedOnce(id: Id, t: RefreshData, checkedAt: Time, revokedAt: Time, newId: Id, otherId: Id, later: Time)
    requires UseRefresh(id, t, checkedAt, revokedAt).Ok?
    ensures var ended := UseRefresh(id, t, checkedAt, revokedAt).value.data;
            && RevokeRefresh(id, t, checkedAt, revokedAt) == UseRefresh(id, t, checkedAt, revokedAt)
            && RevokeRefresh(id, ended, later, later) == Err(TokenInvalid) == UseRefresh(id, ended, later, later)
            && MarkReplaced(ended, newId).Ok?
            && var linked := MarkReplaced(ended, newId).value;
               && linked.replacedBy == Some(newId) && linked.revokedAt == Some(revokedAt)
               && MarkReplaced(linked, otherId) == Err(TokenAlreadyReplaced)
               && UseRefresh(id, linked, later, later) == Err(RefreshTokenReuse)
               && RevokeRefresh(id, linked, later, later) == Err(TokenInvalid)
  {
  }

  /**
   * A change of password is meant to change the password. It does exactly if the new text, stripped,
   * differs from the old one: the guard compares the raw texts.
   */
  lemma ChangePasswordChangesIff(id: Id, u: UserData, oldPassword: string, newPassword: string)
    requires ChangePassword(id, u, oldPassword, newPassword).Ok?
    ensures var after := ChangePassword(id, u, oldPassword, newPassword).value.data;
            && (after.passwordHash != u.passwordHash <==> Strings.Strip(newPassword) != oldPassword)
            && (VerifyPassword(oldPassword, after.passwordHash) <==> Strings.Strip(newPassword) == oldPassword)
  {
  }

  /** A concrete case of the former: padding the old password passes the guard and changes nothing. */
  lemma ChangePasswordCanKeepThePassword(id: Id, u: UserData)
    requires u.passwordHash == Bcrypt("password")
    ensures ChangePassword(id, u, "password", "password ") == Ok(Change(u, [UserPasswordChanged(id)]))
  {
    assert Strings.Trimmed("password") && "" + "password" + " " == "password ";
    StripDropsPadding("", "password", " ");
  }
}
