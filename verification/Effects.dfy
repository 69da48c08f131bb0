/**
 * What each use case answers when it runs alone, told from the stored rows and the request only: the
 * error, or the rows it saves and the events it publishes, column by column.
 */
module Effects {
  import opened Domain
  import opened Events
  import opened Results
  import opened Stores
  import opened UseCases
  import opened History
  import opened CommitStep
  import EmailValidator
  import opened PasswordValidator
  import opened Strings

  // ---- Which row a request is about

  /** The user stored under exactly this email, if any. */
  ghost predicate UserWithEmail(s: Store, email: string, found: Option<Key>) {
    match found
    case None => forall k :: k in s && s[k].row.UserRow? ==> s[k].row.user.email != email
    case Some(k) => k in s && s[k].row.UserRow? && s[k].row.user.email == email
  }

  /** The one-time token stored with the hash of this text, if any. */
  ghost predicate OneTimeWithText(s: Store, token: string, found: Option<Key>) {
    match found
    case None => forall k :: k in s && s[k].row.OneTimeRow? ==> s[k].row.ott.tokenHash != Sha256(token)
    case Some(k) => k in s && s[k].row.OneTimeRow? && s[k].row.ott.tokenHash == Sha256(token)
  }

  /** The refresh token stored with the hash of this text, if any. */
  ghost predicate RefreshWithText(s: Store, token: string, found: Option<Key>) {
    match found
    case None => forall k :: k in s && s[k].row.RefreshRow? ==> s[k].row.rt.tokenHash != Sha256(token)
    case Some(k) => k in s && s[k].row.RefreshRow? && s[k].row.rt.tokenHash == Sha256(token)
  }

  lemma SelectsUser(s: Store, email: string, found: Option<Key>)
    requires StoreInvariant(s) && UserWithEmail(s, email, found)
    ensures found.None? ==> Select(s, UserByEmail(email)) == None
    ensures found.Some? ==> found.value == UserKey(found.value.id)
    ensures found.Some? ==> Select(s, UserByEmail(email)) == Some(Found(found.value, s[found.value]))
  {
    hide UniqueHits;
    if found.Some? {
      assert RowInvariant(s, found.value);
      hide RowInvariant;
      Selects(s, UserByEmail(email), found.value);
    }
  }

  lemma SelectsOneTime(s: Store, token: string, found: Option<Key>)
    requires StoreInvariant(s) && OneTimeWithText(s, token, found)
    ensures found.None? ==> Select(s, OneTimeByHash(Sha256(token))) == None
    ensures found.Some? ==> found.value == OneTimeKey(found.value.id)
    ensures found.Some? ==> Select(s, OneTimeByHash(Sha256(token))) == Some(Found(found.value, s[found.value]))
    ensures found.Some? ==>
              var owner := UserKey(s[found.value].row.ott.userId);
              && owner in s && s[owner].row.UserRow?
              && Select(s, UserById(owner.id)) == Some(Found(owner, s[owner]))
  {
    hide UniqueHits;
    if found.Some? {
      var owner := UserKey(s[found.value].row.ott.userId);
      assert RowInvariant(s, found.value) && RowInvariant(s, owner);
      hide RowInvariant;
      Selects(s, OneTimeByHash(Sha256(token)), found.value);
      Selects(s, UserById(owner.id), owner);
    }
  }

  lemma SelectsRefresh(s: Store, token: string, found: Option<Key>)
    requires StoreInvariant(s) && RefreshWithText(s, token, found)
    ensures found.None? ==> Select(s, RefreshByHash(Sha256(token))) == None
    ensures found.Some? ==> found.value == RefreshKey(found.value.id)
    ensures found.Some? ==> Select(s, RefreshByHash(Sha256(token))) == Some(Found(found.value, s[found.value]))
    ensures found.Some? ==>
              (s[found.value].row.rt.replacedBy.Some? ==> s[found.value].row.rt.revokedAt.Some?)
  {
    hide UniqueHits;
    if found.Some? {
      assert RowInvariant(s, found.value);
      hide RowInvariant;
      Selects(s, RefreshByHash(Sha256(token)), found.value);
    }
  }

  lemma SelectsById(s: Store, id: Id)
    requires StoreInvariant(s)
    ensures UserKey(id) !in s ==> Select(s, UserById(id)) == None
    ensures UserKey(id) in s ==>
              s[UserKey(id)].row.UserRow? && Select(s, UserById(id)) == Some(Found(UserKey(id), s[UserKey(id)]))
  {
    hide UniqueHits;
    if UserKey(id) in s {
      assert RowInvariant(s, UserKey(id));
      hide RowInvariant;
      Selects(s, UserById(id), UserKey(id));
    }
  }

  /** Drawn keys are free, and only users take emails. */
  lemma InsertsSucceed(s: Store, d: Draw)
    requires Fresh(s, d)
    ensures UserKey(d.userId) !in s && OneTimeKey(d.tokenId) !in s && RefreshKey(d.tokenId) !in s
    ensures forall row: Row :: !row.UserRow? ==> !EmailTaken(s, row)
    ensures forall row: Row :: row.UserRow? ==> (EmailTaken(s, row) <==> !UserWithEmail(s, row.user.email, None))
  {
  }

  /** Running alone, an answer computed from the replies stands if all saves succeed. */
  lemma EndsAs(req: Request, d: Draw, s: Store, view: seq<Reply>, r: Result<Plan>)
    requires View(req, Alone(s)) == view && Compute(req, view, d) == r
    requires r.Ok? ==> SaveError(s, r.value.first).None?
    requires r.Ok? && r.value.second.Some? ==> SaveError(s, r.value.second.value).None?
    ensures Transact(req, d, Alone(s)) == r
  {
    hide View, Compute, SaveError;
  }

  // ---- The eight use cases

  /** What a registration answers; a new user and a pending one are both sent a token. */
  ghost function RegistrationEnds(s: Store, email: string, password: string, d: Draw, found: Option<Key>): Result<Plan>
    requires UserWithEmail(s, email, found)
  {
    var normal, stripped := Lower(Strip(email)), Strip(password);
    match found
    case Some(k) =>
      if s[k].row.user.verified then Err(UserAlreadyExists)
      else Ok(Plan(
        Update(k, s[k].version, s[k].row),
        Some(Insert(OneTimeKey(d.tokenId),
                    OneTimeRow(OneTimeData(k.id, Sha256(d.token), d.issuedAt + 43200, VERIFY_EMAIL, false)))),
        [UserEmailVerificationRequested(k.id, email, d.token)]))
    case None =>
      if email == "" then Err(EmailRequired)
      else if !EmailValidator.WellFormed(normal) then Err(EmailFormat)
      else if |stripped| < 8 then Err(PasswordTooShort)
      else if |stripped| > 255 then Err(PasswordTooLong)
      else if !UserWithEmail(s, normal, None) then Err(IntegrityError)
      else Ok(Plan(
        Insert(UserKey(d.userId), UserRow(UserData(normal, Bcrypt(stripped), true, false, d.bornAt))),
        Some(Insert(OneTimeKey(d.tokenId),
                    OneTimeRow(OneTimeData(d.userId, Sha256(d.token), d.issuedAt + 43200, VERIFY_EMAIL, false)))),
        [UserCreated(d.userId, normal), UserEmailVerificationRequested(d.userId, normal, d.token)]))
  }

  lemma RegistrationAnswers(s: Store, email: string, password: string, d: Draw, found: Option<Key>)
    requires StoreInvariant(s) && Fresh(s, d) && UserWithEmail(s, email, found)
    ensures Transact(Register(email, password), d, Alone(s)) == RegistrationEnds(s, email, password, d, found)
  {
    hide StoreInvariant, Fresh, Strip, Lower, Select, View, EmailTaken, EmailValidator.WellFormed;
    var req, ends := Register(email, password), RegistrationEnds(s, email, password, d, found);
    SelectsUser(s, email, found);
    InsertsSucceed(s, d);
    var r := Select(s, UserByEmail(email));
    OneRead(req, s, r);
    RegistrationComputes(s, email, password, d, found, r);
    hide Compute;
    if ends != Err(IntegrityError) {
      EndsAs(req, d, s, [r], ends);
    }
  }

  lemma RegistrationComputes(s: Store, email: string, password: string, d: Draw, found: Option<Key>, r: Reply)
    requires UserWithEmail(s, email, found)
    requires found.Some? ==> found.value.UserKey? && r == Some(Found(found.value, s[found.value]))
    requires found.None? ==> r == None
    ensures var ends := RegistrationEnds(s, email, password, d, found);
            var computed := Compute(Register(email, password), [r], d);
            if ends != Err(IntegrityError) then computed == ends
            else
              && computed.Ok? && computed.value.first.Insert? && computed.value.first.key == UserKey(d.userId)
              && computed.value.first.row.UserRow?
              && computed.value.first.row.user.email == Lower(Strip(email))
              && !UserWithEmail(s, Lower(Strip(email)), None)
  {
    hide Strip, Lower, EmailValidator.WellFormed, EmailValidator.ValidateEmail, ValidateHashPassword;
    EmailValidator.EmailOutcome(email);
    PasswordOutcome(password);
    if found.Some? {
      var k := found.value;
      assert [] + [UserEmailVerificationRequested(k.id, email, d.token)]
             == [UserEmailVerificationRequested(k.id, email, d.token)];
    } else {
      var normal := Lower(Strip(email));
      assert [UserCreated(d.userId, normal)] + [UserEmailVerificationRequested(d.userId, normal, d.token)]
             == [UserCreated(d.userId, normal), UserEmailVerificationRequested(d.userId, normal, d.token)];
    }
  }

  /** The verification of an email: the token's purpose, then its state, then that of the user. */
  ghost function VerificationEnds(s: Store, token: string, d: Draw, found: Option<Key>): Result<Plan>
    requires OneTimeWithText(s, token, found)
    requires found.Some? ==> UserKey(s[found.value].row.ott.userId) in s
    requires found.Some? ==> s[UserKey(s[found.value].row.ott.userId)].row.UserRow?
  {
    match found
    case None => Err(OneTimeTokenNotFound)
    case Some(k) =>
      var ott, owner := s[k].row.ott, UserKey(s[k].row.ott.userId);
      var user := s[owner].row.user;
      if ott.purpose != VERIFY_EMAIL then Err(TokenPurposeMismatch)
      else if ott.used || d.checkedAt > ott.expiresAt then Err(TokenInvalid)
      else if user.verified then Err(EmailAlreadyVerified)
      else Ok(Plan(
        Update(owner, s[owner].version, UserRow(user.(verified := true))),
        Some(Update(k, s[k].version, OneTimeRow(ott.(used := true)))),
        [UserEmailVerified(owner.id, user.email)]))
  }

  lemma VerificationAnswers(s: Store, token: string, d: Draw, found: Option<Key>)
    requires StoreInvariant(s) && OneTimeWithText(s, token, found)
    ensures found.Some? ==>
              var owner := UserKey(s[found.value].row.ott.userId); owner in s && s[owner].row.UserRow?
    ensures Transact(EmailVerification(token), d, Alone(s)) == VerificationEnds(s, token, d, found)
  {
    hide StoreInvariant, Select, View;
    SelectsOneTime(s, token, found);
    var r := Select(s, OneTimeByHash(Sha256(token)));
    if found.Some? {
      var r' := Select(s, UserById(s[found.value].row.ott.userId));
      TwoReads(EmailVerification(token), s, r, r');
      EndsAs(EmailVerification(token), d, s, [r, r'], VerificationEnds(s, token, d, found));
    } else {
      OneRead(EmailVerification(token), s, r);
    }
  }

  /** A login: the user's state, then the password as it was typed. */
  ghost function LoginEnds(
    s: Store, email: string, password: string, client: Client, d: Draw, found: Option<Key>): Result<Plan>
    requires UserWithEmail(s, email, found)
  {
    match found
    case None => Err(UserNotFound)
    case Some(k) =>
      var user := s[k].row.user;
      if !user.active then Err(AccountDeactivated)
      else if !user.verified then Err(EmailNotVerified)
      else if user.passwordHash != Bcrypt(password) then Err(InvalidPassword)
      else Ok(Plan(
        Update(k, s[k].version, s[k].row),
        Some(Insert(RefreshKey(d.tokenId),
                    RefreshRow(RefreshData(k.id, Sha256(d.token), d.issuedAt + 1209600, d.issuedAt, None, None)))),
        [RefreshTokenCreated(k.id, d.tokenId, client)]))
  }

  lemma LoginAnswers(s: Store, email: string, password: string, client: Client, d: Draw, found: Option<Key>)
    requires StoreInvariant(s) && Fresh(s, d) && UserWithEmail(s, email, found)
    ensures Transact(Login(email, password, client), d, Alone(s)) == LoginEnds(s, email, password, client, d, found)
  {
    hide StoreInvariant, Fresh, Select, View, EmailTaken;
    SelectsUser(s, email, found);
    InsertsSucceed(s, d);
    var r := Select(s, UserByEmail(email));
    OneRead(Login(email, password, client), s, r);
    EndsAs(Login(email, password, client), d, s, [r], LoginEnds(s, email, password, client, d, found));
  }

  /** A refresh: reuse before validity, the expiry tested at the first reading, the revocation at the second. */
  ghost function RefreshEnds(s: Store, token: string, d: Draw, found: Option<Key>): Result<Plan>
    requires RefreshWithText(s, token, found)
  {
    match found
    case None => Err(RefreshTokenNotFound)
    case Some(k) =>
      var rt := s[k].row.rt;
      if rt.replacedBy.Some? then Err(RefreshTokenReuse)
      else if rt.revokedAt.Some? || d.checkedAt > rt.expiresAt then Err(TokenInvalid)
      else Ok(Plan(
        Update(k, s[k].version,
               RefreshRow(rt.(revokedAt := Some(d.revokedAt), replacedBy := Some(d.tokenId)))),
        Some(Insert(
          RefreshKey(d.tokenId),
          RefreshRow(RefreshData(rt.userId, Sha256(d.token), d.issuedAt + 1209600, d.issuedAt, None, None)))),
        []))
  }

  lemma RefreshAnswers(s: Store, token: string, client: Client, d: Draw, found: Option<Key>)
    requires StoreInvariant(s) && Fresh(s, d) && RefreshWithText(s, token, found)
    ensures Transact(Refresh(token, client), d, Alone(s)) == RefreshEnds(s, token, d, found)
  {
    hide StoreInvariant, Fresh, Select, View, EmailTaken;
    SelectsRefresh(s, token, found);
    InsertsSucceed(s, d);
    var r := Select(s, RefreshByHash(Sha256(token)));
    OneRead(Refresh(token, client), s, r);
    EndsAs(Refresh(token, client), d, s, [r], RefreshEnds(s, token, d, found));
  }

  /** A direct revocation, which is always reported as suspicious. */
  ghost function RevocationEnds(s: Store, token: string, client: Client, d: Draw, found: Option<Key>): Result<Plan>
    requires RefreshWithText(s, token, found)
  {
    match found
    case None => Err(RefreshTokenNotFound)
    case Some(k) =>
      var rt := s[k].row.rt;
      if rt.revokedAt.Some? || d.checkedAt > rt.expiresAt then Err(TokenInvalid)
      else Ok(Plan(
        Update(k, s[k].version, RefreshRow(rt.(revokedAt := Some(d.revokedAt)))), None,
        [SuspiciousRefreshTokenRevocation(rt.userId, k.id, client), RefreshTokenRevoked(rt.userId, k.id)]))
  }

  lemma RevocationAnswers(s: Store, token: string, client: Client, d: Draw, found: Option<Key>)
    requires StoreInvariant(s) && RefreshWithText(s, token, found)
    ensures Transact(Revoke(token, client), d, Alone(s)) == RevocationEnds(s, token, client, d, found)
  {
    hide StoreInvariant, Select, View;
    SelectsRefresh(s, token, found);
    var r := Select(s, RefreshByHash(Sha256(token)));
    OneRead(Revoke(token, client), s, r);
    if found.Some? {
      var userId, id := s[found.value].row.rt.userId, found.value.id;
      assert [SuspiciousRefreshTokenRevocation(userId, id, client)] + [RefreshTokenRevoked(userId, id)]
             == [SuspiciousRefreshTokenRevocation(userId, id, client), RefreshTokenRevoked(userId, id)];
    }
    EndsAs(Revoke(token, client), d, s, [r], RevocationEnds(s, token, client, d, found));
  }

  /** A change of password, of the very user that the access token names. */
  ghost function ChangeEnds(s: Store, subject: Option<Id>, oldPassword: string, newPassword: string): Result<Plan>
    requires subject.Some? && UserKey(subject.value) in s ==> s[UserKey(subject.value)].row.UserRow?
  {
    var stripped := Strip(newPassword);
    if subject.None? then Err(InvalidAccessToken)
    else
      var k := UserKey(subject.value);
      if k !in s then Err(UserNotFound)
      else if s[k].row.user.passwordHash != Bcrypt(oldPassword) then Err(WrongOldPassword)
      else if oldPassword == newPassword then Err(SamePassword)
      else if |stripped| < 8 then Err(PasswordTooShort)
      else if |stripped| > 255 then Err(PasswordTooLong)
      else Ok(Plan(
        Update(k, s[k].version, UserRow(s[k].row.user.(passwordHash := Bcrypt(stripped)))), None,
        [UserPasswordChanged(subject.value)]))
  }

  lemma ChangeAnswers(s: Store, subject: Option<Id>, oldPassword: string, newPassword: string, d: Draw)
    requires StoreInvariant(s)
    ensures subject.Some? && UserKey(subject.value) in s ==> s[UserKey(subject.value)].row.UserRow?
    ensures Transact(PasswordChange(subject, oldPassword, newPassword), d, Alone(s))
            == ChangeEnds(s, subject, oldPassword, newPassword)
  {
    hide StoreInvariant, Select, View, Strip, ValidateHashPassword;
    var req := PasswordChange(subject, oldPassword, newPassword);
    PasswordOutcome(newPassword);
    if subject.Some? {
      SelectsById(s, subject.value);
      var r := Select(s, UserById(subject.value));
      OneRead(req, s, r);
      EndsAs(req, d, s, [r], ChangeEnds(s, subject, oldPassword, newPassword));
    } else {
      NoRead(req, s);
    }
  }

  lemma NoRead(req: Request, s: Store)
    requires NextQuery(req, []).None?
    ensures View(req, Alone(s)) == []
  {
  }

  /** A request for recovery, by the email as it was typed. */
  ghost function RecoveryRequestEnds(s: Store, email: string, d: Draw, found: Option<Key>): Result<Plan>
    requires UserWithEmail(s, email, found)
  {
    match found
    case None => Err(UserNotFound)
    case Some(k) =>
      if !s[k].row.user.verified then Err(EmailNotVerified)
      else Ok(Plan(
        Update(k, s[k].version, s[k].row),
        Some(Insert(OneTimeKey(d.tokenId),
                    OneTimeRow(OneTimeData(k.id, Sha256(d.token), d.issuedAt + 900, RECOVER_PASSWORD, false)))),
        [UserPasswordRecoverRequested(k.id, email, d.token)]))
  }

  lemma RecoveryRequestAnswers(s: Store, email: string, d: Draw, found: Option<Key>)
    requires StoreInvariant(s) && Fresh(s, d) && UserWithEmail(s, email, found)
    ensures Transact(PasswordRecoverRequest(email), d, Alone(s)) == RecoveryRequestEnds(s, email, d, found)
  {
    hide StoreInvariant, Fresh, Select, View, EmailTaken;
    SelectsUser(s, email, found);
    InsertsSucceed(s, d);
    var r := Select(s, UserByEmail(email));
    OneRead(PasswordRecoverRequest(email), s, r);
    EndsAs(PasswordRecoverRequest(email), d, s, [r], RecoveryRequestEnds(s, email, d, found));
  }

  /** A recovery: the new password, then the token's purpose, then its state. */
  ghost function RecoveryEnds(s: Store, token: string, password: string, d: Draw, found: Option<Key>): Result<Plan>
    requires OneTimeWithText(s, token, found)
    requires found.Some? ==> UserKey(s[found.value].row.ott.userId) in s
    requires found.Some? ==> s[UserKey(s[found.value].row.ott.userId)].row.UserRow?
  {
    var stripped := Strip(password);
    match found
    case None => Err(OneTimeTokenNotFound)
    case Some(k) =>
      var ott, owner := s[k].row.ott, UserKey(s[k].row.ott.userId);
      if |stripped| < 8 then Err(PasswordTooShort)
      else if |stripped| > 255 then Err(PasswordTooLong)
      else if ott.purpose != RECOVER_PASSWORD then Err(TokenPurposeMismatch)
      else if ott.used || d.checkedAt > ott.expiresAt then Err(TokenInvalid)
      else Ok(Plan(
        Update(owner, s[owner].version, UserRow(s[owner].row.user.(passwordHash := Bcrypt(stripped)))),
        Some(Update(k, s[k].version, OneTimeRow(ott.(used := true)))),
        [UserPasswordRecovered(owner.id)]))
  }

  lemma RecoveryAnswers(s: Store, token: string, password: string, d: Draw, found: Option<Key>)
    requires StoreInvariant(s) && OneTimeWithText(s, token, found)
    ensures found.Some? ==>
              var owner := UserKey(s[found.value].row.ott.userId); owner in s && s[owner].row.UserRow?
    ensures Transact(PasswordRecover(token, password), d, Alone(s)) == RecoveryEnds(s, token, password, d, found)
  {
    hide StoreInvariant, Select, View, Strip, ValidateHashPassword;
    var req := PasswordRecover(token, password);
    SelectsOneTime(s, token, found);
    PasswordOutcome(password);
    var r := Select(s, OneTimeByHash(Sha256(token)));
    if found.Some? {
      var r' := Select(s, UserById(s[found.value].row.ott.userId));
      TwoReads(req, s, r, r');
      EndsAs(req, d, s, [r, r'], RecoveryEnds(s, token, password, d, found));
    } else {
      OneRead(req, s, r);
    }
  }

  // ---- Every commit

  lemma FindUser(s: Store, email: string) returns (found: Option<Key>)
    ensures UserWithEmail(s, email, found)
  {
    if k :| k in s && s[k].row.UserRow? && s[k].row.user.email == email {
      found := Some(k);
    } else {
      found := None;
    }
  }

  lemma FindOneTime(s: Store, token: string) returns (found: Option<Key>)
    ensures OneTimeWithText(s, token, found)
  {
    if k :| k in s && s[k].row.OneTimeRow? && s[k].row.ott.tokenHash == Sha256(token) {
      found := Some(k);
    } else {
      found := None;
    }
  }

  lemma FindRefresh(s: Store, token: string) returns (found: Option<Key>)
    ensures RefreshWithText(s, token, found)
  {
    if k :| k in s && s[k].row.RefreshRow? && s[k].row.rt.tokenHash == Sha256(token) {
      found := Some(k);
    } else {
      found := None;
    }
  }

  lemma CommitTransacts(s: Store, c: Commit)
    requires LegalStep(s, c)
    ensures Fresh(s, c.draw) && Transact(c.req, c.draw, Alone(s)) == Ok(c.plan)
  {
  }

  /**
   * What a committed refresh or revocation leaves of the token: it carries the second clock reading, which
   * may lie past the deadline that the first one met.
   */
  lemma EndsAtSecondReading(s: Store, c: Commit)
    requires StoreInvariant(s) && LegalStep(s, c) && (c.req.Refresh? || c.req.Revoke?)
    ensures c.plan.first.key in s && s[c.plan.first.key].row.RefreshRow?
    ensures var rt := s[c.plan.first.key].row.rt;
            && rt.tokenHash == Sha256(c.req.token) && c.draw.checkedAt <= rt.expiresAt
            && c.plan.first == Update(
                 c.plan.first.key, s[c.plan.first.key].version,
                 RefreshRow(rt.(revokedAt := Some(c.draw.revokedAt),
                                replacedBy := if c.req.Refresh? then Some(c.draw.tokenId) else None)))
  {
    hide StoreInvariant, LegalStep, Transact;
    CommitTransacts(s, c);
    var found := FindRefresh(s, c.req.token);
    if c.req.Refresh? {
      RefreshAnswers(s, c.req.token, c.req.client, c.draw, found);
    } else {
      RevocationAnswers(s, c.req.token, c.req.client, c.draw, found);
      SelectsRefresh(s, c.req.token, found);
    }
  }

  /** The row of a newly registered user, whose password is exactly the stripped text. */
  lemma NewUserRow(s: Store, c: Commit)
    requires StoreInvariant(s) && LegalStep(s, c) && c.req.Register? && c.plan.first.Insert?
    ensures c.plan.first == Insert(
              UserKey(c.draw.userId),
              UserRow(UserData(Lower(Strip(c.req.email)), Bcrypt(Strip(c.req.password)), true, false, c.draw.bornAt)))
    ensures forall x :: VerifyPassword(x, c.plan.first.row.user.passwordHash) <==> x == Strip(c.req.password)
  {
    hide StoreInvariant, LegalStep, Transact, Strip, Lower, EmailValidator.WellFormed;
    CommitTransacts(s, c);
    var found := FindUser(s, c.req.email);
    RegistrationAnswers(s, c.req.email, c.req.password, c.draw, found);
  }

  /** A change of password concerns the subject of the access token alone; the new text is stripped, the old is not. */
  lemma SubjectChangesPassword(s: Store, c: Commit)
    requires StoreInvariant(s) && LegalStep(s, c) && c.req.PasswordChange?
    ensures c.req.subject.Some? && c.plan.first.key == UserKey(c.req.subject.value) && c.plan.second.None?
    ensures c.plan.first.key in s && s[c.plan.first.key].row.UserRow?
    ensures VerifyPassword(c.req.oldPassword, s[c.plan.first.key].row.user.passwordHash)
    ensures c.plan.first == Update(
              c.plan.first.key, s[c.plan.first.key].version,
              UserRow(s[c.plan.first.key].row.user.(passwordHash := Bcrypt(Strip(c.req.newPassword)))))
    ensures forall x :: VerifyPassword(x, c.plan.first.row.user.passwordHash) <==> x == Strip(c.req.newPassword)
  {
    hide StoreInvariant, LegalStep, Transact, Strip;
    CommitTransacts(s, c);
    ChangeAnswers(s, c.req.subject, c.req.oldPassword, c.req.newPassword, c.draw);
  }

  /** A recovery is requested for the user whose stored email is the given text, exactly if verified. */
  lemma RecoveryRequestSucceedsIff(s: Store, email: string, d: Draw)
    requires StoreInvariant(s) && Fresh(s, d)
    ensures Transact(PasswordRecoverRequest(email), d, Alone(s)).Ok? <==>
            exists k :: k in s && s[k].row.UserRow? && s[k].row.user.email == email && s[k].row.user.verified
    ensures Transact(PasswordRecoverRequest(email), d, Alone(s)).Ok? ==>
              var w := Transact(PasswordRecoverRequest(email), d, Alone(s)).value.first;
              w.key in s && s[w.key].row.UserRow? && s[w.key].row.user.email == email
  {
    hide Transact, Fresh;
    var found := FindUser(s, email);
    RecoveryRequestAnswers(s, email, d, found);
    if k :| k in s && s[k].row.UserRow? && s[k].row.user.email == email {
      SelectsUser(s, email, Some(k));
      SelectsUser(s, email, found);
    }
  }

  /** Every kind of commit publishes these events, in this order, about the rows it saves. */
  lemma CommitPublishes(s: Store, c: Commit)
    requires StoreInvariant(s) && LegalStep(s, c)
    ensures var id, events := c.plan.first.key.id, c.plan.published;
            match c.req
            case Register(_, _) =>
              && c.plan.first.row.UserRow?
              && var email := c.plan.first.row.user.email;
                 events == (if c.plan.first.Insert? then [UserCreated(id, email)] else [])
                           + [UserEmailVerificationRequested(id, email, c.draw.token)]
            case EmailVerification(_) =>
              c.plan.first.row.UserRow? && events == [UserEmailVerified(id, c.plan.first.row.user.email)]
            case Login(_, _, client) => events == [RefreshTokenCreated(id, c.draw.tokenId, client)]
            case Refresh(_, _) => events == []
            case Revoke(_, client) =>
              && c.plan.first.row.RefreshRow?
              && var userId := c.plan.first.row.rt.userId;
                 events == [SuspiciousRefreshTokenRevocation(userId, id, client), RefreshTokenRevoked(userId, id)]
            case PasswordChange(_, _, _) => events == [UserPasswordChanged(id)]
            case PasswordRecoverRequest(_) =>
              && c.plan.first.row.UserRow?
              && events == [UserPasswordRecoverRequested(id, c.plan.first.row.user.email, c.draw.token)]
            case PasswordRecover(_, _) => events == [UserPasswordRecovered(id)]
  {
    hide StoreInvariant, LegalStep, Transact, Strip, Lower, EmailValidator.WellFormed;
    CommitTransacts(s, c);
    var d := c.draw;
    match c.req
    case Register(email, password) =>
      var found := FindUser(s, email);
      RegistrationAnswers(s, email, password, d, found);
    case EmailVerification(token) =>
      var found := FindOneTime(s, token);
      VerificationAnswers(s, token, d, found);
    case Login(email, password, client) =>
      var found := FindUser(s, email);
      LoginAnswers(s, email, password, client, d, found);
    case Refresh(token, client) =>
      var found := FindRefresh(s, token);
      RefreshAnswers(s, token, client, d, found);
    case Revoke(token, client) =>
      var found := FindRefresh(s, token);
      RevocationAnswers(s, token, client, d, found);
    case PasswordChange(subject, before, after) =>
      ChangeAnswers(s, subject, before, after, d);
    case PasswordRecoverRequest(email) =>
      var found := FindUser(s, email);
      RecoveryRequestAnswers(s, email, d, found);
    case PasswordRecover(token, password) =>
      var found := FindOneTime(s, token);
      RecoveryAnswers(s, token, password, d, found);
  }
}
