/** Concrete histories: the whole life of a token, and inputs at which the code departs from expectation. */
module Scenarios {
  import opened Domain
  import opened Events
  import opened Results
  import opened Stores
  import opened UseCases
  import opened History
  import opened Evolution
  import opened Failures
  import opened Effects
  import Guarantees
  import EmailValidator
  import PasswordValidator
  import Strings

  /** The draws of use case n: its own two ids and a token of its own, all at time 0. */
  function Drawn(n: nat, token: string): Draw {
    Draw(2 * n, 2 * n + 1, token, 0, 0, 0, 0)
  }

  // ---- Registration with "A@b.c", verification, login

  const NEW_USER := UserData("a@b.c", PasswordValidator.Bcrypt("password"), true, false, 0)
  const USER := NEW_USER.(verified := true)
  const MAILED := CreateOneTime(0, "mailed", 0, EMAIL_TOKEN_EXPIRY, VERIFY_EMAIL)
  const ISSUED := CreateRefresh(0, "issued", 0)

  const REGISTERED := Commit(
    0, Register("A@b.c", "password"), Drawn(0, "mailed"),
    Plan(Insert(UserKey(0), UserRow(NEW_USER)), Some(Insert(OneTimeKey(1), OneTimeRow(MAILED))),
         [UserCreated(0, "a@b.c"), UserEmailVerificationRequested(0, "a@b.c", "mailed")]))

  const VERIFIED := Commit(
    1, EmailVerification("mailed"), Drawn(1, "unused"),
    Plan(Update(UserKey(0), 1, UserRow(USER)), Some(Update(OneTimeKey(1), 1, OneTimeRow(MAILED.(used := true)))),
         [UserEmailVerified(0, "a@b.c")]))

  const LOGGED_IN := Commit(
    2, Login("a@b.c", "password", NO_CLIENT), Drawn(2, "issued"),
    Plan(Update(UserKey(0), 2, UserRow(USER)), Some(Insert(RefreshKey(5), RefreshRow(ISSUED))),
         [RefreshTokenCreated(0, 5, NO_CLIENT)]))

  const ROTATED := Commit(
    3, Refresh("issued", NO_CLIENT), Drawn(3, "rotated"),
    Plan(Update(RefreshKey(5), 1, RefreshRow(ISSUED.(revokedAt := Some(0), replacedBy := Some(7)))),
         Some(Insert(RefreshKey(7), RefreshRow(CreateRefresh(0, "rotated", 0)))), []))

  const REVOKED := Commit(
    3, Revoke("issued", NO_CLIENT), Drawn(3, "none"),
    Plan(Update(RefreshKey(5), 1, RefreshRow(ISSUED.(revokedAt := Some(0)))), None,
         [SuspiciousRefreshTokenRevocation(0, 5, NO_CLIENT), RefreshTokenRevoked(0, 5)]))

  const AFTER_REGISTRATION: Store :=
    map[UserKey(0) := Cell(UserRow(NEW_USER), 1), OneTimeKey(1) := Cell(OneTimeRow(MAILED), 1)]

  const AFTER_VERIFICATION: Store :=
    map[UserKey(0) := Cell(UserRow(USER), 2), OneTimeKey(1) := Cell(OneTimeRow(MAILED.(used := true)), 2)]

  const AFTER_LOGIN: Store :=
    map[UserKey(0) := Cell(UserRow(USER), 3), OneTimeKey(1) := Cell(OneTimeRow(MAILED.(used := true)), 2),
        RefreshKey(5) := Cell(RefreshRow(ISSUED), 1)]

  const AFTER_REVOCATION: Store :=
    AFTER_LOGIN[RefreshKey(5) := Cell(RefreshRow(ISSUED.(revokedAt := Some(0))), 2)]

  lemma EmailsAreNormalised()
    ensures EmailValidator.ValidateEmail(Text("A@b.c")) == Ok("a@b.c")
    ensures EmailValidator.Canonical("a@b.c") && !EmailValidator.Canonical("A@b.c")
  {
    hide EmailValidator.FullMatch, Strings.Strip, Strings.Lower;
    Strings.StripFixesTrimmed("A@b.c");
    Strings.StripFixesTrimmed("a@b.c");
    assert Strings.Lower("A@b.c") == "a@b.c";
    assert Strings.Lower("a@b.c") == "a@b.c";
    assert "A@b.c"[0] != "a@b.c"[0];
    assert EmailValidator.SplitsAt("a@b.c", 1);
    assert "a@b.c"[3] == '.' && EmailValidator.DottedAfter("a@b.c", 1);
    EmailValidator.AcceptsExactlyWellFormed("A@b.c");
  }

  lemma PasswordIsValid()
    ensures PasswordValidator.ValidateHashPassword(Text("password")) == Ok(PasswordValidator.Bcrypt("password"))
  {
    hide Strings.Strip;
    Strings.StripFixesTrimmed("password");
  }

  lemma RegistrationIsLegal()
    ensures LegalStep(map[], REGISTERED) && Apply(map[], REGISTERED.plan) == AFTER_REGISTRATION
  {
    hide EmailValidator.ValidateEmail, PasswordValidator.ValidateHashPassword;
    EmailsAreNormalised();
    PasswordIsValid();
    assert View(REGISTERED.req, Alone(map[])) == [None];
    hide View, Select;
    assert [UserCreated(0, "a@b.c")] + [UserEmailVerificationRequested(0, "a@b.c", "mailed")]
           == REGISTERED.plan.published;
    assert Compute(REGISTERED.req, [None], REGISTERED.draw) == Ok(REGISTERED.plan);
  }

  lemma VerificationIsLegal()
    requires UniqueHits(AFTER_REGISTRATION)
    ensures LegalStep(AFTER_REGISTRATION, VERIFIED) && Apply(AFTER_REGISTRATION, VERIFIED.plan) == AFTER_VERIFICATION
  {
    var s := AFTER_REGISTRATION;
    Selects(s, OneTimeByHash(Sha256("mailed")), OneTimeKey(1));
    Selects(s, UserById(0), UserKey(0));
    hide Select, UniqueHits;
    assert View(VERIFIED.req, Alone(s)) ==
           [Some(Found(OneTimeKey(1), s[OneTimeKey(1)])), Some(Found(UserKey(0), s[UserKey(0)]))];
    hide View;
  }

  lemma LoginIsLegal()
    requires UniqueHits(AFTER_VERIFICATION)
    ensures LegalStep(AFTER_VERIFICATION, LOGGED_IN) && Apply(AFTER_VERIFICATION, LOGGED_IN.plan) == AFTER_LOGIN
  {
    var s := AFTER_VERIFICATION;
    Selects(s, UserByEmail("a@b.c"), UserKey(0));
    hide Select, UniqueHits;
    assert View(LOGGED_IN.req, Alone(s)) == [Some(Found(UserKey(0), s[UserKey(0)]))];
    hide View;
  }

  lemma RotationIsLegal()
    requires UniqueHits(AFTER_LOGIN)
    ensures LegalStep(AFTER_LOGIN, ROTATED)
  {
    var s := AFTER_LOGIN;
    Selects(s, RefreshByHash(Sha256("issued")), RefreshKey(5));
    hide Select, UniqueHits;
    assert View(ROTATED.req, Alone(s)) == [Some(Found(RefreshKey(5), s[RefreshKey(5)]))];
    hide View;
  }

  lemma RevocationIsLegal()
    requires UniqueHits(AFTER_LOGIN)
    ensures LegalStep(AFTER_LOGIN, REVOKED) && Apply(AFTER_LOGIN, REVOKED.plan) == AFTER_REVOCATION
  {
    var s := AFTER_LOGIN;
    Selects(s, RefreshByHash(Sha256("issued")), RefreshKey(5));
    hide Select, UniqueHits;
    assert View(REVOKED.req, Alone(s)) == [Some(Found(RefreshKey(5), s[RefreshKey(5)]))];
    hide View;
    assert [SuspiciousRefreshTokenRevocation(0, 5, NO_CLIENT)] + [RefreshTokenRevoked(0, 5)] == REVOKED.plan.published;
  }

  /** Appending a legal commit gives a legal history whose last store is well formed. */
  lemma Continues(h: Log, c: Commit)
    requires Legal(h) && LegalStep(StoreAt(h, |h|), c)
    ensures Legal(h + [c]) && StoreAt(h + [c], |h| + 1) == Apply(StoreAt(h, |h|), c.plan)
    ensures StoreInvariant(StoreAt(h + [c], |h| + 1))
  {
    hide Legal, LegalStep, StoreAt, Apply, StoreInvariant;
    LegalAppends(h, c);
    HistoryKeepsInvariant(h + [c], |h| + 1);
  }

  lemma FirstCommitIsLegal()
    ensures Legal([REGISTERED]) && StoreAt([REGISTERED], 1) == AFTER_REGISTRATION && StoreInvariant(AFTER_REGISTRATION)
  {
    hide LegalStep, Apply, StoreInvariant;
    RegistrationIsLegal();
    Continues([], REGISTERED);
    assert [] + [REGISTERED] == [REGISTERED];
  }

  lemma TwoCommitsAreLegal()
    ensures Legal([REGISTERED, VERIFIED]) && StoreAt([REGISTERED, VERIFIED], 2) == AFTER_VERIFICATION
    ensures StoreInvariant(AFTER_VERIFICATION)
  {
    FirstCommitIsLegal();
    hide Legal, StoreAt, LegalStep, Apply, RowInvariant;
    VerificationIsLegal();
    Continues([REGISTERED], VERIFIED);
    assert [REGISTERED] + [VERIFIED] == [REGISTERED, VERIFIED];
  }

  lemma ThreeCommitsAreLegal()
    ensures Legal([REGISTERED, VERIFIED, LOGGED_IN])
    ensures StoreAt([REGISTERED, VERIFIED, LOGGED_IN], 3) == AFTER_LOGIN && StoreInvariant(AFTER_LOGIN)
  {
    TwoCommitsAreLegal();
    hide Legal, StoreAt, LegalStep, Apply, RowInvariant;
    LoginIsLegal();
    Continues([REGISTERED, VERIFIED], LOGGED_IN);
    assert [REGISTERED, VERIFIED] + [LOGGED_IN] == [REGISTERED, VERIFIED, LOGGED_IN];
  }

  /** A legal history: register, verify, log in, refresh. */
  lemma RefreshingHistoryIsLegal()
    ensures Legal([REGISTERED, VERIFIED, LOGGED_IN, ROTATED])
  {
    ThreeCommitsAreLegal();
    hide Legal, StoreAt, LegalStep, Apply, RowInvariant;
    RotationIsLegal();
    Continues([REGISTERED, VERIFIED, LOGGED_IN], ROTATED);
    assert [REGISTERED, VERIFIED, LOGGED_IN] + [ROTATED] == [REGISTERED, VERIFIED, LOGGED_IN, ROTATED];
  }

  lemma RevokingHistoryIsLegal()
    ensures Legal([REGISTERED, VERIFIED, LOGGED_IN, REVOKED])
    ensures StoreAt([REGISTERED, VERIFIED, LOGGED_IN, REVOKED], 4) == AFTER_REVOCATION
    ensures StoreInvariant(AFTER_REVOCATION)
  {
    ThreeCommitsAreLegal();
    hide Legal, StoreAt, LegalStep, Apply, RowInvariant;
    RevocationIsLegal();
    Continues([REGISTERED, VERIFIED, LOGGED_IN], REVOKED);
    assert [REGISTERED, VERIFIED, LOGGED_IN] + [REVOKED] == [REGISTERED, VERIFIED, LOGGED_IN, REVOKED];
  }

  // ---- Where expectation fails

  lemma FailsIfComputingFails(req: Request, d: Draw, env: Environment, e: Error)
    requires Compute(req, View(req, env), d) == Err(e)
    ensures Transact(req, d, env) == Err(e)
  {
    hide View, Compute;
  }

  /**
   * A token that a committed request revoked is invalid when it is presented again, at any time and from
   * any client; it is not reported as reused.
   */
  lemma RevokedTokenIsInvalidNotReused(client: Client, d: Draw)
    ensures Legal([REGISTERED, VERIFIED, LOGGED_IN, REVOKED])
    ensures var s := StoreAt([REGISTERED, VERIFIED, LOGGED_IN, REVOKED], 4);
            Transact(Refresh("issued", client), d, Alone(s)) == Err(TokenInvalid)
  {
    hide Legal, StoreAt, View, Select, StoreInvariant, Transact;
    RevokingHistoryIsLegal();
    RevokedTokenView(client);
    FailsIfComputingFails(Refresh("issued", client), d, Alone(AFTER_REVOCATION), TokenInvalid);
  }

  lemma RevokedTokenView(client: Client)
    requires StoreInvariant(AFTER_REVOCATION)
    ensures var s := AFTER_REVOCATION;
            View(Refresh("issued", client), Alone(s)) == [Some(Found(RefreshKey(5), s[RefreshKey(5)]))]
  {
    hide RowInvariant;
    Selects(AFTER_REVOCATION, RefreshByHash(Sha256("issued")), RefreshKey(5));
    hide Select, StoreInvariant, UniqueHits;
  }

  /** A user registers as "A@b.c", and nobody is found under "A@b.c" afterwards. */
  lemma RegisteredTextFindsNobody()
    ensures Legal([REGISTERED]) && REGISTERED.req.email == "A@b.c"
    ensures Select(StoreAt([REGISTERED], 1), UserByEmail("A@b.c")).None?
  {
    FirstCommitIsLegal();
    EmailsAreNormalised();
    hide Legal, StoreAt, Select, EmailValidator.Canonical;
    Guarantees.RegisteredTextIsFoundIffCanonical([REGISTERED], 0, 1);
  }

  /**
   * Registering as "A@b.c" once more ends in IntegrityError: the pending user is not found, so no new
   * verification is requested.
   */
  lemma RegisteringAgainFails(d: Draw)
    requires Fresh(AFTER_REGISTRATION, d)
    ensures Legal([REGISTERED]) && StoreAt([REGISTERED], 1) == AFTER_REGISTRATION
    ensures Transact(Register("A@b.c", "password"), d, Alone(AFTER_REGISTRATION)) == Err(IntegrityError)
  {
    FirstCommitIsLegal();
    EmailsAreNormalised();
    PasswordIsValid();
    var s := AFTER_REGISTRATION;
    assert Matches(UserByEmail("a@b.c"), UserKey(0), s[UserKey(0)].row);
    assert TakenIn(s, "a@b.c");
    hide Legal, StoreAt, Transact, TakenIn, StoreInvariant, Fresh;
    assert "A@b.c"[0] != "a@b.c"[0];
    IntegrityErrorAloneIff(s, "A@b.c", "password", d);
  }

  /** The rows that a second redemption of the token meets when the first commits between its two reads. */
  ghost function RacedRedemption(): Environment {
    (n: nat) => if n == 0 then AFTER_REGISTRATION else AFTER_VERIFICATION
  }

  lemma RedemptionViews()
    ensures StoreInvariant(AFTER_REGISTRATION) && StoreInvariant(AFTER_VERIFICATION)
    ensures var k, u, a, b := OneTimeKey(1), UserKey(0), AFTER_REGISTRATION, AFTER_VERIFICATION;
            && View(EmailVerification("mailed"), RacedRedemption()) == [Some(Found(k, a[k])), Some(Found(u, b[u]))]
            && View(EmailVerification("mailed"), Alone(a)) == [Some(Found(k, a[k])), Some(Found(u, a[u]))]
            && View(EmailVerification("mailed"), Alone(b)) == [Some(Found(k, b[k])), Some(Found(u, b[u]))]
  {
    FirstCommitIsLegal();
    TwoCommitsAreLegal();
    hide Legal, StoreAt, RowInvariant;
    var q, k := OneTimeByHash(Sha256("mailed")), OneTimeKey(1);
    Selects(AFTER_REGISTRATION, q, k);
    Selects(AFTER_REGISTRATION, UserById(0), UserKey(0));
    Selects(AFTER_VERIFICATION, q, k);
    Selects(AFTER_VERIFICATION, UserById(0), UserKey(0));
    hide Select, StoreInvariant, UniqueHits;
  }

  /** That redemption finds the email verified; alone, before the other it succeeds, and after it the token is used. */
  lemma RacedRedemptionIsNotSerial(d: Draw)
    requires d.checkedAt <= EMAIL_TOKEN_EXPIRY
    ensures Transact(EmailVerification("mailed"), d, RacedRedemption()) == Err(EmailAlreadyVerified)
    ensures Transact(EmailVerification("mailed"), d, Alone(AFTER_REGISTRATION)).Ok?
    ensures Transact(EmailVerification("mailed"), d, Alone(AFTER_VERIFICATION)) == Err(TokenInvalid)
  {
    hide View, Select, StoreInvariant;
    RedemptionViews();
    FailsIfComputingFails(EmailVerification("mailed"), d, RacedRedemption(), EmailAlreadyVerified);
    FailsIfComputingFails(EmailVerification("mailed"), d, Alone(AFTER_VERIFICATION), TokenInvalid);
  }

  // ---- Clocks, blanks and capitals

  /** A refresh that is checked at the very deadline and revoked one second later stores the later time. */
  lemma RevokedPastExpiry(client: Client, d: Draw)
    requires Fresh(AFTER_LOGIN, d) && d.checkedAt == REFRESH_TOKEN_EXPIRY && d.revokedAt == REFRESH_TOKEN_EXPIRY + 1
    ensures Transact(Refresh("issued", client), d, Alone(AFTER_LOGIN)).Ok?
    ensures var w := Transact(Refresh("issued", client), d, Alone(AFTER_LOGIN)).value.first;
            && w.key == RefreshKey(5) && w.row.RefreshRow? && w.row.rt.expiresAt == REFRESH_TOKEN_EXPIRY
            && w.row.rt.revokedAt == Some(REFRESH_TOKEN_EXPIRY + 1)
  {
    ThreeCommitsAreLegal();
    hide Legal, StoreAt, Transact, StoreInvariant, Fresh;
    RefreshAnswers(AFTER_LOGIN, "issued", client, d, Some(RefreshKey(5)));
  }

  /** Registering with "password " stores the password "password". */
  lemma PaddedRegistration(d: Draw)
    requires d.userId != d.tokenId
    ensures Transact(Register("a@b.c", "password "), d, Alone(map[])).Ok?
    ensures var w := Transact(Register("a@b.c", "password "), d, Alone(map[])).value.first;
            && w.row.UserRow? && PasswordValidator.VerifyPassword("password", w.row.user.passwordHash)
            && !PasswordValidator.VerifyPassword("password ", w.row.user.passwordHash)
  {
    hide Transact, Strings.Strip, Strings.Lower, EmailValidator.WellFormed;
    RegistrationAnswers(map[], "a@b.c", "password ", d, None);
    assert Strings.Trimmed("password") && "" + "password" + " " == "password ";
    PasswordValidator.StripDropsPadding("", "password", " ");
    EmailsAreNormalised();
    Strings.StripFixesTrimmed("a@b.c");
    assert |"password"| != |"password "|;
  }

  /** A recovery requested under "A@b.c" finds nobody, while "a@b.c" is a verified user. */
  lemma RecoveryUnderOtherCapitalsFails(d: Draw)
    requires Fresh(AFTER_LOGIN, d)
    ensures Transact(PasswordRecoverRequest("A@b.c"), d, Alone(AFTER_LOGIN)) == Err(UserNotFound)
    ensures Transact(PasswordRecoverRequest("a@b.c"), d, Alone(AFTER_LOGIN)).Ok?
  {
    ThreeCommitsAreLegal();
    hide Legal, StoreAt, Transact, StoreInvariant, Fresh;
    assert "A@b.c"[0] != "a@b.c"[0];
    RecoveryRequestAnswers(AFTER_LOGIN, "A@b.c", d, None);
    RecoveryRequestAnswers(AFTER_LOGIN, "a@b.c", d, Some(UserKey(0)));
  }
}
