/** One-time tokens over a serial history: exactly-once redemption, and no write skew with the user row. */
module Redemption {
  import opened Domain
  import opened Events
  import opened Results
  import opened Stores
  import opened UseCases
  import opened History
  import opened Evolution
  import opened Counting
  import PasswordValidator

  ghost predicate IsUsed(s: Store, k: Key, userId: Id, purpose: Purpose) {
    && k in s && k.OneTimeKey? && s[k].row.OneTimeRow?
    && s[k].row.ott.used && s[k].row.ott.userId == userId && s[k].row.ott.purpose == purpose
  }

  /** The used tokens of a user for a purpose. */
  ghost function UsedTokens(s: Store, userId: Id, purpose: Purpose): set<Key> {
    set k | k in s && IsUsed(s, k, userId, purpose)
  }

  ghost predicate IsVerified(s: Store, userId: Id) {
    UserKey(userId) in s && s[UserKey(userId)].row.UserRow? && s[UserKey(userId)].row.user.verified
  }

  /** The commit redeems a token of the user for the purpose. */
  ghost predicate Redeems(c: Commit, userId: Id, purpose: Purpose) {
    && c.plan.first.key == UserKey(userId) && c.plan.second.Some?
    && (if purpose == VERIFY_EMAIL then c.req.EmailVerification? else c.req.PasswordRecover?)
  }

  ghost function Redeeming(userId: Id, purpose: Purpose): Commit -> bool {
    (c: Commit) => Redeems(c, userId, purpose)
  }

  /** The commit issues a token of the user for the purpose. */
  ghost predicate Issues(c: Commit, userId: Id, purpose: Purpose) {
    && c.plan.second.Some? && c.plan.second.value.Insert? && c.plan.second.value.row.OneTimeRow?
    && c.plan.second.value.row.ott.userId == userId && c.plan.second.value.row.ott.purpose == purpose
  }

  ghost predicate SavesSecond(c: Commit, k: Key) {
    c.plan.second.Some? && c.plan.second.value.key == k
  }

  /** Only a redeeming commit writes an existing one-time token, and it turns a redeemable one into a used one. */
  lemma RedemptionSaves(s: Store, c: Commit)
    requires StoreInvariant(s) && LegalStep(s, c)
    ensures c.req.EmailVerification? || c.req.PasswordRecover? ==>
              && c.plan.first.key.UserKey? && c.plan.second.Some? && c.plan.second.value.Update?
              && UsesOneTime(s, c.plan.second, if c.req.EmailVerification? then VERIFY_EMAIL else RECOVER_PASSWORD,
                             c.plan.first.key.id)
    ensures !c.req.EmailVerification? && !c.req.PasswordRecover? ==>
              forall k: Key :: k.OneTimeKey? && k in s ==> !Writes(c, k)
    ensures c.plan.second.Some? && c.plan.second.value.Insert? && c.plan.second.value.row.OneTimeRow? ==>
              !c.plan.second.value.row.ott.used
    ensures !c.plan.first.key.OneTimeKey?
  {
    LegalStepHasShape(s, c);
    hide LegalStep, StoreInvariant;
  }

  lemma UsedAfter(s: Store, c: Commit, k: Key, userId: Id, purpose: Purpose)
    requires StoreInvariant(s) && LegalStep(s, c)
    ensures IsUsed(Apply(s, c.plan), k, userId, purpose) <==>
            IsUsed(s, k, userId, purpose) || (Redeems(c, userId, purpose) && SavesSecond(c, k))
  {
    hide LegalStep, StoreInvariant, Apply, PlanFits, Succeeds;
    RedemptionSaves(s, c);
    LegalPlanFits(s, c);
    AppliedCell(s, c, k);
  }

  lemma UsedTokensGrow(s: Store, c: Commit, userId: Id, purpose: Purpose)
    requires StoreInvariant(s) && LegalStep(s, c)
    ensures |UsedTokens(Apply(s, c.plan), userId, purpose)|
            == |UsedTokens(s, userId, purpose)| + if Redeems(c, userId, purpose) then 1 else 0
  {
    hide LegalStep, StoreInvariant, Apply, UsedTokens, Redeems;
    var before, after := UsedTokens(s, userId, purpose), UsedTokens(Apply(s, c.plan), userId, purpose);
    forall k
      ensures k in after <==> k in before || (Redeems(c, userId, purpose) && SavesSecond(c, k))
    {
      UsedMembership(s, c, k, userId, purpose);
    }
    if Redeems(c, userId, purpose) {
      RedeemedWasUnused(s, c, userId, purpose);
      assert after == before + {c.plan.second.value.key};
    } else {
      assert after == before;
    }
  }

  lemma UsedMembership(s: Store, c: Commit, k: Key, userId: Id, purpose: Purpose)
    requires StoreInvariant(s) && LegalStep(s, c)
    ensures k in UsedTokens(Apply(s, c.plan), userId, purpose) <==>
            k in UsedTokens(s, userId, purpose) || (Redeems(c, userId, purpose) && SavesSecond(c, k))
  {
    hide LegalStep, StoreInvariant, Apply;
    UsedAfter(s, c, k, userId, purpose);
  }

  lemma RedeemedWasUnused(s: Store, c: Commit, userId: Id, purpose: Purpose)
    requires StoreInvariant(s) && LegalStep(s, c) && Redeems(c, userId, purpose)
    ensures c.plan.second.Some? && c.plan.second.value.key !in UsedTokens(s, userId, purpose)
  {
    hide LegalStep, StoreInvariant;
    RedemptionSaves(s, c);
  }

  /**
   * Exactly once: the used tokens of a user for a purpose are as many as the commits that redeemed one.
   * In particular the used RECOVER_PASSWORD tokens equal the committed password recoveries.
   */
  lemma {:induction false} UsedTokensCountRedemptions(h: Log, n: nat, userId: Id, purpose: Purpose)
    requires Legal(h) && n <= |h|
    ensures |UsedTokens(StoreAt(h, n), userId, purpose)| == Count(h, n, Redeeming(userId, purpose))
  {
    hide LegalStep, StoreInvariant, Apply, IsUsed, Redeems;
    if n == 0 {
    } else {
      UsedTokensCountRedemptions(h, n - 1, userId, purpose);
      HistoryKeepsInvariant(h, n - 1);
      UsedTokensGrow(StoreAt(h, n - 1), h[n - 1], userId, purpose);
    }
  }

  lemma VerifiedAfter(s: Store, c: Commit, userId: Id)
    requires StoreInvariant(s) && LegalStep(s, c)
    ensures Redeems(c, userId, VERIFY_EMAIL) ==> !IsVerified(s, userId)
    ensures IsVerified(Apply(s, c.plan), userId) <==> IsVerified(s, userId) || Redeems(c, userId, VERIFY_EMAIL)
  {
    LegalPlanFits(s, c);
    AppliedCell(s, c, UserKey(userId));
    LegalStepHasShape(s, c);
    hide LegalStep, StoreInvariant, Apply, PlanFits, Succeeds, UsesOneTime, EndsRefresh, EmailTaken;
  }

  lemma NothingInEmptyStore(userId: Id)
    ensures |UsedTokens(map[], userId, VERIFY_EMAIL)| == 0 && !IsVerified(map[], userId)
  {
  }

  /** A user has exactly one used VERIFY_EMAIL token if verified, and none otherwise. */
  lemma {:induction false} VerifiedIffOneUsedToken(h: Log, n: nat, userId: Id)
    requires Legal(h) && n <= |h|
    ensures |UsedTokens(StoreAt(h, n), userId, VERIFY_EMAIL)| == if IsVerified(StoreAt(h, n), userId) then 1 else 0
  {
    hide LegalStep, StoreInvariant, Apply, UsedTokens, Redeems, IsVerified;
    if n == 0 {
      NothingInEmptyStore(userId);
    } else {
      VerifiedIffOneUsedToken(h, n - 1, userId);
      HistoryKeepsInvariant(h, n - 1);
      UsedTokensGrow(StoreAt(h, n - 1), h[n - 1], userId, VERIFY_EMAIL);
      VerifiedAfter(StoreAt(h, n - 1), h[n - 1], userId);
    }
  }

  /** Verification requests are committed only for unverified users, recovery requests only for verified ones. */
  lemma IssuedForCurrentState(s: Store, c: Commit, userId: Id, purpose: Purpose)
    requires StoreInvariant(s) && LegalStep(s, c) && Issues(c, userId, purpose)
    ensures IsVerified(s, userId) <==> purpose == RECOVER_PASSWORD
  {
    LegalStepHasShape(s, c);
    hide LegalStep, StoreInvariant, UsesOneTime, EndsRefresh, EmailTaken;
  }

  /** No write skew: after the verification of a user commits, no VERIFY_EMAIL token of that user does. */
  lemma NoTokenAfterVerification(h: Log, i: nat, j: nat, userId: Id)
    requires Legal(h) && i < j < |h| && Redeems(h[i], userId, VERIFY_EMAIL)
    ensures !Issues(h[j], userId, VERIFY_EMAIL)
  {
    hide LegalStep, StoreInvariant, Apply, Redeems, Issues, Succeeds;
    HistoryKeepsInvariant(h, i);
    VerifiedAfter(StoreAt(h, i), h[i], userId);
    VerifiedForever(h, i + 1, j, userId);
    HistoryKeepsInvariant(h, j);
    if Issues(h[j], userId, VERIFY_EMAIL) {
      IssuedForCurrentState(StoreAt(h, j), h[j], userId, VERIFY_EMAIL);
    }
  }

  lemma VerifiedForever(h: Log, a: nat, b: nat, userId: Id)
    requires Legal(h) && a <= b <= |h| && IsVerified(StoreAt(h, a), userId)
    ensures IsVerified(StoreAt(h, b), userId)
  {
    RowsEvolve(h, a, b, UserKey(userId));
    hide Legal, StoreAt;
  }

  /**
   * No write skew: a login's refresh token is committed for a user whose row, at the moment of the
   * commit, has that email, is active and verified, and accepts the supplied password.
   */
  lemma LoginCommitsAgainstCurrentUser(h: Log, j: nat)
    requires Legal(h) && j < |h| && h[j].req.Login?
    ensures var s, k, u := StoreAt(h, j), h[j].plan.first.key, StoreAt(h, j + 1);
            && k in s && s[k].row.UserRow?
            && s[k].row.user.email == h[j].req.email
            && s[k].row.user.active && s[k].row.user.verified
            && PasswordValidator.VerifyPassword(h[j].req.password, s[k].row.user.passwordHash)
            && RefreshKey(h[j].draw.tokenId) in u && k.UserKey?
            && u[RefreshKey(h[j].draw.tokenId)].row.RefreshRow?
            && u[RefreshKey(h[j].draw.tokenId)].row.rt.userId == k.id
  {
    var s := StoreAt(h, j);
    HistoryKeepsInvariant(h, j);
    LegalStepHasShape(s, h[j]);
    LegalPlanFits(s, h[j]);
    AppliedCell(s, h[j], RefreshKey(h[j].draw.tokenId));
    hide LegalStep, StoreInvariant, Apply, Succeeds;
  }
}
