/** Which presented tokens are honoured: only one that a commit issued, within its lifetime, for its own purpose. */
module Lifetimes {
  import opened Domain
  import opened Events
  import opened Stores
  import opened UseCases
  import opened History
  import opened Evolution
  import opened Rotation
  import opened Chains

  function LifetimeOf(purpose: Purpose): Time {
    match purpose
    case VERIFY_EMAIL => EMAIL_TOKEN_EXPIRY
    case RECOVER_PASSWORD => PASSWORD_RECOVER_TOKEN_EXPIRY
  }

  /** The row carries what its maker drew. */
  ghost predicate IssuedBy(k: Key, r: Row, m: Commit) {
    match r
    case UserRow(_) => true
    case RefreshRow(rt) =>
      && (m.req.Login? || m.req.Refresh?)
      && rt.tokenHash == Sha256(m.draw.token) && rt.expiresAt == m.draw.issuedAt + REFRESH_TOKEN_EXPIRY
    case OneTimeRow(ott) =>
      && (ott.purpose == VERIFY_EMAIL ==> m.req.Register?)
      && (ott.purpose == RECOVER_PASSWORD ==> m.req.PasswordRecoverRequest?)
      && m.plan.first.key == UserKey(ott.userId)
      && ott.tokenHash == Sha256(m.draw.token) && ott.expiresAt == m.draw.issuedAt + LifetimeOf(ott.purpose)
  }

  lemma InsertedRowIsIssued(s: Store, c: Commit, k: Key)
    requires StoreInvariant(s) && LegalStep(s, c) && k !in s && k in Apply(s, c.plan)
    ensures IssuedBy(k, Apply(s, c.plan)[k].row, c)
  {
    LegalStepHasShape(s, c);
    LegalPlanFits(s, c);
    AppliedCell(s, c, k);
    hide LegalStep, StoreInvariant, Apply, UsesOneTime, EndsRefresh, EmailTaken, Succeeds;
  }

  lemma SuccessorIsIssued(k: Key, a: Row, b: Row, m: Commit)
    requires IssuedBy(k, a, m) && (a == b || SameIdentity(a, b))
    ensures IssuedBy(k, b, m)
  {
  }

  /** Every stored token still carries the hash, the deadline and the purpose it was issued with. */
  lemma {:induction false} RowsKeepTheirIssue(h: Log, n: nat, k: Key)
    requires Legal(h) && n <= |h| && k in StoreAt(h, n)
    ensures IssuedBy(k, StoreAt(h, n)[k].row, Maker(h, n, k))
  {
    hide LegalStep, StoreInvariant, Apply, IssuedBy, SameIdentity;
    var s, c := StoreAt(h, n - 1), h[n - 1];
    HistoryKeepsInvariant(h, n - 1);
    if k in s {
      RowsKeepTheirIssue(h, n - 1, k);
      StepEvolves(s, c, k);
      SuccessorIsIssued(k, s[k].row, StoreAt(h, n)[k].row, Maker(h, n, k));
    } else {
      InsertedRowIsIssued(s, c, k);
    }
  }

  lemma EndedTokenIsInTime(s: Store, c: Commit)
    requires StoreInvariant(s) && LegalStep(s, c) && (c.req.Refresh? || c.req.Revoke?)
    ensures IsToken(s, c.plan.first.key)
    ensures Token(s, c.plan.first.key).tokenHash == Sha256(c.req.token)
    ensures c.draw.checkedAt <= Token(s, c.plan.first.key).expiresAt
  {
    hide LegalStep, StoreInvariant;
    var f := OtherCaseReads(s, c);
  }

  /**
   * A refresh token is rotated or revoked only by who presents the very token that an earlier login or
   * rotation drew for it, and not after its lifetime, counted from then.
   */
  lemma TokensEndInTime(h: Log, i: nat)
    requires Legal(h) && i < |h| && (h[i].req.Refresh? || h[i].req.Revoke?)
    ensures h[i].plan.first.key in StoreAt(h, i)
    ensures var m := Maker(h, i, h[i].plan.first.key);
            && (m.req.Login? || m.req.Refresh?)
            && h[i].req.token == m.draw.token
            && h[i].draw.checkedAt <= m.draw.issuedAt + REFRESH_TOKEN_EXPIRY
  {
    HistoryKeepsInvariant(h, i);
    EndedTokenIsInTime(StoreAt(h, i), h[i]);
    hide Legal, LegalStep, StoreAt, StoreInvariant, Maker;
    RowsKeepTheirIssue(h, i, h[i].plan.first.key);
  }

  lemma RedeemedTokenIsInTime(s: Store, c: Commit, purpose: Purpose)
    requires StoreInvariant(s) && LegalStep(s, c)
    requires if purpose == VERIFY_EMAIL then c.req.EmailVerification? else c.req.PasswordRecover?
    ensures c.plan.second.Some? && c.plan.second.value.key in s
    ensures var r := s[c.plan.second.value.key].row;
            && r.OneTimeRow? && r.ott.purpose == purpose
            && r.ott.tokenHash == Sha256(c.req.token) && c.draw.checkedAt <= r.ott.expiresAt
            && c.plan.first.key == UserKey(r.ott.userId)
  {
    hide LegalStep, StoreInvariant;
    var ott, user := TokenCaseReads(s, c);
  }

  /**
   * An email is verified, or a password recovered, only by who presents the very token that an earlier
   * commit drew for the same user and for that purpose, and not after its lifetime.
   */
  lemma OneTimeTokensAreRedeemedInTime(h: Log, i: nat, purpose: Purpose)
    requires Legal(h) && i < |h|
    requires if purpose == VERIFY_EMAIL then h[i].req.EmailVerification? else h[i].req.PasswordRecover?
    ensures h[i].plan.second.Some? && h[i].plan.second.value.key in StoreAt(h, i)
    ensures var m := Maker(h, i, h[i].plan.second.value.key);
            && (if purpose == VERIFY_EMAIL then m.req.Register? else m.req.PasswordRecoverRequest?)
            && h[i].req.token == m.draw.token
            && h[i].plan.first.key == m.plan.first.key
            && h[i].draw.checkedAt <= m.draw.issuedAt + LifetimeOf(purpose)
  {
    HistoryKeepsInvariant(h, i);
    RedeemedTokenIsInTime(StoreAt(h, i), h[i], purpose);
    hide Legal, LegalStep, StoreAt, StoreInvariant, Maker;
    RowsKeepTheirIssue(h, i, h[i].plan.second.value.key);
  }

  /** The live token that the text stands for, not yet expired at the given time. */
  ghost predicate Honoured(s: Store, k: Key, token: string, now: Time) {
    IsLive(s, k) && Token(s, k).tokenHash == Sha256(token) && now <= Token(s, k).expiresAt
  }

  /** Run alone, a refresh never fails in a save: it read both versions that matter, and its draws are fresh. */
  lemma AloneRefreshSaves(s: Store, token: string, client: Client, d: Draw)
    requires StoreInvariant(s) && Fresh(s, d)
    ensures var found := LoadRefresh(Select(s, RefreshByHash(Sha256(token))));
            Transact(Refresh(token, client), d, Alone(s)).Ok? <==> PlanRefresh(found, d).Ok?
  {
    hide StoreInvariant, RefreshUsable, RevokedOrExpired;
    var r := Select(s, RefreshByHash(Sha256(token)));
    assert View(Refresh(token, client), Alone(s)) == [r];
    hide View;
    assert RefreshKey(d.tokenId) !in s;
  }

  lemma FoundIsHonoured(s: Store, token: string, now: Time)
    requires StoreInvariant(s)
    ensures var r := Select(s, RefreshByHash(Sha256(token)));
            r.Some? && RefreshUsable(r.value.cell.row.rt, now) <==> exists k :: Honoured(s, k, token, now)
  {
    var q := RefreshByHash(Sha256(token));
    var r := Select(s, q);
    if k :| Honoured(s, k, token, now) {
      assert Matches(q, k, s[k].row);
      assert RowInvariant(s, k);
      hide RowInvariant;
      assert r.Some? && r.value.key == k;
    }
    hide RowInvariant, UniqueHits;
    if r.Some? && RefreshUsable(r.value.cell.row.rt, now) {
      assert Honoured(s, r.value.key, token, now);
    }
  }

  /** Run alone, a refresh succeeds exactly if some live token with that text has not expired yet. */
  lemma RefreshSucceedsIff(s: Store, token: string, client: Client, d: Draw)
    requires StoreInvariant(s) && Fresh(s, d)
    ensures Transact(Refresh(token, client), d, Alone(s)).Ok? <==> exists k :: Honoured(s, k, token, d.checkedAt)
  {
    hide StoreInvariant, Fresh, Transact, Honoured;
    AloneRefreshSaves(s, token, client, d);
    FoundIsHonoured(s, token, d.checkedAt);
    var found := LoadRefresh(Select(s, RefreshByHash(Sha256(token))));
    if found.Some? {
      ReuseIffReplaced(found.value, d);
    }
  }
}
