/** How rows evolve over a serial history, and that every store of a history is well formed. */
module Evolution {
  import opened Domain
  import opened Events
  import opened Results
  import opened Stores
  import opened UseCases
  import opened History
  import EmailValidator
  import PasswordValidator

  /** The columns by which a row is found, and its owner, are the same. */
  ghost predicate SameIdentity(a: Row, b: Row) {
    match a
    case UserRow(u) => b.UserRow? && b.user.email == u.email && b.user.active == u.active
    case OneTimeRow(t) => b.OneTimeRow? && b == OneTimeRow(t.(used := b.ott.used))
    case RefreshRow(t) =>
      b.RefreshRow? && b == RefreshRow(t.(revokedAt := b.rt.revokedAt, replacedBy := b.rt.replacedBy))
  }

  /** A used one-time token and a revoked refresh token are never written again. */
  ghost predicate Final(r: Row) {
    match r
    case UserRow(_) => false
    case OneTimeRow(t) => t.used
    case RefreshRow(t) => t.revokedAt.Some?
  }

  /** What a committed update may do to a row. */
  ghost predicate Succeeds(a: Row, b: Row) {
    && SameIdentity(a, b)
    && !Final(a)
    && (a.UserRow? && a.user.verified ==> b.user.verified)
    && (!a.UserRow? ==> Final(b))
  }

  ghost predicate CellLater(a: Cell, b: Cell) {
    a == b || (a.version < b.version && Succeeds(a.row, b.row))
  }

  ghost predicate Writes(c: Commit, k: Key) {
    c.plan.first.key == k || (c.plan.second.Some? && c.plan.second.value.key == k)
  }

  /** A save inserts a row under a drawn id, or updates the version it expects to a proper successor. */
  ghost predicate Fits(s: Store, d: Draw, w: Write) {
    match w
    case Insert(k, row) => k !in s && (k.id == d.userId || k.id == d.tokenId) && Typed(k, Cell(row, 1))
    case Update(k, expected, row) => k in s && s[k].version == expected && Succeeds(s[k].row, row)
  }

  ghost predicate PlanFits(s: Store, c: Commit) {
    && Fits(s, c.draw, c.plan.first)
    && (c.plan.second.Some? ==>
          && Fits(s, c.draw, c.plan.second.value)
          && c.plan.second.value.key != c.plan.first.key
          && !c.plan.second.value.key.UserKey?
          && (c.plan.first.Insert? ==> c.plan.first.key.UserKey?))
  }

  lemma InsertFits(s: Store, d: Draw, w: Option<Write>, k: Key, r: Row)
    requires Inserts(s, w, k, r) && Typed(k, Cell(r, 1)) && (k.id == d.userId || k.id == d.tokenId)
    ensures w.Some? && w.value.key == k && k !in s && Fits(s, d, w.value)
  {
  }

  lemma TouchFits(s: Store, d: Draw, w: Write, u: UserData)
    requires TouchesUser(s, w, u) && Succeeds(s[w.key].row, UserRow(u))
    ensures w.key.UserKey? && Fits(s, d, w)
  {
  }

  lemma OneTimeFits(s: Store, d: Draw, w: Option<Write>, purpose: Purpose, userId: Id)
    requires UsesOneTime(s, w, purpose, userId)
    ensures w.Some? && w.value.key.OneTimeKey? && Fits(s, d, w.value)
  {
  }

  lemma RefreshFits(s: Store, d: Draw, w: Write, replacedBy: Option<Id>)
    requires EndsRefresh(s, w, replacedBy)
    ensures w.key.RefreshKey? && w.key in s && Fits(s, d, w)
  {
  }

  /** Every commit saves one or two different rows, in the way the rows may evolve. */
  lemma LegalPlanFits(s: Store, c: Commit)
    requires StoreInvariant(s) && LegalStep(s, c)
    ensures PlanFits(s, c)
  {
    LegalStepHasShape(s, c);
    hide LegalStep, StoreInvariant, Inserts, UsesOneTime, EndsRefresh, Fits, TouchesUser;
    var w, d, t := c.plan.first, c.draw, OneTimeKey(c.draw.tokenId);
    match c.req
    case Register(_, _) =>
      RegisterFits(s, c);
    case EmailVerification(_) =>
      TouchFits(s, d, w, s[w.key].row.user.(verified := true));
      OneTimeFits(s, d, c.plan.second, VERIFY_EMAIL, w.key.id);
    case Login(_, _, _) =>
      TouchFits(s, d, w, s[w.key].row.user);
      InsertFits(s, d, c.plan.second, RefreshKey(d.tokenId),
                 RefreshRow(CreateRefresh(w.key.id, d.token, d.issuedAt)));
    case Refresh(_, _) =>
      RefreshFits(s, d, w, Some(d.tokenId));
      var successor := CreateRefresh(s[w.key].row.rt.userId, d.token, d.issuedAt);
      InsertFits(s, d, c.plan.second, RefreshKey(d.tokenId), RefreshRow(successor));
    case Revoke(_, _) =>
      RefreshFits(s, d, w, None);
    case PasswordChange(_, _, _) =>
      TouchFits(s, d, w, s[w.key].row.user.(passwordHash := w.row.user.passwordHash));
    case PasswordRecoverRequest(_) =>
      TouchFits(s, d, w, s[w.key].row.user);
      var ott := CreateOneTime(w.key.id, d.token, d.issuedAt, PASSWORD_RECOVER_TOKEN_EXPIRY, RECOVER_PASSWORD);
      InsertFits(s, d, c.plan.second, t, OneTimeRow(ott));
    case PasswordRecover(_, _) =>
      var hash := PasswordValidator.ValidateHashPassword(Text(c.req.password)).value;
      TouchFits(s, d, w, s[w.key].row.user.(passwordHash := hash));
      OneTimeFits(s, d, c.plan.second, RECOVER_PASSWORD, w.key.id);
  }

  lemma RegisterFits(s: Store, c: Commit)
    requires RegisterShape(s, c)
    ensures PlanFits(s, c)
  {
    var w := c.plan.first;
    if w.Update? {
      TouchFits(s, c.draw, w, w.row.user);
    }
    var ott := CreateOneTime(w.key.id, c.draw.token, c.draw.issuedAt, EMAIL_TOKEN_EXPIRY, VERIFY_EMAIL);
    InsertFits(s, c.draw, c.plan.second, OneTimeKey(c.draw.tokenId), OneTimeRow(ott));
  }

  /** What the two saves of a commit leave under a key. */
  lemma AppliedCell(s: Store, c: Commit, k: Key)
    requires PlanFits(s, c)
    ensures k in Apply(s, c.plan) <==> k in s || Writes(c, k)
    ensures k in s && !Writes(c, k) ==> Apply(s, c.plan)[k] == s[k]
    ensures k in s && c.plan.first.key == k ==>
              c.plan.first.Update? && Apply(s, c.plan)[k] == Cell(c.plan.first.row, s[k].version + 1)
    ensures k in s && c.plan.first.key != k && Writes(c, k) ==>
              c.plan.second.value.Update? && Apply(s, c.plan)[k] == Cell(c.plan.second.value.row, s[k].version + 1)
    ensures k in s && Writes(c, k) ==> Succeeds(s[k].row, Apply(s, c.plan)[k].row)
    ensures k !in s && c.plan.first.key == k ==>
              c.plan.first.Insert? && Apply(s, c.plan)[k] == Cell(c.plan.first.row, 1)
    ensures k !in s && c.plan.first.key != k && Writes(c, k) ==>
              c.plan.second.value.Insert? && Apply(s, c.plan)[k] == Cell(c.plan.second.value.row, 1)
  {
    hide Succeeds, Typed;
    OverwriteSucceeds(s, c.draw, c.plan.first);
    if c.plan.second.Some? {
      OverwriteSucceeds(s, c.draw, c.plan.second.value);
    }
  }

  lemma OverwriteSucceeds(s: Store, d: Draw, w: Write)
    requires Fits(s, d, w)
    ensures w.Update? ==> w.key in s && Overwrite(s[w.key].row, w.row) == w.row
  {
  }

  /** One commit: rows it does not write stay, rows it writes go from version v to v + 1, new rows get 1. */
  lemma StepEvolves(s: Store, c: Commit, k: Key)
    requires StoreInvariant(s) && LegalStep(s, c)
    ensures k in s ==> k in Apply(s, c.plan)
    ensures k in s && !Writes(c, k) ==> Apply(s, c.plan)[k] == s[k]
    ensures k in s && Writes(c, k) ==>
              Apply(s, c.plan)[k].version == s[k].version + 1 && Succeeds(s[k].row, Apply(s, c.plan)[k].row)
    ensures k !in s ==> (k in Apply(s, c.plan) <==> Writes(c, k))
    ensures k !in s && Writes(c, k) ==>
              Apply(s, c.plan)[k].version == 1 && (k.id == c.draw.userId || k.id == c.draw.tokenId)
  {
    LegalPlanFits(s, c);
    AppliedCell(s, c, k);
    hide LegalStep, StoreInvariant, Apply;
  }

  /** An inserted row has an owner, a canonical email if any, and no successor yet. */
  ghost predicate Grounded(s: Store, c: Commit, w: Write) {
    w.Insert? ==>
      && (UserKey(OwnerOf(w.key, w.row)) in s || UserKey(OwnerOf(w.key, w.row)) == c.plan.first.key)
      && (w.row.UserRow? ==> EmailValidator.Canonical(w.row.user.email))
      && (w.row.RefreshRow? ==> w.row.rt.replacedBy.None?)
  }

  lemma LegalPlanIsGrounded(s: Store, c: Commit)
    requires StoreInvariant(s) && LegalStep(s, c)
    ensures Grounded(s, c, c.plan.first)
    ensures c.plan.second.Some? ==> Grounded(s, c, c.plan.second.value)
  {
    LegalStepHasShape(s, c);
    hide LegalStep, UniqueHits, Fresh, EmailTaken;
    if c.req.Refresh? {
      hide RegisterShape, EmailVerificationShape, LoginShape, RevokeShape, PasswordChangeShape, RecoverRequestShape,
           RecoverShape;
      assert RowInvariant(s, c.plan.first.key);
    } else {
      hide RefreshShape, StoreInvariant;
    }
  }

  /** A row whose owner exists stays valid when it stays or is succeeded. */
  lemma OldRowStaysValid(s: Store, s': Store, k: Key)
    requires k in s && RowInvariant(s, k) && k in s' && UserKey(OwnerOf(k, s[k].row)) in s'
    requires s'[k] == s[k] || (s'[k].version == s[k].version + 1 && Succeeds(s[k].row, s'[k].row))
    ensures RowInvariant(s', k)
  {
  }

  lemma StepKeepsOldRow(s: Store, c: Commit, k: Key)
    requires StoreInvariant(s) && LegalStep(s, c) && k in s
    ensures k in Apply(s, c.plan) && RowInvariant(Apply(s, c.plan), k)
  {
    assert RowInvariant(s, k);
    var owner := UserKey(OwnerOf(k, s[k].row));
    assert owner in s;
    LegalPlanFits(s, c);
    hide LegalStep, StoreInvariant, Apply, PlanFits, RowInvariant, Succeeds;
    AppliedCell(s, c, k);
    AppliedCell(s, c, owner);
    OldRowStaysValid(s, Apply(s, c.plan), k);
  }

  lemma StepAddsValidRow(s: Store, c: Commit, k: Key)
    requires StoreInvariant(s) && LegalStep(s, c) && k !in s && k in Apply(s, c.plan)
    ensures RowInvariant(Apply(s, c.plan), k)
  {
    LegalPlanFits(s, c);
    LegalPlanIsGrounded(s, c);
    hide LegalStep, StoreInvariant, Apply;
    AppliedCell(s, c, k);
    AppliedCell(s, c, UserKey(OwnerOf(k, Apply(s, c.plan)[k].row)));
  }

  lemma SameIdentityMatches(q: Query, k: Key, a: Row, b: Row)
    requires SameIdentity(a, b) || a == b
    ensures Matches(q, k, a) <==> Matches(q, k, b)
  {
  }

  /** A row that a commit inserts is found by no query that finds an older row. */
  lemma NewRowClashesNot(s: Store, c: Commit, q: Query, new': Key, old': Key)
    requires StoreInvariant(s) && LegalStep(s, c)
    requires new' !in s && new' in Apply(s, c.plan) && Matches(q, new', Apply(s, c.plan)[new'].row)
    requires old' in s
    ensures !Matches(q, old', s[old'].row)
  {
    LegalPlanFits(s, c);
    AppliedCell(s, c, new');
    InsertedColumns(s, c);
    assert HashOf(s[old'].row) != Some(Sha256(c.draw.token));
    hide LegalStep, StoreInvariant, Apply, Succeeds;
  }

  /** The unique columns of an inserted row: an email not in use, or the hash of the drawn token. */
  lemma InsertedColumns(s: Store, c: Commit)
    requires StoreInvariant(s) && LegalStep(s, c)
    ensures c.plan.first.Insert? ==> c.plan.first.row.UserRow? && !EmailTaken(s, c.plan.first.row)
    ensures c.plan.second.Some? && c.plan.second.value.Insert? ==>
              HashOf(c.plan.second.value.row) == Some(Sha256(c.draw.token))
  {
    LegalStepHasShape(s, c);
    hide LegalStep, StoreInvariant, EmailTaken;
  }

  lemma NewRowsDiffer(s: Store, c: Commit, q: Query, k1: Key, k2: Key)
    requires StoreInvariant(s) && LegalStep(s, c)
    requires k1 !in s && k1 in Apply(s, c.plan) && Matches(q, k1, Apply(s, c.plan)[k1].row)
    requires k2 !in s && k2 in Apply(s, c.plan) && Matches(q, k2, Apply(s, c.plan)[k2].row)
    ensures k1 == k2
  {
    LegalPlanFits(s, c);
    hide LegalStep, StoreInvariant, Apply;
    AppliedCell(s, c, k1);
    AppliedCell(s, c, k2);
  }

  lemma StepKeepsInvariant(s: Store, c: Commit)
    requires StoreInvariant(s) && LegalStep(s, c)
    ensures StoreInvariant(Apply(s, c.plan))
  {
    hide LegalStep, Apply, RowInvariant, Matches;
    var s' := Apply(s, c.plan);
    forall k | k in s' ensures RowInvariant(s', k) {
      if k in s {
        StepKeepsOldRow(s, c, k);
      } else {
        StepAddsValidRow(s, c, k);
      }
    }
    forall q, k1, k2 | k1 in s' && k2 in s' && Matches(q, k1, s'[k1].row) && Matches(q, k2, s'[k2].row)
      ensures k1 == k2
    {
      HitsStayUnique(s, c, q, k1, k2);
    }
  }

  lemma HitsStayUnique(s: Store, c: Commit, q: Query, k1: Key, k2: Key)
    requires StoreInvariant(s) && LegalStep(s, c)
    requires k1 in Apply(s, c.plan) && Matches(q, k1, Apply(s, c.plan)[k1].row)
    requires k2 in Apply(s, c.plan) && Matches(q, k2, Apply(s, c.plan)[k2].row)
    ensures k1 == k2
  {
    hide LegalStep, Apply, RowInvariant;
    if k1 in s {
      OldRowsMatchAsBefore(s, c, q, k1);
    }
    if k2 in s {
      OldRowsMatchAsBefore(s, c, q, k2);
    }
    if k1 in s && k2 !in s {
      NewRowClashesNot(s, c, q, k2, k1);
    } else if k1 !in s && k2 in s {
      NewRowClashesNot(s, c, q, k1, k2);
    } else if k1 !in s && k2 !in s {
      NewRowsDiffer(s, c, q, k1, k2);
    }
  }

  lemma OldRowsMatchAsBefore(s: Store, c: Commit, q: Query, k: Key)
    requires StoreInvariant(s) && LegalStep(s, c) && k in s
    ensures k in Apply(s, c.plan) && (Matches(q, k, Apply(s, c.plan)[k].row) <==> Matches(q, k, s[k].row))
  {
    hide LegalStep, Apply, Matches, SameIdentity, RowInvariant;
    StepEvolves(s, c, k);
    SameIdentityMatches(q, k, s[k].row, Apply(s, c.plan)[k].row);
  }

  /** Every store of a legal history is well formed: typed rows, existing owners, canonical emails, unique hits. */
  lemma {:induction false} HistoryKeepsInvariant(h: Log, n: nat)
    requires Legal(h) && n <= |h|
    ensures StoreInvariant(StoreAt(h, n))
  {
    hide LegalStep, Apply, RowInvariant;
    if n == 0 {
    } else {
      HistoryKeepsInvariant(h, n - 1);
      StepKeepsInvariant(StoreAt(h, n - 1), h[n - 1]);
    }
  }

  /** Rows are never deleted, and later versions only follow by committed updates. */
  lemma {:induction false} RowsEvolve(h: Log, a: nat, b: nat, k: Key)
    requires Legal(h) && a <= b <= |h| && k in StoreAt(h, a)
    ensures k in StoreAt(h, b) && CellLater(StoreAt(h, a)[k], StoreAt(h, b)[k])
    decreases b - a
  {
    hide LegalStep, Apply, StoreInvariant;
    if a == b {
    } else {
      RowsEvolve(h, a, b - 1, k);
      HistoryKeepsInvariant(h, b - 1);
      StepEvolves(StoreAt(h, b - 1), h[b - 1], k);
    }
  }

  /** What a query found once it finds ever after, perhaps in a later version. */
  lemma StillSelected(h: Log, a: nat, b: nat, q: Query)
    requires Legal(h) && a <= b <= |h| && Select(StoreAt(h, a), q).Some?
    ensures var f, r := Select(StoreAt(h, a), q).value, Select(StoreAt(h, b), q);
            r.Some? && r.value.key == f.key && CellLater(f.cell, r.value.cell)
  {
    hide LegalStep, Apply, RowInvariant;
    var k := Select(StoreAt(h, a), q).value.key;
    HistoryKeepsInvariant(h, b);
    RowsEvolve(h, a, b, k);
    hide Legal, StoreAt;
    SameIdentityMatches(q, k, StoreAt(h, a)[k].row, StoreAt(h, b)[k].row);
    hide Matches, SameIdentity;
  }

  /** Appending a commit leaves the earlier stores as they were. */
  lemma {:induction false} StoreAtOfLonger(h: Log, c: Commit, n: nat)
    requires n <= |h|
    ensures StoreAt(h + [c], n) == StoreAt(h, n)
    decreases n
  {
    hide Apply;
    if n == 0 {
    } else {
      StoreAtOfLonger(h, c, n - 1);
    }
  }

  lemma LegalAppends(h: Log, c: Commit)
    requires Legal(h) && LegalStep(StoreAt(h, |h|), c)
    ensures Legal(h + [c]) && StoreAt(h + [c], |h| + 1) == Apply(StoreAt(h, |h|), c.plan)
  {
    hide LegalStep, Apply;
    forall i: nat | i < |h + [c]| ensures LegalStep(StoreAt(h + [c], i), (h + [c])[i]) {
      StoreAtOfLonger(h, c, i);
    }
    StoreAtOfLonger(h, c, |h|);
  }
}
