/**
 * Serial histories: committed transactions run atomically one after the other, and the invariants of
 * the stores they produce.
 */
module History {
  import opened Domain
  import opened Events
  import opened Results
  import opened Stores
  import opened UseCases
  import EmailValidator
  import PasswordValidator

  type TxId = nat

  datatype Commit = Commit(tx: TxId, req: Request, draw: Draw, plan: Plan)

  type Log = seq<Commit>

  /** The store after the first n commits. */
  ghost function StoreAt(h: Log, n: nat): Store
    requires n <= |h|
  {
    if n == 0 then map[] else Apply(StoreAt(h, n - 1), h[n - 1].plan)
  }

  /** Every statement meets the same rows: the transaction runs alone. */
  ghost function Alone(s: Store): Environment {
    (n: nat) => s
  }

  ghost function HashOf(r: Row): Option<TokenHash> {
    match r
    case UserRow(_) => None
    case OneTimeRow(ott) => Some(ott.tokenHash)
    case RefreshRow(rt) => Some(rt.tokenHash)
  }

  /** The ids and the token of a draw occur nowhere in the store. */
  ghost predicate Fresh(s: Store, d: Draw) {
    && d.userId != d.tokenId
    && forall k :: k in s ==>
         k.id != d.userId && k.id != d.tokenId && HashOf(s[k].row) != Some(Sha256(d.token))
  }

  /** The commit is what its use case does, run atomically on `s` with fresh draws. */
  ghost predicate LegalStep(s: Store, c: Commit) {
    Fresh(s, c.draw) && Transact(c.req, c.draw, Alone(s)) == Ok(c.plan)
  }

  ghost predicate Legal(h: Log) {
    forall i: nat :: i < |h| ==> LegalStep(StoreAt(h, i), h[i])
  }

  // ---- Stores

  /** Rows sit in the table of their key, and versions start at 1. */
  ghost predicate Typed(k: Key, c: Cell) {
    && (k.UserKey? <==> c.row.UserRow?)
    && (k.OneTimeKey? <==> c.row.OneTimeRow?)
    && (k.RefreshKey? <==> c.row.RefreshRow?)
    && c.version >= 1
  }

  /** The user that a row belongs to. */
  ghost function OwnerOf(k: Key, r: Row): Id {
    match r
    case UserRow(_) => k.id
    case OneTimeRow(ott) => ott.userId
    case RefreshRow(rt) => rt.userId
  }

  ghost predicate RowInvariant(s: Store, k: Key)
    requires k in s
  {
    && Typed(k, s[k])
    && UserKey(OwnerOf(k, s[k].row)) in s
    && (s[k].row.UserRow? ==> EmailValidator.Canonical(s[k].row.user.email))
    && (s[k].row.RefreshRow? && s[k].row.rt.replacedBy.Some? ==> s[k].row.rt.revokedAt.Some?)
  }

  ghost predicate StoreInvariant(s: Store) {
    && (forall k :: k in s ==> RowInvariant(s, k))
    && UniqueHits(s)
  }

  // ---- What each use case does to the rows

  ghost predicate TouchesUser(s: Store, w: Write, u: UserData) {
    && w.key.UserKey? && w.key in s && s[w.key].row.UserRow?
    && w == Update(w.key, s[w.key].version, UserRow(u))
  }

  ghost predicate Inserts(s: Store, w: Option<Write>, k: Key, r: Row) {
    k !in s && w == Some(Insert(k, r))
  }

  ghost predicate UsesOneTime(s: Store, w: Option<Write>, purpose: Purpose, userId: Id) {
    && w.Some? && w.value.key.OneTimeKey? && w.value.key in s && s[w.value.key].row.OneTimeRow?
    && var ott := s[w.value.key].row.ott;
       && ott.purpose == purpose && !ott.used && ott.userId == userId
       && w.value == Update(w.value.key, s[w.value.key].version, OneTimeRow(ott.(used := true)))
  }

  /** The first save ends a live, unreplaced refresh token. */
  ghost predicate EndsRefresh(s: Store, w: Write, replacedBy: Option<Id>) {
    && w.key.RefreshKey? && w.key in s && s[w.key].row.RefreshRow?
    && var rt := s[w.key].row.rt;
       && rt.revokedAt.None? && rt.replacedBy.None?
       && w.Update? && w.expected == s[w.key].version && w.row.RefreshRow? && w.row.rt.revokedAt.Some?
       && w.row.rt == rt.(revokedAt := w.row.rt.revokedAt, replacedBy := replacedBy)
  }

  ghost predicate RegisterShape(s: Store, c: Commit) {
    var w := c.plan.first;
    && w.key.UserKey? && w.row.UserRow? && !w.row.user.verified
    && (|| (w.key == UserKey(c.draw.userId) && w.Insert? && w.key !in s && !EmailTaken(s, w.row)
            && EmailValidator.Canonical(w.row.user.email))
        || (TouchesUser(s, w, w.row.user) && s[w.key].row == w.row))
    && var ott := CreateOneTime(w.key.id, c.draw.token, c.draw.issuedAt, EMAIL_TOKEN_EXPIRY, VERIFY_EMAIL);
       Inserts(s, c.plan.second, OneTimeKey(c.draw.tokenId), OneTimeRow(ott))
  }

  ghost predicate EmailVerificationShape(s: Store, c: Commit) {
    var w := c.plan.first;
    && w.key in s && s[w.key].row.UserRow? && !s[w.key].row.user.verified
    && TouchesUser(s, w, s[w.key].row.user.(verified := true))
    && UsesOneTime(s, c.plan.second, VERIFY_EMAIL, w.key.id)
  }

  ghost predicate LoginShape(s: Store, c: Commit, email: string, password: string) {
    var w := c.plan.first;
    && w.key in s && s[w.key].row.UserRow?
    && var u := s[w.key].row.user;
       && u.email == email && u.active && u.verified && PasswordValidator.VerifyPassword(password, u.passwordHash)
       && TouchesUser(s, w, u)
       && Inserts(s, c.plan.second, RefreshKey(c.draw.tokenId),
                  RefreshRow(CreateRefresh(w.key.id, c.draw.token, c.draw.issuedAt)))
  }

  ghost predicate RefreshShape(s: Store, c: Commit, token: string) {
    && EndsRefresh(s, c.plan.first, Some(c.draw.tokenId))
    && s[c.plan.first.key].row.rt.tokenHash == Sha256(token)
    && Inserts(s, c.plan.second, RefreshKey(c.draw.tokenId),
               RefreshRow(CreateRefresh(s[c.plan.first.key].row.rt.userId, c.draw.token, c.draw.issuedAt)))
    && c.plan.published == []
  }

  ghost predicate RevokeShape(s: Store, c: Commit, token: string) {
    && EndsRefresh(s, c.plan.first, None)
    && s[c.plan.first.key].row.rt.tokenHash == Sha256(token)
    && c.plan.second.None?
  }

  ghost predicate PasswordChangeShape(s: Store, c: Commit) {
    var w := c.plan.first;
    && w.key in s && s[w.key].row.UserRow? && w.row.UserRow?
    && TouchesUser(s, w, s[w.key].row.user.(passwordHash := w.row.user.passwordHash))
    && c.plan.second.None?
  }

  ghost predicate RecoverRequestShape(s: Store, c: Commit) {
    var w := c.plan.first;
    && w.key in s && s[w.key].row.UserRow? && s[w.key].row.user.verified
    && TouchesUser(s, w, s[w.key].row.user)
    && var ott := CreateOneTime(
         w.key.id, c.draw.token, c.draw.issuedAt, PASSWORD_RECOVER_TOKEN_EXPIRY, RECOVER_PASSWORD);
       Inserts(s, c.plan.second, OneTimeKey(c.draw.tokenId), OneTimeRow(ott))
  }

  ghost predicate RecoverShape(s: Store, c: Commit, password: string) {
    var w := c.plan.first;
    && w.key in s && s[w.key].row.UserRow?
    && PasswordValidator.ValidateHashPassword(Text(password)).Ok?
    && TouchesUser(s, w, s[w.key].row.user.(
         passwordHash := PasswordValidator.ValidateHashPassword(Text(password)).value))
    && UsesOneTime(s, c.plan.second, RECOVER_PASSWORD, w.key.id)
  }

  ghost predicate Shape(s: Store, c: Commit) {
    match c.req
    case Register(_, _) => RegisterShape(s, c)
    case EmailVerification(_) => EmailVerificationShape(s, c)
    case Login(email, password, _) => LoginShape(s, c, email, password)
    case Refresh(token, _) => RefreshShape(s, c, token)
    case Revoke(token, _) => RevokeShape(s, c, token)
    case PasswordChange(_, _, _) => PasswordChangeShape(s, c)
    case PasswordRecoverRequest(_) => RecoverRequestShape(s, c)
    case PasswordRecover(_, password) => RecoverShape(s, c, password)
  }

  lemma RegisterHasShape(s: Store, c: Commit)
    requires StoreInvariant(s) && LegalStep(s, c) && c.req.Register?
    ensures RegisterShape(s, c)
  {
    EmailValidator.AcceptsExactlyWellFormed(c.req.email);
    var q := UserByEmail(c.req.email);
    var r := Select(s, q);
    if r.Some? {
      assert RowInvariant(s, r.value.key);
    }
    assert View(c.req, Alone(s)) == [r];
    assert Compute(c.req, [r], c.draw) == Ok(c.plan);
  }

  /** A use case that redeems a one-time token saves both rows it read, and the token was redeemable. */
  lemma TokenCaseReads(s: Store, c: Commit) returns (ott: Found, user: Found)
    requires StoreInvariant(s) && LegalStep(s, c) && (c.req.EmailVerification? || c.req.PasswordRecover?)
    ensures ott.key in s && ott.cell == s[ott.key] && ott.key.OneTimeKey? && ott.cell.row.OneTimeRow?
    ensures ott.cell.row.ott.tokenHash == Sha256(c.req.token)
    ensures user.key == UserKey(ott.cell.row.ott.userId) && user.key in s
    ensures user.cell == s[user.key] && user.cell.row.UserRow?
    ensures Compute(c.req, [Some(ott), Some(user)], c.draw) == Ok(c.plan)
  {
    hide EmailTaken, SaveError, UniqueHits, Fresh;
    var r := Select(s, OneTimeByHash(Sha256(c.req.token)));
    if r.None? {
      assert false;
    } else {
      ott := r.value;
      var r' := Select(s, UserById(ott.cell.row.ott.userId));
      assert RowInvariant(s, ott.key);
      assert RowInvariant(s, UserKey(ott.cell.row.ott.userId));
      assert r'.Some?;
      user := r'.value;
      assert View(c.req, Alone(s)) == [r, r'];
    }
  }

  lemma EmailVerificationHasShape(s: Store, c: Commit)
    requires StoreInvariant(s) && LegalStep(s, c) && c.req.EmailVerification?
    ensures EmailVerificationShape(s, c)
  {
    var ott, user := TokenCaseReads(s, c);
  }

  lemma RecoverPlanIs(password: string, ott: Found, user: Found, d: Draw)
    requires ott.cell.row.OneTimeRow? && user.cell.row.UserRow?
    requires PlanPasswordRecover(password, LoadOneTime(Some(ott)), LoadUser(Some(user)), d).Ok?
    ensures var hash := PasswordValidator.ValidateHashPassword(Text(password));
            var plan := PlanPasswordRecover(password, LoadOneTime(Some(ott)), LoadUser(Some(user)), d).value;
            && hash.Ok?
            && UseOneTime(ott.cell.row.ott, RECOVER_PASSWORD, d.checkedAt).Ok?
            && plan.first == Update(UserKey(user.key.id), user.cell.version,
                                    UserRow(user.cell.row.user.(passwordHash := hash.value)))
            && plan.second == Some(Update(OneTimeKey(ott.key.id), ott.cell.version,
                                          OneTimeRow(ott.cell.row.ott.(used := true))))
  {
  }

  lemma RecoverHasShape(s: Store, c: Commit)
    requires StoreInvariant(s) && LegalStep(s, c) && c.req.PasswordRecover?
    ensures RecoverShape(s, c, c.req.password)
  {
    var ott, user := TokenCaseReads(s, c);
    RecoverPlanIs(c.req.password, ott, user, c.draw);
  }

  /** A use case that reads once and needs to find a row computes its plan from that row. */
  lemma OtherCaseReads(s: Store, c: Commit) returns (f: Found)
    requires StoreInvariant(s) && LegalStep(s, c)
    requires !c.req.Register? && !c.req.EmailVerification? && !c.req.PasswordRecover?
    ensures NextQuery(c.req, []).Some? && Matches(NextQuery(c.req, []).value, f.key, f.cell.row)
    ensures f.key in s && f.cell == s[f.key] && RowInvariant(s, f.key)
    ensures Compute(c.req, [Some(f)], c.draw) == Ok(c.plan)
  {
    hide EmailTaken, SaveError, UniqueHits, Fresh;
    var view := View(c.req, Alone(s));
    assert Compute(c.req, view, c.draw) == Ok(c.plan);
    assert NextQuery(c.req, []).Some?;
    var r := Select(s, NextQuery(c.req, []).value);
    assert view == [r];
    f := r.value;
    assert RowInvariant(s, f.key);
  }

  /** The ids of a draw are in use nowhere. */
  lemma DrawnKeysAreNew(s: Store, c: Commit)
    requires LegalStep(s, c)
    ensures UserKey(c.draw.userId) !in s && OneTimeKey(c.draw.tokenId) !in s && RefreshKey(c.draw.tokenId) !in s
  {
    hide Transact;
  }

  lemma OtherCaseHasShape(s: Store, c: Commit)
    requires StoreInvariant(s) && LegalStep(s, c)
    requires !c.req.Register? && !c.req.EmailVerification? && !c.req.PasswordRecover?
    ensures Shape(s, c)
  {
    hide LegalStep, StoreInvariant, PasswordValidator.ValidateHashPassword;
    var f := OtherCaseReads(s, c);
    DrawnKeysAreNew(s, c);
  }

  lemma LegalStepHasShape(s: Store, c: Commit)
    requires StoreInvariant(s) && LegalStep(s, c)
    ensures Shape(s, c)
  {
    if c.req.Register? {
      RegisterHasShape(s, c);
    } else if c.req.EmailVerification? {
      EmailVerificationHasShape(s, c);
    } else if c.req.PasswordRecover? {
      RecoverHasShape(s, c);
    } else {
      OtherCaseHasShape(s, c);
    }
  }
}
