/**
 * Use cases that fail: which of their errors they would also meet running alone, and where the
 * uniqueness constraint strikes.
 */
module Failures {
  import opened Domain
  import opened Results
  import opened Stores
  import opened UseCases
  import opened History
  import opened Evolution
  import opened Counting
  import opened Machine
  import opened Consistency
  import opened CommitStep
  import opened Serializability
  import opened Outcomes
  import Preservation
  import Progress
  import EmailValidator
  import PasswordValidator

  // ---- Errors raised before any save

  /** The use case ended in an error of its own computation, not of a save. */
  ghost predicate FailedComputing(tx: Tx) {
    tx.phase.Finished? && Compute(tx.req, tx.view, tx.phase.draw).Err?
  }

  /**
   * A verification that presented a verification token in time, and whose token another commit redeemed
   * after it had read the token and before it read the user.
   */
  ghost predicate RedeemedMeanwhile(h: Log, tx: Tx) {
    && tx.req.EmailVerification? && !tx.phase.Reading?
    && |tx.view| == 2 && LoadOneTime(tx.view[0]).Some? && |tx.at| >= 2
    && LoadOneTime(tx.view[0]).value.data.purpose == VERIFY_EMAIL
    && tx.phase.draw.checkedAt <= LoadOneTime(tx.view[0]).value.data.expiresAt
    && exists i: nat :: tx.at[0] <= i < tx.at[1] && i < |h| && Writes(h[i], tx.view[0].value.key)
  }

  /**
   * A use case that fails before it saves raises the error that it would raise running alone on the rows
   * of its last read, exactly unless it is a verification with an unexpired verification token that was
   * redeemed between its two reads: that one finds the email verified, and alone it would find the token
   * used. With a token of the other purpose, or an expired one, it meets the same error either way.
   */
  lemma FailureIsSerialIff(steps: seq<Step>, t: TxId)
    requires Run(steps).Some? && t in Run(steps).value.txs && FailedComputing(Run(steps).value.txs[t])
    ensures var st, tx := Run(steps).value, Run(steps).value.txs[t];
            && tx.phase.ending.Failed?
            && (tx.view == [] ==>
                  forall s :: Transact(tx.req, tx.phase.draw, Alone(s)) == Err(tx.phase.ending.error))
            && (tx.view != [] ==>
                  && |tx.view| <= |tx.at| && tx.at[|tx.view| - 1] <= |st.history|
                  && var s := StoreAt(st.history, tx.at[|tx.view| - 1]);
                     && (Transact(tx.req, tx.phase.draw, Alone(s)) == Err(tx.phase.ending.error)
                         <==> !RedeemedMeanwhile(st.history, tx))
                     && (RedeemedMeanwhile(st.history, tx) ==>
                           && tx.phase.ending.error == EmailAlreadyVerified
                           && Transact(tx.req, tx.phase.draw, Alone(s)) == Err(TokenInvalid)))
  {
    hide Run, Invariant, Faithful, Linked, Standing, StoreAt, Legal, Compute, NextQuery, Transact, RedeemedMeanwhile,
         HistoryRecords, RunSerially, ViewIsRead;
    RunKeepsInvariant(steps);
    EveryRunIsSerializable(steps);
    var st, tx := Run(steps).value, Run(steps).value.txs[t];
    Preservation.TxFacts(st, t);
    FailedWithItsError(tx);
    ViewLengths(st.history, tx);
    if |tx.view| == 0 {
      forall s ensures Transact(tx.req, tx.phase.draw, Alone(s)) == Err(tx.phase.ending.error) {
        NoReadsFailAlone(tx, s);
      }
    } else if |tx.view| == 1 {
      OneReadFailsAlone(st.history, tx);
    } else {
      TwoReadsFailAlone(st.history, tx);
    }
  }

  lemma ViewLengths(h: Log, tx: Tx)
    requires ViewIsRead(tx) && Linked(h, tx)
    ensures |tx.view| <= 2 && |tx.view| <= |tx.at| && (tx.view != [] ==> tx.at[|tx.view| - 1] <= |h|)
  {
    hide StoreAt, NextQuery, Select;
  }

  lemma FailedWithItsError(tx: Tx)
    requires Faithful(tx) && FailedComputing(tx)
    ensures tx.phase.ending == Failed(Compute(tx.req, tx.view, tx.phase.draw).error)
    ensures ViewIsRead(tx) && NextQuery(tx.req, tx.view).None?
  {
    hide Compute, NextQuery, ViewIsRead, ReuseReport, SavedUpTo, FailedSaving;
  }

  lemma NoReadsFailAlone(tx: Tx, s: Store)
    requires tx.view == [] && NextQuery(tx.req, tx.view).None? && FailedComputing(tx)
    ensures Transact(tx.req, tx.phase.draw, Alone(s)) == Err(Compute(tx.req, tx.view, tx.phase.draw).error)
  {
    hide Compute, NextQuery;
    assert View(tx.req, Alone(s)) == tx.view;
  }

  lemma OneReadFailsAlone(h: Log, tx: Tx)
    requires ViewIsRead(tx) && Linked(h, tx) && FailedComputing(tx) && NextQuery(tx.req, tx.view).None?
    requires |tx.view| == 1
    ensures tx.at[0] <= |h| && !RedeemedMeanwhile(h, tx)
    ensures Transact(tx.req, tx.phase.draw, Alone(StoreAt(h, tx.at[0])))
            == Err(Compute(tx.req, tx.view, tx.phase.draw).error)
  {
    hide Compute, NextQuery, StoreAt, Select, View;
    var r := tx.view[0];
    assert tx.view == [r];
    OneRead(tx.req, StoreAt(h, tx.at[0]), r);
  }

  /** A token may have been used since it was read; only a verification that accepts it can tell the difference. */
  lemma UsedTokenFailsLikewiseIff(req: Request, r: Found, r2: Found, r': Reply, d: Draw)
    requires req.EmailVerification? || req.PasswordRecover?
    requires r.cell.row.OneTimeRow? && r2.cell.row.OneTimeRow? && r2.key == r.key && CellLater(r.cell, r2.cell)
    requires LoadUser(r').Some? && Compute(req, [Some(r), r'], d).Err?
    ensures Compute(req, [Some(r2), r'], d) == Compute(req, [Some(r), r'], d) <==>
            !(&& req.EmailVerification? && r2.cell != r.cell
              && r.cell.row.ott.purpose == VERIFY_EMAIL && d.checkedAt <= r.cell.row.ott.expiresAt)
    ensures Compute(req, [Some(r2), r'], d).Err?
    ensures Compute(req, [Some(r2), r'], d) != Compute(req, [Some(r), r'], d) ==>
              && Compute(req, [Some(r), r'], d) == Err(EmailAlreadyVerified)
              && Compute(req, [Some(r2), r'], d) == Err(TokenInvalid)
  {
    hide PasswordValidator.ValidateHashPassword;
  }

  lemma OwnerExists(s: Store, k: Key)
    requires StoreInvariant(s) && k in s && s[k].row.OneTimeRow?
    ensures UserKey(s[k].row.ott.userId) in s && s[UserKey(s[k].row.ott.userId)].row.UserRow?
  {
    assert RowInvariant(s, k) && RowInvariant(s, UserKey(s[k].row.ott.userId));
  }

  /** The owner of a token that was found is found from then on. */
  lemma OwnerIsFound(h: Log, a: nat, b: nat, q: Query)
    requires Legal(h) && a <= b <= |h| && LoadOneTime(Select(StoreAt(h, a), q)).Some?
    ensures LoadUser(Select(StoreAt(h, b), UserById(LoadOneTime(Select(StoreAt(h, a), q)).value.data.userId))).Some?
  {
    hide Legal, StoreAt, StoreInvariant;
    var f := Select(StoreAt(h, a), q).value;
    var owner := UserKey(f.cell.row.ott.userId);
    HistoryKeepsInvariant(h, a);
    OwnerExists(StoreAt(h, a), f.key);
    RowsEvolve(h, a, b, owner);
    assert Matches(UserById(owner.id), owner, StoreAt(h, b)[owner].row);
  }

  lemma WrittenIffChanged(h: Log, a: nat, b: nat, k: Key)
    requires Legal(h) && a <= b <= |h| && k in StoreAt(h, a)
    ensures k in StoreAt(h, b)
    ensures StoreAt(h, b)[k] != StoreAt(h, a)[k] <==> exists i: nat :: a <= i < b && Writes(h[i], k)
  {
    hide Legal, StoreAt, Writes, Succeeds;
    RowsEvolve(h, a, b, k);
    if StoreAt(h, b)[k] != StoreAt(h, a)[k] {
      var i := NewVersionHasWriter(h, a, b, k);
    }
    if i: nat :| a <= i < b && Writes(h[i], k) {
      WrittenRowIsLater(h, a, i, b, k);
    }
  }

  lemma WrittenRowIsLater(h: Log, a: nat, i: nat, b: nat, k: Key)
    requires Legal(h) && a <= i < b <= |h| && k in StoreAt(h, a) && Writes(h[i], k)
    ensures k in StoreAt(h, b) && StoreAt(h, b)[k].version > StoreAt(h, a)[k].version
  {
    hide Legal, StoreAt, Writes, Succeeds;
    RowsEvolve(h, a, i, k);
    WriteRaisesVersion(h, i, k);
    RowsEvolve(h, i + 1, b, k);
  }

  lemma WriteRaisesVersion(h: Log, i: nat, k: Key)
    requires Legal(h) && i < |h| && k in StoreAt(h, i) && Writes(h[i], k)
    ensures k in StoreAt(h, i + 1) && StoreAt(h, i + 1)[k].version > StoreAt(h, i)[k].version
  {
    hide LegalStep, Apply, StoreInvariant, Writes, Succeeds;
    HistoryKeepsInvariant(h, i);
    StepEvolves(StoreAt(h, i), h[i], k);
  }

  lemma SameOwnerIsAsked(req: Request, r: Reply, r2: Reply)
    requires r.Some? && r2.Some? && r2.value.key == r.value.key && CellLater(r.value.cell, r2.value.cell)
    requires req.EmailVerification? || req.PasswordRecover?
    ensures NextQuery(req, [r2]) == NextQuery(req, [r])
  {
  }

  lemma TwoReadsFailAlone(h: Log, tx: Tx)
    requires Legal(h) && ViewIsRead(tx) && Linked(h, tx) && FailedComputing(tx) && NextQuery(tx.req, tx.view).None?
    requires tx.phase.ending == Failed(Compute(tx.req, tx.view, tx.phase.draw).error)
    requires |tx.view| == 2
    ensures tx.at[1] <= |h|
    ensures !RedeemedMeanwhile(h, tx) <==>
            Transact(tx.req, tx.phase.draw, Alone(StoreAt(h, tx.at[1])))
            == Err(Compute(tx.req, tx.view, tx.phase.draw).error)
    ensures RedeemedMeanwhile(h, tx) ==>
              && Compute(tx.req, tx.view, tx.phase.draw) == Err(EmailAlreadyVerified)
              && Transact(tx.req, tx.phase.draw, Alone(StoreAt(h, tx.at[1]))) == Err(TokenInvalid)
  {
    hide Compute, StoreAt, Legal, View, Succeeds, Writes;
    var r, r', d, s := tx.view[0], tx.view[1], tx.phase.draw, StoreAt(h, tx.at[1]);
    var q := OneTimeByHash(Sha256(tx.req.token));
    assert tx.view == [r, r'] && NextQuery(tx.req, []) == Some(q) && LoadOneTime(r).Some?;
    StillSelected(h, tx.at[0], tx.at[1], q);
    var r2 := Select(s, q);
    SameOwnerIsAsked(tx.req, r, r2);
    OwnerIsFound(h, tx.at[0], tx.at[1], q);
    assert LoadUser(r').Some?;
    hide NextQuery, Select;
    TwoReads(tx.req, s, r2, r');
    WrittenIffChanged(h, tx.at[0], tx.at[1], r.value.key);
    UsedTokenFailsLikewiseIff(tx.req, r.value, r2.value, r', d);
    assert r == Some(r.value) && r2 == Some(r2.value);
  }

  // ---- The uniqueness constraint

  lemma ComputeRaisesNoIntegrityError(req: Request, view: seq<Reply>, d: Draw)
    ensures Compute(req, view, d) != Err(IntegrityError)
  {
  }

  /** The new user's normalised email is taken in the rows that the save meets. */
  ghost predicate MeetsTakenEmail(tx: Tx) {
    && tx.phase.Finished? && tx.req.Register? && tx.view == [None] && |tx.met| == 2
    && Compute(tx.req, tx.view, tx.phase.draw).Ok?
    && EmailTaken(tx.met[1], Compute(tx.req, tx.view, tx.phase.draw).value.first.row)
  }

  /**
   * Only a registration ever ends in IntegrityError: one that found nobody under its text, and whose
   * normalised email is taken when it saves.
   */
  lemma IntegrityErrorIff(steps: seq<Step>, t: TxId)
    requires Run(steps).Some? && t in Run(steps).value.txs && Run(steps).value.txs[t].phase.Finished?
    ensures var tx := Run(steps).value.txs[t];
            tx.phase.ending == Failed(IntegrityError) <==> MeetsTakenEmail(tx)
  {
    RunKeepsInvariant(steps);
    var st, tx := Run(steps).value, Run(steps).value.txs[t];
    assert TxInvariant(st, tx);
    hide Run, Invariant, TxInvariant, Standing, StoreAt, Legal, Compute, NextQuery, Fresh;
    if tx.phase.ending == Failed(IntegrityError) {
      MetKeysAreOld(st, tx);
      FailedInsertIsUser(tx);
    } else if MeetsTakenEmail(tx) {
      TakenEmailFails(tx);
    }
  }

  /** The ids that an uncommitted use case drew occur in no rows that it met. */
  ghost predicate DrawnIdsAreNew(tx: Tx) {
    !tx.phase.Reading? ==>
      forall n, k :: 0 <= n < |tx.met| && k in tx.met[n] ==>
        k.id != tx.phase.draw.userId && k.id != tx.phase.draw.tokenId
  }

  lemma MetKeysAreOld(st: State, tx: Tx)
    requires Legal(st.history) && st.store == StoreAt(st.history, |st.history|) && Linked(st.history, tx)
    requires !tx.phase.Reading? && Fresh(st.store, tx.phase.draw)
    ensures DrawnIdsAreNew(tx)
  {
    hide Legal, StoreAt, CellLater;
    forall n, k | 0 <= n < |tx.met| && k in tx.met[n]
      ensures k.id != tx.phase.draw.userId && k.id != tx.phase.draw.tokenId
    {
      RowsEvolve(st.history, tx.at[n], |st.history|, k);
    }
  }

  lemma RegistrationInserts(req: Request, view: seq<Reply>, d: Draw)
    requires Compute(req, view, d).Ok? && Compute(req, view, d).value.first.Insert?
    ensures req.Register? && (|view| == 0 || LoadUser(view[0]).None?)
  {
  }

  lemma FailedInsertIsUser(tx: Tx)
    requires Faithful(tx) && tx.phase.Finished? && tx.phase.ending == Failed(IntegrityError) && DrawnIdsAreNew(tx)
    ensures MeetsTakenEmail(tx)
  {
    hide Compute, Select;
    var d := tx.phase.draw;
    ComputeRaisesNoIntegrityError(tx.req, tx.view, d);
    var plan := Compute(tx.req, tx.view, d).value;
    var n := |tx.met| - |tx.view| - 1;
    assert FailedSaving(tx, plan, IntegrityError);
    Progress.PlansSaveInOrder(tx.req, tx.view, d);
    if n == 1 {
      Progress.SecondRowIsNoUser(tx.req, tx.view, d);
      assert false;
    } else {
      assert plan.Save(n) == plan.first;
      RegistrationInserts(tx.req, tx.view, d);
      assert tx.view == [None];
    }
  }

  lemma TakenEmailFails(tx: Tx)
    requires Faithful(tx) && MeetsTakenEmail(tx)
    ensures tx.phase.ending == Failed(IntegrityError)
  {
    hide Select, EmailTaken, EmailValidator.ValidateEmail, PasswordValidator.ValidateHashPassword;
    var plan := Compute(tx.req, tx.view, tx.phase.draw).value;
    assert plan.first.Insert?;
    assert SaveError(tx.met[1], plan.first) == Some(IntegrityError);
    hide Compute;
  }

  /**
   * If the text is canonical, then another registration of the same email was committed after this one
   * had found nobody and before it saved; otherwise the email may have been taken all along.
   */
  lemma CanonicalIntegrityErrorHasCause(steps: seq<Step>, t: TxId) returns (i: nat)
    requires Run(steps).Some? && t in Run(steps).value.txs && Run(steps).value.txs[t].phase.Finished?
    requires Run(steps).value.txs[t].phase.ending == Failed(IntegrityError)
    requires Run(steps).value.txs[t].req.Register? ==> EmailValidator.Canonical(Run(steps).value.txs[t].req.email)
    ensures var st, tx := Run(steps).value, Run(steps).value.txs[t];
            && tx.req.Register? && |tx.at| == 2 && tx.at[0] <= i < tx.at[1] <= |st.history|
            && st.history[i].tx != t && st.history[i].req.Register? && st.history[i].plan.first.Insert?
            && st.history[i].plan.first.row.UserRow?
            && st.history[i].plan.first.row.user.email == tx.req.email
  {
    IntegrityErrorIff(steps, t);
    RunKeepsInvariant(steps);
    var st, tx := Run(steps).value, Run(steps).value.txs[t];
    assert TxInvariant(st, tx);
    NotRecordedYet(st, t);
    hide Run, Invariant, TxInvariant, HistoryRecords, Legal, StoreAt, Faithful, EmailTaken, EmailValidator.Canonical;
    HistoryKeepsInvariant(st.history, tx.at[1]);
    InsertedEmailIs(tx);
    hide Compute;
    FoundNobody(tx) by {
      assert ViewIsRead(tx);
    }
    i := TakenEmailHasInserter(st.history, tx.at[0], tx.at[1], tx.req.email);
  }

  lemma InsertedEmailIs(tx: Tx)
    requires MeetsTakenEmail(tx) && EmailValidator.Canonical(tx.req.email) && StoreInvariant(tx.met[1])
    ensures TakenIn(tx.met[1], tx.req.email)
  {
    hide EmailValidator.ValidateEmail, EmailValidator.Canonical, EmailTaken, TakenIn, StoreInvariant, Compute;
    TypedUsers(tx.met[1]);
    EmailValidator.CanonicalIffUnchanged(tx.req.email);
    RegisteredEmail(tx.req, tx.phase.draw);
  }

  lemma RegisteredEmail(req: Request, d: Draw)
    requires req.Register? && Compute(req, [None], d).Ok?
    ensures var w := Compute(req, [None], d).value.first;
            w.row.UserRow? && EmailValidator.ValidateEmail(Text(req.email)) == Ok(w.row.user.email)
  {
    hide EmailValidator.ValidateEmail, PasswordValidator.ValidateHashPassword;
  }

  ghost predicate TakenIn(s: Store, email: string) {
    exists k :: k in s && Matches(UserByEmail(email), k, s[k].row)
  }

  lemma FoundNobody(tx: Tx)
    requires ViewIsRead(tx) && tx.req.Register? && tx.view == [None]
    ensures !TakenIn(tx.met[0], tx.req.email)
  {
  }

  lemma {:induction false} TakenEmailHasInserter(h: Log, a: nat, b: nat, email: string) returns (i: nat)
    requires Legal(h) && a <= b <= |h| && !TakenIn(StoreAt(h, a), email) && TakenIn(StoreAt(h, b), email)
    ensures a <= i < b && h[i].req.Register? && h[i].plan.first.Insert?
    ensures h[i].plan.first.row.UserRow? && h[i].plan.first.row.user.email == email
    decreases b - a
  {
    hide Legal, StoreAt, TakenIn;
    if TakenIn(StoreAt(h, b - 1), email) {
      i := TakenEmailHasInserter(h, a, b - 1, email);
    } else {
      i := b - 1;
      CommitTakesEmail(h, i, email);
    }
  }

  lemma CommitTakesEmail(h: Log, i: nat, email: string)
    requires Legal(h) && i < |h| && !TakenIn(StoreAt(h, i), email) && TakenIn(StoreAt(h, i + 1), email)
    ensures h[i].req.Register? && h[i].plan.first.Insert?
    ensures h[i].plan.first.row.UserRow? && h[i].plan.first.row.user.email == email
  {
    var s, c := StoreAt(h, i), h[i];
    HistoryKeepsInvariant(h, i);
    var k :| k in StoreAt(h, i + 1) && Matches(UserByEmail(email), k, StoreAt(h, i + 1)[k].row);
    assert StoreAt(h, i + 1) == Apply(s, c.plan);
    LegalPlanFits(s, c);
    AppliedCell(s, c, k);
    hide LegalStep, StoreInvariant, Apply, StoreAt, Legal;
    assert k !in s;
    InsertsUser(s, c);
  }

  lemma InsertsUser(s: Store, c: Commit)
    requires StoreInvariant(s) && LegalStep(s, c)
    ensures c.plan.first.Insert? ==> c.req.Register?
    ensures c.plan.second.Some? ==> !c.plan.second.value.key.UserKey?
  {
    LegalStepHasShape(s, c);
    hide LegalStep, StoreInvariant;
  }

  // ---- When a use case that got as far as saving commits

  /**
   * The n-th save met the rows it was computed for: no commit since the row was read wrote it, or, for an
   * insert, no email was taken.
   */
  ghost predicate Undisturbed(h: Log, tx: Tx, plan: Plan, n: nat)
    requires plan.Has(n) && |tx.view| + n < |tx.met| == |tx.at|
  {
    match plan.Save(n)
    case Insert(_, row) => !EmailTaken(tx.met[|tx.view| + n], row)
    case Update(k, _, _) =>
      forall r: nat, i: nat
        | r < |tx.view| && tx.view[r].Some? && tx.view[r].value.key == k
          && tx.at[r] <= i < tx.at[|tx.view| + n] && i < |h|
        :: !Writes(h[i], k)
  }

  /**
   * A use case that computed a plan commits if and only if each save that it made was undisturbed: nobody
   * had committed a write to the row since this use case read it, and no email it inserted was taken.
   */
  lemma CommitsIffUndisturbed(steps: seq<Step>, t: TxId)
    requires Run(steps).Some? && t in Run(steps).value.txs && Run(steps).value.txs[t].phase.Finished?
    requires var tx := Run(steps).value.txs[t]; Compute(tx.req, tx.view, tx.phase.draw).Ok?
    ensures var st, tx := Run(steps).value, Run(steps).value.txs[t];
            var plan := Compute(tx.req, tx.view, tx.phase.draw).value;
            && |tx.view| < |tx.met| == |tx.at|
            && (tx.phase.ending.Committed? <==>
                  forall n: nat :: plan.Has(n) && |tx.view| + n < |tx.met| ==> Undisturbed(st.history, tx, plan, n))
  {
    RunKeepsInvariant(steps);
    IntegrityErrorIff(steps, t);
    var st, tx := Run(steps).value, Run(steps).value.txs[t];
    assert TxInvariant(st, tx);
    hide Run, Invariant, TxInvariant, Standing, StoreAt, Legal, Compute, NextQuery, Undisturbed, Faithful, Linked,
         MeetsTakenEmail;
    var plan := Compute(tx.req, tx.view, tx.phase.draw).value;
    SaveRecords(st.history, tx, plan);
    if tx.phase.ending.Committed? {
      forall n: nat | plan.Has(n) && |tx.view| + n < |tx.met| ensures Undisturbed(st.history, tx, plan, n) {
        SucceedsOnlyUndisturbed(st.history, tx, plan, n);
      }
    } else {
      var n := |tx.met| - |tx.view| - 1;
      FailsOnlyDisturbed(st.history, tx, plan, n);
    }
  }

  lemma SaveRecords(h: Log, tx: Tx, plan: Plan)
    requires Faithful(tx) && Linked(h, tx) && tx.phase.Finished?
    requires Compute(tx.req, tx.view, tx.phase.draw) == Ok(plan)
    ensures |tx.view| < |tx.met| == |tx.at|
    ensures tx.phase.ending.Committed? ==>
              forall n: nat :: plan.Has(n) && |tx.view| + n < |tx.met| ==>
                SaveError(tx.met[|tx.view| + n], plan.Save(n)).None?
    ensures tx.phase.ending.Failed? ==>
              var n := |tx.met| - |tx.view| - 1;
              plan.Has(n) && SaveError(tx.met[|tx.view| + n], plan.Save(n)) == Some(tx.phase.ending.error)
  {
    hide Compute, NextQuery, ViewIsRead, StoreAt, SaveError;
  }

  /** The read that an update relies on, and how its version tells whether the row was written since. */
  lemma UpdateSucceedsIff(h: Log, tx: Tx, plan: Plan, n: nat) returns (r: nat)
    requires Legal(h) && Faithful(tx) && Linked(h, tx) && tx.phase.Finished?
    requires Compute(tx.req, tx.view, tx.phase.draw) == Ok(plan) && plan.Has(n) && plan.Save(n).Update?
    requires |tx.view| + n < |tx.met|
    ensures |tx.at| == |tx.met| && r < |tx.view| && tx.view[r].Some? && tx.view[r].value.key == plan.Save(n).key
    ensures SaveError(tx.met[|tx.view| + n], plan.Save(n)).None? <==>
            !exists i: nat :: tx.at[r] <= i < tx.at[|tx.view| + n] && Writes(h[i], plan.Save(n).key)
  {
    hide Compute, NextQuery, Select, StoreAt, Legal, Writes, Succeeds, SavedUpTo, FailedSaving;
    var w, last := plan.Save(n), |tx.view| + n;
    ReadMatches(tx);
    r := UpdatedRowWasRead(tx.req, tx.view, tx.phase.draw, n);
    SelectedIsThere(tx, r);
    assert tx.met[r] == StoreAt(h, tx.at[r]) && tx.met[last] == StoreAt(h, tx.at[last]);
    WrittenIffChanged(h, tx.at[r], tx.at[last], w.key);
    RowsEvolve(h, tx.at[r], tx.at[last], w.key);
  }

  lemma ReadMatches(tx: Tx)
    requires Faithful(tx) && tx.phase.Finished?
    ensures ViewIsRead(tx) && NextQuery(tx.req, tx.view).None?
    ensures |tx.view| >= 1 ==> NextQuery(tx.req, []).Some? && (tx.view[0].Some? ==>
              Matches(NextQuery(tx.req, []).value, tx.view[0].value.key, tx.view[0].value.cell.row))
    ensures |tx.view| == 2 ==> NextQuery(tx.req, [tx.view[0]]).Some? && (tx.view[1].Some? ==>
              Matches(NextQuery(tx.req, [tx.view[0]]).value, tx.view[1].value.key, tx.view[1].value.cell.row))
  {
    hide Compute, NextQuery, SavedUpTo, FailedSaving, Matches;
  }

  lemma SucceedsOnlyUndisturbed(h: Log, tx: Tx, plan: Plan, n: nat)
    requires Legal(h) && Faithful(tx) && Linked(h, tx) && tx.phase.Finished?
    requires Compute(tx.req, tx.view, tx.phase.draw) == Ok(plan) && plan.Has(n)
    requires |tx.view| + n < |tx.met| == |tx.at| && SaveError(tx.met[|tx.view| + n], plan.Save(n)).None?
    ensures Undisturbed(h, tx, plan, n)
  {
    hide Compute, StoreAt, Legal, Writes, EmailTaken, Faithful;
    if plan.Save(n).Update? {
      var r := UpdateSucceedsIff(h, tx, plan, n);
      ReadsDiffer(tx);
    }
  }

  /** No row is read twice. */
  lemma ReadsDiffer(tx: Tx)
    requires Faithful(tx)
    ensures |tx.view| <= 2
    ensures |tx.view| == 2 && tx.view[0].Some? && tx.view[1].Some? ==> tx.view[0].value.key != tx.view[1].value.key
  {
    hide Compute, SavedUpTo, FailedSaving, ReuseReport;
  }

  lemma FailsOnlyDisturbed(h: Log, tx: Tx, plan: Plan, n: nat)
    requires Legal(h) && Faithful(tx) && Linked(h, tx) && tx.phase.Finished? && tx.phase.ending.Failed?
    requires Compute(tx.req, tx.view, tx.phase.draw) == Ok(plan) && plan.Has(n)
    requires |tx.view| + n + 1 == |tx.met| == |tx.at|
    requires SaveError(tx.met[|tx.view| + n], plan.Save(n)) == Some(tx.phase.ending.error)
    requires tx.phase.ending == Failed(IntegrityError) ==> MeetsTakenEmail(tx)
    ensures !Undisturbed(h, tx, plan, n)
  {
    hide Compute, StoreAt, Legal, Writes, EmailTaken, Faithful;
    if plan.Save(n).Update? {
      var r := UpdateSucceedsIff(h, tx, plan, n);
      var i: nat :| tx.at[r] <= i < tx.at[|tx.view| + n] && Writes(h[i], plan.Save(n).key);
    } else {
      assert tx.phase.ending == Failed(IntegrityError) && n == 0;
    }
  }

  // ---- Registration alone

  /** The outcomes of a registration that runs alone; see IntegrityErrorAloneIff for the last one. */
  lemma RegistrationAlone(s: Store, email: string, password: string, d: Draw)
    requires StoreInvariant(s) && Fresh(s, d)
    ensures var found := LoadUser(Select(s, UserByEmail(email)));
            var r := Transact(Register(email, password), d, Alone(s));
            if found.Some? then
              if found.value.data.verified then r == Err(UserAlreadyExists) else r.Ok?
            else
              var created := CreateUser(d.userId, email, password, d.bornAt);
              if created.Err? then r == Err(created.error)
              else if TakenIn(s, created.value.data.email) then r == Err(IntegrityError)
              else r.Ok?
  {
    hide CreateUser, TakenIn, EmailTaken, Transact, View, StoreInvariant;
    TypedUsers(s);
    var r := Select(s, UserByEmail(email));
    OneRead(Register(email, password), s, r);
    assert UserKey(d.userId) !in s && OneTimeKey(d.tokenId) !in s;
    hide Select, Fresh;
    if r.Some? {
      KnownUserRegisters(s, email, password, r, d);
    } else {
      NewUserRegisters(s, email, password, d);
    }
  }

  lemma KnownUserRegisters(s: Store, email: string, password: string, r: Reply, d: Draw)
    requires View(Register(email, password), Alone(s)) == [r] && OneTimeKey(d.tokenId) !in s
    requires r.Some? && r.value.key in s && s[r.value.key] == r.value.cell
    requires r.value.key.UserKey? && r.value.cell.row.UserRow?
    ensures var result := Transact(Register(email, password), d, Alone(s));
            if r.value.cell.row.user.verified then result == Err(UserAlreadyExists) else result.Ok?
  {
    hide View;
  }

  lemma NewUserRegisters(s: Store, email: string, password: string, d: Draw)
    requires View(Register(email, password), Alone(s)) == [None]
    requires UserKey(d.userId) !in s && OneTimeKey(d.tokenId) !in s
    ensures var created := CreateUser(d.userId, email, password, d.bornAt);
            var result := Transact(Register(email, password), d, Alone(s));
            if created.Err? then result == Err(created.error)
            else if EmailTaken(s, UserRow(created.value.data)) then result == Err(IntegrityError)
            else result.Ok?
  {
    assert forall row: Row :: !row.UserRow? ==> !EmailTaken(s, row);
    hide View, EmailTaken, EmailValidator.ValidateEmail, PasswordValidator.ValidateHashPassword;
  }

  lemma TypedUsers(s: Store)
    requires StoreInvariant(s)
    ensures forall row: Row :: row.UserRow? ==> (EmailTaken(s, row) <==> TakenIn(s, row.user.email))
  {
    hide UniqueHits;
    forall k | k in s ensures s[k].row.UserRow? ==> k.UserKey? {
      assert RowInvariant(s, k);
    }
    hide RowInvariant;
  }

  /**
   * Run alone, a registration ends in IntegrityError exactly if the password is valid, the email is valid
   * and taken once normalised, and the given text is not that normal form: the lookup then misses the user.
   */
  lemma IntegrityErrorAloneIff(s: Store, email: string, password: string, d: Draw)
    requires StoreInvariant(s) && Fresh(s, d)
    ensures Transact(Register(email, password), d, Alone(s)) == Err(IntegrityError) <==>
            && PasswordValidator.ValidateHashPassword(Text(password)).Ok?
            && EmailValidator.ValidateEmail(Text(email)).Ok?
            && EmailValidator.ValidateEmail(Text(email)).value != email
            && TakenIn(s, EmailValidator.ValidateEmail(Text(email)).value)
  {
    RegistrationAlone(s, email, password, d);
    CreationErrors(email, password, d);
    EmailValidator.CanonicalIffUnchanged(email);
    hide Transact, EmailValidator.ValidateEmail, PasswordValidator.ValidateHashPassword, UniqueHits, Fresh,
         EmailValidator.Canonical;
    var r := Select(s, UserByEmail(email));
    if r.Some? {
      assert RowInvariant(s, r.value.key);
    }
  }

  lemma CreationErrors(email: string, password: string, d: Draw)
    ensures CreateUser(d.userId, email, password, d.bornAt) != Err(IntegrityError)
  {
  }
}
