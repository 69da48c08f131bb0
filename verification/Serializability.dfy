/** Commits keep the invariant; hence every interleaving is serializable in commit order. */
module Serializability {
  import opened Domain
  import opened Results
  import opened Stores
  import opened UseCases
  import opened History
  import opened Evolution
  import opened Machine
  import opened Consistency
  import opened Preservation
  import opened CommitStep

  lemma LinkGrows(h: Log, c: Commit, tx: Tx)
    requires Linked(h, tx)
    ensures Linked(h + [c], tx)
  {
    hide StoreAt;
    forall i | 0 <= i < |tx.at| ensures tx.met[i] == StoreAt(h + [c], tx.at[i]) {
      StoreAtOfLonger(h, c, tx.at[i]);
    }
  }

  /** A save that needs none of the locks of a commit succeeds after the commit if it did before. */
  lemma SaveStillStands(s: Store, c: Commit, w: Write)
    requires StoreInvariant(s) && LegalStep(s, c)
    requires LocksOf(w) !! LocksUpTo(c.plan, c.plan.Count())
    requires SaveError(s, w).None?
    ensures SaveError(Apply(s, c.plan), w).None?
  {
    LegalPlanFits(s, c);
    hide LegalStep, StoreInvariant, Apply, Fits, Overwrite;
    AppliedCell(s, c, w.key);
    assert !Writes(c, w.key) by {
      assert RowLock(w.key) in LocksOf(w);
      assert RowLock(c.plan.first.key) in LocksOf(c.plan.first);
      assert c.plan.second.Some? ==> RowLock(c.plan.second.value.key) in LocksOf(c.plan.second.value);
    }
    if w.Insert? && EmailTaken(Apply(s, c.plan), w.row) {
      EmailTakenBefore(s, c, w.row);
      assert EmailLock(w.row.user.email) in LocksOf(w);
    }
  }

  /** An email taken after a commit was taken before, or the commit inserted it and locked it. */
  lemma EmailTakenBefore(s: Store, c: Commit, row: Row)
    requires StoreInvariant(s) && LegalStep(s, c) && EmailTaken(Apply(s, c.plan), row)
    ensures EmailTaken(s, row) || EmailLock(row.user.email) in LocksOf(c.plan.first)
  {
    LegalPlanFits(s, c);
    var s' := Apply(s, c.plan);
    var k :| k in s' && s'[k].row.UserRow? && s'[k].row.user.email == row.user.email;
    AppliedCell(s, c, k);
    hide LegalStep, StoreInvariant, Apply, EmailTaken;
    if k in s {
      assert s[k].row.UserRow? && s[k].row.user.email == row.user.email;
      TakenBy(s, k, row);
    }
  }

  lemma TakenBy(s: Store, k: Key, row: Row)
    requires k in s && s[k].row.UserRow? && row.UserRow? && s[k].row.user.email == row.user.email
    ensures EmailTaken(s, row)
  {
  }

  lemma OtherStaysStanding(s: Store, c: Commit, tx: Tx)
    requires StoreInvariant(s) && LegalStep(s, c) && Standing(s, tx)
    requires Held(tx) !! LocksUpTo(c.plan, c.plan.Count())
    ensures Standing(Apply(s, c.plan), tx)
  {
    hide StoreInvariant, LegalStep, Apply, SaveError, LocksOf;
    if tx.phase.Saving? && tx.phase.saved >= 1 {
      assert LocksOf(tx.phase.plan.first) <= Held(tx);
      SaveStillStands(s, c, tx.phase.plan.first);
    }
    if tx.phase.Saving? && tx.phase.saved >= 2 && tx.phase.plan.second.Some? {
      assert LocksOf(tx.phase.plan.second.value) <= Held(tx);
      SaveStillStands(s, c, tx.phase.plan.second.value);
    }
  }

  lemma OtherStaysFresh(s: Store, c: Commit, d: Draw)
    requires StoreInvariant(s) && LegalStep(s, c) && Fresh(s, d) && Distinct(c.draw, d)
    ensures Fresh(Apply(s, c.plan), d)
  {
    var s' := Apply(s, c.plan);
    hide LegalStep, StoreInvariant, Apply;
    forall k | k in s'
      ensures k.id != d.userId && k.id != d.tokenId && HashOf(s'[k].row) != Some(Sha256(d.token))
    {
      HashAfter(s, c, k);
    }
  }

  /** A stored row keeps its hash; a new one carries drawn ids and, if any, the hash of the drawn token. */
  lemma HashAfter(s: Store, c: Commit, k: Key)
    requires StoreInvariant(s) && LegalStep(s, c) && k in Apply(s, c.plan)
    ensures k in s ==> HashOf(Apply(s, c.plan)[k].row) == HashOf(s[k].row)
    ensures k !in s ==>
              && (k.id == c.draw.userId || k.id == c.draw.tokenId)
              && HashOf(Apply(s, c.plan)[k].row) in {None, Some(Sha256(c.draw.token))}
  {
    LegalPlanFits(s, c);
    InsertedColumns(s, c);
    hide LegalStep, StoreInvariant, Apply;
    AppliedCell(s, c, k);
  }

  lemma StoreStaysDrawn(st: State, st': State, c: Commit)
    requires StoreInvariant(st.store) && LegalStep(st.store, c) && StoreDrawn(st) && Drawn(st, c.draw)
    requires st'.store == Apply(st.store, c.plan) && st'.ids == st.ids && st'.tokens == st.tokens
    ensures StoreDrawn(st')
  {
    hide LegalStep, StoreInvariant, Apply;
    forall k | k in st'.store
      ensures k.id in st'.ids
      ensures HashOf(st'.store[k].row).Some? ==> HashOf(st'.store[k].row).value.token in st'.tokens
    {
      HashAfter(st.store, c, k);
    }
  }

  lemma RecordsGrow(st: State, st': State, t: TxId, c: Commit)
    requires HistoryRecords(st) && t in st.txs && !IsCommitted(st.txs[t])
    requires st'.history == st.history + [c] && c.tx == t
    requires st.txs[t].phase.Saving? && st'.txs == st.txs[t := AfterCommit(st.txs[t])]
    requires Records(c, t, st'.txs[t])
    ensures HistoryRecords(st')
  {
    hide Records, IsCommitted;
    NotRecordedYet(st, t);
    forall u | u in st'.txs && IsCommitted(st'.txs[u])
      ensures exists i: nat :: i < |st'.history| && st'.history[i].tx == u
    {
      if u == t {
        assert st'.history[|st.history|].tx == t;
      } else {
        var i: nat :| i < |st.history| && st.history[i].tx == u;
        assert st'.history[i].tx == u;
      }
    }
  }

  lemma NotRecordedYet(st: State, t: TxId)
    requires HistoryRecords(st) && t in st.txs && !IsCommitted(st.txs[t])
    ensures forall i: nat :: i < |st.history| ==> st.history[i].tx != t
  {
    hide Compute;
    forall i: nat | i < |st.history| ensures st.history[i].tx != t {
      assert Records(st.history[i], st.history[i].tx, st.txs[st.history[i].tx]);
    }
  }

  /** The state after the commit c. */
  ghost predicate IsAfter(st: State, c: Commit, st': State) {
    && st'.store == Apply(st.store, c.plan) && st'.history == st.history + [c]
    && st'.ids == st.ids && st'.tokens == st.tokens
  }

  lemma OtherSurvivesCommit(st: State, c: Commit, st': State, other: Tx)
    requires StoreInvariant(st.store) && LegalStep(st.store, c) && IsAfter(st, c, st')
    requires TxInvariant(st, other)
    requires Held(other) !! LocksUpTo(c.plan, c.plan.Count())
    requires DrawOf(other).Some? ==> Distinct(c.draw, DrawOf(other).value)
    ensures TxInvariant(st', other)
  {
    hide LegalStep, Apply, Faithful, StoreInvariant, LocksUpTo, Fresh, Distinct, Linked, Standing, Held;
    LinkGrows(st.history, c, other);
    OtherStaysStanding(st.store, c, other);
    if DrawOf(other).Some? && !IsCommitted(other) {
      OtherStaysFresh(st.store, c, DrawOf(other).value);
    }
  }

  lemma OwnSurvivesCommit(st: State, c: Commit, st': State, tx: Tx)
    requires IsAfter(st, c, st') && TxInvariant(st, tx)
    requires tx.phase.Saving? && tx.phase.saved == tx.phase.plan.Count()
    ensures TxInvariant(st', AfterCommit(tx)) && Held(AfterCommit(tx)) == {} && DrawOf(AfterCommit(tx)) == DrawOf(tx)
  {
    CommitKeepsFaithful(tx);
    LinkGrows(st.history, c, tx);
    LinkIgnoresView(st'.history, tx, AfterCommit(tx));
    hide Faithful, Linked, Fresh, Apply;
  }

  /** The commit of t, as the history will record it. */
  ghost function CommitOf(t: TxId, tx: Tx): Commit
    requires tx.phase.Saving?
  {
    Commit(t, tx.req, tx.phase.draw, tx.phase.plan)
  }

  lemma CommitLeads(st: State, t: TxId)
    requires Enabled(st, Commits(t))
    ensures t in st.txs && st.txs[t].phase.Saving? && st.txs[t].phase.saved == st.txs[t].phase.plan.Count()
    ensures IsAfter(st, CommitOf(t, st.txs[t]), Do(st, Commits(t)))
    ensures Do(st, Commits(t)).txs == st.txs[t := AfterCommit(st.txs[t])]
    ensures Held(st.txs[t]) == LocksUpTo(st.txs[t].phase.plan, st.txs[t].phase.plan.Count())
  {
    hide Apply, LocksUpTo;
  }

  lemma CommitKeepsInvariant(st: State, step: Step)
    requires Invariant(st) && Enabled(st, step) && step.Commits?
    ensures Invariant(Do(st, step))
  {
    hide Enabled, Do, Legal, StoreAt, LegalStep, Apply, StoreInvariant, Fresh, Linked, Compute, TxInvariant,
         PairInvariant, StoreDrawn, HistoryRecords, NextQuery, ViewIsRead, SaveError, LocksUpTo, AfterCommit;
    var t, st' := step.tx, Do(st, step);
    CommitLeads(st, t);
    var tx := st.txs[t];
    var c := CommitOf(t, tx);
    CommitIsLegal(st, t);
    ReadyToCommit(st, t);
    HistoryKeepsInvariant(st.history, |st.history|);
    LegalAppends(st.history, c);
    StoreStaysDrawn(st, st', c);
    CommitKeepsTxs(st, st', t, c);
    CommitKeepsPairs(st, st', t);
    CommitIsRecorded(tx, t);
    RecordsGrow(st, st', t, c);
  }

  lemma CommitIsRecorded(tx: Tx, t: TxId)
    requires tx.phase.Saving? && Compute(tx.req, tx.view, tx.phase.draw) == Ok(tx.phase.plan)
    ensures Records(CommitOf(t, tx), t, AfterCommit(tx)) && !IsCommitted(tx)
  {
    hide Compute;
  }

  lemma CommitKeepsTxs(st: State, st': State, t: TxId, c: Commit)
    requires Invariant(st) && t in st.txs && StoreInvariant(st.store) && LegalStep(st.store, c) && IsAfter(st, c, st')
    requires var tx := st.txs[t];
             && tx.phase.Saving? && tx.phase.saved == tx.phase.plan.Count()
             && c.plan == tx.phase.plan && c.draw == tx.phase.draw
             && st'.txs == st.txs[t := AfterCommit(tx)]
    ensures forall u :: u in st'.txs ==> TxInvariant(st', st'.txs[u])
  {
    var tx := st.txs[t];
    hide Legal, StoreAt, LegalStep, StoreInvariant, HistoryRecords, StoreDrawn, LocksUpTo, Distinct, IsAfter,
         AfterCommit;
    forall u | u in st'.txs ensures TxInvariant(st', st'.txs[u]) {
      if u == t {
        hide PairInvariant;
        assert TxInvariant(st, tx);
        hide TxInvariant;
        OwnSurvivesCommit(st, c, st', tx);
      } else {
        assert TxInvariant(st, st.txs[u]);
        hide TxInvariant;
        assert PairInvariant(tx, st.txs[u]);
        OtherSurvivesCommit(st, c, st', st.txs[u]);
      }
    }
  }

  lemma CommitKeepsPairs(st: State, st': State, t: TxId)
    requires Invariant(st) && t in st.txs && st.txs[t].phase.Saving?
    requires st'.txs == st.txs[t := AfterCommit(st.txs[t])]
    ensures forall u, v :: u in st'.txs && v in st'.txs && u != v ==> PairInvariant(st'.txs[u], st'.txs[v])
  {
    hide Legal, StoreAt, TxInvariant, HistoryRecords, StoreDrawn, LocksUpTo, Distinct;
    forall u, v | u in st'.txs && v in st'.txs && u != v ensures PairInvariant(st'.txs[u], st'.txs[v]) {
      assert PairInvariant(st.txs[u], st.txs[v]);
    }
  }

  // ---- Every reachable state

  lemma StepKeepsInvariant(st: State, step: Step)
    requires Invariant(st) && Enabled(st, step)
    ensures Invariant(Do(st, step))
  {
    hide Invariant, Enabled, Do;
    match step
    case Begin(_, _) => BeginKeepsInvariant(st, step);
    case Read(_) => ReadKeepsInvariant(st, step);
    case Decide(_, _) => DecideKeepsInvariant(st, step);
    case Save(_) => SaveKeepsInvariant(st, step);
    case Commits(_) => CommitKeepsInvariant(st, step);
    case Report(_) => ReportKeepsInvariant(st, step);
    case Publish(_) => PublishKeepsInvariant(st, step);
  }

  lemma {:induction false} RunKeepsInvariant(steps: seq<Step>)
    ensures Run(steps).Some? ==> Invariant(Run(steps).value)
  {
    hide Enabled, Do;
    if steps == [] {
    } else {
      var n := |steps| - 1;
      hide Invariant;
      RunKeepsInvariant(steps[..n]);
      if Run(steps[..n]).Some? && Enabled(Run(steps[..n]).value, steps[n]) {
        StepKeepsInvariant(Run(steps[..n]).value, steps[n]);
      }
    }
  }

  /** Running the committed use cases of a history one at a time, each alone, from the empty store. */
  ghost function RunSerially(h: Log, n: nat): Result<Store>
    requires n <= |h|
  {
    if n == 0 then Ok(map[])
    else
      var s :- RunSerially(h, n - 1);
      var plan :- Transact(h[n - 1].req, h[n - 1].draw, Alone(s));
      Ok(Apply(s, plan))
  }

  lemma {:induction false} LegalRunsSerially(h: Log, n: nat)
    requires Legal(h) && n <= |h|
    ensures RunSerially(h, n) == Ok(StoreAt(h, n))
  {
    hide Transact, Fresh, Apply, Alone;
    if n == 0 {
    } else {
      LegalRunsSerially(h, n - 1);
      assert LegalStep(StoreAt(h, n - 1), h[n - 1]);
    }
  }

  /**
   * Serializability: whatever the interleaving of any number of use cases, the committed rows are those
   * of running the committed ones alone, one after the other, in commit order and with the same draws;
   * each of them then saves and publishes what it did in the interleaving, and the history lists exactly
   * the committed use cases, each once.
   */
  lemma EveryRunIsSerializable(steps: seq<Step>)
    requires Run(steps).Some?
    ensures var st := Run(steps).value;
            && RunSerially(st.history, |st.history|) == Ok(st.store)
            && Legal(st.history) && st.store == StoreAt(st.history, |st.history|)
            && HistoryRecords(st)
  {
    RunKeepsInvariant(steps);
    hide Run, Legal, StoreAt, HistoryRecords;
    var st := Run(steps).value;
    LegalRunsSerially(st.history, |st.history|);
  }
}
