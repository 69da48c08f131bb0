/** Every step of the machine keeps the invariant. */
module Preservation {
  import opened Domain
  import opened Results
  import opened Stores
  import opened UseCases
  import opened History
  import opened Machine
  import opened Consistency

  // ---- One use case moves, the committed rows stay

  lemma ReadKeepsFaithful(st: State, tx: Tx)
    requires Faithful(tx) && tx.phase.Reading? && NextQuery(tx.req, tx.view).Some?
    ensures Faithful(AfterRead(st, tx))
  {
    hide Select, SavedUpTo, FailedSaving;
    if |tx.view| == 1 {
      assert tx.view == [tx.view[0]];
    } else {
      assert tx.view == [];
    }
  }

  lemma DecideKeepsFaithful(tx: Tx, d: Draw)
    requires Faithful(tx) && tx.phase.Reading? && NextQuery(tx.req, tx.view).None?
    ensures Faithful(AfterDecide(tx, d))
  {
    hide Compute, NextQuery, Asked;
  }

  lemma SaveKeepsFaithful(st: State, tx: Tx)
    requires Faithful(tx) && tx.phase.Saving? && tx.phase.plan.Has(tx.phase.saved)
    ensures Faithful(AfterSave(st, tx))
  {
    hide Compute, NextQuery, SaveError, Select;
  }

  lemma CommitKeepsFaithful(tx: Tx)
    requires Faithful(tx) && tx.phase.Saving? && tx.phase.saved == tx.phase.plan.Count()
    ensures Faithful(AfterCommit(tx))
  {
    hide Compute, NextQuery, SaveError, Asked;
  }

  lemma ReportKeepsFaithful(st: State, tx: Tx)
    requires Faithful(tx) && tx.phase.Reporting?
    ensures Faithful(AfterReport(st, tx))
  {
    hide Compute, NextQuery, SaveError, Select, ReuseReport;
  }

  lemma PublishKeepsFaithful(tx: Tx)
    requires Faithful(tx) && tx.phase.Finished? && tx.phase.sent < |tx.phase.events|
    ensures Faithful(AfterPublish(tx))
  {
    hide Compute, NextQuery, SaveError, Asked, ReuseReport;
  }

  /** A step that only moves one use case keeps the invariant if that use case stays in order. */
  lemma MovingOneKeepsInvariant(st: State, st': State, t: TxId, tx: Tx)
    requires Invariant(st)
    requires st'.store == st.store && st'.history == st.history && st'.txs == st.txs[t := tx]
    requires st.ids <= st'.ids && st.tokens <= st'.tokens
    requires TxInvariant(st', tx)
    requires forall u :: u in st.txs && u != t ==> PairInvariant(tx, st.txs[u])
    requires IsCommitted(tx) <==> t in st.txs && IsCommitted(st.txs[t])
    requires IsCommitted(tx) ==>
               tx.req == st.txs[t].req && tx.view == st.txs[t].view && tx.phase.draw == st.txs[t].phase.draw
    ensures Invariant(st')
  {
    hide Legal, StoreAt, Faithful, Linked, Standing, Held, Compute, Distinct, Fresh;
    forall u | u in st'.txs ensures TxInvariant(st', st'.txs[u]) {
      if u != t {
        assert TxInvariant(st, st.txs[u]);
      }
    }
    forall u, v | u in st'.txs && v in st'.txs && u != v ensures PairInvariant(st'.txs[u], st'.txs[v]) {
      if u != t && v != t {
        assert PairInvariant(st.txs[u], st.txs[v]);
      } else if v == t {
        PairsAreSymmetric(tx, st.txs[u]);
      }
    }
  }

  lemma PairsAreSymmetric(a: Tx, b: Tx)
    requires PairInvariant(a, b)
    ensures PairInvariant(b, a)
  {
    hide Held;
  }

  /** The use case keeps its locks and its draw, and commits no sooner and no later. */
  ghost predicate SameClaims(a: Tx, b: Tx) {
    Held(b) == Held(a) && DrawOf(b) == DrawOf(a) && (IsCommitted(b) <==> IsCommitted(a))
    && b.req == a.req && (IsCommitted(a) ==> b.view == a.view)
  }

  lemma MovingQuietlyKeepsInvariant(st: State, st': State, t: TxId, tx: Tx)
    requires Invariant(st) && t in st.txs
    requires st'.store == st.store && st'.history == st.history && st'.txs == st.txs[t := tx]
    requires st'.ids == st.ids && st'.tokens == st.tokens
    requires Faithful(tx) && Linked(st.history, tx) && Standing(st.store, tx) && SameClaims(st.txs[t], tx)
    ensures Invariant(st')
  {
    hide Legal, StoreAt, Faithful, Linked, Standing, Held, Fresh, Distinct, HistoryRecords;
    assert TxInvariant(st, st.txs[t]);
    assert TxInvariant(st', tx);
    forall u | u in st.txs && u != t ensures PairInvariant(tx, st.txs[u]) {
      assert PairInvariant(st.txs[t], st.txs[u]);
    }
    hide TxInvariant, PairInvariant, Invariant;
    MovingOneKeepsInvariant(st, st', t, tx);
  }

  lemma MetStaysLinked(st: State, tx: Tx)
    requires Linked(st.history, tx) && st.store == StoreAt(st.history, |st.history|)
    ensures Linked(st.history, Met(st, tx))
  {
    hide StoreAt;
  }

  /** What the invariant says about one use case. */
  lemma TxFacts(st: State, t: TxId)
    requires Invariant(st) && t in st.txs
    ensures Faithful(st.txs[t]) && Linked(st.history, st.txs[t]) && Standing(st.store, st.txs[t])
    ensures Linked(st.history, Met(st, st.txs[t]))
  {
    hide Legal, StoreAt, Faithful, Linked, Standing, Fresh, HistoryRecords;
    assert TxInvariant(st, st.txs[t]);
    MetStaysLinked(st, st.txs[t]);
  }

  lemma BeginKeepsInvariant(st: State, step: Step)
    requires Invariant(st) && Enabled(st, step) && step.Begin?
    ensures Invariant(Do(st, step))
  {
    hide Invariant, NextQuery, Compute, Select, SaveError, Legal, StoreAt, StoreDrawn, HistoryRecords;
    var tx := Tx(step.req, [], [], [], Reading);
    assert TxInvariant(st, tx);
    assert forall u :: u in st.txs ==> PairInvariant(tx, st.txs[u]);
    hide TxInvariant, PairInvariant;
    MovingOneKeepsInvariant(st, Do(st, step), step.tx, tx);
  }

  lemma ReadKeepsInvariant(st: State, step: Step)
    requires Invariant(st) && Enabled(st, step) && step.Read?
    ensures Invariant(Do(st, step))
  {
    hide Invariant, Faithful, Linked, NextQuery, Select;
    var tx := st.txs[step.tx];
    TxFacts(st, step.tx);
    ReadKeepsFaithful(st, tx);
    LinkIgnoresView(st.history, Met(st, tx), AfterRead(st, tx));
    MovingQuietlyKeepsInvariant(st, Do(st, step), step.tx, AfterRead(st, tx));
  }

  lemma LinkIgnoresView(h: Log, a: Tx, b: Tx)
    requires Linked(h, a) && b.met == a.met && b.at == a.at
    ensures Linked(h, b)
  {
    hide StoreAt;
  }

  lemma ReportKeepsInvariant(st: State, step: Step)
    requires Invariant(st) && Enabled(st, step) && step.Report?
    ensures Invariant(Do(st, step))
  {
    hide Invariant, Faithful, Linked, ReuseReport;
    var tx := st.txs[step.tx];
    TxFacts(st, step.tx);
    ReportKeepsFaithful(st, tx);
    LinkIgnoresView(st.history, Met(st, tx), AfterReport(st, tx));
    MovingQuietlyKeepsInvariant(st, Do(st, step), step.tx, AfterReport(st, tx));
  }

  lemma PublishKeepsInvariant(st: State, step: Step)
    requires Invariant(st) && Enabled(st, step) && step.Publish?
    ensures Invariant(Do(st, step))
  {
    hide Invariant, Faithful, Linked;
    var tx := st.txs[step.tx];
    TxFacts(st, step.tx);
    PublishKeepsFaithful(tx);
    LinkIgnoresView(st.history, tx, AfterPublish(tx));
    MovingQuietlyKeepsInvariant(st, Do(st, step), step.tx, AfterPublish(tx));
  }

  lemma FreshDrawIsFresh(st: State, d: Draw)
    requires StoreDrawn(st) && IsFresh(st, d)
    ensures Fresh(st.store, d)
  {
  }

  lemma FreshDrawIsDistinct(st: State, d: Draw, e: Draw)
    requires IsFresh(st, d) && Drawn(st, e)
    ensures Distinct(d, e)
  {
  }

  lemma DecideKeepsInvariant(st: State, step: Step)
    requires Invariant(st) && Enabled(st, step) && step.Decide?
    ensures Invariant(Do(st, step))
  {
    hide Legal, StoreAt, Faithful, Linked, HistoryRecords, NextQuery, Compute, Fresh, Distinct, IsFresh;
    var t, tx, d := step.tx, st.txs[step.tx], step.draw;
    var tx', st' := AfterDecide(tx, d), Do(st, step);
    TxFacts(st, t);
    FreshDrawIsFresh(st, d);
    DecideKeepsFaithful(tx, d);
    LinkIgnoresView(st.history, tx, tx');
    assert TxInvariant(st', tx') && Held(tx') == {} && DrawOf(tx') == Some(d);
    forall u | u in st.txs && u != t ensures PairInvariant(tx', st.txs[u]) {
      assert TxInvariant(st, st.txs[u]);
      if DrawOf(st.txs[u]).Some? {
        FreshDrawIsDistinct(st, d, DrawOf(st.txs[u]).value);
      }
    }
    hide TxInvariant, PairInvariant, Invariant, Held, DrawOf;
    MovingOneKeepsInvariant(st, st', t, tx');
  }

  lemma SaveTakesLocks(st: State, tx: Tx)
    requires tx.phase.Saving? && tx.phase.plan.Has(tx.phase.saved)
    ensures Held(AfterSave(st, tx)) <= Held(tx) + LocksOf(tx.phase.plan.Save(tx.phase.saved))
  {
    hide SaveError, LocksOf;
  }

  lemma SaveKeepsTx(st: State, tx: Tx)
    requires TxInvariant(st, tx) && tx.phase.Saving? && tx.phase.plan.Has(tx.phase.saved)
    requires Linked(st.history, Met(st, tx))
    ensures TxInvariant(st, AfterSave(st, tx)) && !IsCommitted(AfterSave(st, tx))
    ensures DrawOf(AfterSave(st, tx)) == DrawOf(tx)
  {
    SaveKeepsFaithful(st, tx);
    LinkIgnoresView(st.history, Met(st, tx), AfterSave(st, tx));
    hide Faithful, Linked, SaveError, Fresh;
  }

  lemma SaveKeepsInvariant(st: State, step: Step)
    requires Invariant(st) && Enabled(st, step) && step.Save?
    ensures Invariant(Do(st, step))
  {
    hide Legal, StoreAt, Faithful, Linked, Standing, HistoryRecords, Fresh, SaveError, Held, LocksOf,
         Distinct, StoreDrawn, AfterSave, DrawOf;
    var t, tx := step.tx, st.txs[step.tx];
    TxFacts(st, t);
    SaveKeepsTx(st, tx);
    SaveTakesLocks(st, tx);
    forall u | u in st.txs && u != t ensures PairInvariant(AfterSave(st, tx), st.txs[u]) {
      assert PairInvariant(tx, st.txs[u]);
      assert Held(st.txs[u]) !! LocksOf(tx.phase.plan.Save(tx.phase.saved));
    }
    assert TxInvariant(st, tx);
    hide TxInvariant, PairInvariant, Invariant;
    MovingOneKeepsInvariant(st, Do(st, step), t, AfterSave(st, tx));
  }
}
