/** Deadlock freedom and termination of the interleaved machine. */
module Progress {
  import opened Domain
  import opened Events
  import opened Results
  import opened Stores
  import opened UseCases
  import opened History
  import opened Machine
  import opened Consistency
  import opened Preservation
  import opened Serializability

  /** The use case has ended and pushed all it had to publish. */
  ghost predicate IsOver(tx: Tx) {
    tx.phase.Finished? && tx.phase.sent == |tx.phase.events|
  }

  // ---- Fresh draws always exist

  lemma {:induction false} SomeIdIsAbove(ids: set<Id>) returns (n: Id)
    ensures forall i :: i in ids ==> i < n
  {
    if ids == {} {
      n := 0;
    } else {
      var i :| i in ids;
      var m := SomeIdIsAbove(ids - {i});
      n := if i < m then m else i + 1;
      assert forall j :: j in ids ==> j == i || j in ids - {i};
    }
  }

  lemma {:induction false} SomeLengthIsAbove(tokens: set<string>) returns (n: nat)
    ensures forall s :: s in tokens ==> |s| < n
  {
    if tokens == {} {
      n := 0;
    } else {
      var s :| s in tokens;
      var m := SomeLengthIsAbove(tokens - {s});
      n := if |s| < m then m else |s| + 1;
    }
  }

  lemma FreshDrawExists(st: State) returns (d: Draw)
    ensures IsFresh(st, d)
  {
    var i := SomeIdIsAbove(st.ids);
    var n := SomeLengthIsAbove(st.tokens);
    d := Draw(i, i + 1, seq(n, _ => 'x'), 0, 0, 0, 0);
  }

  // ---- Deadlock freedom

  /** The next save of the use case. */
  ghost predicate WantsToSave(tx: Tx) {
    tx.phase.Saving? && tx.phase.plan.Has(tx.phase.saved)
  }

  /** Saves are ordered: the user row with its email, then the one-time-token row; refresh tokens apart. */
  lemma PlansSaveInOrder(req: Request, view: seq<Reply>, d: Draw)
    requires Compute(req, view, d).Ok?
    ensures var plan := Compute(req, view, d).value;
            && (plan.second.Some? && plan.second.value.Update? ==>
                  plan.first.key.UserKey? && plan.second.value.key.OneTimeKey?)
            && (plan.second.Some? && plan.second.value.Insert? ==>
                  plan.second.value.key.id == d.tokenId && !plan.second.value.key.UserKey?)
            && (plan.first.Insert? ==> plan.first.key == UserKey(d.userId))
            && !plan.first.key.OneTimeKey?
            && |plan.published| <= 2
  {
  }

  /** What the invariant says about a use case that is saving. */
  lemma SavingFacts(st: State, t: TxId)
    requires Invariant(st) && t in st.txs && st.txs[t].phase.Saving?
    ensures var tx := st.txs[t];
            && Compute(tx.req, tx.view, tx.phase.draw) == Ok(tx.phase.plan)
            && tx.phase.saved <= tx.phase.plan.Count()
            && (tx.phase.saved >= 1 ==> SaveError(st.store, tx.phase.plan.first).None?)
            && (tx.phase.saved >= 2 && tx.phase.plan.second.Some? ==>
                  SaveError(st.store, tx.phase.plan.second.value).None?)
            && Fresh(st.store, tx.phase.draw)
  {
    hide Legal, StoreAt, HistoryRecords, StoreDrawn, Linked, ViewIsRead, Compute, NextQuery, SaveError, Fresh;
    assert TxInvariant(st, st.txs[t]);
  }

  /** A row that is held belongs to a save already made. */
  lemma HeldRowWasSaved(tx: Tx, k: Key)
    requires tx.phase.Saving? && RowLock(k) in Held(tx) && tx.phase.saved <= tx.phase.plan.Count()
    ensures || (tx.phase.saved >= 1 && tx.phase.plan.first.key == k)
            || (tx.phase.saved == 2 && tx.phase.plan.second.Some? && tx.phase.plan.second.value.key == k)
  {
  }

  /** Nobody holds the key of a row that t is about to insert under a drawn id. */
  lemma DrawnKeyIsFree(st: State, t: TxId, u: TxId, k: Key)
    requires Invariant(st) && t in st.txs && u in st.txs && u != t
    requires st.txs[t].phase.Saving? && k.id == st.txs[t].phase.draw.tokenId
    ensures RowLock(k) !in Held(st.txs[u])
  {
    var tx, other := st.txs[t], st.txs[u];
    assert PairInvariant(tx, other);
    SavingFacts(st, t);
    if other.phase.Saving? {
      SavingFacts(st, u);
      PlansSaveInOrder(other.req, other.view, other.phase.draw);
    }
    hide Invariant, Held, LocksOf, Compute;
    if RowLock(k) in Held(other) {
      HeldRowWasSaved(other, k) by {
        assert other.phase.Saving?;
      }
    }
  }

  /** A blocked second save waits for a use case that has made all its saves; any other second save is enabled. */
  lemma SecondSaveLeadsOn(st: State, t: TxId) returns (step: Step)
    requires Invariant(st) && t in st.txs && WantsToSave(st.txs[t]) && st.txs[t].phase.saved == 1
    ensures !step.Begin? && Enabled(st, step)
  {
    hide Invariant, Compute, SaveError, Fresh, Held;
    var tx := st.txs[t];
    var w := tx.phase.plan.Save(1);
    SavingFacts(st, t);
    PlansSaveInOrder(tx.req, tx.view, tx.phase.draw);
    assert w.Insert? ==> w.key.id == tx.phase.draw.tokenId;
    assert w.Update? ==> w.key.OneTimeKey?;
    assert LocksOf(w) == {RowLock(w.key)} by { SecondRowIsNoUser(tx.req, tx.view, tx.phase.draw); }
    hide LocksOf;
    if Free(st, t, w) {
      step := Save(t);
    } else {
      var u :| u in st.txs && u != t && !(Held(st.txs[u]) !! LocksOf(w));
      assert RowLock(w.key) in Held(st.txs[u]);
      if w.Insert? {
        DrawnKeyIsFree(st, t, u, w.key);
      } else {
        HolderOfTokenIsDone(st, u, w.key);
      }
      step := Commits(u);
    }
  }

  lemma SecondRowIsNoUser(req: Request, view: seq<Reply>, d: Draw)
    requires Compute(req, view, d).Ok? && Compute(req, view, d).value.second.Some?
    ensures !Compute(req, view, d).value.second.value.row.UserRow?
  {
  }

  lemma HolderOfTokenIsDone(st: State, u: TxId, k: Key)
    requires Invariant(st) && u in st.txs && k.OneTimeKey? && RowLock(k) in Held(st.txs[u])
    ensures Enabled(st, Commits(u))
  {
    hide Invariant, Compute, SaveError, Fresh, LocksUpTo, NextQuery, Free, IsFresh;
    var other := st.txs[u];
    assert other.phase.Saving?;
    hide Held;
    SavingFacts(st, u);
    PlansSaveInOrder(other.req, other.view, other.phase.draw);
    HeldRowWasSaved(other, k);
  }

  /** A use case that is saving can go on, or waits for one that can. */
  lemma SavingLeadsOn(st: State, t: TxId) returns (step: Step)
    requires Invariant(st) && t in st.txs && st.txs[t].phase.Saving?
    ensures !step.Begin? && Enabled(st, step)
  {
    hide Invariant, SaveError, Fresh, Compute, LocksOf;
    var tx := st.txs[t];
    SavingFacts(st, t);
    if tx.phase.saved == tx.phase.plan.Count() {
      step := Commits(t);
    } else if tx.phase.saved == 1 {
      step := SecondSaveLeadsOn(st, t);
    } else if Free(st, t, tx.phase.plan.Save(0)) {
      step := Save(t);
    } else {
      var u :| u in st.txs && u != t && !(Held(st.txs[u]) !! LocksOf(tx.phase.plan.Save(0)));
      SavingFacts(st, u);
      if st.txs[u].phase.saved == st.txs[u].phase.plan.Count() {
        step := Commits(u);
      } else {
        step := SecondSaveLeadsOn(st, u);
      }
    }
  }

  /** While some use case is not over, a step other than a new arrival is enabled. */
  lemma UnfinishedLeadsOn(st: State, t: TxId) returns (step: Step)
    requires Invariant(st) && t in st.txs && !IsOver(st.txs[t])
    ensures !step.Begin? && Enabled(st, step)
  {
    hide Invariant, NextQuery, Compute, ViewIsRead, FailedSaving, Linked, Standing, SavedUpTo, IsFresh, Free;
    var tx := st.txs[t];
    TxFacts(st, t);
    match tx.phase
    case Reading =>
      if NextQuery(tx.req, tx.view).Some? {
        step := Read(t);
      } else {
        var d := FreshDrawExists(st);
        step := Decide(t, d);
      }
    case Saving(_, _, _) => step := SavingLeadsOn(st, t);
    case Reporting(_) => step := Report(t);
    case Finished(_, _, _, _) => step := Publish(t);
  }

  /** Deadlock freedom in every reachable state. */
  lemma NoDeadlock(steps: seq<Step>, t: TxId) returns (step: Step)
    requires Run(steps).Some? && t in Run(steps).value.txs && !IsOver(Run(steps).value.txs[t])
    ensures !step.Begin? && Enabled(Run(steps).value, step)
  {
    hide Run, Invariant, Enabled, IsOver;
    RunKeepsInvariant(steps);
    step := UnfinishedLeadsOn(Run(steps).value, t);
  }

  // ---- Termination

  /** An upper bound on the steps that a use case has before it. */
  ghost function Rank(tx: Tx): nat {
    match tx.phase
    case Reading => 8 + if |tx.view| <= 2 then 2 - |tx.view| else 0
    case Saving(_, plan, n) => 1 + |plan.published| + if n <= plan.Count() then plan.Count() - n else 0
    case Reporting(_) => 3
    case Finished(_, _, events, sent) => if sent <= |events| then |events| - sent else 0
  }

  ghost function TotalRank(txs: map<TxId, Tx>): nat
    decreases |txs.Keys|
  {
    if txs.Keys == {} then 0
    else
      var t :| t in txs.Keys;
      Rank(txs[t]) + TotalRank(txs - {t})
  }

  /** The total does not depend on the order in which the use cases are visited. */
  lemma {:induction false} TotalRankSplits(txs: map<TxId, Tx>, t: TxId)
    requires t in txs
    ensures TotalRank(txs) == Rank(txs[t]) + TotalRank(txs - {t})
    decreases |txs.Keys|
  {
    var u :| u in txs.Keys && TotalRank(txs) == Rank(txs[u]) + TotalRank(txs - {u});
    if u != t {
      TotalRankSplits(txs - {u}, t);
      TotalRankSplits(txs - {t}, u);
      assert txs - {u} - {t} == txs - {t} - {u};
    }
  }

  lemma TotalRankMoves(txs: map<TxId, Tx>, t: TxId, tx: Tx)
    requires t in txs
    ensures TotalRank(txs[t := tx]) + Rank(txs[t]) == TotalRank(txs) + Rank(tx)
  {
    TotalRankSplits(txs, t);
    TotalRankSplits(txs[t := tx], t);
    assert txs[t := tx] - {t} == txs - {t};
  }

  /** Where a step takes the use case it belongs to. */
  ghost function Moved(st: State, step: Step): Tx
    requires Enabled(st, step) && !step.Begin?
  {
    var tx := st.txs[step.tx];
    match step
    case Read(_) => AfterRead(st, tx)
    case Decide(_, d) => AfterDecide(tx, d)
    case Save(_) => AfterSave(st, tx)
    case Commits(_) => AfterCommit(tx)
    case Report(_) => AfterReport(st, tx)
    case Publish(_) => AfterPublish(tx)
  }

  lemma DoMoves(st: State, step: Step)
    requires Enabled(st, step) && !step.Begin?
    ensures step.tx in st.txs && Do(st, step).txs == st.txs[step.tx := Moved(st, step)]
  {
    hide NextQuery, Free, IsFresh, AfterRead, AfterDecide, AfterSave, AfterCommit, AfterReport, AfterPublish, Apply;
  }

  lemma DecideLowersRank(tx: Tx, d: Draw)
    requires tx.phase.Reading?
    ensures Rank(AfterDecide(tx, d)) < Rank(tx)
  {
    if Compute(tx.req, tx.view, d).Ok? {
      PlansSaveInOrder(tx.req, tx.view, d);
    }
    hide Compute;
  }

  lemma ReadLowersRank(st: State, tx: Tx)
    requires tx.phase.Reading? && NextQuery(tx.req, tx.view).Some?
    ensures Rank(AfterRead(st, tx)) < Rank(tx)
  {
    hide Select;
  }

  lemma SaveLowersRank(st: State, tx: Tx)
    requires tx.phase.Saving? && tx.phase.plan.Has(tx.phase.saved)
    ensures Rank(AfterSave(st, tx)) < Rank(tx)
  {
    hide SaveError;
  }

  lemma OtherwiseLowersRank(st: State, tx: Tx)
    ensures tx.phase.Saving? ==> Rank(AfterCommit(tx)) < Rank(tx)
    ensures tx.phase.Reporting? && tx.req.Refresh? ==> Rank(AfterReport(st, tx)) < Rank(tx)
    ensures tx.phase.Finished? && tx.phase.sent < |tx.phase.events| ==> Rank(AfterPublish(tx)) < Rank(tx)
  {
    hide Select;
  }

  /** Every step of a use case brings it closer to its end. */
  lemma StepLowersRank(st: State, step: Step)
    requires Enabled(st, step) && !step.Begin?
    ensures Rank(Moved(st, step)) < Rank(st.txs[step.tx])
  {
    hide Rank, NextQuery, Free, IsFresh, AfterRead, AfterDecide, AfterSave, AfterCommit, AfterReport, AfterPublish;
    var tx := st.txs[step.tx];
    match step
    case Read(_) => ReadLowersRank(st, tx);
    case Decide(_, d) => DecideLowersRank(tx, d);
    case Save(_) => SaveLowersRank(st, tx);
    case Commits(_) => OtherwiseLowersRank(st, tx);
    case Report(_) => OtherwiseLowersRank(st, tx);
    case Publish(_) => OtherwiseLowersRank(st, tx);
  }

  /** The states reached from st by `steps`, if all of them are enabled in turn. */
  ghost function Continue(st: State, steps: seq<Step>): Option<State>
    decreases |steps|
  {
    if steps == [] then Some(st)
    else if Enabled(st, steps[0]) then Continue(Do(st, steps[0]), steps[1..])
    else None
  }

  lemma {:induction false} NonArrivalsAreBounded(st: State, steps: seq<Step>)
    requires Invariant(st) && Continue(st, steps).Some?
    requires forall i :: 0 <= i < |steps| ==> !steps[i].Begin?
    ensures |steps| <= TotalRank(st.txs)
    decreases |steps|
  {
    hide Invariant, Enabled, Do, Moved, Rank, TotalRank;
    if steps == [] {
    } else {
      var st' := Do(st, steps[0]);
      DoMoves(st, steps[0]);
      StepLowersRank(st, steps[0]);
      TotalRankMoves(st.txs, steps[0].tx, Moved(st, steps[0]));
      StepKeepsInvariant(st, steps[0]);
      NonArrivalsAreBounded(st', steps[1..]);
    }
  }

  /**
   * Termination: once no use case arrives any more, every continuation of every run is at most as long
   * as the total rank of the state; with NoDeadlock, all use cases end.
   */
  lemma EveryRunTerminates(steps: seq<Step>, more: seq<Step>)
    requires Run(steps).Some? && Continue(Run(steps).value, more).Some?
    requires forall i :: 0 <= i < |more| ==> !more[i].Begin?
    ensures |more| <= TotalRank(Run(steps).value.txs)
  {
    hide Run;
    RunKeepsInvariant(steps);
    NonArrivalsAreBounded(Run(steps).value, more);
  }

  ghost predicate AllOver(st: State) {
    forall t :: t in st.txs ==> IsOver(st.txs[t])
  }

  lemma {:induction false} AllCanFinish(st: State) returns (more: seq<Step>)
    requires Invariant(st)
    ensures forall i :: 0 <= i < |more| ==> !more[i].Begin?
    ensures Continue(st, more).Some? && AllOver(Continue(st, more).value)
    ensures Continue(st, more).value.txs.Keys == st.txs.Keys
    decreases TotalRank(st.txs)
  {
    hide Invariant, Enabled, Do, Moved, Rank, TotalRank, IsOver;
    if AllOver(st) {
      more := [];
    } else {
      var t :| t in st.txs && !IsOver(st.txs[t]);
      var step := UnfinishedLeadsOn(st, t);
      DoMoves(st, step);
      StepLowersRank(st, step);
      TotalRankMoves(st.txs, step.tx, Moved(st, step));
      StepKeepsInvariant(st, step);
      var rest := AllCanFinish(Do(st, step));
      more := [step] + rest;
    }
  }

  /** From every reachable state all use cases can be brought to their end without a new arrival. */
  lemma EveryRunCanFinish(steps: seq<Step>) returns (more: seq<Step>)
    requires Run(steps).Some?
    ensures forall i :: 0 <= i < |more| ==> !more[i].Begin?
    ensures Continue(Run(steps).value, more).Some? && AllOver(Continue(Run(steps).value, more).value)
    ensures Continue(Run(steps).value, more).value.txs.Keys == Run(steps).value.txs.Keys
  {
    hide Run, Continue, AllOver;
    RunKeepsInvariant(steps);
    more := AllCanFinish(Run(steps).value);
  }

  /** Nor can it be otherwise: a continuation without arrivals that cannot go on has ended every use case. */
  lemma StuckOnlyWhenOver(steps: seq<Step>, more: seq<Step>)
    requires Run(steps).Some? && Continue(Run(steps).value, more).Some?
    requires forall step :: Enabled(Continue(Run(steps).value, more).value, step) ==> step.Begin?
    ensures AllOver(Continue(Run(steps).value, more).value)
  {
    hide Run, Continue, Enabled, IsOver;
    RunKeepsInvariant(steps);
    ContinueKeepsInvariant(Run(steps).value, more);
    var st := Continue(Run(steps).value, more).value;
    forall t | t in st.txs ensures IsOver(st.txs[t]) {
      if !IsOver(st.txs[t]) {
        var step := UnfinishedLeadsOn(st, t);
      }
    }
  }

  lemma {:induction false} ContinueKeepsInvariant(st: State, steps: seq<Step>)
    requires Invariant(st) && Continue(st, steps).Some?
    ensures Invariant(Continue(st, steps).value)
    decreases |steps|
  {
    hide Invariant, Enabled, Do;
    if steps == [] {
    } else {
      StepKeepsInvariant(st, steps[0]);
      ContinueKeepsInvariant(Do(st, steps[0]), steps[1..]);
    }
  }
}
