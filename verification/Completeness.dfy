/** The converse of serializability: every serial history of distinct use cases is the history of some run. */
module Completeness {
  import opened Domain
  import opened Events
  import opened Results
  import opened Stores
  import opened UseCases
  import opened History
  import opened Machine
  import opened Consistency
  import opened Serializability

  ghost function Repeat<T>(x: T, n: nat): seq<T> {
    if n == 0 then [] else Repeat(x, n - 1) + [x]
  }

  /** The state `st` with the use case t in it, which has executed n statements and met the rows of st in each. */
  ghost function With(st: State, t: TxId, req: Request, view: seq<Reply>, n: nat, phase: Phase): State {
    Set(st, t, Tx(req, view, Repeat(st.store, n), Repeat<nat>(|st.history|, n), phase))
  }

  /** No use case but t holds a lock. */
  ghost predicate NoLocks(st: State, t: TxId) {
    forall u :: u in st.txs && u != t ==> Held(st.txs[u]) == {}
  }

  ghost function AfterDraw(st: State, d: Draw): State {
    st.(ids := st.ids + {d.userId, d.tokenId}, tokens := st.tokens + {d.token})
  }

  /** The state after t has run alone and committed its plan; it met the rows of st in all n statements. */
  ghost function AfterSolo(st: State, t: TxId, req: Request, view: seq<Reply>, d: Draw, plan: Plan): State {
    var met := |view| + plan.Count();
    With(AfterDraw(st, d), t, req, view, met, Finished(d, Committed, plan.published, 0))
      .(store := Apply(st.store, plan), history := st.history + [Commit(t, req, d, plan)])
  }

  lemma RunExtends(steps: seq<Step>, step: Step)
    requires Run(steps).Some? && Enabled(Run(steps).value, step)
    ensures Run(steps + [step]) == Some(Do(Run(steps).value, step))
  {
    hide Enabled, Do;
    assert (steps + [step])[..|steps|] == steps;
  }

  // ---- One step at a time

  lemma BeginSolo(st: State, t: TxId, req: Request)
    requires t !in st.txs
    ensures Enabled(st, Begin(t, req)) && Do(st, Begin(t, req)) == With(st, t, req, [], 0, Reading)
  {
  }

  lemma ReadSolo(st: State, t: TxId, req: Request, view: seq<Reply>, n: nat)
    requires NextQuery(req, view).Some?
    ensures var now := With(st, t, req, view, n, Reading);
            var reply := Select(st.store, NextQuery(req, view).value);
            Enabled(now, Read(t)) && Do(now, Read(t)) == With(st, t, req, view + [reply], n + 1, Reading)
  {
    hide NextQuery, Select;
  }

  lemma DecideSolo(st: State, t: TxId, req: Request, view: seq<Reply>, n: nat, d: Draw, plan: Plan)
    requires NextQuery(req, view).None? && IsFresh(st, d) && Compute(req, view, d) == Ok(plan)
    ensures var now := With(st, t, req, view, n, Reading);
            && Enabled(now, Decide(t, d))
            && Do(now, Decide(t, d)) == With(AfterDraw(st, d), t, req, view, n, Saving(d, plan, 0))
  {
    hide NextQuery, Compute;
  }

  lemma SaveSolo(st: State, t: TxId, req: Request, view: seq<Reply>, n: nat, d: Draw, plan: Plan, k: nat)
    requires NoLocks(st, t) && plan.Has(k) && SaveError(st.store, plan.Save(k)).None?
    ensures var now := With(st, t, req, view, n, Saving(d, plan, k));
            && Enabled(now, Save(t))
            && Do(now, Save(t)) == With(st, t, req, view, n + 1, Saving(d, plan, k + 1))
  {
    hide NextQuery, SaveError, LocksOf, LocksUpTo;
  }

  lemma CommitSolo(st: State, t: TxId, req: Request, view: seq<Reply>, n: nat, d: Draw, plan: Plan)
    ensures var now := With(st, t, req, view, n, Saving(d, plan, plan.Count()));
            && Enabled(now, Commits(t))
            && Do(now, Commits(t)) == With(st, t, req, view, n, Finished(d, Committed, plan.published, 0))
                 .(store := Apply(st.store, plan), history := st.history + [Commit(t, req, d, plan)])
  {
    hide Apply;
  }

  // ---- A use case that runs alone

  lemma ViewEnds(req: Request, s: Store)
    ensures |View(req, Alone(s))| <= 2 && NextQuery(req, View(req, Alone(s))).None?
    ensures forall i :: 0 <= i < |View(req, Alone(s))| ==>
              var before := View(req, Alone(s))[..i];
              && NextQuery(req, before).Some?
              && View(req, Alone(s))[i] == Select(s, NextQuery(req, before).value)
  {
    hide Select;
    var view := View(req, Alone(s));
    assert |view| >= 1 ==> view[..0] == [];
    assert |view| == 2 ==> view[..1] == [view[0]];
  }

  lemma {:induction false} ReadAll(steps: seq<Step>, st: State, t: TxId, req: Request, n: nat) returns (more: seq<Step>)
    requires Run(steps) == Some(With(st, t, req, [], 0, Reading)) && n <= |View(req, Alone(st.store))|
    ensures Run(more) == Some(With(st, t, req, View(req, Alone(st.store))[..n], n, Reading))
  {
    hide Run, View, NextQuery, Select, Enabled, Do, With;
    var view := View(req, Alone(st.store));
    if n == 0 {
      assert view[..0] == [];
      more := steps;
    } else {
      var front := ReadAll(steps, st, t, req, n - 1);
      ViewEnds(req, st.store);
      ReadSolo(st, t, req, view[..n - 1], n - 1);
      assert view[..n] == view[..n - 1] + [view[n - 1]];
      RunExtends(front, Read(t));
      more := front + [Read(t)];
    }
  }

  lemma {:induction false} SaveAll(
    steps: seq<Step>, st: State, t: TxId, req: Request, view: seq<Reply>, d: Draw, plan: Plan, k: nat)
    returns (more: seq<Step>)
    requires Run(steps) == Some(With(st, t, req, view, |view|, Saving(d, plan, 0))) && k <= plan.Count()
    requires NoLocks(st, t) && forall i: nat :: plan.Has(i) ==> SaveError(st.store, plan.Save(i)).None?
    ensures Run(more) == Some(With(st, t, req, view, |view| + k, Saving(d, plan, k)))
  {
    hide Run, Enabled, Do, With, SaveError, NoLocks;
    if k == 0 {
      more := steps;
    } else {
      var front := SaveAll(steps, st, t, req, view, d, plan, k - 1);
      SaveSolo(st, t, req, view, |view| + k - 1, d, plan, k - 1);
      RunExtends(front, Save(t));
      more := front + [Save(t)];
    }
  }

  lemma TransactSucceeds(req: Request, d: Draw, s: Store, plan: Plan)
    requires Transact(req, d, Alone(s)) == Ok(plan)
    ensures Compute(req, View(req, Alone(s)), d) == Ok(plan)
    ensures forall i: nat :: plan.Has(i) ==> SaveError(s, plan.Save(i)).None?
  {
    hide View, Compute, SaveError;
  }

  /** Where no lock is held, a use case that would commit alone can be run alone: the run goes on to its commit. */
  lemma RunsSolo(steps: seq<Step>, t: TxId, req: Request, d: Draw, plan: Plan) returns (more: seq<Step>)
    requires Run(steps).Some?
    requires var st := Run(steps).value;
             t !in st.txs && NoLocks(st, t) && IsFresh(st, d) && Transact(req, d, Alone(st.store)) == Ok(plan)
    ensures var st := Run(steps).value;
            Run(more) == Some(AfterSolo(st, t, req, View(req, Alone(st.store)), d, plan))
  {
    hide Run, View, NextQuery, Compute, Enabled, Do, With, SaveError, Transact, Apply;
    var st := Run(steps).value;
    var view := View(req, Alone(st.store));
    TransactSucceeds(req, d, st.store, plan);
    ViewEnds(req, st.store);
    BeginSolo(st, t, req);
    RunExtends(steps, Begin(t, req));
    var read := ReadAll(steps + [Begin(t, req)], st, t, req, |view|);
    assert view[..|view|] == view;
    DecideSolo(st, t, req, view, |view|, d, plan);
    RunExtends(read, Decide(t, d));
    var drawn := AfterDraw(st, d);
    var saved := SaveAll(read + [Decide(t, d)], drawn, t, req, view, d, plan, plan.Count());
    CommitSolo(drawn, t, req, view, |view| + plan.Count(), d, plan);
    RunExtends(saved, Commits(t));
    more := saved + [Commits(t)];
  }

  // ---- Histories

  /** The commits are of different use cases, which drew different ids and tokens. */
  ghost predicate Separate(h: Log) {
    forall i: nat, j: nat :: i < j < |h| ==> h[i].tx != h[j].tx && Distinct(h[i].draw, h[j].draw)
  }

  ghost function TxsOf(h: Log): set<TxId> {
    if h == [] then {} else TxsOf(h[..|h| - 1]) + {h[|h| - 1].tx}
  }

  ghost function IdsOf(h: Log): set<Id> {
    if h == [] then {}
    else IdsOf(h[..|h| - 1]) + {h[|h| - 1].draw.userId, h[|h| - 1].draw.tokenId}
  }

  ghost function TokensOf(h: Log): set<string> {
    if h == [] then {} else TokensOf(h[..|h| - 1]) + {h[|h| - 1].draw.token}
  }

  /** The state holds the use cases of the history, all finished, and what they drew, and nothing else. */
  ghost predicate HoldsOnly(st: State, h: Log) {
    && st.history == h && st.store == StoreAt(h, |h|)
    && st.txs.Keys == TxsOf(h) && st.ids == IdsOf(h) && st.tokens == TokensOf(h)
    && forall t :: t in st.txs ==> st.txs[t].phase.Finished?
  }

  lemma {:induction false} SeparateIsNew(h: Log, c: Commit)
    requires forall i: nat :: i < |h| ==> h[i].tx != c.tx && Distinct(h[i].draw, c.draw)
    ensures c.tx !in TxsOf(h) && c.draw.token !in TokensOf(h)
    ensures c.draw.userId !in IdsOf(h) && c.draw.tokenId !in IdsOf(h)
    decreases |h|
  {
    if h == [] {
    } else {
      assert forall i: nat :: i < |h| - 1 ==> h[..|h| - 1][i] == h[i];
      SeparateIsNew(h[..|h| - 1], c);
      assert h[|h| - 1].tx != c.tx;
    }
  }

  lemma NextIsFresh(st: State, h: Log)
    requires h != [] && Separate(h) && HoldsOnly(st, h[..|h| - 1])
    requires h[|h| - 1].draw.userId != h[|h| - 1].draw.tokenId
    ensures var c := h[|h| - 1]; c.tx !in st.txs && NoLocks(st, c.tx) && IsFresh(st, c.draw)
  {
    hide StoreAt;
    var c, front := h[|h| - 1], h[..|h| - 1];
    assert forall i: nat :: i < |front| ==> front[i] == h[i] && h[i].tx != c.tx && Distinct(h[i].draw, c.draw);
    SeparateIsNew(front, c);
  }

  lemma SoloHoldsOnly(st: State, h: Log, view: seq<Reply>)
    requires h != [] && HoldsOnly(st, h[..|h| - 1]) && StoreAt(h, |h| - 1) == StoreAt(h[..|h| - 1], |h| - 1)
    ensures var c := h[|h| - 1]; HoldsOnly(AfterSolo(st, c.tx, c.req, view, c.draw, c.plan), h)
  {
    hide StoreAt, Apply, AfterSolo, TxsOf, IdsOf, TokensOf;
    var c, front := h[|h| - 1], h[..|h| - 1];
    SoloFields(st, c.tx, c.req, view, c.draw, c.plan);
    HistoryFields(h);
    assert front + [Commit(c.tx, c.req, c.draw, c.plan)] == h;
  }

  lemma SoloFields(st: State, t: TxId, req: Request, view: seq<Reply>, d: Draw, plan: Plan)
    ensures var st' := AfterSolo(st, t, req, view, d, plan);
            && st'.store == Apply(st.store, plan) && st'.history == st.history + [Commit(t, req, d, plan)]
            && st'.ids == st.ids + {d.userId, d.tokenId} && st'.tokens == st.tokens + {d.token}
            && st'.txs.Keys == st.txs.Keys + {t}
            && forall u :: u in st'.txs ==>
                 if u == t then st'.txs[u].phase == Finished(d, Committed, plan.published, 0)
                 else u in st.txs && st'.txs[u] == st.txs[u]
  {
    hide Apply, Repeat;
  }

  lemma HistoryFields(h: Log)
    requires h != []
    ensures var c, front := h[|h| - 1], h[..|h| - 1];
            && StoreAt(h, |h|) == Apply(StoreAt(h, |h| - 1), c.plan) && TxsOf(h) == TxsOf(front) + {c.tx}
            && IdsOf(h) == IdsOf(front) + {c.draw.userId, c.draw.tokenId}
            && TokensOf(h) == TokensOf(front) + {c.draw.token}
  {
    hide Apply;
  }

  lemma {:induction false} StoreAtOfFront(h: Log, n: nat)
    requires n < |h|
    ensures StoreAt(h[..|h| - 1], n) == StoreAt(h, n)
  {
    hide Apply;
    if n == 0 {
    } else {
      StoreAtOfFront(h, n - 1);
    }
  }

  lemma FrontIsLegal(h: Log)
    requires h != [] && Legal(h)
    ensures Legal(h[..|h| - 1]) && LegalStep(StoreAt(h, |h| - 1), h[|h| - 1])
    ensures StoreAt(h[..|h| - 1], |h| - 1) == StoreAt(h, |h| - 1)
  {
    hide LegalStep, StoreAt;
    StoreAtOfFront(h, |h| - 1);
    var front := h[..|h| - 1];
    forall i: nat | i < |front| ensures LegalStep(StoreAt(front, i), front[i]) {
      StoreAtOfFront(h, i);
    }
  }

  lemma LegalCommitRuns(front: seq<Step>, h: Log) returns (steps: seq<Step>)
    requires h != [] && Separate(h) && LegalStep(StoreAt(h, |h| - 1), h[|h| - 1])
    requires StoreAt(h[..|h| - 1], |h| - 1) == StoreAt(h, |h| - 1)
    requires Run(front).Some? && HoldsOnly(Run(front).value, h[..|h| - 1])
    ensures Run(steps).Some? && HoldsOnly(Run(steps).value, h)
  {
    hide Run, StoreAt, Transact, HoldsOnly, NoLocks, IsFresh, AfterSolo, View, Separate;
    var st, c := Run(front).value, h[|h| - 1];
    NextIsFresh(st, h);
    StoreIs(st, h[..|h| - 1]);
    steps := RunsSolo(front, c.tx, c.req, c.draw, c.plan);
    SoloHoldsOnly(st, h, View(c.req, Alone(st.store)));
  }

  lemma {:induction false} LegalHistoryRuns(h: Log) returns (steps: seq<Step>)
    requires Legal(h) && Separate(h)
    ensures Run(steps).Some? && HoldsOnly(Run(steps).value, h)
    decreases |h|
  {
    if h == [] {
      steps := [];
    } else {
      hide Run, Legal, LegalStep, StoreAt, HoldsOnly;
      FrontIsLegal(h);
      assert Separate(h[..|h| - 1]);
      var front := LegalHistoryRuns(h[..|h| - 1]);
      steps := LegalCommitRuns(front, h);
    }
  }

  lemma StoreIs(st: State, h: Log)
    requires HoldsOnly(st, h)
    ensures st.store == StoreAt(h, |h|) && st.history == h
  {
    hide StoreAt;
  }

  lemma RunIsSeparate(steps: seq<Step>)
    requires Run(steps).Some?
    ensures Legal(Run(steps).value.history) && Separate(Run(steps).value.history)
  {
    hide Run, Legal, StoreAt, TxInvariant, Held, Compute, Distinct, StoreDrawn;
    RunKeepsInvariant(steps);
    var st := Run(steps).value;
    forall i: nat, j: nat | i < j < |st.history|
      ensures st.history[i].tx != st.history[j].tx && Distinct(st.history[i].draw, st.history[j].draw)
    {
      assert PairInvariant(st.txs[st.history[i].tx], st.txs[st.history[j].tx]);
    }
  }

  /**
   * The histories of runs are exactly the serial ones: a sequence of commits is the history of some run, of
   * whatever interleaving, if and only if each is what its use case does running alone in its turn, and
   * they belong to different use cases with different draws.
   */
  lemma HistoriesAreSerialOnes(h: Log)
    ensures (exists steps :: Run(steps).Some? && Run(steps).value.history == h) <==> Legal(h) && Separate(h)
  {
    hide Run, Legal, Separate, HoldsOnly;
    if steps :| Run(steps).Some? && Run(steps).value.history == h {
      RunIsSeparate(steps);
    }
    if Legal(h) && Separate(h) {
      var steps := LegalHistoryRuns(h);
      StoreIs(Run(steps).value, h);
    }
  }
}
