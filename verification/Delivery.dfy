/** What the queues hold in the end, and how the order of the audit log relates to the order of the commits. */
module Delivery {
  import opened Events
  import opened Stores
  import opened UseCases
  import opened History
  import opened Machine
  import opened Consistency
  import opened Serializability
  import opened Publication
  import opened Progress

  // ---- In the end

  /** The entries of t are exactly the routed events of its recorded plan, or none if it did not commit. */
  ghost predicate Delivered(st: State, t: TxId) {
    && (forall j: nat :: j < |st.history| && st.history[j].tx == t ==>
          && By(st.audit, t) == DomainEvents(st.history[j].plan.published)
          && By(st.notices, t) == NotificationEvents(st.history[j].plan.published))
    && ((forall j: nat :: j < |st.history| ==> st.history[j].tx != t) ==>
          By(st.audit, t) == [] && By(st.notices, t) == [])
  }

  /** A use case that is over has delivered: all of its commit's events, and nothing else. */
  lemma OverMeansDelivered(steps: seq<Step>, t: TxId)
    requires Run(steps).Some? && t in Run(steps).value.txs && IsOver(Run(steps).value.txs[t])
    ensures Delivered(Run(steps).value, t)
  {
    hide Run, Invariant, By, Filter, HistoryRecords, Pushed;
    QueuesHoldWhatWasPushed(steps);
    RunKeepsInvariant(steps);
    var st := Run(steps).value;
    AllIsPushed(st, t);
    assert By(st.audit, t) == DomainEvents(st.txs[t].phase.events);
    assert By(st.notices, t) == NotificationEvents(st.txs[t].phase.events);
    hide QueuesInvariant, IsOver;
    if IsCommitted(st.txs[t]) {
      var j := CommittedIsRecorded(st, t);
      RecordedOnce(st, j);
    } else {
      UncommittedIsNotRecorded(st, t);
      ReportsAreDropped(st, t);
    }
  }

  lemma AllIsPushed(st: State, t: TxId)
    requires t in st.txs && IsOver(st.txs[t])
    ensures Pushed(st, t) == st.txs[t].phase.events
  {
    var events := st.txs[t].phase.events;
    assert events[..|events|] == events;
  }

  lemma RecordedOnce(st: State, j: nat)
    requires Invariant(st) && j < |st.history|
    ensures forall i: nat :: i < |st.history| && st.history[i].tx == st.history[j].tx ==> i == j
  {
    hide Legal, TxInvariant, PairInvariant, StoreDrawn, Records, IsCommitted;
  }

  lemma UncommittedIsNotRecorded(st: State, t: TxId)
    requires Invariant(st) && t in st.txs && !IsCommitted(st.txs[t])
    ensures forall j: nat :: j < |st.history| ==> st.history[j].tx != t
  {
    hide Legal, TxInvariant, PairInvariant, StoreDrawn, HistoryRecords;
    NotRecordedYet(st, t);
  }

  /** What a use case hands over without a commit is a security report, which no queue keeps. */
  lemma ReportsAreDropped(st: State, t: TxId)
    requires Invariant(st) && t in st.txs && st.txs[t].phase.Finished? && !IsCommitted(st.txs[t])
    ensures DomainEvents(st.txs[t].phase.events) == [] && NotificationEvents(st.txs[t].phase.events) == []
  {
    hide Invariant, Filter;
    var events := st.txs[t].phase.events;
    forall e | e in events ensures e.IsApplication() {
      HandedOverBy(st, t, e);
    }
    ReportIsDropped(events);
  }

  lemma {:induction false} ContinuedRun(steps: seq<Step>, more: seq<Step>)
    requires Run(steps).Some? && Continue(Run(steps).value, more).Some?
    ensures Run(steps + more) == Continue(Run(steps).value, more)
    decreases |more|
  {
    hide Enabled, Do;
    if more == [] {
      assert steps + more == steps;
    } else {
      assert (steps + [more[0]])[..|steps|] == steps;
      assert (steps + [more[0]]) + more[1..] == steps + more;
      ContinuedRun(steps + [more[0]], more[1..]);
    }
  }

  /**
   * Every run can be continued, without a new arrival, to one in which the queues hold exactly the events
   * of all commits: each use case's own, in its order and once each.
   */
  lemma EveryRunCanDeliver(steps: seq<Step>) returns (more: seq<Step>)
    requires Run(steps).Some?
    ensures forall i :: 0 <= i < |more| ==> !more[i].Begin?
    ensures Run(steps + more).Some?
    ensures Run(steps + more).value.txs.Keys == Run(steps).value.txs.Keys
    ensures forall t :: t in Run(steps + more).value.txs ==> Delivered(Run(steps + more).value, t)
  {
    hide Run, Continue, IsOver, Delivered;
    more := EveryRunCanFinish(steps);
    ContinuedRun(steps, more);
    forall t | t in Run(steps + more).value.txs ensures Delivered(Run(steps + more).value, t) {
      OverMeansDelivered(steps + more, t);
    }
  }

  // ---- The order of the log

  /** What a step appends to the audit log. */
  ghost function Logged(st: State, step: Step): seq<Entry>
    requires Enabled(st, step)
  {
    if step.Publish? then
      var e := st.txs[step.tx].phase.events[st.txs[step.tx].phase.sent];
      if e.IsDomain() then [Entry(step.tx, e)] else []
    else []
  }

  lemma StepLogs(st: State, step: Step)
    requires Enabled(st, step)
    ensures Do(st, step).audit == st.audit + Logged(st, step)
  {
    if step.Publish? {
      PublishPushesOne(st, step.tx, step.tx);
      hide Do;
    } else {
      hide Do, Enabled;
      OtherStepsPushNothing(st, step, 0);
    }
  }

  /** The n-th step of the run publishes an event of t to the audit log. */
  ghost predicate LogsAt(steps: seq<Step>, n: nat, t: TxId) {
    && n < |steps| && steps[n].tx == t && Run(steps[..n]).Some? && Enabled(Run(steps[..n]).value, steps[n])
    && Logged(Run(steps[..n]).value, steps[n]) != []
  }

  ghost predicate HasEntry(audit: seq<Entry>, t: TxId) {
    exists i: nat :: i < |audit| && audit[i].tx == t
  }

  /** Some entry of a stands before some entry of b. */
  ghost predicate Precedes(audit: seq<Entry>, a: TxId, b: TxId) {
    exists i: nat, j: nat :: i < j < |audit| && audit[i].tx == a && audit[j].tx == b
  }

  lemma LastStepLogs(steps: seq<Step>)
    requires steps != [] && Run(steps).Some?
    ensures var n := |steps| - 1;
            && Run(steps[..n]).Some? && Enabled(Run(steps[..n]).value, steps[n])
            && Run(steps).value.audit == Run(steps[..n]).value.audit + Logged(Run(steps[..n]).value, steps[n])
  {
    hide Enabled, Do, Logged;
    StepLogs(Run(steps[..|steps| - 1]).value, steps[|steps| - 1]);
  }

  lemma LoggedIsOne(st: State, step: Step)
    requires Enabled(st, step)
    ensures |Logged(st, step)| <= 1 && (Logged(st, step) != [] ==> Logged(st, step)[0].tx == step.tx)
  {
    hide Enabled;
  }

  lemma LogsAtInPrefix(steps: seq<Step>, k: nat, n: nat, t: TxId)
    requires n < k <= |steps|
    ensures LogsAt(steps[..k], n, t) <==> LogsAt(steps, n, t)
  {
    hide Run, Enabled, Logged;
    assert steps[..k][..n] == steps[..n];
  }

  /** A use case has an entry in the log exactly if some step of the run published one. */
  lemma {:induction false} EntriesAreLogged(steps: seq<Step>, t: TxId)
    requires Run(steps).Some?
    ensures HasEntry(Run(steps).value.audit, t) <==> exists n: nat :: LogsAt(steps, n, t)
    decreases |steps|
  {
    hide Enabled, Do, Logged;
    if steps == [] {
    } else {
      var k := |steps| - 1;
      LastStepLogs(steps);
      LoggedIsOne(Run(steps[..k]).value, steps[k]);
      EntriesAreLogged(steps[..k], t);
      hide Run;
      forall n: nat | n < k ensures LogsAt(steps[..k], n, t) <==> LogsAt(steps, n, t) {
        LogsAtInPrefix(steps, k, n, t);
      }
      var before, logged := Run(steps[..k]).value.audit, Logged(Run(steps[..k]).value, steps[k]);
      assert LogsAt(steps, k, t) <==> logged != [] && steps[k].tx == t;
      hide LogsAt;
      EntryAppended(before, logged, t);
    }
  }

  lemma EntryAppended(before: seq<Entry>, logged: seq<Entry>, t: TxId)
    requires |logged| <= 1
    ensures HasEntry(before + logged, t) <==> HasEntry(before, t) || (logged != [] && logged[0].tx == t)
  {
    if i: nat :| i < |before| && before[i].tx == t {
      assert (before + logged)[i].tx == t;
    }
    if logged != [] && logged[0].tx == t {
      assert (before + logged)[|before|].tx == t;
    }
  }

  lemma OrderAppended(before: seq<Entry>, logged: seq<Entry>, a: TxId, b: TxId)
    requires |logged| <= 1
    ensures Precedes(before + logged, a, b) <==>
            Precedes(before, a, b) || (logged != [] && logged[0].tx == b && HasEntry(before, a))
  {
    if i: nat, j: nat :| i < j < |before| && before[i].tx == a && before[j].tx == b {
      assert (before + logged)[i].tx == a && (before + logged)[j].tx == b;
    }
    if logged != [] && logged[0].tx == b && HasEntry(before, a) {
      var i: nat :| i < |before| && before[i].tx == a;
      assert (before + logged)[i].tx == a && (before + logged)[|before|].tx == b;
    }
  }

  /** The order of two use cases in the log is that of the steps which publish, and of nothing else. */
  lemma {:induction false} LogOrderIsPublishOrder(steps: seq<Step>, a: TxId, b: TxId)
    requires Run(steps).Some?
    ensures Precedes(Run(steps).value.audit, a, b) <==>
            exists n: nat, m: nat :: n < m && LogsAt(steps, n, a) && LogsAt(steps, m, b)
    decreases |steps|
  {
    hide Enabled, Do, Logged;
    if steps == [] {
    } else {
      var k := |steps| - 1;
      LastStepLogs(steps);
      LoggedIsOne(Run(steps[..k]).value, steps[k]);
      LogOrderIsPublishOrder(steps[..k], a, b);
      EntriesAreLogged(steps[..k], a);
      hide Run;
      forall n: nat | n < k
        ensures LogsAt(steps[..k], n, a) <==> LogsAt(steps, n, a)
        ensures LogsAt(steps[..k], n, b) <==> LogsAt(steps, n, b)
      {
        LogsAtInPrefix(steps, k, n, a);
        LogsAtInPrefix(steps, k, n, b);
      }
      var before, logged := Run(steps[..k]).value.audit, Logged(Run(steps[..k]).value, steps[k]);
      assert LogsAt(steps, k, b) <==> logged != [] && steps[k].tx == b;
      assert forall n: nat :: n >= k ==> !LogsAt(steps[..k], n, a) && !LogsAt(steps[..k], n, b);
      assert forall n: nat :: n > k ==> !LogsAt(steps, n, a) && !LogsAt(steps, n, b);
      hide LogsAt, HasEntry, Precedes;
      OrderAppended(before, logged, a, b);
    }
  }

  lemma OverStays(st: State, step: Step, t: TxId)
    requires Enabled(st, step) && t in st.txs && IsOver(st.txs[t])
    ensures t in Do(st, step).txs && IsOver(Do(st, step).txs[t])
    ensures step.Publish? ==> step.tx != t
  {
    hide NextQuery, Compute, Select, SaveError, ReuseReport, Apply, Free, IsFresh;
  }

  lemma {:induction false} OverForGood(steps: seq<Step>, n: nat, t: TxId)
    requires n <= |steps| && Run(steps).Some? && Run(steps[..n]).Some?
    requires t in Run(steps[..n]).value.txs && IsOver(Run(steps[..n]).value.txs[t])
    ensures t in Run(steps).value.txs && IsOver(Run(steps).value.txs[t])
    decreases |steps|
  {
    hide Enabled, Do, IsOver;
    if n == |steps| {
      assert steps[..n] == steps;
    } else {
      var k := |steps| - 1;
      assert steps[..k][..n] == steps[..n];
      OverForGood(steps[..k], n, t);
      OverStays(Run(steps[..k]).value, steps[k], t);
    }
  }

  /** Who is over publishes no more. */
  lemma OverLogsNothing(steps: seq<Step>, n: nat, m: nat, t: TxId)
    requires n <= m && n <= |steps| && Run(steps[..n]).Some?
    requires t in Run(steps[..n]).value.txs && IsOver(Run(steps[..n]).value.txs[t])
    ensures !LogsAt(steps, m, t)
  {
    hide Run, Do;
    if LogsAt(steps, m, t) {
      assert steps[..m][..n] == steps[..n];
      OverForGood(steps[..m], n, t);
      OverStays(Run(steps[..m]).value, steps[m], t);
    }
  }

  /**
   * The log follows the commits of two use cases if the first is over, with its events pushed, before the
   * second commits: then no entry of the second ever stands before one of the first.
   */
  lemma LogFollowsCommits(steps: seq<Step>, n: nat, first: TxId, second: TxId)
    requires Run(steps).Some? && n <= |steps| && Run(steps[..n]).Some?
    requires var st := Run(steps[..n]).value;
             && first in st.txs && IsOver(st.txs[first])
             && !(second in st.txs && IsCommitted(st.txs[second]))
    ensures !Precedes(Run(steps).value.audit, second, first)
  {
    hide Run, LogsAt, IsOver, Precedes, IsCommitted;
    LogOrderIsPublishOrder(steps, second, first);
    if i: nat, j: nat :| i < j && LogsAt(steps, i, second) && LogsAt(steps, j, first) {
      if j >= n {
        OverLogsNothing(steps, n, j, first);
      } else {
        LogsAtInPrefix(steps, n, i, second);
        EntriesAreLogged(steps[..n], second);
        LoggedIsCommitted(steps[..n], second);
      }
    }
  }

  lemma LoggedIsCommitted(steps: seq<Step>, t: TxId)
    requires Run(steps).Some? && HasEntry(Run(steps).value.audit, t)
    ensures t in Run(steps).value.txs && IsCommitted(Run(steps).value.txs[t])
  {
    hide Run, IsCommitted;
    var i: nat :| i < |Run(steps).value.audit| && Run(steps).value.audit[i].tx == t;
    AuditLogIsSafe(steps, i);
  }
}
