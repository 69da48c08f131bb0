/** Which events reach which queue over a whole run, and in which order. */
module Publication {
  import opened Domain
  import opened Events
  import opened Results
  import opened Stores
  import opened UseCases
  import opened History
  import opened Machine
  import opened Consistency
  import opened Preservation
  import opened Serializability

  /** The events of a queue that t published, in queue order. */
  ghost function By(queue: seq<Entry>, t: TxId): seq<Event> {
    if queue == [] then []
    else
      var last := queue[|queue| - 1];
      By(queue[..|queue| - 1], t) + if last.tx == t then [last.event] else []
  }

  /** The events of t that have been pushed by now: none before it finished, and never more than it handed over. */
  ghost function Pushed(st: State, t: TxId): seq<Event> {
    if t in st.txs && st.txs[t].phase.Finished? && st.txs[t].phase.sent <= |st.txs[t].phase.events|
    then st.txs[t].phase.events[..st.txs[t].phase.sent] else []
  }

  ghost predicate QueuesInvariant(st: State) {
    forall t :: By(st.audit, t) == DomainEvents(Pushed(st, t))
                && By(st.notices, t) == NotificationEvents(Pushed(st, t))
  }

  lemma ByAppends(queue: seq<Entry>, e: Entry, t: TxId)
    ensures By(queue + [e], t) == By(queue, t) + if e.tx == t then [e.event] else []
  {
    assert (queue + [e])[..|queue|] == queue;
  }

  /** Only publication moves the queues or what counts as pushed. */
  lemma OtherStepsPushNothing(st: State, step: Step, t: TxId)
    requires Enabled(st, step) && !step.Publish?
    ensures Do(st, step).audit == st.audit && Do(st, step).notices == st.notices
    ensures Pushed(Do(st, step), t) == Pushed(st, t)
  {
    hide Compute, NextQuery, Select, SaveError, ReuseReport, Apply, Free, IsFresh;
  }

  lemma PublishPushesOne(st: State, t: TxId, u: TxId)
    requires Enabled(st, Publish(t))
    ensures var e, st' := st.txs[t].phase.events[st.txs[t].phase.sent], Do(st, Publish(t));
            && Pushed(st', u) == Pushed(st, u) + (if u == t then [e] else [])
            && st'.audit == st.audit + (if e.IsDomain() then [Entry(t, e)] else [])
            && st'.notices == st.notices + (if e.IsNotification() then [Entry(t, e)] else [])
  {
    var tx := st.txs[t];
    assert tx.phase.events[..tx.phase.sent + 1] == tx.phase.events[..tx.phase.sent] + [tx.phase.events[tx.phase.sent]];
  }

  lemma StepKeepsQueues(st: State, step: Step)
    requires QueuesInvariant(st) && Enabled(st, step)
    ensures QueuesInvariant(Do(st, step))
  {
    hide Enabled, Do, Filter, By, Pushed;
    var st' := Do(st, step);
    forall u
      ensures By(st'.audit, u) == DomainEvents(Pushed(st', u))
      ensures By(st'.notices, u) == NotificationEvents(Pushed(st', u))
    {
      if step.Publish? {
        PublishKeepsQueue(st, step.tx, u);
      } else {
        OtherStepsPushNothing(st, step, u);
      }
    }
  }

  lemma PublishKeepsQueue(st: State, t: TxId, u: TxId)
    requires QueuesInvariant(st) && Enabled(st, Publish(t))
    ensures By(Do(st, Publish(t)).audit, u) == DomainEvents(Pushed(Do(st, Publish(t)), u))
    ensures By(Do(st, Publish(t)).notices, u) == NotificationEvents(Pushed(Do(st, Publish(t)), u))
  {
    PublishPushesOne(st, t, u);
    var e := st.txs[t].phase.events[st.txs[t].phase.sent];
    hide Enabled, Do, Filter, By, Pushed;
    ByAppends(st.audit, Entry(t, e), u);
    ByAppends(st.notices, Entry(t, e), u);
    FilterAppendsOne(Pushed(st, u), e, ForAuditLog);
    FilterAppendsOne(Pushed(st, u), e, ForNotification);
  }

  /**
   * Event safety over runs. For each use case t, the entries of t in the audit log are exactly the domain
   * events among those it has pushed so far, in its order and each once, and its entries in the
   * notification queue exactly the notifications; who has pushed nothing has no entry.
   */
  lemma {:induction false} QueuesHoldWhatWasPushed(steps: seq<Step>)
    requires Run(steps).Some?
    ensures QueuesInvariant(Run(steps).value)
  {
    hide Enabled, Do, Filter, By, Pushed;
    if steps != [] {
      hide QueuesInvariant;
      QueuesHoldWhatWasPushed(steps[..|steps| - 1]);
      StepKeepsQueues(Run(steps[..|steps| - 1]).value, steps[|steps| - 1]);
    } else {
      NothingPushedYet();
    }
  }

  lemma NothingPushedYet()
    ensures QueuesInvariant(INITIAL)
  {
  }

  lemma {:induction false} EntryIsBy(queue: seq<Entry>, i: nat)
    requires i < |queue|
    ensures queue[i].event in By(queue, queue[i].tx)
    decreases |queue|
  {
    if i < |queue| - 1 {
      EntryIsBy(queue[..|queue| - 1], i);
    }
  }

  /**
   * No event with a raw one-time token, and no security report, ever enters the audit log; whatever
   * enters a queue was handed over by a committed use case or is the report of a reused token.
   */
  lemma AuditLogIsSafe(steps: seq<Step>, i: nat)
    requires Run(steps).Some? && i < |Run(steps).value.audit|
    ensures var st := Run(steps).value;
            && st.audit[i].event.IsDomain()
            && st.audit[i].tx in st.txs && IsCommitted(st.txs[st.audit[i].tx])
            && st.audit[i].event in st.txs[st.audit[i].tx].phase.events
  {
    var st := Run(steps).value;
    var t, e := st.audit[i].tx, st.audit[i].event;
    QueuesHoldWhatWasPushed(steps);
    RunKeepsInvariant(steps);
    EntryIsBy(st.audit, i);
    assert By(st.audit, t) == DomainEvents(Pushed(st, t));
    hide Run, Filter, By, Invariant, QueuesInvariant;
    assert e in Pushed(st, t) && e.IsDomain();
    FilteredIsPushed(st, t, e);
    HandedOverBy(st, t, e);
  }

  lemma FilteredIsPushed(st: State, t: TxId, e: Event)
    requires e in Pushed(st, t)
    ensures t in st.txs && st.txs[t].phase.Finished? && e in st.txs[t].phase.events
  {
  }

  /** A finished use case hands over events only if it committed, or a reuse report if it met a replaced token. */
  lemma HandedOverBy(st: State, t: TxId, e: Event)
    requires Invariant(st) && t in st.txs && st.txs[t].phase.Finished? && e in st.txs[t].phase.events
    ensures IsCommitted(st.txs[t]) ||
              (e.RefreshTokenReuseDetected? && st.txs[t].phase.ending == Failed(RefreshTokenReuse))
  {
    hide Invariant, Faithful;
    TxFacts(st, t);
    FailureHandsOverReport(st.txs[t]);
  }

  lemma FailureHandsOverReport(tx: Tx)
    requires Faithful(tx) && tx.phase.Finished?
    ensures forall e :: e in tx.phase.events ==>
              IsCommitted(tx) || (e.RefreshTokenReuseDetected? && tx.phase.ending == Failed(RefreshTokenReuse))
  {
    hide Compute, NextQuery, FailedSaving, Select, ViewIsRead;
  }

  lemma CommittedRefreshHandsOverNothing(tx: Tx)
    requires Faithful(tx) && IsCommitted(tx) && tx.req.Refresh?
    ensures tx.phase.events == []
  {
    hide NextQuery, SavedUpTo, ViewIsRead;
  }

  /** A refresh that succeeds publishes nothing at all. */
  lemma RefreshSuccessPublishesNothing(steps: seq<Step>, t: TxId)
    requires Run(steps).Some? && t in Run(steps).value.txs && IsCommitted(Run(steps).value.txs[t])
    requires Run(steps).value.txs[t].req.Refresh?
    ensures By(Run(steps).value.audit, t) == [] && By(Run(steps).value.notices, t) == []
  {
    hide Run, Invariant, Faithful, QueuesInvariant, By;
    var st := Run(steps).value;
    QueuesHoldWhatWasPushed(steps);
    RunKeepsInvariant(steps);
    TxFacts(st, t);
    CommittedRefreshHandsOverNothing(st.txs[t]);
    NothingHandedOverNothingQueued(st, t);
  }

  lemma NothingHandedOverNothingQueued(st: State, t: TxId)
    requires QueuesInvariant(st) && t in st.txs && st.txs[t].phase.Finished? && st.txs[t].phase.events == []
    ensures By(st.audit, t) == [] && By(st.notices, t) == []
  {
    hide By;
    assert Pushed(st, t) == [];
  }

  // ---- Notifications and the tokens they carry

  /** The event carries the raw token whose hash the plan stores for the same user, and goes to that user's email. */
  ghost predicate CarriesTokenOf(e: Event, plan: Plan) {
    && e.IsNotification()
    && plan.first.row.UserRow? && plan.first.key == UserKey(e.userId) && plan.first.row.user.email == e.email
    && plan.second.Some? && plan.second.value.Insert? && plan.second.value.row.OneTimeRow?
    && plan.second.value.row.ott.userId == e.userId && plan.second.value.row.ott.tokenHash == Sha256(e.token)
    && plan.second.value.row.ott.purpose
       == (if e.UserEmailVerificationRequested? then VERIFY_EMAIL else RECOVER_PASSWORD)
  }

  ghost predicate IssuesOneTimeToken(plan: Plan) {
    plan.second.Some? && plan.second.value.Insert? && plan.second.value.row.OneTimeRow?
  }

  lemma PlansNotifyWhatTheyIssue(req: Request, view: seq<Reply>, d: Draw)
    requires Compute(req, view, d).Ok?
    ensures var plan := Compute(req, view, d).value;
            && (forall e :: e in plan.published && e.IsNotification() ==> CarriesTokenOf(e, plan))
            && (IssuesOneTimeToken(plan) ==> exists e :: e in plan.published && CarriesTokenOf(e, plan))
  {
    var plan := Compute(req, view, d).value;
    if IssuesOneTimeToken(plan) {
      var n := |plan.published| - 1;
      assert n >= 0 && plan.published[n] in plan.published;
      assert CarriesTokenOf(plan.published[n], plan);
    }
  }

  /**
   * Every notification in the queue carries the raw token that its use case has committed, as a hash,
   * for the same user and purpose, and is addressed to the email of that user.
   */
  lemma NoticesCarryCommittedTokens(steps: seq<Step>, i: nat) returns (j: nat)
    requires Run(steps).Some? && i < |Run(steps).value.notices|
    ensures var st := Run(steps).value;
            && j < |st.history| && st.history[j].tx == st.notices[i].tx
            && CarriesTokenOf(st.notices[i].event, st.history[j].plan)
  {
    var st := Run(steps).value;
    var t, e := st.notices[i].tx, st.notices[i].event;
    QueuesHoldWhatWasPushed(steps);
    RunKeepsInvariant(steps);
    EntryIsBy(st.notices, i);
    assert By(st.notices, t) == NotificationEvents(Pushed(st, t));
    hide Run, Filter, By, Invariant, QueuesInvariant, CarriesTokenOf;
    assert e in Pushed(st, t) && e.IsNotification();
    FilteredIsPushed(st, t, e);
    HandedOverBy(st, t, e);
    j := CommittedIsRecorded(st, t);
    PlansNotifyWhatTheyIssue(st.txs[t].req, st.txs[t].view, st.txs[t].phase.draw);
  }

  lemma CommittedIsRecorded(st: State, t: TxId) returns (j: nat)
    requires Invariant(st) && t in st.txs && IsCommitted(st.txs[t])
    ensures j < |st.history| && st.history[j].tx == t
    ensures var tx := st.txs[t];
            && Compute(tx.req, tx.view, tx.phase.draw) == Ok(st.history[j].plan)
            && tx.phase.events == st.history[j].plan.published
  {
    hide Compute, Legal, StoreAt, StoreDrawn, NextQuery, ViewIsRead, SavedUpTo, Linked, Standing;
    assert TxInvariant(st, st.txs[t]);
    j :| 0 <= j < |st.history| && st.history[j].tx == t;
    assert Records(st.history[j], st.history[j].tx, st.txs[st.history[j].tx]);
  }
}
