/**
 * Any number of use cases running concurrently: a step relation over READ COMMITTED reads, saves that
 * lock and compare versions, commits, and the publication that follows.
 */
module Machine {
  import opened Domain
  import opened Events
  import opened Results
  import opened Stores
  import opened UseCases
  import opened History

  datatype Ending = Committed | Failed(error: Error)

  datatype Phase =
    | Reading
    | Saving(draw: Draw, plan: Plan, saved: nat)
    | Reporting(draw: Draw)  // a refresh that met a replaced token, before its second transaction
    | Finished(draw: Draw, ending: Ending, events: seq<Event>, sent: nat)

  /**
   * A running use case: the replies it received and, for each of its statements so far, the committed
   * rows the statement met and the number of commits that had happened by then.
   */
  datatype Tx = Tx(req: Request, view: seq<Reply>, met: seq<Store>, at: seq<nat>, phase: Phase)

  /** An event in a queue, with the use case that published it. */
  datatype Entry = Entry(tx: TxId, event: Event)

  datatype State = State(
    store: Store,            // the committed rows
    history: Log,            // the commits so far
    txs: map<TxId, Tx>,      // all use cases that ever began
    ids: set<Id>,            // all ids drawn so far
    tokens: set<string>,     // all raw tokens drawn so far
    audit: seq<Entry>,       // the Redis list
    notices: seq<Entry>)     // the notification queue

  const INITIAL := State(map[], [], map[], {}, {}, [], [])

  // ---- Locks

  /** A save holds its row, and an inserted user its email as well, until the transaction ends. */
  datatype Lock = RowLock(key: Key) | EmailLock(email: string)

  ghost function LocksOf(w: Write): set<Lock> {
    if w.Insert? && w.row.UserRow? then {RowLock(w.key), EmailLock(w.row.user.email)} else {RowLock(w.key)}
  }

  ghost function LocksUpTo(plan: Plan, n: nat): set<Lock> {
    (if n >= 1 then LocksOf(plan.first) else {})
    + (if n >= 2 && plan.second.Some? then LocksOf(plan.second.value) else {})
  }

  ghost function Held(tx: Tx): set<Lock> {
    if tx.phase.Saving? then LocksUpTo(tx.phase.plan, tx.phase.saved) else {}
  }

  /** No other transaction holds a lock that the save needs. */
  ghost predicate Free(st: State, t: TxId, w: Write) {
    forall u :: u in st.txs && u != t ==> Held(st.txs[u]) !! LocksOf(w)
  }

  // ---- Steps

  datatype Step =
    | Begin(tx: TxId, req: Request)
    | Read(tx: TxId)
    | Decide(tx: TxId, draw: Draw)
    | Save(tx: TxId)
    | Commits(tx: TxId)
    | Report(tx: TxId)
    | Publish(tx: TxId)

  ghost predicate IsFresh(st: State, d: Draw) {
    d.userId != d.tokenId && d.userId !in st.ids && d.tokenId !in st.ids && d.token !in st.tokens
  }

  ghost predicate Enabled(st: State, step: Step) {
    if step.Begin? then step.tx !in st.txs
    else
      && step.tx in st.txs
      && var tx := st.txs[step.tx];
         match step
         case Begin(_, _) => false
         case Read(_) => tx.phase.Reading? && NextQuery(tx.req, tx.view).Some?
         case Decide(_, d) => tx.phase.Reading? && NextQuery(tx.req, tx.view).None? && IsFresh(st, d)
         case Save(t) =>
           tx.phase.Saving? && tx.phase.plan.Has(tx.phase.saved) && Free(st, t, tx.phase.plan.Save(tx.phase.saved))
         case Commits(_) => tx.phase.Saving? && tx.phase.saved == tx.phase.plan.Count()
         case Report(_) => tx.phase.Reporting? && tx.req.Refresh?
         case Publish(_) => tx.phase.Finished? && tx.phase.sent < |tx.phase.events|
  }

  /** The statement just executed met the rows committed by now. */
  ghost function Met(st: State, tx: Tx): Tx {
    tx.(met := tx.met + [st.store], at := tx.at + [|st.history|])
  }

  ghost function AfterRead(st: State, tx: Tx): Tx
    requires NextQuery(tx.req, tx.view).Some?
  {
    Met(st, tx).(view := tx.view + [Select(st.store, NextQuery(tx.req, tx.view).value)])
  }

  ghost function AfterDecide(tx: Tx, d: Draw): Tx {
    match Compute(tx.req, tx.view, d)
    case Ok(plan) => tx.(phase := Saving(d, plan, 0))
    case Err(e) =>
      if e == RefreshTokenReuse && tx.req.Refresh? then tx.(phase := Reporting(d))
      else tx.(phase := Finished(d, Failed(e), [], 0))
  }

  ghost function AfterSave(st: State, tx: Tx): Tx
    requires tx.phase.Saving? && tx.phase.plan.Has(tx.phase.saved)
  {
    match SaveError(st.store, tx.phase.plan.Save(tx.phase.saved))
    case None => Met(st, tx).(phase := tx.phase.(saved := tx.phase.saved + 1))
    case Some(e) => Met(st, tx).(phase := Finished(tx.phase.draw, Failed(e), [], 0))
  }

  ghost function AfterCommit(tx: Tx): Tx
    requires tx.phase.Saving?
  {
    tx.(phase := Finished(tx.phase.draw, Committed, tx.phase.plan.published, 0))
  }

  ghost function AfterReport(st: State, tx: Tx): Tx
    requires tx.req.Refresh? && tx.phase.Reporting?
  {
    Met(st, tx).(phase := Finished(
      tx.phase.draw, Failed(RefreshTokenReuse), ReuseReport(tx.req.token, tx.req.client, st.store), 0))
  }

  ghost function AfterPublish(tx: Tx): Tx
    requires tx.phase.Finished?
  {
    tx.(phase := tx.phase.(sent := tx.phase.sent + 1))
  }

  /** The publisher routes notifications away; the Redis queue then skips what is no domain event. */
  ghost function Routed(st: State, t: TxId, e: Event): State {
    if e.IsNotification() then st.(notices := st.notices + [Entry(t, e)])
    else if e.IsDomain() then st.(audit := st.audit + [Entry(t, e)])
    else st
  }

  ghost function Set(st: State, t: TxId, tx: Tx): State {
    st.(txs := st.txs[t := tx])
  }

  ghost function Do(st: State, step: Step): State
    requires Enabled(st, step)
  {
    var t := step.tx;
    match step
    case Begin(_, req) => Set(st, t, Tx(req, [], [], [], Reading))
    case Read(_) => Set(st, t, AfterRead(st, st.txs[t]))
    case Decide(_, d) =>
      Set(st.(ids := st.ids + {d.userId, d.tokenId}, tokens := st.tokens + {d.token}), t, AfterDecide(st.txs[t], d))
    case Save(_) => Set(st, t, AfterSave(st, st.txs[t]))
    case Commits(_) =>
      var tx := st.txs[t];
      Set(st.(store := Apply(st.store, tx.phase.plan),
              history := st.history + [Commit(t, tx.req, tx.phase.draw, tx.phase.plan)]),
          t, AfterCommit(tx))
    case Report(_) => Set(st, t, AfterReport(st, st.txs[t]))
    case Publish(_) => Set(Routed(st, t, st.txs[t].phase.events[st.txs[t].phase.sent]), t, AfterPublish(st.txs[t]))
  }

  /** The state that a sequence of steps leads to, if every step is enabled in its turn. */
  ghost function Run(steps: seq<Step>): Option<State> {
    if steps == [] then Some(INITIAL)
    else
      var before := Run(steps[..|steps| - 1]);
      if before.Some? && Enabled(before.value, steps[|steps| - 1])
      then Some(Do(before.value, steps[|steps| - 1])) else None
  }
}
