/** The invariant of the interleaved machine, from which serializability follows. */
module Consistency {
  import opened Domain
  import opened Events
  import opened Results
  import opened Stores
  import opened UseCases
  import opened History
  import opened Machine

  /** The environment that a use case has met so far. */
  ghost function Meeting(met: seq<Store>): Environment {
    (n: nat) => if n < |met| then met[n] else map[]
  }

  ghost predicate Asked(req: Request, before: seq<Reply>, reply: Reply, met: Store) {
    NextQuery(req, before).Some? && reply == Select(met, NextQuery(req, before).value)
  }

  /** Each reply is what the query in its turn selects from the rows it met. */
  ghost predicate ViewIsRead(tx: Tx) {
    && |tx.view| <= 2 && |tx.view| <= |tx.met|
    && (|tx.view| >= 1 ==> Asked(tx.req, [], tx.view[0], tx.met[0]))
    && (|tx.view| == 2 ==> Asked(tx.req, [tx.view[0]], tx.view[1], tx.met[1]))
  }

  ghost predicate SavedUpTo(tx: Tx, plan: Plan, n: nat) {
    && |tx.view| + n <= |tx.met|
    && (n >= 1 ==> SaveError(tx.met[|tx.view|], plan.first).None?)
    && (n >= 2 && plan.second.Some? ==> SaveError(tx.met[|tx.view| + 1], plan.second.value).None?)
  }

  /** The use case computed `plan`, and its next save failed with e. */
  ghost predicate FailedSaving(tx: Tx, plan: Plan, e: Error) {
    var n := |tx.met| - |tx.view| - 1;
    && 0 <= n && plan.Has(n) && SavedUpTo(tx, plan, n)
    && SaveError(tx.met[|tx.view| + n], plan.Save(n)) == Some(e)
  }

  /** What a use case has done is what its program does, step by step, with what it met. */
  ghost predicate Faithful(tx: Tx) {
    && ViewIsRead(tx)
    && match tx.phase
       case Reading => |tx.met| == |tx.view|
       case Saving(d, plan, n) =>
         && NextQuery(tx.req, tx.view).None? && Compute(tx.req, tx.view, d) == Ok(plan)
         && n <= plan.Count() && |tx.met| == |tx.view| + n && SavedUpTo(tx, plan, n)
       case Reporting(d) =>
         && NextQuery(tx.req, tx.view).None? && tx.req.Refresh? && |tx.met| == |tx.view|
         && Compute(tx.req, tx.view, d) == Err(RefreshTokenReuse)
       case Finished(d, Committed, events, sent) =>
         && NextQuery(tx.req, tx.view).None? && sent <= |events|
         && Compute(tx.req, tx.view, d).Ok?
         && var plan := Compute(tx.req, tx.view, d).value;
            events == plan.published && SavedUpTo(tx, plan, plan.Count())
       case Finished(d, Failed(e), events, sent) =>
         && NextQuery(tx.req, tx.view).None? && sent <= |events|
         && if Compute(tx.req, tx.view, d).Ok? then
              events == [] && FailedSaving(tx, Compute(tx.req, tx.view, d).value, e)
            else
              && Compute(tx.req, tx.view, d) == Err(e)
              && (if e == RefreshTokenReuse && tx.req.Refresh?
                  then
                    && |tx.met| == |tx.view| + 1
                    && events == ReuseReport(tx.req.token, tx.req.client, tx.met[|tx.view|])
                  else events == [])
  }

  /** The rows met are those after the recorded numbers of commits, and time moves on. */
  ghost predicate Linked(h: Log, tx: Tx) {
    && |tx.at| == |tx.met|
    && (forall i, j :: 0 <= i <= j < |tx.at| ==> tx.at[i] <= tx.at[j])
    && (forall i :: 0 <= i < |tx.at| ==> tx.at[i] <= |h| && tx.met[i] == StoreAt(h, tx.at[i]))
  }

  /** The saves already made would still succeed. */
  ghost predicate Standing(s: Store, tx: Tx) {
    tx.phase.Saving? ==>
      && (tx.phase.saved >= 1 ==> SaveError(s, tx.phase.plan.first).None?)
      && (tx.phase.saved >= 2 && tx.phase.plan.second.Some? ==> SaveError(s, tx.phase.plan.second.value).None?)
  }

  ghost function DrawOf(tx: Tx): Option<Draw> {
    if tx.phase.Reading? then None else Some(tx.phase.draw)
  }

  ghost predicate IsCommitted(tx: Tx) {
    tx.phase.Finished? && tx.phase.ending.Committed?
  }

  ghost predicate Drawn(st: State, d: Draw) {
    d.userId in st.ids && d.tokenId in st.ids && d.token in st.tokens
  }

  ghost predicate Distinct(d: Draw, e: Draw) {
    && d.userId != e.userId && d.userId != e.tokenId && d.tokenId != e.userId && d.tokenId != e.tokenId
    && d.token != e.token
  }

  /** Everything stored was drawn before. */
  ghost predicate StoreDrawn(st: State) {
    forall k :: k in st.store ==>
      && k.id in st.ids
      && (HashOf(st.store[k].row).Some? ==> HashOf(st.store[k].row).value.token in st.tokens)
  }

  ghost predicate TxInvariant(st: State, tx: Tx) {
    && Faithful(tx)
    && Linked(st.history, tx)
    && Standing(st.store, tx)
    && (DrawOf(tx).Some? ==> Drawn(st, DrawOf(tx).value))
    && (DrawOf(tx).Some? && !IsCommitted(tx) ==> Fresh(st.store, DrawOf(tx).value))
  }

  ghost predicate PairInvariant(a: Tx, b: Tx) {
    && Held(a) !! Held(b)
    && (DrawOf(a).Some? && DrawOf(b).Some? ==> Distinct(DrawOf(a).value, DrawOf(b).value))
  }

  /** The commit record of a committed use case. */
  ghost predicate Records(c: Commit, t: TxId, tx: Tx) {
    && IsCommitted(tx)
    && Compute(tx.req, tx.view, tx.phase.draw).Ok?
    && c == Commit(t, tx.req, tx.phase.draw, Compute(tx.req, tx.view, tx.phase.draw).value)
  }

  /** The history holds each committed use case once, and nothing else. */
  ghost predicate HistoryRecords(st: State) {
    && (forall i: nat :: i < |st.history| ==>
          st.history[i].tx in st.txs && Records(st.history[i], st.history[i].tx, st.txs[st.history[i].tx]))
    && (forall i: nat, j: nat :: i < j < |st.history| ==> st.history[i].tx != st.history[j].tx)
    && (forall t :: t in st.txs && IsCommitted(st.txs[t]) ==>
          exists i: nat :: i < |st.history| && st.history[i].tx == t)
  }

  ghost predicate Invariant(st: State) {
    && Legal(st.history)
    && st.store == StoreAt(st.history, |st.history|)
    && StoreDrawn(st)
    && (forall t :: t in st.txs ==> TxInvariant(st, st.txs[t]))
    && (forall t, u :: t in st.txs && u in st.txs && t != u ==> PairInvariant(st.txs[t], st.txs[u]))
    && HistoryRecords(st)
  }
}
