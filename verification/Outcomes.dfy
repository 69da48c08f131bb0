/** How use cases end in the interleaved machine: conflicts, reuse reports, and failures that leave no trace. */
module Outcomes {
  import opened Domain
  import opened Events
  import opened Results
  import opened Stores
  import opened UseCases
  import opened History
  import opened Evolution
  import opened Counting
  import opened Rotation
  import opened Machine
  import opened Consistency
  import opened Serializability

  /** The result of a finished use case. */
  ghost function ResultOf(tx: Tx): Result<Plan>
    requires tx.phase.Finished?
  {
    match tx.phase.ending
    case Failed(e) => Err(e)
    case Committed => Compute(tx.req, tx.view, tx.phase.draw)
  }

  lemma ViewIsMet(tx: Tx)
    requires ViewIsRead(tx) && NextQuery(tx.req, tx.view).None?
    ensures View(tx.req, Meeting(tx.met)) == tx.view
  {
    hide Select;
    if |tx.view| == 2 {
      assert tx.view == [tx.view[0], tx.view[1]];
    } else if |tx.view| == 1 {
      assert tx.view == [tx.view[0]];
    } else {
      assert tx.view == [];
    }
  }

  lemma FaithfulRanItsProgram(tx: Tx)
    requires Faithful(tx) && tx.phase.Finished?
    ensures Transact(tx.req, tx.phase.draw, Meeting(tx.met)) == ResultOf(tx)
  {
    hide NextQuery, Compute, SaveError, View;
    ViewIsMet(tx);
    hide ViewIsRead;
    var env := Meeting(tx.met);
    if tx.phase.ending.Committed? {
    } else if Compute(tx.req, tx.view, tx.phase.draw).Ok? {
      var plan := Compute(tx.req, tx.view, tx.phase.draw).value;
      if |tx.met| == |tx.view| + 1 {
        assert SaveError(env(|tx.view|), plan.first) == Some(tx.phase.ending.error);
      } else {
        assert SaveError(env(|tx.view|), plan.first).None?;
        assert SaveError(env(|tx.view| + 1), plan.second.value) == Some(tx.phase.ending.error);
      }
    }
  }

  /**
   * The interleaved machine runs the programs of the use cases: a finished one ended as its transaction
   * does on what it met.
   */
  lemma FinishedRanItsProgram(steps: seq<Step>, t: TxId)
    requires Run(steps).Some? && t in Run(steps).value.txs && Run(steps).value.txs[t].phase.Finished?
    ensures var tx := Run(steps).value.txs[t]; Transact(tx.req, tx.phase.draw, Meeting(tx.met)) == ResultOf(tx)
  {
    RunKeepsInvariant(steps);
    assert TxInvariant(Run(steps).value, Run(steps).value.txs[t]);
    hide Run, Invariant, Transact, Linked, Standing, Faithful;
    FaithfulRanItsProgram(Run(steps).value.txs[t]);
  }

  /** The rows that a use case meets never have two hits for a query, so no lookup of a use case fails on that. */
  lemma MetRowsHaveUniqueHits(steps: seq<Step>, t: TxId, n: nat)
    requires Run(steps).Some? && t in Run(steps).value.txs
    ensures UniqueHits(Meeting(Run(steps).value.txs[t].met)(n))
  {
    RunKeepsInvariant(steps);
    var st, tx := Run(steps).value, Run(steps).value.txs[t];
    assert TxInvariant(st, tx);
    hide Run, Invariant, TxInvariant, Legal, StoreAt, RowInvariant;
    if n < |tx.met| {
      HistoryKeepsInvariant(st.history, tx.at[n]);
    }
  }

  /** A use case that is not committed has no commit and no row under the ids it drew. */
  lemma UncommittedLeavesNothing(steps: seq<Step>, t: TxId)
    requires Run(steps).Some? && t in Run(steps).value.txs && !IsCommitted(Run(steps).value.txs[t])
    ensures var st := Run(steps).value;
            && (forall i: nat :: i < |st.history| ==> st.history[i].tx != t)
            && (DrawOf(st.txs[t]).Some? ==>
                  forall k :: k in st.store ==> k.id != DrawOf(st.txs[t]).value.userId
                                                && k.id != DrawOf(st.txs[t]).value.tokenId)
  {
    RunKeepsInvariant(steps);
    var st := Run(steps).value;
    assert TxInvariant(st, st.txs[t]);
    NotRecordedYet(st, t);
  }

  // ---- Conflicts

  /** Computing never raises a conflict; only a save does. */
  lemma ComputeRaisesNoConflict(req: Request, view: seq<Reply>, d: Draw)
    ensures Compute(req, view, d) != Err(ConcurrencyError)
  {
  }

  /** A row that is updated was read, and the update expects the version that was read. */
  lemma UpdatedRowWasRead(req: Request, view: seq<Reply>, d: Draw, n: nat) returns (i: nat)
    requires |view| <= 2 && Compute(req, view, d).Ok? && Compute(req, view, d).value.Has(n)
    requires Compute(req, view, d).value.Save(n).Update?
    requires NextQuery(req, view).None?
    requires |view| >= 1 ==> NextQuery(req, []).Some? && (view[0].Some? ==>
               Matches(NextQuery(req, []).value, view[0].value.key, view[0].value.cell.row))
    requires |view| == 2 ==> NextQuery(req, [view[0]]).Some? && (view[1].Some? ==>
               Matches(NextQuery(req, [view[0]]).value, view[1].value.key, view[1].value.cell.row))
    ensures i < |view| && view[i].Some?
    ensures Compute(req, view, d).value.Save(n).key == view[i].value.key
    ensures Compute(req, view, d).value.Save(n).expected == view[i].value.cell.version
  {
    i := if (req.EmailVerification? || req.PasswordRecover?) && n == 0 then 1 else 0;
    assert |view| > 0;
  }

  /**
   * No spurious conflicts: if a use case ends in ConcurrencyError, then another one committed a write to
   * the row in question after this one had read it and before it tried to save it.
   */
  lemma ConflictHasCause(steps: seq<Step>, t: TxId) returns (key: Key, read: nat, i: nat)
    requires Run(steps).Some? && t in Run(steps).value.txs && Run(steps).value.txs[t].phase.Finished?
    requires Run(steps).value.txs[t].phase.ending == Failed(ConcurrencyError)
    ensures var st, tx := Run(steps).value, Run(steps).value.txs[t];
            && read < |tx.view| < |tx.at| && tx.view[read].Some? && tx.view[read].value.key == key
            && tx.at[read] <= i < tx.at[|tx.at| - 1] <= |st.history|
            && st.history[i].tx != t && Writes(st.history[i], key)
  {
    RunKeepsInvariant(steps);
    var st, tx := Run(steps).value, Run(steps).value.txs[t];
    assert TxInvariant(st, tx);
    NotRecordedYet(st, t);
    hide Run, Invariant, TxInvariant, HistoryRecords;
    key, read, i := FailedSaveHasCause(st.history, tx);
  }

  lemma FailedSaveHasCause(h: Log, tx: Tx) returns (key: Key, read: nat, i: nat)
    requires Legal(h) && Faithful(tx) && Linked(h, tx) && tx.phase.Finished?
    requires tx.phase.ending == Failed(ConcurrencyError)
    ensures read < |tx.view| && tx.view[read].Some? && tx.view[read].value.key == key
    ensures |tx.at| == |tx.met| > |tx.view| && tx.at[read] <= i < tx.at[|tx.at| - 1] <= |h| && Writes(h[i], key)
  {
    hide Legal, StoreAt, NextQuery, SaveError;
    ComputeRaisesNoConflict(tx.req, tx.view, tx.phase.draw);
    hide Compute;
    var plan := Compute(tx.req, tx.view, tx.phase.draw).value;
    var n := |tx.met| - |tx.view| - 1;
    var w := plan.Save(n);
    var last := |tx.met| - 1;
    ConflictIsStale(tx.met[last], w);
    hide Select;
    read := UpdatedRowWasRead(tx.req, tx.view, tx.phase.draw, n);
    key := w.key;
    var f := tx.view[read].value;
    assert tx.met[read] == StoreAt(h, tx.at[read]) && tx.met[last] == StoreAt(h, tx.at[last]);
    SelectedIsThere(tx, read);
    RowsEvolve(h, tx.at[read], tx.at[last], key);
    i := NewVersionHasWriter(h, tx.at[read], tx.at[last], key);
  }

  lemma ConflictIsStale(s: Store, w: Write)
    requires SaveError(s, w) == Some(ConcurrencyError)
    ensures w.Update? && !(w.key in s && s[w.key].version == w.expected)
  {
  }

  lemma SelectedIsThere(tx: Tx, i: nat)
    requires ViewIsRead(tx) && i < |tx.view| && tx.view[i].Some?
    ensures tx.view[i].value.key in tx.met[i] && tx.met[i][tx.view[i].value.key] == tx.view[i].value.cell
  {
    hide NextQuery;
  }

  // ---- Reuse of a replaced token

  /** Computing raises RefreshTokenReuse exactly for a refresh that read a replaced token. */
  lemma ComputeRaisesReuseIff(req: Request, view: seq<Reply>, d: Draw)
    ensures Compute(req, view, d) == Err(RefreshTokenReuse) <==>
            && req.Refresh? && |view| > 0 && LoadRefresh(view[0]).Some?
            && LoadRefresh(view[0]).value.data.replacedBy.Some?
  {
  }

  /** The second transaction finds the token that the first one read, for tokens are never deleted. */
  lemma ReportFindsTheToken(h: Log, a: nat, b: nat, token: string, client: Client)
    requires Legal(h) && a <= b <= |h| && LoadRefresh(Select(StoreAt(h, a), RefreshByHash(Sha256(token)))).Some?
    ensures var rt := LoadRefresh(Select(StoreAt(h, a), RefreshByHash(Sha256(token)))).value;
            ReuseReport(token, client, StoreAt(h, b)) == [RefreshTokenReuseDetected(rt.data.userId, rt.id, client)]
  {
    hide Legal, StoreAt, Select;
    StillSelected(h, a, b, RefreshByHash(Sha256(token)));
  }

  /** The refresh token that a refresh read first, and how many commits had happened by then. */
  ghost predicate ReadToken(tx: Tx, k: Key) {
    tx.req.Refresh? && |tx.view| > 0 && |tx.at| > 0 && tx.view[0].Some? && tx.view[0].value.key == k
  }

  /**
   * Reuse classification: a finished refresh ends in RefreshTokenReuse exactly if a rotation of the
   * token it read had been committed before the read, however long ago. It then hands exactly one
   * RefreshTokenReuseDetected to the publisher, with the right user and token, and has no commit.
   */
  lemma ReuseIffRotatedBefore(steps: seq<Step>, t: TxId, k: Key)
    requires Run(steps).Some? && t in Run(steps).value.txs
    requires Run(steps).value.txs[t].phase.Finished? && ReadToken(Run(steps).value.txs[t], k)
    ensures var st, tx := Run(steps).value, Run(steps).value.txs[t];
            && tx.at[0] <= |st.history| && IsToken(StoreAt(st.history, tx.at[0]), k)
            && (tx.phase.ending == Failed(RefreshTokenReuse) <==>
                  exists i: nat :: i < tx.at[0] && st.history[i].req.Refresh? && Ended(st.history[i]) == Some(k))
            && (tx.phase.ending == Failed(RefreshTokenReuse) ==>
                  tx.phase.events == [RefreshTokenReuseDetected(
                    Token(StoreAt(st.history, tx.at[0]), k).userId, k.id, tx.req.client)]
                  && forall i: nat :: i < |st.history| ==> st.history[i].tx != t)
  {
    RunKeepsInvariant(steps);
    var st, tx := Run(steps).value, Run(steps).value.txs[t];
    assert TxInvariant(st, tx);
    if !IsCommitted(tx) {
      NotRecordedYet(st, t);
    }
    hide Run, Invariant, TxInvariant, HistoryRecords;
    ReuseIffReplacedWhenRead(st.history, tx, k);
    ReplacedIffRotated(st.history, tx.at[0], k);
  }

  lemma ReuseIffReplacedWhenRead(h: Log, tx: Tx, k: Key)
    requires Legal(h) && Faithful(tx) && Linked(h, tx) && tx.phase.Finished? && ReadToken(tx, k)
    ensures tx.at[0] <= |h| && IsToken(StoreAt(h, tx.at[0]), k)
    ensures tx.phase.ending == Failed(RefreshTokenReuse) <==> IsReplaced(StoreAt(h, tx.at[0]), k)
    ensures tx.phase.ending == Failed(RefreshTokenReuse) ==>
              tx.phase.events ==
                [RefreshTokenReuseDetected(Token(StoreAt(h, tx.at[0]), k).userId, k.id, tx.req.client)]
  {
    hide Legal, StoreAt, SaveError, Compute;
    var s := StoreAt(h, tx.at[0]);
    assert NextQuery(tx.req, []) == Some(RefreshByHash(Sha256(tx.req.token)));
    assert |tx.view| == 1 && tx.met[0] == s && tx.view[0] == Select(s, RefreshByHash(Sha256(tx.req.token)));
    ComputeRaisesReuseIff(tx.req, tx.view, tx.phase.draw);
    SavesRaiseNoReuse(tx);
    if tx.phase.ending == Failed(RefreshTokenReuse) {
      assert tx.met[1] == StoreAt(h, tx.at[1]);
      ReportFindsTheToken(h, tx.at[0], tx.at[1], tx.req.token, tx.req.client);
    }
  }

  lemma SavesRaiseNoReuse(tx: Tx)
    requires Faithful(tx) && tx.phase.Finished?
    ensures tx.phase.ending == Failed(RefreshTokenReuse) <==>
              Compute(tx.req, tx.view, tx.phase.draw) == Err(RefreshTokenReuse)
  {
    hide Compute, NextQuery, ReuseReport, ViewIsRead;
  }
}
