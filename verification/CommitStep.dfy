/** The commit of an interleaved use case equals running it alone, at that moment, on the committed rows. */
module CommitStep {
  import opened Domain
  import opened Results
  import opened Stores
  import opened UseCases
  import opened History
  import opened Evolution
  import opened Machine
  import opened Consistency
  import EmailValidator

  /** The plan saves the row that was found, expecting the version that was found. */
  ghost predicate Guards(plan: Plan, f: Found) {
    || (plan.first.Update? && plan.first.key == f.key && plan.first.expected == f.cell.version)
    || (plan.second.Some? && plan.second.value.Update?
        && plan.second.value.key == f.key && plan.second.value.expected == f.cell.version)
  }

  /** Only a registration goes on after finding nothing; it then inserts the normalised email. */
  ghost predicate InsertsEmail(req: Request, plan: Plan) {
    && req.Register? && plan.first.Insert? && plan.first.row.UserRow?
    && EmailValidator.ValidateEmail(Text(req.email)) == Ok(plan.first.row.user.email)
  }

  ghost predicate Covered(req: Request, plan: Plan, reply: Reply) {
    match reply
    case Some(f) => Guards(plan, f)
    case None => InsertsEmail(req, plan) && NextQuery(req, []) == Some(UserByEmail(req.email))
  }

  ghost predicate Hit(reply: Reply, q: Query) {
    reply.Some? ==> Matches(q, reply.value.key, reply.value.cell.row)
  }

  lemma RegisterIsCovered(req: Request, r: Reply, d: Draw)
    requires req.Register? && Hit(r, UserByEmail(req.email)) && Compute(req, [r], d).Ok?
    ensures Covered(req, Compute(req, [r], d).value, r)
  {
    hide EmailValidator.ValidateEmail;
  }

  lemma TokenCaseIsCovered(req: Request, r: Reply, r': Reply, d: Draw)
    requires req.EmailVerification? || req.PasswordRecover?
    requires Hit(r, OneTimeByHash(Sha256(req.token))) && LoadOneTime(r).Some?
    requires Hit(r', UserById(LoadOneTime(r).value.data.userId)) && Compute(req, [r, r'], d).Ok?
    ensures r.Some? && r'.Some?
    ensures Guards(Compute(req, [r, r'], d).value, r.value) && Guards(Compute(req, [r, r'], d).value, r'.value)
  {
  }

  lemma OtherCaseIsCovered(req: Request, r: Reply, d: Draw)
    requires !req.Register? && NextQuery(req, []).Some? && Hit(r, NextQuery(req, []).value)
    requires NextQuery(req, [r]).None? && Compute(req, [r], d).Ok?
    ensures r.Some? && Guards(Compute(req, [r], d).value, r.value)
  {
  }

  /** A row whose version is still the one that was read is found again, unchanged. */
  lemma ReadIsCurrent(h: Log, a: nat, q: Query)
    requires Legal(h) && a <= |h| && Select(StoreAt(h, a), q).Some?
    requires var f := Select(StoreAt(h, a), q).value;
             f.key in StoreAt(h, |h|) && StoreAt(h, |h|)[f.key].version == f.cell.version
    ensures Select(StoreAt(h, |h|), q) == Select(StoreAt(h, a), q)
  {
    hide Legal, StoreAt;
    StillSelected(h, a, |h|, q);
  }

  /** While the normalised email is free, no lookup of the raw email finds a user. */
  lemma NobodyIsCurrent(s: Store, email: string, row: Row)
    requires StoreInvariant(s) && row.UserRow? && !EmailTaken(s, row)
    requires EmailValidator.ValidateEmail(Text(email)) == Ok(row.user.email)
    ensures Select(s, UserByEmail(email)).None?
  {
    var r := Select(s, UserByEmail(email));
    EmailValidator.CanonicalIffUnchanged(email);
    hide EmailValidator.ValidateEmail, UniqueHits, EmailValidator.Canonical;
  }

  /** With every save still standing, a covered reply is what the query selects now. */
  lemma CoveredReplyIsCurrent(h: Log, a: nat, q: Query, req: Request, plan: Plan)
    requires Legal(h) && a <= |h| && Covered(req, plan, Select(StoreAt(h, a), q))
    requires SaveError(StoreAt(h, |h|), plan.first).None?
    requires plan.second.Some? ==> SaveError(StoreAt(h, |h|), plan.second.value).None?
    requires Select(StoreAt(h, a), q).None? ==> NextQuery(req, []) == Some(q)
    ensures Select(StoreAt(h, |h|), q) == Select(StoreAt(h, a), q)
  {
    if Select(StoreAt(h, a), q).Some? {
      hide Legal, StoreAt, Select, InsertsEmail, EmailTaken;
      ReadIsCurrent(h, a, q);
    } else {
      HistoryKeepsInvariant(h, |h|);
      hide Legal, StoreAt, EmailTaken, StoreInvariant, EmailValidator.ValidateEmail;
      NobodyIsCurrent(StoreAt(h, |h|), req.email, plan.first.row);
    }
  }

  lemma TokenCaseReadsTwice(req: Request, view: seq<Reply>, d: Draw)
    requires |view| <= 2 && (req.EmailVerification? || req.PasswordRecover?)
    requires NextQuery(req, view).None? && Compute(req, view, d).Ok?
    ensures view == [view[0], view[1]] && LoadOneTime(view[0]).Some?
  {
  }

  lemma TwoReads(req: Request, s: Store, r: Reply, r': Reply)
    requires Asked(req, [], r, s) && Asked(req, [r], r', s)
    ensures View(req, Alone(s)) == [r, r']
  {
    hide Select, NextQuery;
  }

  lemma OtherCaseReadsOnce(tx: Tx)
    requires ViewIsRead(tx) && !tx.req.EmailVerification? && !tx.req.PasswordRecover?
    requires NextQuery(tx.req, tx.view).None?
    ensures |tx.view| <= 1 && (tx.view == [] <==> NextQuery(tx.req, []).None?)
  {
    hide Select;
  }

  lemma OneRead(req: Request, s: Store, r: Reply)
    requires Asked(req, [], r, s) && NextQuery(req, [r]).None?
    ensures View(req, Alone(s)) == [r]
  {
    hide Select, NextQuery;
  }

  lemma TokenCaseViewIsCurrent(h: Log, tx: Tx, plan: Plan, d: Draw)
    requires Legal(h) && ViewIsRead(tx) && Linked(h, tx)
    requires tx.req.EmailVerification? || tx.req.PasswordRecover?
    requires NextQuery(tx.req, tx.view).None? && Compute(tx.req, tx.view, d) == Ok(plan)
    requires SaveError(StoreAt(h, |h|), plan.first).None?
    requires plan.second.Some? ==> SaveError(StoreAt(h, |h|), plan.second.value).None?
    ensures View(tx.req, Alone(StoreAt(h, |h|))) == tx.view
  {
    hide Legal, StoreAt, SaveError, Guards, Compute, View;
    TokenCaseReadsTwice(tx.req, tx.view, d);
    var r, r' := tx.view[0], tx.view[1];
    var q, q' := OneTimeByHash(Sha256(tx.req.token)), UserById(LoadOneTime(r).value.data.userId);
    assert NextQuery(tx.req, []) == Some(q) && NextQuery(tx.req, [r]) == Some(q');
    assert Hit(r, q) && Hit(r', q');
    TokenCaseIsCovered(tx.req, r, r', d);
    hide Select, Hit, NextQuery;
    CoveredReplyIsCurrent(h, tx.at[0], q, tx.req, plan);
    CoveredReplyIsCurrent(h, tx.at[1], q', tx.req, plan);
    TwoReads(tx.req, StoreAt(h, |h|), r, r');
  }

  lemma OtherCaseViewIsCurrent(h: Log, tx: Tx, plan: Plan, d: Draw)
    requires Legal(h) && ViewIsRead(tx) && Linked(h, tx)
    requires !tx.req.EmailVerification? && !tx.req.PasswordRecover?
    requires NextQuery(tx.req, tx.view).None? && Compute(tx.req, tx.view, d) == Ok(plan)
    requires SaveError(StoreAt(h, |h|), plan.first).None?
    requires plan.second.Some? ==> SaveError(StoreAt(h, |h|), plan.second.value).None?
    ensures View(tx.req, Alone(StoreAt(h, |h|))) == tx.view
  {
    hide Compute, Legal, StoreAt, Guards, SaveError, InsertsEmail;
    OtherCaseReadsOnce(tx);
    if |tx.view| == 1 {
      var r, q := tx.view[0], NextQuery(tx.req, []).value;
      assert tx.view == [r] && Hit(r, q);
      hide Select, View;
      if tx.req.Register? {
        RegisterIsCovered(tx.req, r, d);
      } else {
        OtherCaseIsCovered(tx.req, r, d);
      }
      CoveredReplyIsCurrent(h, tx.at[0], q, tx.req, plan);
      OneRead(tx.req, StoreAt(h, |h|), r);
    }
  }

  /**
   * The heart of serializability: when all saves of a use case have succeeded, everything it read is
   * still so, and running it alone on the committed rows with the same draws gives the same plan.
   */
  lemma CommitIsLegal(st: State, t: TxId)
    requires Invariant(st) && t in st.txs
    requires st.txs[t].phase.Saving? && st.txs[t].phase.saved == st.txs[t].phase.plan.Count()
    ensures LegalStep(st.store, Commit(t, st.txs[t].req, st.txs[t].phase.draw, st.txs[t].phase.plan))
  {
    hide Invariant, Legal, StoreAt, NextQuery, Compute, SaveError, Fresh, View, ViewIsRead, Linked, Transact;
    var tx := st.txs[t];
    var plan, d := tx.phase.plan, tx.phase.draw;
    ReadyToCommit(st, t);
    if tx.req.EmailVerification? || tx.req.PasswordRecover? {
      TokenCaseViewIsCurrent(st.history, tx, plan, d);
    } else {
      OtherCaseViewIsCurrent(st.history, tx, plan, d);
    }
    RunsAlone(tx.req, tx.view, d, st.store, plan);
  }

  /** With the same replies and all saves possible, running alone gives the same plan. */
  lemma RunsAlone(req: Request, view: seq<Reply>, d: Draw, s: Store, plan: Plan)
    requires View(req, Alone(s)) == view && Compute(req, view, d) == Ok(plan)
    requires SaveError(s, plan.first).None?
    requires plan.second.Some? ==> SaveError(s, plan.second.value).None?
    ensures Transact(req, d, Alone(s)) == Ok(plan)
  {
    hide View, Compute, SaveError;
  }

  /** What the invariant says about a use case whose saves have all succeeded. */
  lemma ReadyToCommit(st: State, t: TxId)
    requires Invariant(st) && t in st.txs
    requires st.txs[t].phase.Saving? && st.txs[t].phase.saved == st.txs[t].phase.plan.Count()
    ensures var tx := st.txs[t];
            && Legal(st.history) && st.store == StoreAt(st.history, |st.history|)
            && ViewIsRead(tx) && Linked(st.history, tx)
            && NextQuery(tx.req, tx.view).None?
            && Compute(tx.req, tx.view, tx.phase.draw) == Ok(tx.phase.plan)
            && SaveError(st.store, tx.phase.plan.first).None?
            && (tx.phase.plan.second.Some? ==> SaveError(st.store, tx.phase.plan.second.value).None?)
            && Fresh(st.store, tx.phase.draw) && Drawn(st, tx.phase.draw)
  {
    hide Legal, StoreAt, HistoryRecords, NextQuery, Compute, SaveError, Fresh, StoreDrawn, ViewIsRead, Linked;
    assert TxInvariant(st, st.txs[t]);
  }
}
