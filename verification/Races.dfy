/** Concrete interleaved runs: two redemptions of one token, and a log in another order than the commits. */
module Races {
  import opened Domain
  import opened Events
  import opened Results
  import opened Stores
  import opened UseCases
  import opened History
  import opened Evolution
  import opened Machine
  import opened Completeness
  import opened Delivery
  import opened Failures
  import opened Scenarios

  const REDEMPTION := EmailVerification("mailed")
  const UNUSED := Some(Found(OneTimeKey(1), AFTER_REGISTRATION[OneTimeKey(1)]))
  const VERIFIED_USER := Some(Found(UserKey(0), AFTER_VERIFICATION[UserKey(0)]))

  /** Use case 0 has registered the user; use case 2 has then read the unused token. */
  ghost predicate TokenIsRead(st: State) {
    && st.store == AFTER_REGISTRATION && st.history == [REGISTERED] && st.txs.Keys == {0, 2}
    && st.txs[0].phase == Finished(REGISTERED.draw, Committed, REGISTERED.plan.published, 0)
    && st.txs[2] == Tx(REDEMPTION, [UNUSED], [AFTER_REGISTRATION], [1], Reading)
    && st.ids == {0, 1} && st.tokens == {"mailed"} && st.audit == []
  }

  lemma FirstReads()
    ensures Select(AFTER_REGISTRATION, OneTimeByHash(Sha256("mailed"))) == UNUSED
    ensures Select(AFTER_VERIFICATION, UserById(0)) == VERIFIED_USER
  {
    hide RowInvariant, Legal, StoreAt;
    FirstCommitIsLegal();
    TwoCommitsAreLegal();
    Selects(AFTER_REGISTRATION, OneTimeByHash(Sha256("mailed")), OneTimeKey(1));
    Selects(AFTER_VERIFICATION, UserById(0), UserKey(0));
  }

  lemma RegisteredState() returns (steps: seq<Step>)
    ensures Run(steps).Some?
    ensures var st := Run(steps).value;
            && st.store == AFTER_REGISTRATION && st.history == [REGISTERED] && st.txs.Keys == {0}
            && st.txs[0].phase == Finished(REGISTERED.draw, Committed, REGISTERED.plan.published, 0)
            && st.ids == {0, 1} && st.tokens == {"mailed"} && st.audit == []
  {
    hide StoreAt, Legal, Transact, Apply, View, AfterSolo;
    RegistrationIsLegal();
    var c := REGISTERED;
    assert Run([]) == Some(INITIAL);
    hide Run;
    steps := RunsSolo([], c.tx, c.req, c.draw, c.plan);
    SoloFields(INITIAL, c.tx, c.req, View(c.req, Alone(map[])), c.draw, c.plan);
    AuditStays(INITIAL, c.tx, c.req, View(c.req, Alone(map[])), c.draw, c.plan);
    assert [] + [c] == [c];
    assert c == Commit(c.tx, c.req, c.draw, c.plan);
  }

  lemma AuditStays(st: State, t: TxId, req: Request, view: seq<Reply>, d: Draw, plan: Plan)
    ensures AfterSolo(st, t, req, view, d, plan).audit == st.audit
  {
    hide Apply, Repeat;
  }

  lemma TokenReadState() returns (steps: seq<Step>)
    ensures Run(steps).Some? && TokenIsRead(Run(steps).value)
  {
    hide Run, Select, Enabled, Do;
    var first := RegisteredState();
    var st := Run(first).value;
    FirstReads();
    BeginSolo(st, 2, REDEMPTION);
    RunExtends(first, Begin(2, REDEMPTION));
    ReadSolo(st, 2, REDEMPTION, [], 0);
    RunExtends(first + [Begin(2, REDEMPTION)], Read(2));
    steps := first + [Begin(2, REDEMPTION)] + [Read(2)];
    assert Repeat(st.store, 1) == [] + [st.store] && Repeat<nat>(1, 1) == [] + [1];
  }

  /** Use case 1 has meanwhile redeemed the token and committed. */
  ghost predicate TokenIsRedeemed(st: State) {
    && st.store == AFTER_VERIFICATION && st.history == [REGISTERED, VERIFIED] && st.txs.Keys == {0, 1, 2}
    && st.txs[0].phase == Finished(REGISTERED.draw, Committed, REGISTERED.plan.published, 0)
    && st.txs[1].phase == Finished(VERIFIED.draw, Committed, VERIFIED.plan.published, 0)
    && st.txs[2] == Tx(REDEMPTION, [UNUSED], [AFTER_REGISTRATION], [1], Reading)
    && st.ids == {0, 1, 2, 3} && st.tokens == {"mailed", "unused"} && st.audit == []
  }

  lemma VerificationCommits()
    ensures Transact(VERIFIED.req, VERIFIED.draw, Alone(AFTER_REGISTRATION)) == Ok(VERIFIED.plan)
    ensures Apply(AFTER_REGISTRATION, VERIFIED.plan) == AFTER_VERIFICATION
  {
    hide Transact, Apply, RowInvariant, Legal, StoreAt;
    FirstCommitIsLegal();
    VerificationIsLegal();
  }

  lemma VerificationCanRun(st: State)
    requires TokenIsRead(st)
    ensures VERIFIED.tx !in st.txs && NoLocks(st, VERIFIED.tx) && IsFresh(st, VERIFIED.draw)
  {
  }

  lemma RedeemedState() returns (steps: seq<Step>)
    ensures Run(steps).Some? && TokenIsRedeemed(Run(steps).value)
  {
    hide Run, Transact, Apply, View, AfterSolo, NoLocks, IsFresh;
    var first := TokenReadState();
    var st, c := Run(first).value, VERIFIED;
    VerificationCommits();
    VerificationCanRun(st);
    var view := View(c.req, Alone(st.store));
    steps := RunsSolo(first, c.tx, c.req, c.draw, c.plan);
    SoloFields(st, c.tx, c.req, view, c.draw, c.plan);
    AuditStays(st, c.tx, c.req, view, c.draw, c.plan);
    TokenIsRedeemedAfter(st, Run(steps).value);
  }

  lemma TokenIsRedeemedAfter(st: State, st': State)
    requires TokenIsRead(st) && st'.store == AFTER_VERIFICATION && st'.audit == st.audit
    requires st'.history == st.history + [Commit(VERIFIED.tx, VERIFIED.req, VERIFIED.draw, VERIFIED.plan)]
    requires st'.ids == st.ids + {2, 3} && st'.tokens == st.tokens + {"unused"} && st'.txs.Keys == st.txs.Keys + {1}
    requires st'.txs[1].phase == Finished(VERIFIED.draw, Committed, VERIFIED.plan.published, 0)
    requires forall u :: u in st.txs && u != 1 ==> st'.txs[u] == st.txs[u]
    ensures TokenIsRedeemed(st')
  {
    assert [REGISTERED] + [VERIFIED] == [REGISTERED, VERIFIED];
  }

  /**
   * A run in which a redemption meets another one between its reads, and fails as it would not alone at its
   * last read.
   */
  lemma RedemptionsRace() returns (steps: seq<Step>)
    ensures Run(steps).Some? && 2 in Run(steps).value.txs
    ensures var st, tx := Run(steps).value, Run(steps).value.txs[2];
            && FailedComputing(tx) && tx.phase.ending == Failed(EmailAlreadyVerified)
            && RedeemedMeanwhile(st.history, tx)
            && Transact(tx.req, tx.phase.draw, Alone(st.store)) == Err(TokenInvalid)
  {
    hide Run, Select, Transact, Enabled, Do, RedeemedMeanwhile;
    var first := RedeemedState();
    var st, d := Run(first).value, Drawn(2, "other");
    SecondRead(st);
    RunExtends(first, Read(2));
    SecondDecision(Do(st, Read(2)), d);
    RunExtends(first + [Read(2)], Decide(2, d));
    steps := first + [Read(2)] + [Decide(2, d)];
    RacedRedemptionIsNotSerial(d);
  }

  const BOTH_READ := Tx(
    REDEMPTION, [UNUSED, VERIFIED_USER], [AFTER_REGISTRATION, AFTER_VERIFICATION], [1, 2], Reading)

  lemma SecondRead(st: State)
    requires TokenIsRedeemed(st)
    ensures Enabled(st, Read(2)) && Do(st, Read(2)) == st.(txs := st.txs[2 := BOTH_READ])
  {
    hide Select;
    FirstReads();
    var tx := st.txs[2];
    assert NextQuery(tx.req, tx.view) == Some(UserById(0));
    assert tx.view + [VERIFIED_USER] == BOTH_READ.view && tx.met + [st.store] == BOTH_READ.met;
    assert tx.at + [|st.history|] == BOTH_READ.at;
  }

  lemma SecondDecision(st: State, d: Draw)
    requires 2 in st.txs && st.txs[2] == BOTH_READ && st.history == [REGISTERED, VERIFIED]
    requires IsFresh(st, d) && d.checkedAt <= EMAIL_TOKEN_EXPIRY
    ensures Enabled(st, Decide(2, d))
    ensures var st' := Do(st, Decide(2, d));
            && st'.store == st.store && st'.history == st.history && 2 in st'.txs && st'.txs[2].req == REDEMPTION
            && !st'.txs[2].phase.Reading? && st'.txs[2].phase.draw == d
            && FailedComputing(st'.txs[2]) && st'.txs[2].phase.ending == Failed(EmailAlreadyVerified)
            && RedeemedMeanwhile(st'.history, st'.txs[2])
  {
    assert Compute(REDEMPTION, BOTH_READ.view, d) == Err(EmailAlreadyVerified);
    assert NextQuery(REDEMPTION, BOTH_READ.view).None?;
    assert st.history[1] == VERIFIED && Writes(VERIFIED, OneTimeKey(1));
    hide Compute, NextQuery;
  }

  /**
   * A run whose log does not follow the commits: the user is registered before the email is verified, but
   * the log lists the verification first.
   */
  lemma LogCanInvertCommits() returns (steps: seq<Step>)
    ensures Run(steps).Some?
    ensures var st := Run(steps).value;
            && st.history == [REGISTERED, VERIFIED] && REGISTERED.tx == 0 && VERIFIED.tx == 1
            && st.audit == [Entry(1, UserEmailVerified(0, "a@b.c")), Entry(0, UserCreated(0, "a@b.c"))]
            && Precedes(st.audit, 1, 0)
  {
    hide Run;
    var first := RedeemedState();
    RunExtends(first, Publish(1));
    RunExtends(first + [Publish(1)], Publish(0));
    steps := first + [Publish(1)] + [Publish(0)];
    var audit := Run(steps).value.audit;
    assert audit[0].tx == 1 && audit[1].tx == 0;
  }
}
