/** What holds in every run of any number of concurrent use cases: the serial results, carried over. */
module Guarantees {
  import opened Domain
  import opened Events
  import opened Results
  import opened Stores
  import opened UseCases
  import opened History
  import opened Evolution
  import opened Counting
  import opened Rotation
  import opened Chains
  import opened Redemption
  import opened Machine
  import opened Consistency
  import opened Serializability
  import EmailValidator

  lemma RunHasLegalHistory(steps: seq<Step>)
    requires Run(steps).Some?
    ensures var st := Run(steps).value; Legal(st.history) && st.store == StoreAt(st.history, |st.history|)
  {
    EveryRunIsSerializable(steps);
    hide Run, Legal, StoreAt, RunSerially, HistoryRecords;
  }

  lemma StepExtendsHistory(st: State, step: Step)
    requires Enabled(st, step)
    ensures st.history <= Do(st, step).history
  {
    hide Compute, NextQuery, Select, SaveError, ReuseReport, Apply, Free, IsFresh;
  }

  /** History is append-only: the history of an earlier state of a run is a prefix of the later one. */
  lemma {:induction false} HistoryOnlyGrows(steps: seq<Step>, n: nat)
    requires n <= |steps| && Run(steps).Some?
    ensures Run(steps[..n]).Some? && Run(steps[..n]).value.history <= Run(steps).value.history
    decreases |steps|
  {
    hide Enabled, Do;
    if n < |steps| {
      var before := steps[..|steps| - 1];
      assert before[..n] == steps[..n];
      HistoryOnlyGrows(before, n);
      StepExtendsHistory(Run(before).value, steps[|steps| - 1]);
    } else {
      assert steps[..n] == steps;
    }
  }

  lemma {:induction false} StoreAtOfPrefix(h: Log, g: Log, n: nat)
    requires h <= g && n <= |h|
    ensures StoreAt(h, n) == StoreAt(g, n)
  {
    hide Apply;
    if n == 0 {
    } else {
      StoreAtOfPrefix(h, g, n - 1);
    }
  }

  /** The rows of every earlier state of a run are a point of the final history. */
  lemma EarlierStoreIsInHistory(steps: seq<Step>, n: nat)
    requires n <= |steps| && Run(steps).Some?
    ensures Run(steps[..n]).Some?
    ensures var a, b := Run(steps[..n]).value, Run(steps).value;
            |a.history| <= |b.history| && a.store == StoreAt(b.history, |a.history|)
  {
    HistoryOnlyGrows(steps, n);
    RunHasLegalHistory(steps[..n]);
    hide Run, StoreAt, Legal;
    StoreAtOfPrefix(Run(steps[..n]).value.history, Run(steps).value.history, |Run(steps[..n]).value.history|);
  }

  /**
   * In every reachable state: as many tokens as logins and rotations, and no more usable ones than logins
   * that were not revoked.
   */
  lemma TokensAreConservedInEveryRun(steps: seq<Step>, now: Time)
    requires Run(steps).Some?
    ensures var st := Run(steps).value;
            var logins, rotations, revocations :=
              Count(st.history, |st.history|, IsLogin), Count(st.history, |st.history|, IsRotation),
              Count(st.history, |st.history|, IsRevocation);
            && |Tokens(st.store)| == logins + rotations
            && |ReplacedTokens(st.store)| == rotations
            && |LiveTokens(st.store)| == logins - revocations
            && |UsableTokens(st.store, now)| <= logins - revocations
  {
    RunHasLegalHistory(steps);
    hide Run, Legal, StoreAt, Count;
    var h := Run(steps).value.history;
    TokensAreConserved(h, |h|);
    UsableTokensNeverExceedLogins(h, |h|, now);
  }

  /** In every run a revoked token never changes again, and at most one refresh or revocation of it commits. */
  lemma OneWinnerInEveryRun(steps: seq<Step>, n: nat, k: Key)
    requires n <= |steps| && Run(steps).Some?
    ensures Run(steps[..n]).Some?
    ensures var a, b := Run(steps[..n]).value, Run(steps).value;
            && Count(b.history, |b.history|, Spending(k)) <= 1
            && (IsToken(a.store, k) && !IsLive(a.store, k) ==>
                  IsToken(b.store, k) && Token(b.store, k) == Token(a.store, k))
  {
    EarlierStoreIsInHistory(steps, n);
    RunHasLegalHistory(steps);
    hide Run, Legal, StoreAt, Count, IsLive;
    var a, b := Run(steps[..n]).value, Run(steps).value;
    OneWinnerPerToken(b.history, |b.history|, k);
    if IsToken(a.store, k) && !IsLive(a.store, k) {
      RevocationIsFinal(b.history, |a.history|, |b.history|, k);
    }
  }

  /** In every reachable state the links from any token lead along a simple chain to a tip. */
  lemma ChainsInEveryRun(steps: seq<Step>, k: Key)
    requires Run(steps).Some? && IsToken(Run(steps).value.store, k)
    ensures var st := Run(steps).value;
            && Legal(st.history) && st.store == StoreAt(st.history, |st.history|)
            && var w := Walk(st.history, |st.history|, k);
               && (forall i: nat :: i < |w| ==> OnChain(st.store, w, i, Token(st.store, k).userId))
               && (forall i: nat, j: nat :: i < j < |w| ==> w[i] != w[j])
  {
    RunHasLegalHistory(steps);
    hide Run, Legal, StoreAt, Walk, OnChain;
    var st := Run(steps).value;
    WalkIsSimpleChain(st.history, |st.history|, k);
  }

  /** In every reachable state a user has one used VERIFY_EMAIL token if verified and none otherwise, and as many
      used RECOVER_PASSWORD tokens as recoveries were committed. */
  lemma RedeemedOnceInEveryRun(steps: seq<Step>, userId: Id)
    requires Run(steps).Some?
    ensures var st := Run(steps).value;
            && |UsedTokens(st.store, userId, VERIFY_EMAIL)| == (if IsVerified(st.store, userId) then 1 else 0)
            && |UsedTokens(st.store, userId, RECOVER_PASSWORD)|
               == Count(st.history, |st.history|, Redeeming(userId, RECOVER_PASSWORD))
  {
    RunHasLegalHistory(steps);
    hide Run, Legal, StoreAt, Count, UsedTokens, IsVerified;
    var h := Run(steps).value.history;
    VerifiedIffOneUsedToken(h, |h|, userId);
    UsedTokensCountRedemptions(h, |h|, userId, RECOVER_PASSWORD);
  }

  /** In every run the version of a row counts the commits that wrote it, and determines its contents. */
  lemma VersionsInEveryRun(steps: seq<Step>, n: nat, k: Key)
    requires n <= |steps| && Run(steps).Some?
    ensures Run(steps[..n]).Some?
    ensures var a, b := Run(steps[..n]).value, Run(steps).value;
            && (k in b.store ==> b.store[k].version == Count(b.history, |b.history|, Writing(k)))
            && (k in a.store ==> k in b.store)
            && (k in a.store && a.store[k].version == b.store[k].version ==> a.store[k] == b.store[k])
  {
    EarlierStoreIsInHistory(steps, n);
    RunHasLegalHistory(steps);
    hide Run, Legal, StoreAt, Count;
    var a, b := Run(steps[..n]).value, Run(steps).value;
    VersionCountsCommits(b.history, |b.history|, k);
    if k in a.store {
      RowsEvolve(b.history, |a.history|, |b.history|, k);
    }
  }

  // ---- Emails

  /** No lookup of an email that is not in canonical form ever finds a user. */
  lemma OnlyCanonicalEmailsAreFound(h: Log, n: nat, email: string)
    requires Legal(h) && n <= |h| && Select(StoreAt(h, n), UserByEmail(email)).Some?
    ensures EmailValidator.Canonical(email)
  {
    HistoryKeepsInvariant(h, n);
    hide Legal, StoreAt, UniqueHits, EmailValidator.Canonical;
    assert RowInvariant(StoreAt(h, n), Select(StoreAt(h, n), UserByEmail(email)).value.key);
  }

  /**
   * A user is found again by the very text of its registration exactly if that text was canonical:
   * the email is normalised when the user is created, but not when it is looked up.
   */
  lemma RegisteredTextIsFoundIffCanonical(h: Log, i: nat, n: nat)
    requires Legal(h) && i < n <= |h| && h[i].req.Register? && h[i].plan.first.Insert?
    ensures Select(StoreAt(h, n), UserByEmail(h[i].req.email)).Some? <==> EmailValidator.Canonical(h[i].req.email)
  {
    hide Legal, StoreAt, Select, EmailValidator.Canonical;
    if EmailValidator.Canonical(h[i].req.email) {
      RegisteredUserIsFound(h, i);
      StillSelected(h, i + 1, n, UserByEmail(h[i].req.email));
    }
    if Select(StoreAt(h, n), UserByEmail(h[i].req.email)).Some? {
      OnlyCanonicalEmailsAreFound(h, n, h[i].req.email);
    }
  }

  lemma RegisteredUserIsFound(h: Log, i: nat)
    requires Legal(h) && i < |h| && h[i].req.Register? && h[i].plan.first.Insert?
    requires EmailValidator.Canonical(h[i].req.email)
    ensures Select(StoreAt(h, i + 1), UserByEmail(h[i].req.email)).Some?
  {
    RegisteredUserIsThere(h, i);
    hide Legal, StoreAt, EmailValidator.Canonical;
  }

  lemma RegisteredUserIsThere(h: Log, i: nat)
    requires Legal(h) && i < |h| && h[i].req.Register? && h[i].plan.first.Insert?
    requires EmailValidator.Canonical(h[i].req.email)
    ensures h[i].plan.first.key in StoreAt(h, i + 1)
    ensures Matches(UserByEmail(h[i].req.email), h[i].plan.first.key, StoreAt(h, i + 1)[h[i].plan.first.key].row)
  {
    var s, c := StoreAt(h, i), h[i];
    HistoryKeepsInvariant(h, i);
    LegalPlanFits(s, c);
    AppliedCell(s, c, c.plan.first.key);
    EmailValidator.CanonicalIffUnchanged(c.req.email);
    InsertedEmail(s, c);
    hide Legal, LegalStep, StoreInvariant, EmailValidator.Canonical, EmailValidator.ValidateEmail, Apply, Succeeds;
  }

  lemma InsertedEmail(s: Store, c: Commit)
    requires StoreInvariant(s) && LegalStep(s, c) && c.req.Register? && c.plan.first.Insert?
    ensures c.plan.first.row.UserRow?
    ensures EmailValidator.ValidateEmail(Text(c.req.email)) == Ok(c.plan.first.row.user.email)
  {
    hide EmailValidator.ValidateEmail, StoreInvariant, Fresh, SaveError;
    var r := Select(s, UserByEmail(c.req.email));
    assert View(c.req, Alone(s)) == [r];
    assert Compute(c.req, [r], c.draw) == Ok(c.plan);
  }
}
