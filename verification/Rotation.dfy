/** Refresh tokens over a serial history: what commits do to them, conservation, and the single winner. */
module Rotation {
  import opened Domain
  import opened Events
  import opened Results
  import opened Stores
  import opened UseCases
  import opened History
  import opened Evolution
  import opened Counting

  ghost predicate IsToken(s: Store, k: Key) {
    k in s && k.RefreshKey? && s[k].row.RefreshRow?
  }

  ghost function Token(s: Store, k: Key): RefreshData
    requires IsToken(s, k)
  {
    s[k].row.rt
  }

  ghost predicate IsLive(s: Store, k: Key) {
    IsToken(s, k) && Token(s, k).revokedAt.None?
  }

  ghost predicate IsReplaced(s: Store, k: Key) {
    IsToken(s, k) && Token(s, k).replacedBy.Some?
  }

  ghost function Tokens(s: Store): set<Key> {
    set k | k in s && IsToken(s, k)
  }

  ghost function LiveTokens(s: Store): set<Key> {
    set k | k in s && IsLive(s, k)
  }

  ghost function ReplacedTokens(s: Store): set<Key> {
    set k | k in s && IsReplaced(s, k)
  }

  ghost function UsableTokens(s: Store, now: Time): set<Key> {
    set k | k in s && IsToken(s, k) && RefreshUsable(Token(s, k), now)
  }

  /** The refresh token that a commit creates, if it creates one. */
  ghost function Created(c: Commit): Option<Key> {
    if c.req.Login? || c.req.Refresh? then Some(RefreshKey(c.draw.tokenId)) else None
  }

  /** The refresh token that a commit ends, if it ends one. */
  ghost function Ended(c: Commit): Option<Key> {
    if c.req.Refresh? || c.req.Revoke? then Some(c.plan.first.key) else None
  }

  ghost function SuccessorOf(c: Commit): Option<Id> {
    if c.req.Refresh? then Some(c.draw.tokenId) else None
  }

  /** A token that the commit does not end stays; a token that it does not create was there. */
  ghost predicate Stays(s: Store, c: Commit, s': Store, k: Key) {
    && (IsToken(s, k) && Ended(c) != Some(k) ==> IsToken(s', k) && Token(s', k) == Token(s, k))
    && (IsToken(s', k) && Created(c) != Some(k) ==> IsToken(s, k))
  }

  ghost predicate Ends(s: Store, c: Commit, s': Store, k: Key) {
    && IsLive(s, k) && !IsReplaced(s, k) && IsToken(s', k) && !IsLive(s', k)
    && Token(s', k) == Token(s, k).(revokedAt := Token(s', k).revokedAt, replacedBy := SuccessorOf(c))
  }

  ghost predicate Creates(s: Store, c: Commit, s': Store, k: Key) {
    && k !in s && IsLive(s', k) && !IsReplaced(s', k)
    && (c.req.Refresh? && IsToken(s, c.plan.first.key) ==>
          Token(s', k).userId == Token(s, c.plan.first.key).userId)
  }

  /** What a commit does to the refresh tokens. */
  ghost predicate TokenStep(s: Store, c: Commit, s': Store) {
    && (forall k :: Stays(s, c, s', k))
    && (Ended(c).Some? ==> Ends(s, c, s', Ended(c).value))
    && (Created(c).Some? ==> Creates(s, c, s', Created(c).value))
  }

  lemma WrittenTokens(s: Store, c: Commit)
    requires StoreInvariant(s) && LegalStep(s, c)
    ensures forall k: Key :: k.RefreshKey? ==> (Writes(c, k) <==> Ended(c) == Some(k) || Created(c) == Some(k))
    ensures Ended(c).Some? ==> EndsRefresh(s, c.plan.first, SuccessorOf(c))
    ensures Created(c).Some? ==>
              && c.plan.second.Some? && c.plan.second.value.Insert? && c.plan.second.value.key == Created(c).value
              && Created(c).value !in s && c.plan.second.value.row.RefreshRow?
              && c.plan.second.value.row.rt.revokedAt.None? && c.plan.second.value.row.rt.replacedBy.None?
              && (Ended(c).Some? && Ended(c).value in s && s[Ended(c).value].row.RefreshRow? ==>
                    c.plan.second.value.row.rt.userId == s[Ended(c).value].row.rt.userId)
  {
    LegalStepHasShape(s, c);
    hide LegalStep, StoreInvariant;
  }

  lemma LegalTokenStep(s: Store, c: Commit)
    requires StoreInvariant(s) && LegalStep(s, c)
    ensures TokenStep(s, c, Apply(s, c.plan))
  {
    var s' := Apply(s, c.plan);
    hide LegalStep, StoreInvariant, Apply, Ends, Creates, Stays;
    forall k ensures Stays(s, c, s', k) {
      TokenStays(s, c, k);
    }
    if Ended(c).Some? {
      TokenEnds(s, c);
    }
    if Created(c).Some? {
      TokenIsCreated(s, c);
    }
  }

  lemma TokenStays(s: Store, c: Commit, k: Key)
    requires StoreInvariant(s) && LegalStep(s, c)
    ensures Stays(s, c, Apply(s, c.plan), k)
  {
    hide LegalStep, StoreInvariant, Apply, PlanFits, Succeeds, Writes;
    WrittenTokens(s, c);
    LegalPlanFits(s, c);
    AppliedCell(s, c, k);
  }

  lemma TokenEnds(s: Store, c: Commit)
    requires StoreInvariant(s) && LegalStep(s, c) && Ended(c).Some?
    ensures Ends(s, c, Apply(s, c.plan), Ended(c).value)
  {
    hide LegalStep, StoreInvariant, Apply, PlanFits, Succeeds;
    WrittenTokens(s, c);
    LegalPlanFits(s, c);
    AppliedCell(s, c, c.plan.first.key);
  }

  lemma TokenIsCreated(s: Store, c: Commit)
    requires StoreInvariant(s) && LegalStep(s, c) && Created(c).Some?
    ensures Creates(s, c, Apply(s, c.plan), Created(c).value)
  {
    hide LegalStep, StoreInvariant, Apply, Fits, Succeeds;
    WrittenTokens(s, c);
    LegalPlanFits(s, c);
    AppliedCell(s, c, Created(c).value);
  }

  lemma HistoryTokenStep(h: Log, n: nat)
    requires Legal(h) && n < |h|
    ensures TokenStep(StoreAt(h, n), h[n], StoreAt(h, n + 1))
  {
    hide LegalStep, StoreInvariant, Apply, TokenStep;
    HistoryKeepsInvariant(h, n);
    LegalTokenStep(StoreAt(h, n), h[n]);
  }

  // ---- Conservation

  lemma Membership(s: Store, c: Commit, s': Store, k: Key)
    requires TokenStep(s, c, s')
    ensures IsToken(s', k) <==> IsToken(s, k) || Created(c) == Some(k)
    ensures IsReplaced(s', k) <==> IsReplaced(s, k) || (c.req.Refresh? && Ended(c) == Some(k))
    ensures IsLive(s', k) <==> (IsLive(s, k) || Created(c) == Some(k)) && Ended(c) != Some(k)
  {
    assert Stays(s, c, s', k);
  }

  lemma TokensGrow(s: Store, c: Commit, s': Store)
    requires TokenStep(s, c, s')
    ensures |Tokens(s')| == |Tokens(s)| + if Created(c).Some? then 1 else 0
  {
    forall k ensures IsToken(s', k) <==> IsToken(s, k) || Created(c) == Some(k) { Membership(s, c, s', k); }
    if Created(c).Some? {
      assert !IsToken(s, Created(c).value);
      hide TokenStep, IsToken, Created;
      assert Tokens(s') == Tokens(s) + {Created(c).value};
    } else {
      assert Tokens(s') == Tokens(s);
    }
  }

  lemma ReplacedTokensGrow(s: Store, c: Commit, s': Store)
    requires TokenStep(s, c, s')
    ensures |ReplacedTokens(s')| == |ReplacedTokens(s)| + if c.req.Refresh? then 1 else 0
  {
    forall k ensures IsReplaced(s', k) <==> IsReplaced(s, k) || (c.req.Refresh? && Ended(c) == Some(k)) {
      Membership(s, c, s', k);
    }
    if c.req.Refresh? {
      var ended := Ended(c).value;
      assert !IsReplaced(s, ended);
      hide TokenStep, IsReplaced, Ended;
      assert ReplacedTokens(s') == ReplacedTokens(s) + {ended};
    } else {
      assert ReplacedTokens(s') == ReplacedTokens(s);
    }
  }

  lemma LiveTokensChange(s: Store, c: Commit, s': Store)
    requires TokenStep(s, c, s')
    ensures |LiveTokens(s')| + (if c.req.Revoke? then 1 else 0) == |LiveTokens(s)| + if c.req.Login? then 1 else 0
  {
    var s1, s2 := LiveTokens(s), LiveTokens(s');
    var created := if Created(c).Some? then {Created(c).value} else {};
    var ended := if Ended(c).Some? then {Ended(c).value} else {};
    assert created !! s1;
    assert ended <= s1;
    forall k ensures k in s2 <==> (k in s1 || k in created) && k !in ended { Membership(s, c, s', k); }
    hide TokenStep, IsLive, LiveTokens;
    ChangedSize(s1, created, ended, s2);
  }

  lemma ChangedSize<T>(before: set<T>, created: set<T>, ended: set<T>, after: set<T>)
    requires created !! before && ended <= before
    requires forall k :: k in after <==> (k in before || k in created) && k !in ended
    ensures |after| + |ended| == |before| + |created|
  {
    assert after == before + created - ended;
    assert |before + created| == |before| + |created|;
    assert |before + created - ended| == |before + created| - |ended|;
  }

  /**
   * Conservation over whole runs: tokens are logins plus rotations, replaced tokens are rotations, and
   * unrevoked tokens are logins minus direct revocations.
   */
  lemma {:induction false} TokensAreConserved(h: Log, n: nat)
    requires Legal(h) && n <= |h|
    ensures |Tokens(StoreAt(h, n))| == Count(h, n, IsLogin) + Count(h, n, IsRotation)
    ensures |ReplacedTokens(StoreAt(h, n))| == Count(h, n, IsRotation)
    ensures |LiveTokens(StoreAt(h, n))| + Count(h, n, IsRevocation) == Count(h, n, IsLogin)
  {
    hide LegalStep, Apply, TokenStep, IsToken, IsLive, IsReplaced;
    if n == 0 {
    } else {
      TokensAreConserved(h, n - 1);
      HistoryTokenStep(h, n - 1);
      TokensGrow(StoreAt(h, n - 1), h[n - 1], StoreAt(h, n));
      ReplacedTokensGrow(StoreAt(h, n - 1), h[n - 1], StoreAt(h, n));
      LiveTokensChange(StoreAt(h, n - 1), h[n - 1], StoreAt(h, n));
    }
  }

  /** At no time are more tokens usable than logins were committed and not directly revoked. */
  lemma UsableTokensNeverExceedLogins(h: Log, n: nat, now: Time)
    requires Legal(h) && n <= |h|
    ensures |UsableTokens(StoreAt(h, n), now)| + Count(h, n, IsRevocation) <= Count(h, n, IsLogin)
  {
    TokensAreConserved(h, n);
    hide Legal, StoreAt, Count;
    var s := StoreAt(h, n);
    assert UsableTokens(s, now) <= LiveTokens(s);
    SubsetIsSmaller(UsableTokens(s, now), LiveTokens(s));
  }

  lemma SubsetIsSmaller<T>(a: set<T>, b: set<T>)
    requires a <= b
    ensures |a| <= |b|
  {
    assert |b - a| + |a| == |b| by {
      assert (b - a) + a == b;
    }
  }

  // ---- One winner per token

  ghost predicate Spends(c: Commit, k: Key) {
    Ended(c) == Some(k)
  }

  ghost function Spending(k: Key): Commit -> bool {
    (c: Commit) => Spends(c, k)
  }

  /** Of all refreshes and revocations of a token at most one commits, and it does once the token is revoked. */
  lemma {:induction false} OneWinnerPerToken(h: Log, n: nat, k: Key)
    requires Legal(h) && n <= |h|
    ensures Count(h, n, Spending(k)) <= 1
    ensures Count(h, n, Spending(k)) == 1 <==> IsToken(StoreAt(h, n), k) && !IsLive(StoreAt(h, n), k)
  {
    hide LegalStep, Apply;
    if n == 0 {
    } else {
      OneWinnerPerToken(h, n - 1, k);
      HistoryTokenStep(h, n - 1);
      assert Stays(StoreAt(h, n - 1), h[n - 1], StoreAt(h, n), k);
    }
  }

  /** A token is replaced exactly if some rotation of it was committed. */
  lemma {:induction false} ReplacedIffRotated(h: Log, n: nat, k: Key)
    requires Legal(h) && n <= |h|
    ensures IsReplaced(StoreAt(h, n), k) <==> exists i: nat :: i < n && h[i].req.Refresh? && Ended(h[i]) == Some(k)
  {
    hide LegalStep, Apply, Ended;
    if n == 0 {
    } else {
      ReplacedIffRotated(h, n - 1, k);
      HistoryTokenStep(h, n - 1);
      hide TokenStep;
      Membership(StoreAt(h, n - 1), h[n - 1], StoreAt(h, n), k);
    }
  }

  /** `revoked_at` and `replaced_by_id` are write-once: a revoked token never changes again. */
  lemma RevocationIsFinal(h: Log, a: nat, b: nat, k: Key)
    requires Legal(h) && a <= b <= |h|
    requires IsToken(StoreAt(h, a), k) && !IsLive(StoreAt(h, a), k)
    ensures IsToken(StoreAt(h, b), k) && Token(StoreAt(h, b), k) == Token(StoreAt(h, a), k)
  {
    RowsEvolve(h, a, b, k);
    hide Legal, StoreAt;
  }
}
