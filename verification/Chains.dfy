/** The rotation forest: the `replaced_by_id` links of a store form disjoint simple chains, one per login. */
module Chains {
  import opened Domain
  import opened Events
  import opened Results
  import opened Stores
  import opened UseCases
  import opened History
  import opened Evolution
  import opened Rotation

  ghost function Successor(s: Store, k: Key): Option<Key>
    requires IsToken(s, k)
  {
    if Token(s, k).replacedBy.Some? then Some(RefreshKey(Token(s, k).replacedBy.value)) else None
  }

  /** The number of commits after which the row first existed. */
  ghost function Birth(h: Log, n: nat, k: Key): (b: nat)
    requires n <= |h| && k in StoreAt(h, n)
    ensures 0 < b <= n && k in StoreAt(h, b) && k !in StoreAt(h, b - 1)
  {
    if n > 0 && k in StoreAt(h, n - 1) then Birth(h, n - 1, k) else n
  }

  /** The commit that inserted the row. */
  ghost function Maker(h: Log, n: nat, k: Key): Commit
    requires n <= |h| && k in StoreAt(h, n)
  {
    h[Birth(h, n, k) - 1]
  }

  /** A link points to a token of the same user that its own commit created, later than the linking token. */
  lemma {:induction false} LinkLeadsOn(h: Log, n: nat, k: Key)
    requires Legal(h) && n <= |h| && IsToken(StoreAt(h, n), k) && Successor(StoreAt(h, n), k).Some?
    ensures var t := Successor(StoreAt(h, n), k).value;
            && IsToken(StoreAt(h, n), t)
            && Token(StoreAt(h, n), t).userId == Token(StoreAt(h, n), k).userId
            && Birth(h, n, k) < Birth(h, n, t)
            && Maker(h, n, t).req.Refresh? && Maker(h, n, t).plan.first.key == k
  {
    hide LegalStep, Apply, StoreInvariant;
    var s, c, s' := StoreAt(h, n - 1), h[n - 1], StoreAt(h, n);
    var t := Successor(s', k).value;
    HistoryTokenStep(h, n - 1);
    assert Stays(s, c, s', k) && Stays(s, c, s', t);
    if Ended(c) != Some(k) {
      LinkLeadsOn(h, n - 1, k);
    }
  }

  /** No two tokens share a successor. */
  lemma LinksAreInjective(h: Log, n: nat, k1: Key, k2: Key)
    requires Legal(h) && n <= |h| && IsToken(StoreAt(h, n), k1) && IsToken(StoreAt(h, n), k2)
    requires Successor(StoreAt(h, n), k1).Some? && Successor(StoreAt(h, n), k1) == Successor(StoreAt(h, n), k2)
    ensures k1 == k2
  {
    LinkLeadsOn(h, n, k1);
    LinkLeadsOn(h, n, k2);
  }

  /** A token that a rotation made is the successor of the token which that rotation ended. */
  lemma {:induction false} RotatedTokenHasPredecessor(h: Log, n: nat, k: Key)
    requires Legal(h) && n <= |h| && IsToken(StoreAt(h, n), k) && Maker(h, n, k).req.Refresh?
    ensures var p := Maker(h, n, k).plan.first.key;
            && IsToken(StoreAt(h, n), p) && Successor(StoreAt(h, n), p) == Some(k)
            && Birth(h, n, p) < Birth(h, n, k)
  {
    hide LegalStep, Apply, StoreInvariant;
    var s, c, s' := StoreAt(h, n - 1), h[n - 1], StoreAt(h, n);
    var p := Maker(h, n, k).plan.first.key;
    HistoryTokenStep(h, n - 1);
    assert Stays(s, c, s', k) && Stays(s, c, s', p);
    if k in s {
      RotatedTokenHasPredecessor(h, n - 1, k);
      assert IsReplaced(s, p) && Ended(c) != Some(p);
      hide Ends, Creates;
    } else {
      assert Created(c) == Some(k) && Birth(h, n, k) == n;
      hide Stays, Creates;
    }
  }

  /** A token is made by a login or by a rotation. */
  lemma {:induction false} MakerIsLoginOrRotation(h: Log, n: nat, k: Key)
    requires Legal(h) && n <= |h| && IsToken(StoreAt(h, n), k)
    ensures Maker(h, n, k).req.Login? || Maker(h, n, k).req.Refresh?
    ensures Created(Maker(h, n, k)) == Some(k)
  {
    hide LegalStep, Apply, StoreInvariant;
    HistoryTokenStep(h, n - 1);
    assert Stays(StoreAt(h, n - 1), h[n - 1], StoreAt(h, n), k);
    if k in StoreAt(h, n - 1) {
      HistoryKeepsInvariant(h, n - 1);
      TokensAreRows(h, n - 1, k);
      MakerIsLoginOrRotation(h, n - 1, k);
    }
  }

  /** Whatever sits under a refresh-token key is a token. */
  lemma TokensAreRows(h: Log, n: nat, k: Key)
    requires Legal(h) && n <= |h| && k in StoreAt(h, n) && k.RefreshKey?
    ensures IsToken(StoreAt(h, n), k)
  {
    HistoryKeepsInvariant(h, n);
    hide Legal, StoreAt, UniqueHits;
    assert RowInvariant(StoreAt(h, n), k);
  }

  /**
   * In every store, the tokens with exactly one predecessor are those made by a rotation; the others
   * were made by a login and have none.
   */
  lemma PredecessorIffRotated(h: Log, n: nat, k: Key)
    requires Legal(h) && n <= |h| && IsToken(StoreAt(h, n), k)
    ensures Maker(h, n, k).req.Login? <==> !Maker(h, n, k).req.Refresh?
    ensures Maker(h, n, k).req.Refresh?
            <==> exists p :: IsToken(StoreAt(h, n), p) && Successor(StoreAt(h, n), p) == Some(k)
  {
    MakerIsLoginOrRotation(h, n, k);
    if Maker(h, n, k).req.Refresh? {
      RotatedTokenHasPredecessor(h, n, k);
    }
    hide Legal, StoreAt, Birth, Successor;
    if p :| IsToken(StoreAt(h, n), p) && Successor(StoreAt(h, n), p) == Some(k) {
      LinkLeadsOn(h, n, p);
    }
  }

  // ---- Walking a chain

  /** The tokens met by following the links from k. */
  ghost function Walk(h: Log, n: nat, k: Key): (w: seq<Key>)
    requires Legal(h) && n <= |h| && IsToken(StoreAt(h, n), k)
    ensures |w| > 0 && w[0] == k
    decreases n - Birth(h, n, k)
  {
    match Successor(StoreAt(h, n), k)
    case None => [k]
    case Some(t) => LinkLeadsOn(h, n, k); [k] + Walk(h, n, t)
  }

  lemma WalkUnfolds(h: Log, n: nat, k: Key)
    requires Legal(h) && n <= |h| && IsToken(StoreAt(h, n), k)
    ensures Successor(StoreAt(h, n), k).None? ==> Walk(h, n, k) == [k]
    ensures Successor(StoreAt(h, n), k).Some? ==>
              var t := Successor(StoreAt(h, n), k).value;
              && IsToken(StoreAt(h, n), t) && Token(StoreAt(h, n), t).userId == Token(StoreAt(h, n), k).userId
              && Birth(h, n, k) < Birth(h, n, t)
              && !IsLive(StoreAt(h, n), k)
              && Walk(h, n, k) == [k] + Walk(h, n, t)
  {
    hide Legal, StoreAt, Token, IsLive;
    if Successor(StoreAt(h, n), k).Some? {
      LinkLeadsOn(h, n, k);
      ReplacedIsRevoked(h, n, k);
    }
  }

  lemma {:induction false} WalkStaysWithUser(h: Log, n: nat, k: Key, i: nat)
    requires Legal(h) && n <= |h| && IsToken(StoreAt(h, n), k) && i < |Walk(h, n, k)|
    ensures IsToken(StoreAt(h, n), Walk(h, n, k)[i])
    ensures Token(StoreAt(h, n), Walk(h, n, k)[i]).userId == Token(StoreAt(h, n), k).userId
    ensures i > 0 ==> Birth(h, n, k) < Birth(h, n, Walk(h, n, k)[i])
    decreases i
  {
    hide Legal, StoreAt, Birth, IsToken, Token, Successor, Walk, IsLive;
    if i == 0 {
    } else {
      WalkUnfolds(h, n, k);
      WalkStaysWithUser(h, n, Successor(StoreAt(h, n), k).value, i - 1);
    }
  }

  lemma {:induction false} WalkFollowsLinks(h: Log, n: nat, k: Key, i: nat)
    requires Legal(h) && n <= |h| && IsToken(StoreAt(h, n), k) && i < |Walk(h, n, k)|
    ensures var w := Walk(h, n, k);
            && IsToken(StoreAt(h, n), w[i])
            && Successor(StoreAt(h, n), w[i]) == (if i == |w| - 1 then None else Some(w[i + 1]))
            && (i < |w| - 1 ==> !IsLive(StoreAt(h, n), w[i]))
    decreases i
  {
    hide Legal, StoreAt, Birth, IsToken, Token, Successor, Walk, IsLive;
    WalkUnfolds(h, n, k);
    if i == 0 {
    } else {
      WalkFollowsLinks(h, n, Successor(StoreAt(h, n), k).value, i - 1);
    }
  }

  lemma {:induction false} WalkNeverReturns(h: Log, n: nat, k: Key, i: nat, j: nat)
    requires Legal(h) && n <= |h| && IsToken(StoreAt(h, n), k) && i < j < |Walk(h, n, k)|
    ensures Walk(h, n, k)[i] != Walk(h, n, k)[j]
    decreases i
  {
    hide Legal, StoreAt, Birth, IsToken, Token, Successor, Walk, IsLive;
    WalkStaysWithUser(h, n, k, j);
    WalkUnfolds(h, n, k);
    if i == 0 {
    } else {
      WalkNeverReturns(h, n, Successor(StoreAt(h, n), k).value, i - 1, j - 1);
    }
  }

  /** A token of the given user, linked to the next of the walk and revoked unless it is the last. */
  ghost predicate OnChain(s: Store, w: seq<Key>, i: nat, userId: Id)
    requires i < |w|
  {
    && IsToken(s, w[i]) && Token(s, w[i]).userId == userId
    && Successor(s, w[i]) == (if i == |w| - 1 then None else Some(w[i + 1]))
    && (i < |w| - 1 ==> !IsLive(s, w[i]))
  }

  /**
   * A walk is a finite chain: it consists of tokens of one user, follows the links to a token without a
   * successor, has revoked every token before that, and never meets a token twice.
   */
  lemma WalkIsSimpleChain(h: Log, n: nat, k: Key)
    requires Legal(h) && n <= |h| && IsToken(StoreAt(h, n), k)
    ensures forall i: nat :: i < |Walk(h, n, k)| ==>
              OnChain(StoreAt(h, n), Walk(h, n, k), i, Token(StoreAt(h, n), k).userId)
    ensures forall i: nat, j: nat :: i < j < |Walk(h, n, k)| ==> Walk(h, n, k)[i] != Walk(h, n, k)[j]
  {
    hide Legal, StoreAt, Birth, IsToken, Token, Successor, IsLive, Walk;
    forall i: nat | i < |Walk(h, n, k)|
      ensures OnChain(StoreAt(h, n), Walk(h, n, k), i, Token(StoreAt(h, n), k).userId)
    {
      WalkStaysWithUser(h, n, k, i);
      WalkFollowsLinks(h, n, k, i);
    }
    forall i: nat, j: nat | i < j < |Walk(h, n, k)| ensures Walk(h, n, k)[i] != Walk(h, n, k)[j] {
      WalkNeverReturns(h, n, k, i, j);
    }
  }

  lemma ReplacedIsRevoked(h: Log, n: nat, k: Key)
    requires Legal(h) && n <= |h| && IsToken(StoreAt(h, n), k) && Successor(StoreAt(h, n), k).Some?
    ensures !IsLive(StoreAt(h, n), k)
  {
    HistoryKeepsInvariant(h, n);
    hide Legal, StoreAt, UniqueHits;
    assert RowInvariant(StoreAt(h, n), k);
  }

  /** The login-made token at the start of the chain that k is on. */
  ghost function Root(h: Log, n: nat, k: Key): (r: Key)
    requires Legal(h) && n <= |h| && IsToken(StoreAt(h, n), k)
    ensures IsToken(StoreAt(h, n), r) && Maker(h, n, r).req.Login?
    decreases Birth(h, n, k)
  {
    MakerIsLoginOrRotation(h, n, k);
    if Maker(h, n, k).req.Refresh? then
      RotatedTokenHasPredecessor(h, n, k);
      Root(h, n, Maker(h, n, k).plan.first.key)
    else k
  }

  lemma {:induction false} WalkKeepsRoot(h: Log, n: nat, a: Key, x: Key)
    requires Legal(h) && n <= |h| && IsToken(StoreAt(h, n), a) && x in Walk(h, n, a)
    ensures IsToken(StoreAt(h, n), x) && Root(h, n, x) == Root(h, n, a)
    decreases n - Birth(h, n, a)
  {
    if x != a {
      LinkLeadsOn(h, n, a);
      var t := Successor(StoreAt(h, n), a).value;
      hide Legal, StoreAt, Birth, IsToken, Token;
      WalkKeepsRoot(h, n, t, x);
      assert Root(h, n, t) == Root(h, n, a);
    }
  }

  lemma {:induction false} WalkIsClosed(h: Log, n: nat, a: Key, p: Key)
    requires Legal(h) && n <= |h| && IsToken(StoreAt(h, n), a) && p in Walk(h, n, a)
    requires IsToken(StoreAt(h, n), p) && Successor(StoreAt(h, n), p).Some?
    ensures Successor(StoreAt(h, n), p).value in Walk(h, n, a)
    decreases n - Birth(h, n, a)
  {
    hide Legal, StoreAt, Birth, IsToken, Token, Successor, Walk, IsLive;
    WalkUnfolds(h, n, a);
    if Successor(StoreAt(h, n), a).Some? {
      var t := Successor(StoreAt(h, n), a).value;
      if p != a {
        WalkIsClosed(h, n, t, p);
      } else {
        assert t == Walk(h, n, t)[0];
      }
    }
  }

  /**
   * The forest: the chains that start at the login-made tokens partition the tokens. Each token x is on
   * the chain of Root(x), and on no other one.
   */
  lemma {:induction false} ChainsPartitionTokens(h: Log, n: nat, a: Key, x: Key)
    requires Legal(h) && n <= |h| && IsToken(StoreAt(h, n), a) && Maker(h, n, a).req.Login?
    requires IsToken(StoreAt(h, n), x)
    ensures x in Walk(h, n, a) <==> Root(h, n, x) == a
    decreases Birth(h, n, x)
  {
    if x in Walk(h, n, a) {
      WalkKeepsRoot(h, n, a, x);
    }
    MakerIsLoginOrRotation(h, n, x);
    if Root(h, n, x) == a && Maker(h, n, x).req.Refresh? {
      RotatedTokenHasPredecessor(h, n, x);
      var p := Maker(h, n, x).plan.first.key;
      hide Legal, StoreAt, Birth, IsToken, Token;
      ChainsPartitionTokens(h, n, a, p);
      WalkIsClosed(h, n, a, p);
    }
  }

  /** Of the tokens that descend from one login at most one is live. */
  lemma OneLiveTokenPerLogin(h: Log, n: nat, x: Key, y: Key)
    requires Legal(h) && n <= |h| && IsLive(StoreAt(h, n), x) && IsLive(StoreAt(h, n), y)
    requires Root(h, n, x) == Root(h, n, y)
    ensures x == y
  {
    hide Legal, StoreAt, Birth, IsToken, Token, Successor, Walk;
    var a := Root(h, n, x);
    ChainsPartitionTokens(h, n, a, x);
    ChainsPartitionTokens(h, n, a, y);
    WalkIsSimpleChain(h, n, a);
    var w := Walk(h, n, a);
    var i: nat :| i < |w| && w[i] == x;
    var j: nat :| j < |w| && w[j] == y;
    hide Root;
    assert OnChain(StoreAt(h, n), w, i, Token(StoreAt(h, n), a).userId);
    assert OnChain(StoreAt(h, n), w, j, Token(StoreAt(h, n), a).userId);
  }
}
