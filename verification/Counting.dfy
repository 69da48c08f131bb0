/** Counting the commits of a history, and the versions they leave behind. */
module Counting {
  import opened Stores
  import opened UseCases
  import opened History
  import opened Evolution

  /** How many of the first n commits satisfy p. */
  ghost function Count(h: Log, n: nat, p: Commit -> bool): nat
    requires n <= |h|
  {
    if n == 0 then 0 else Count(h, n - 1, p) + if p(h[n - 1]) then 1 else 0
  }

  ghost predicate IsLogin(c: Commit) {
    c.req.Login?
  }

  ghost predicate IsRotation(c: Commit) {
    c.req.Refresh?
  }

  ghost predicate IsRevocation(c: Commit) {
    c.req.Revoke?
  }

  ghost function Writing(k: Key): Commit -> bool {
    (c: Commit) => Writes(c, k)
  }

  /**
   * Version history: a row exists once some commit wrote it, and its version is the number of commits
   * that did. So committed versions run 1, 2, 3, ... without a gap, and no update is lost.
   */
  lemma {:induction false} VersionCountsCommits(h: Log, n: nat, k: Key)
    requires Legal(h) && n <= |h|
    ensures k in StoreAt(h, n) <==> Count(h, n, Writing(k)) > 0
    ensures k in StoreAt(h, n) ==> StoreAt(h, n)[k].version == Count(h, n, Writing(k))
  {
    hide LegalStep, StoreInvariant, Apply, Writes, Succeeds;
    if n == 0 {
    } else {
      VersionCountsCommits(h, n - 1, k);
      HistoryKeepsInvariant(h, n - 1);
      StepEvolves(StoreAt(h, n - 1), h[n - 1], k);
    }
  }

  /** The same id and version, anywhere in a history, mean the same contents. */
  lemma VersionDeterminesContents(h: Log, a: nat, b: nat, k: Key)
    requires Legal(h) && a <= |h| && b <= |h| && k in StoreAt(h, a) && k in StoreAt(h, b)
    requires StoreAt(h, a)[k].version == StoreAt(h, b)[k].version
    ensures StoreAt(h, a)[k] == StoreAt(h, b)[k]
  {
    if a <= b {
      RowsEvolve(h, a, b, k);
    } else {
      RowsEvolve(h, b, a, k);
    }
    hide Legal, StoreAt, Succeeds;
  }

  /** If a row has another version at b than at a, then some commit in between wrote it. */
  lemma {:induction false} NewVersionHasWriter(h: Log, a: nat, b: nat, k: Key) returns (i: nat)
    requires Legal(h) && a <= b <= |h|
    requires k in StoreAt(h, a) && k in StoreAt(h, b)
    requires StoreAt(h, b)[k].version != StoreAt(h, a)[k].version
    ensures a <= i < b && Writes(h[i], k)
    decreases b - a
  {
    hide LegalStep, StoreInvariant, Apply, Writes, Succeeds;
    HistoryKeepsInvariant(h, b - 1);
    RowsEvolve(h, a, b - 1, k);
    StepEvolves(StoreAt(h, b - 1), h[b - 1], k);
    if Writes(h[b - 1], k) {
      i := b - 1;
    } else {
      i := NewVersionHasWriter(h, a, b - 1, k);
    }
  }
}
