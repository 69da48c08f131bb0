/** The paged view of the audit log, newest first, while new events may arrive. */
module EventsPage {
  import opened Events
  import opened EventQueues

  const PER_PAGE := 10

  /** One page view: what it showed, and the log when it read the page and when it probed for more. */
  datatype Visit = Visit(shown: seq<Event>, hasNext: bool, log: seq<Event>, probed: seq<Event>)

  /** What a view of page number `page` (from 1) gives, with both of its reads taken at some instant. */
  ghost predicate Views(v: Visit, page: nat)
    requires page >= 1
  {
    && v.shown == Page(v.log, (page - 1) * PER_PAGE, PER_PAGE, true)
    && (v.hasNext <==> |v.probed| > page * PER_PAGE)
    && v.log <= v.probed
  }

  /** The page arithmetic of the events page; the arrivals come between the commands of its two reads. */
  method ViewPage(queue: RedisEventQueue, page: nat, a1: seq<Event>, a2: seq<Event>, a3: seq<Event>)
    returns (events: seq<Event>, hasNext: bool, hasPrev: bool, ghost v: Visit)
    requires queue.Valid() && page >= 1
    modifies queue
    ensures queue.Valid()
    ensures v.shown == events && v.hasNext == hasNext && Views(v, page)
    ensures old(queue.log) == v.log && v.probed <= queue.log
    ensures hasPrev <==> page > 1
  {
    hide Page;
    var offset := (page - 1) * PER_PAGE;
    events := queue.Get(offset, PER_PAGE, true, a1);
    queue.Arrive(a2);
    ghost var middle := queue.log;
    var nextPageEvents := queue.Get(offset + PER_PAGE, 1, false, a3);
    ghost var probed := if offset + PER_PAGE >= |middle| then middle else queue.log;
    PageIsEmptyIff(probed, offset + PER_PAGE, 1, false);
    hasNext := |nextPageEvents| > 0;
    hasPrev := page > 1;
    v := Visit(events, hasNext, old(queue.log), probed);
  }

  // ---- A reader that starts at page 1 and follows hasNext

  ghost predicate IsWalk(w: seq<Visit>) {
    && (forall p: nat :: p < |w| ==> Views(w[p], p + 1))
    && (forall p: nat :: p < |w| - 1 ==> w[p].hasNext && w[p].probed <= w[p + 1].log)
  }

  ghost predicate IsComplete(w: seq<Visit>) {
    IsWalk(w) && |w| > 0 && !w[|w| - 1].hasNext
  }

  /** The entry number i of the log belongs on this page of it and is shown in its place there. */
  ghost predicate Shows(v: Visit, page: nat, i: nat)
    requires page >= 1
  {
    && i < |v.log|
    && var place := |v.log| - 1 - i - (page - 1) * PER_PAGE;
       0 <= place < PER_PAGE && place < |v.shown| && v.shown[place] == v.log[i]
  }

  lemma {:induction false} LogsGrow(w: seq<Visit>, p: nat)
    requires IsWalk(w) && p < |w|
    ensures w[0].log <= w[p].log
  {
    hide Page;
    if p == 0 {
    } else {
      LogsGrow(w, p - 1);
      assert w[p - 1].probed <= w[p].log;
    }
  }

  lemma ShowsIffOnPage(v: Visit, page: nat, i: nat)
    requires page >= 1 && Views(v, page) && i < |v.log|
    ensures Shows(v, page, i) <==> (page - 1) * PER_PAGE <= |v.log| - 1 - i < page * PER_PAGE
  {
    var place := |v.log| - 1 - i - (page - 1) * PER_PAGE;
    if 0 <= place {
      PageAt(v.log, (page - 1) * PER_PAGE, PER_PAGE, true, place);
    }
    hide Page;
  }

  /** From a page that has not reached entry i yet, the walk comes to the page that shows it. */
  lemma {:induction false} EntryIsAhead(w: seq<Visit>, p: nat, i: nat) returns (q: nat)
    requires IsComplete(w) && p < |w| && i < |w[p].log| && p * PER_PAGE <= |w[p].log| - 1 - i
    ensures q < |w| && Shows(w[q], q + 1, i)
    decreases |w| - p
  {
    hide Page, Shows;
    assert Views(w[p], p + 1);
    if |w[p].log| - 1 - i < (p + 1) * PER_PAGE {
      q := p;
      ShowsIffOnPage(w[p], p + 1, i);
    } else {
      assert |w[p].probed| > (p + 1) * PER_PAGE;
      assert p < |w| - 1;
      assert w[p].probed <= w[p + 1].log;
      q := EntryIsAhead(w, p + 1, i);
    }
  }

  /**
   * Paging under concurrent appends: a reader that follows hasNext from page 1 to the end comes, for
   * each entry that was in the log when it started, to a page that shows this very entry in its place,
   * however many events are pushed meanwhile.
   */
  lemma EveryEventIsSeen(w: seq<Visit>, i: nat) returns (q: nat)
    requires IsComplete(w) && i < |w[0].log|
    ensures q < |w| && Shows(w[q], q + 1, i) && w[q].log[i] == w[0].log[i]
  {
    hide Page;
    q := EntryIsAhead(w, 0, i);
    LogsGrow(w, q);
  }

  /** max(1, ceil(n / 10)) */
  function PageCount(n: nat): nat {
    if n == 0 then 1 else (n + 9) / 10
  }

  /** The walk ends: while the log does not outgrow n entries, no walk views more than PageCount(n) pages. */
  lemma WalkIsBounded(w: seq<Visit>, n: nat)
    requires IsWalk(w) && forall p: nat :: p < |w| ==> |w[p].probed| <= n
    ensures |w| <= PageCount(n)
  {
    hide Page;
    if |w| >= 2 {
      var p := |w| - 2;
      assert w[p].hasNext && Views(w[p], p + 1) && |w[p].probed| <= n;
    }
  }

  /** What other clients push while a page is viewed: within its two reads and around them. */
  datatype Arrivals = Arrivals(inPage: seq<Event>, between: seq<Event>, inProbe: seq<Event>, after: seq<Event>)

  /** A reader that follows hasNext from page 1 on, for as many pages as there are `arrivals`. */
  method FollowPages(queue: RedisEventQueue, arrivals: seq<Arrivals>)
    returns (pages: seq<seq<Event>>, complete: bool, ghost w: seq<Visit>)
    requires queue.Valid()
    modifies queue
    ensures queue.Valid() && IsWalk(w)
    ensures |pages| == |w| && forall p: nat :: p < |w| ==> pages[p] == w[p].shown
    ensures |w| > 0 ==> w[0].log == old(queue.log)
    ensures if complete then IsComplete(w) else |w| == |arrivals|
  {
    hide Views;
    pages, complete, w := [], false, [];
    while !complete && |pages| < |arrivals|
      invariant queue.Valid() && IsWalk(w)
      invariant |pages| == |w| <= |arrivals| && forall p: nat :: p < |w| ==> pages[p] == w[p].shown
      invariant if w == [] then queue.log == old(queue.log) else w[0].log == old(queue.log)
      invariant w != [] ==> w[|w| - 1].hasNext == !complete && w[|w| - 1].probed <= queue.log
      invariant complete ==> w != []
    {
      var a := arrivals[|pages|];
      var events, hasNext, _, v := ViewPage(queue, |pages| + 1, a.inPage, a.between, a.inProbe);
      pages, complete, w := pages + [events], !hasNext, w + [v];
      queue.Arrive(a.after);
    }
  }

  // ---- A fixed log

  ghost function Shown(w: seq<Visit>, n: nat): seq<Event>
    requires n <= |w|
  {
    if n == 0 then [] else Shown(w, n - 1) + w[n - 1].shown
  }

  lemma {:induction false} ShownSoFar(w: seq<Visit>, log: seq<Event>, n: nat)
    requires IsWalk(w) && n <= |w| && forall p: nat :: p < |w| ==> w[p].log == log && w[p].probed == log
    ensures Shown(w, n) == Reverse(log)[..Min(n * PER_PAGE, |log|)]
  {
    if n == 0 {
    } else {
      hide Page, Reverse, PySlice;
      ShownSoFar(w, log, n - 1);
      assert Views(w[n - 1], n);
      var a, b := Min((n - 1) * PER_PAGE, |log|), Min(n * PER_PAGE, |log|);
      DescendingPage(log, (n - 1) * PER_PAGE);
      assert Shown(w, n) == Shown(w, n - 1) + w[n - 1].shown;
      hide Shown, IsWalk, Views;
      assert Reverse(log)[..a] + Reverse(log)[a..b] == Reverse(log)[..b];
    }
  }

  lemma DescendingPage(log: seq<Event>, offset: nat)
    ensures Page(log, offset, PER_PAGE, true) == Reverse(log)[Min(offset, |log|)..Min(offset + PER_PAGE, |log|)]
  {
    hide Reverse;
  }

  /** Over a fixed log the pages, put together, are the reversed log, in exactly PageCount pages. */
  lemma FixedLogIsPagedExactly(w: seq<Visit>, log: seq<Event>)
    requires IsComplete(w) && forall p: nat :: p < |w| ==> w[p].log == log && w[p].probed == log
    ensures Shown(w, |w|) == Reverse(log)
    ensures |w| == PageCount(|log|)
  {
    hide Page;
    WalkIsBounded(w, |log|);
    ShownSoFar(w, log, |w|);
    assert Views(w[|w| - 1], |w|);
    assert |log| <= |w| * PER_PAGE;
    assert Reverse(log)[..|log|] == Reverse(log);
    hide Shown;
  }
}
