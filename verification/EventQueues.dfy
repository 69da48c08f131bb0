/** The event queues and the publisher in front of them. */
module EventQueues {
  import opened Events
  import opened Results
  import opened Serializer

  function Min(a: int, b: int): int {
    if a < b then a else b
  }

  function Reverse<T>(s: seq<T>): (r: seq<T>)
    ensures |r| == |s|
    ensures forall i :: 0 <= i < |s| ==> r[i] == s[|s| - 1 - i]
  {
    if s == [] then [] else Reverse(s[1..]) + [s[0]]
  }

  /** The Python slice `s[from:to]` for nonnegative bounds: it is cut off at the end of s. */
  function PySlice<T>(s: seq<T>, from: nat, to: nat): seq<T>
    requires from <= to
  {
    s[Min(from, |s|)..Min(to, |s|)]
  }

  /** What a queue holding `log` answers: the specification of `get`. */
  function Page<T>(log: seq<T>, offset: int, limit: int, desc: bool): seq<T> {
    if offset < 0 || limit <= 0 then []
    else PySlice(if desc then Reverse(log) else log, offset, offset + limit)
  }

  /** The entry that stands at position i of a page. */
  lemma PageAt<T>(log: seq<T>, offset: int, limit: int, desc: bool, i: nat)
    requires 0 <= offset && 0 < limit
    ensures i < |Page(log, offset, limit, desc)| <==> i < limit && offset + i < |log|
    ensures i < |Page(log, offset, limit, desc)| ==>
              Page(log, offset, limit, desc)[i] == log[if desc then |log| - 1 - offset - i else offset + i]
  {
  }

  lemma PageHasLength<T>(log: seq<T>, offset: int, limit: int, desc: bool)
    requires 0 <= offset && 0 < limit
    ensures |Page(log, offset, limit, desc)| == if offset >= |log| then 0 else Min(limit, |log| - offset)
  {
  }

  lemma PageIsEmptyIff<T>(log: seq<T>, offset: int, limit: int, desc: bool)
    ensures Page(log, offset, limit, desc) == [] <==> offset < 0 || limit <= 0 || offset >= |log|
  {
  }

  /** LRANGE: inclusive bounds, negative ones counted from the end, cut off at both ends. */
  function LRange<T>(list: seq<T>, start: int, stop: int): seq<T> {
    var first := if start < 0 then start + |list| else start;
    var last := if stop < 0 then stop + |list| else stop;
    var lo := if first < 0 then 0 else first;
    var hi := Min(last + 1, |list|);
    if lo < hi then list[lo..hi] else []
  }

  // ---- In memory

  class InMemoryEventQueue {
    var events: seq<Event>

    constructor ()
      ensures events == []
    {
      events := [];
    }

    method Push(event: Event)
      modifies this
      ensures events == old(events) + [event]
    {
      events := events + [event];
    }

    method Get(offset: int, limit: int, desc: bool) returns (page: seq<Event>)
      ensures page == Page(events, offset, limit, desc)
    {
      if offset < 0 || limit <= 0 {
        return [];
      }
      if desc {
        return PySlice(Reverse(events), offset, offset + limit);
      }
      page := PySlice(events, offset, offset + limit);
    }
  }

  class InMemoryNotificationQueue {
    var events: seq<Event>

    constructor ()
      ensures events == []
    {
      events := [];
    }

    method Push(event: Event)
      modifies this
      ensures events == old(events) + [event]
    {
      events := events + [event];
    }

    method GetAll() returns (all: seq<Event>)
      ensures all == events
    {
      all := events;
    }

    method Clear()
      modifies this
      ensures events == []
    {
      events := [];
    }
  }

  // ---- Redis

  /** The events that a list of serialized objects stands for. */
  ghost predicate Stores(list: seq<Fields>, log: seq<Event>) {
    |list| == |log| && forall i :: 0 <= i < |list| ==> log[i].IsDomain() && list[i] == Serialize(log[i])
  }

  class RedisEventQueue {
    var list: seq<Fields>    // the Redis list, newest last
    ghost var log: seq<Event>

    ghost predicate Valid()
      reads this
    {
      Stores(list, log)
    }

    constructor ()
      ensures Valid() && log == []
    {
      list, log := [], [];
    }

    method Push(event: Event)
      requires Valid()
      modifies this
      ensures Valid() && log == old(log) + if event.IsDomain() then [event] else []
    {
      if !event.IsDomain() {
        return;
      }
      var raw := Serialize(event);
      list := list + [raw];
      log := log + [event];
    }

    /** Other clients push between two commands of this one. */
    method Arrive(arrivals: seq<Event>)
      requires Valid()
      modifies this
      ensures Valid() && log == old(log) + DomainEvents(arrivals)
    {
      var i := 0;
      while i < |arrivals|
        invariant 0 <= i <= |arrivals| && Valid()
        invariant log == old(log) + DomainEvents(arrivals[..i])
      {
        Push(arrivals[i]);
        FilterAppendsOne(arrivals[..i], arrivals[i], ForAuditLog);
        assert arrivals[..i + 1] == arrivals[..i] + [arrivals[i]];
        i := i + 1;
      }
      assert arrivals[..i] == arrivals;
    }

    /**
     * `get` reads the length first and the range later; `arrivals` are pushed in between. The answer is
     * that of the in-memory queue for the log at one of the two instants: at LLEN for descending
     * pages and for pages beyond the end, at LRANGE for the other ascending ones.
     */
    method Get(offset: int, limit: int, desc: bool, arrivals: seq<Event>) returns (events: seq<Event>)
      requires Valid()
      modifies this
      ensures Valid() && (log == old(log) || log == old(log) + DomainEvents(arrivals))
      ensures events == Page(if desc || offset >= |old(log)| then old(log) else log, offset, limit, desc)
    {
      hide LRange, Page, PySlice;
      PageIsEmptyIff(log, offset, limit, desc);
      if offset < 0 || limit <= 0 {
        return [];
      }
      var total := |list|;
      if total == 0 || offset >= total {
        return [];
      }
      Arrive(arrivals);
      assert log[..total] == old(log);
      hide Stores;
      var rawItems;
      if desc {
        // newest first: backwards from the tail
        var start := total - 1 - offset;
        var stop := if start - limit + 1 > 0 then start - limit + 1 else 0;
        rawItems := LRange(list, stop, start);
        rawItems := Reverse(rawItems);
        TailStored(list, log, total, offset, limit);
        events := Decode(rawItems, Page(old(log), offset, limit, true));
      } else {
        var start := offset;
        var stop := offset + limit - 1;
        rawItems := LRange(list, start, stop);
        HeadStored(list, log, offset, limit);
        events := Decode(rawItems, Page(log, offset, limit, false));
      }
    }

    /** The loop that decodes the items; what cannot be decoded is skipped. */
    method Decode(rawItems: seq<Fields>, ghost page: seq<Event>) returns (events: seq<Event>)
      requires Stores(rawItems, page)
      ensures events == page
    {
      events := [];
      var i := 0;
      while i < |rawItems|
        invariant 0 <= i <= |rawItems|
        invariant events == page[..i]
      {
        RoundTripIffDomain(page[i]);
        var event := Deserialize(rawItems[i]);
        if event.Ok? {
          events := events + [event.value];
        }
        i := i + 1;
      }
    }
  }

  lemma ReversedRangeAt<T>(list: seq<T>, stop: nat, start: nat, i: nat)
    requires stop <= start < |list| && i <= start - stop
    ensures |Reverse(LRange(list, stop, start))| == start - stop + 1
    ensures Reverse(LRange(list, stop, start))[i] == list[start - i]
  {
    hide Reverse;
    assert LRange(list, stop, start) == list[stop..start + 1];
    hide LRange;
    var range := list[stop..start + 1];
    assert |range| == start - stop + 1 && range[start - stop - i] == list[start - i];
  }

  /** The range computed from an earlier length, reversed, is the descending page of the list as it was then. */
  lemma RangeFromTail<T>(list: seq<T>, total: nat, offset: nat, limit: nat)
    requires offset < total <= |list| && 0 < limit
    ensures var start := total - 1 - offset;
            var stop := if start - limit + 1 > 0 then start - limit + 1 else 0;
            Reverse(LRange(list, stop, start)) == Page(list[..total], offset, limit, true)
  {
    hide LRange, Page, PySlice, Reverse;
    var start := total - 1 - offset;
    var stop := if start - limit + 1 > 0 then start - limit + 1 else 0;
    var range, page := Reverse(LRange(list, stop, start)), Page(list[..total], offset, limit, true);
    PageHasLength(list[..total], offset, limit, true);
    ReversedRangeAt(list, stop, start, 0);
    forall i: nat | i < |page| ensures range[i] == page[i] {
      PageAt(list[..total], offset, limit, true, i);
      ReversedRangeAt(list, stop, start, i);
    }
  }

  /** The ascending range is the ascending page. */
  lemma RangeFromHead<T>(list: seq<T>, offset: nat, limit: nat)
    requires 0 < limit
    ensures LRange(list, offset, offset + limit - 1) == Page(list, offset, limit, false)
  {
  }

  lemma StoredPrefix(list: seq<Fields>, log: seq<Event>, n: nat)
    requires Stores(list, log) && n <= |list|
    ensures Stores(list[..n], log[..n])
  {
  }

  /** A page of the stored objects stores the page of the events. */
  lemma StoredPage(list: seq<Fields>, log: seq<Event>, offset: int, limit: int, desc: bool)
    requires Stores(list, log)
    ensures Stores(Page(list, offset, limit, desc), Page(log, offset, limit, desc))
  {
    if 0 <= offset && 0 < limit {
      hide Serialize, Page;
      var items, page := Page(list, offset, limit, desc), Page(log, offset, limit, desc);
      PageHasLength(list, offset, limit, desc);
      PageHasLength(log, offset, limit, desc);
      forall i | 0 <= i < |items| ensures page[i].IsDomain() && items[i] == Serialize(page[i]) {
        PageAt(list, offset, limit, desc, i);
        PageAt(log, offset, limit, desc, i);
      }
    }
  }

  lemma TailStored(list: seq<Fields>, log: seq<Event>, total: nat, offset: nat, limit: nat)
    requires Stores(list, log) && offset < total <= |list| && 0 < limit
    ensures total <= |log|
    ensures var start := total - 1 - offset;
            var stop := if start - limit + 1 > 0 then start - limit + 1 else 0;
            Stores(Reverse(LRange(list, stop, start)), Page(log[..total], offset, limit, true))
  {
    hide LRange, Page;
    RangeFromTail(list, total, offset, limit);
    StoredPrefix(list, log, total);
    StoredPage(list[..total], log[..total], offset, limit, true);
  }

  lemma HeadStored(list: seq<Fields>, log: seq<Event>, offset: nat, limit: nat)
    requires Stores(list, log) && 0 < limit
    ensures Stores(LRange(list, offset, offset + limit - 1), Page(log, offset, limit, false))
  {
    hide LRange, Page, Stores;
    RangeFromHead(list, offset, limit);
    StoredPage(list, log, offset, limit, false);
  }

  // ---- The publisher

  /** Routes notifications to the notification queue and everything else to the audit queue. */
  class EventPublisher {
    const queue: RedisEventQueue
    const notifications: InMemoryNotificationQueue
    ghost var handed: seq<Event>  // everything that was ever handed over for publication

    constructor (queue: RedisEventQueue, notifications: InMemoryNotificationQueue)
      ensures this.queue == queue && this.notifications == notifications && handed == []
    {
      this.queue := queue;
      this.notifications := notifications;
      handed := [];
    }

    method Publish(events: seq<Event>)
      requires queue.Valid()
      modifies this`handed, queue, notifications
      ensures queue.Valid()
      ensures handed == old(handed) + events
      ensures queue.log == old(queue.log) + DomainEvents(events)
      ensures notifications.events == old(notifications.events) + NotificationEvents(events)
    {
      hide Stores, Filter;
      FilterNone(ForAuditLog);
      FilterNone(ForNotification);
      handed := handed + events;
      if events == [] {
        return;
      }
      var i := 0;
      while i < |events|
        invariant 0 <= i <= |events| && queue.Valid() && handed == old(handed) + events
        invariant queue.log == old(queue.log) + DomainEvents(events[..i])
        invariant notifications.events == old(notifications.events) + NotificationEvents(events[..i])
      {
        var event := events[i];
        if event.IsNotification() {
          notifications.Push(event);
        } else {
          queue.Push(event);
        }
        assert events[..i + 1] == events[..i] + [event];
        FilterAppendsOne(events[..i], event, ForAuditLog);
        FilterAppendsOne(events[..i], event, ForNotification);
        i := i + 1;
      }
      assert events[..i] == events;
    }
  }
}
