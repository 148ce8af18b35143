/** The bounded backfill cache (canon-event-subscribe, event_cache.rs). */
module EventCaches {
  import opened Events

  const HARD_MAX_KEEP_HISTORY: nat := 1_000_000

  datatype Cache = Cache(
    buffer: seq<CachedEvent>,
    capacity: nat,
    lastPushed: nat,
    lastEvicted: Option<nat>)

  datatype RangeOutcome =
    | InWindow(events: seq<CachedEvent>)
    | OutOfWindow(oldestAvailable: nat)
    | AtLiveTail

  datatype PushOutcome = Pushed | OutOfOrder(tried: nat, previous: nat)

  datatype NewCacheResult = Created(cache: EventCache) | ZeroCapacity

  function Empty(capacity: nat): Cache {
    Cache([], capacity, 0, None)
  }

  function Push(c: Cache, e: CachedEvent): (Cache, PushOutcome) {
    if e.seqNo == 0 || e.seqNo < c.lastPushed then
      (c, OutOfOrder(e.seqNo, c.lastPushed))
    else
      var evict := |c.buffer| == c.capacity && c.buffer != [];
      (c.(buffer := (if evict then c.buffer[1..] else c.buffer) + [e],
          lastPushed := e.seqNo,
          lastEvicted := if evict then Some(c.buffer[0].seqNo) else c.lastEvicted),
       Pushed)
  }

  predicate PartialFront(c: Cache) {
    c.lastEvicted.Some? && c.buffer != [] && c.lastEvicted.value == c.buffer[0].seqNo
  }

  function Range(c: Cache, from: nat): RangeOutcome {
    if c.buffer == [] then AtLiveTail
    else
      var oldest := c.buffer[0].seqNo;
      var newest := c.buffer[|c.buffer| - 1].seqNo;
      if from == 0 then AtLiveTail
      else if from >= newest then AtLiveTail
      else if SaturatingInc(from) < oldest then OutOfWindow(oldest)
      else if PartialFront(c) && from < oldest then OutOfWindow(SaturatingInc(oldest))
      else InWindow(After(c.buffer, from))
  }

  /** Accepted on a (re)connection: anything but a truncation notice. */
  predicate Accepts(c: Cache, from: nat) {
    !Range(c, from).OutOfWindow?
  }

  // ----- The cache as a window on the unbounded push history -----

  /** Number of events of `h` that a cache of this capacity has let go. */
  function EvictedCount(h: seq<CachedEvent>, capacity: nat): nat {
    if |h| <= capacity then 0 else |h| - capacity
  }

  /** The cache that has seen exactly the pushes `h`: the last `capacity` of them. */
  function CacheOf(h: seq<CachedEvent>, capacity: nat): Cache {
    var k := EvictedCount(h, capacity);
    Cache(h[k..], capacity,
          if h == [] then 0 else h[|h| - 1].seqNo,
          if k == 0 then None else Some(h[k - 1].seqNo))
  }

  /** Pushes a whole list, ignoring rejected events, as a caller that never stops would. */
  function PushAll(c: Cache, es: seq<CachedEvent>): Cache
    decreases |es|
  {
    if es == [] then c else PushAll(Push(c, es[0]).0, es[1..])
  }

  /** The pushes of `es` that are accepted when the last accepted number so far is `last`. */
  function Accepted(last: nat, es: seq<CachedEvent>): seq<CachedEvent>
    decreases |es|
  {
    if es == [] then []
    else if es[0].seqNo == 0 || es[0].seqNo < last then Accepted(last, es[1..])
    else [es[0]] + Accepted(es[0].seqNo, es[1..])
  }

  lemma OrderedExtend(h: seq<CachedEvent>, e: CachedEvent)
    requires Ordered(h) && 1 <= e.seqNo <= U64_MAX
    requires h != [] ==> h[|h| - 1].seqNo <= e.seqNo
    ensures Ordered(h + [e])
  {
    var g := h + [e];
    forall i, j | 0 <= i <= j < |g| ensures g[i].seqNo <= g[j].seqNo {
      if j == |h| && i < |h| {
        assert h[i].seqNo <= h[|h| - 1].seqNo;
      }
    }
  }

  /** One accepted push slides the window by one; a push is refused exactly on 0 or a decrease. */
  lemma PushSlidesWindow(h: seq<CachedEvent>, capacity: nat, e: CachedEvent)
    requires capacity >= 1 && Ordered(h) && e.seqNo <= U64_MAX
    ensures var (c, r) := Push(CacheOf(h, capacity), e);
            if e.seqNo == 0 || (h != [] && e.seqNo < h[|h| - 1].seqNo)
            then c == CacheOf(h, capacity) && r.OutOfOrder?
            else c == CacheOf(h + [e], capacity) && r == Pushed && Ordered(h + [e])
  {
    if !(e.seqNo == 0 || (h != [] && e.seqNo < h[|h| - 1].seqNo)) {
      OrderedExtend(h, e);
      hide Ordered;
      if |h| < capacity {
        FrontWindow(h);
        FrontWindow(h + [e]);
      } else {
        FullWindowSlides(h, |h| - capacity, e);
      }
    }
  }

  lemma FrontWindow(h: seq<CachedEvent>)
    ensures h[0..] == h
  {}

  lemma FullWindowSlides(h: seq<CachedEvent>, k: nat, e: CachedEvent)
    requires k < |h|
    ensures h[k..] != [] && h[k..][0] == h[k] && h[k..][1..] + [e] == (h + [e])[k + 1..]
  {}

  lemma LastPushed(h: seq<CachedEvent>, capacity: nat)
    ensures CacheOf(h, capacity).lastPushed == if h == [] then 0 else h[|h| - 1].seqNo
  {}

  /** Any push sequence at all leaves the cache equal to the window on the accepted pushes. */
  lemma {:induction false} CacheIsWindow(h: seq<CachedEvent>, capacity: nat, es: seq<CachedEvent>)
    requires capacity >= 1 && Ordered(h)
    requires forall i :: 0 <= i < |es| ==> es[i].seqNo <= U64_MAX
    ensures var last := if h == [] then 0 else h[|h| - 1].seqNo;
            && Ordered(h + Accepted(last, es))
            && PushAll(CacheOf(h, capacity), es) == CacheOf(h + Accepted(last, es), capacity)
    ensures var last := if h == [] then 0 else h[|h| - 1].seqNo;
            var all, kept := h + Accepted(last, es), PushAll(CacheOf(h, capacity), es).buffer;
            && |kept| == (if |all| <= capacity then |all| else capacity)
            && kept == all[|all| - |kept|..]
    decreases |es|
  {
    hide CacheOf, Push, Ordered;
    LastPushed(h, capacity);
    var last := if h == [] then 0 else h[|h| - 1].seqNo;
    if es == [] {
      assert h + [] == h;
    } else {
      PushSlidesWindow(h, capacity, es[0]);
      if es[0].seqNo == 0 || es[0].seqNo < last {
        CacheIsWindow(h, capacity, es[1..]);
      } else {
        CacheIsWindow(h + [es[0]], capacity, es[1..]);
        assert h + [es[0]] + Accepted(es[0].seqNo, es[1..]) == h + Accepted(last, es);
      }
    }
    WindowSize(h + Accepted(last, es), capacity);
  }

  lemma WindowSize(h: seq<CachedEvent>, capacity: nat)
    ensures var kept := CacheOf(h, capacity).buffer;
            && |kept| == (if |h| <= capacity then |h| else capacity)
            && kept == h[|h| - |kept|..]
  {}

  // ----- What a range query promises about the history -----

  /** The window keeps every event after `from` unless the query reports truncation. */
  lemma WindowSplit(h: seq<CachedEvent>, capacity: nat, from: nat) returns (b: nat)
    requires capacity >= 1 && Ordered(h) && h != [] && 0 < from < h[|h| - 1].seqNo
    ensures Splits(h, from, b) && b < |h|
    ensures Accepts(CacheOf(h, capacity), from) <==> EvictedCount(h, capacity) <= b
                                                     && SaturatingInc(from) >= h[EvictedCount(h, capacity)].seqNo
  {
    b := SplitExists(h, from);
    var k := EvictedCount(h, capacity);
    var c := CacheOf(h, capacity);
    assert c.buffer[0] == h[k] && c.buffer[|c.buffer| - 1] == h[|h| - 1];
    assert h[|h| - 1].seqNo > from;
    if k > 0 {
      assert h[k - 1].seqNo <= h[k].seqNo;
      if k <= b {
        assert h[k - 1].seqNo <= from;
      } else {
        assert h[k - 1].seqNo > from;
      }
    }
  }

  /**
   * Cache agrees with unbounded history: an in-window answer is exactly the
   * events ever pushed after `from`, and a live-tail answer to a real resume
   * point means there is none.
   */
  lemma RangeAgreesWithHistory(h: seq<CachedEvent>, capacity: nat, from: nat)
    requires capacity >= 1 && Ordered(h)
    ensures match Range(CacheOf(h, capacity), from)
            case InWindow(es) => from > 0 && es == After(h, from) && es != []
            case AtLiveTail => from > 0 ==> After(h, from) == []
            case OutOfWindow(_) => from > 0 && After(h, from) != []
  {
    hide After, Ordered, Splits, CacheOf;
    WindowEnds(h, capacity);
    if h == [] {
      AfterNothing(from);
    } else if from > 0 {
      if from >= h[|h| - 1].seqNo {
        NothingAfterLast(h, from);
      } else {
        var b := WindowSplit(h, capacity, from);
        AfterIsSuffix(h, from, b);
        if Accepts(CacheOf(h, capacity), from) {
          WindowServes(h, EvictedCount(h, capacity), from, b);
        }
      }
    }
  }

  lemma WindowEnds(h: seq<CachedEvent>, capacity: nat)
    requires capacity >= 1
    ensures var buffer := CacheOf(h, capacity).buffer;
            && buffer == h[EvictedCount(h, capacity)..]
            && (h == [] <==> buffer == [])
            && (h != [] ==> buffer[|buffer| - 1] == h[|h| - 1])
  {}

  lemma AfterNothing(from: nat)
    ensures After([], from) == []
  {}

  lemma NothingAfterLast(h: seq<CachedEvent>, from: nat)
    requires Ordered(h) && h != [] && from >= h[|h| - 1].seqNo
    ensures After(h, from) == []
  {
    hide After;
    assert Splits(h, from, |h|);
    AfterIsSuffix(h, from, |h|);
  }

  /** A suffix that starts at or before the split serves the same events as the whole. */
  lemma WindowServes(h: seq<CachedEvent>, k: nat, from: nat, b: nat)
    requires Splits(h, from, b) && k <= b
    ensures After(h[k..], from) == h[b..]
  {
    hide After;
    assert Splits(h[k..], from, b - k);
    AfterIsSuffix(h[k..], from, b - k);
    assert h[k..][b - k..] == h[b..];
  }

  /** Exact resume threshold of every non-empty reachable cache. */
  lemma ResumeThreshold(h: seq<CachedEvent>, capacity: nat, from: nat)
    requires capacity >= 1 && Ordered(h) && h != [] && from <= U64_MAX
    ensures var c := CacheOf(h, capacity);
            var oldest := c.buffer[0].seqNo;
            Accepts(c, from) <==>
              || from == 0
              || (if PartialFront(c) then from >= oldest else from + 1 >= oldest)
  {
    var c := CacheOf(h, capacity);
    var n := |c.buffer|;
    assert c.buffer[0] == h[EvictedCount(h, capacity)] && c.buffer[n - 1] == h[|h| - 1];
    assert c.buffer[0].seqNo <= c.buffer[n - 1].seqNo <= U64_MAX;
  }

  /**
   * The advertised point is always accepted on retry. It is the smallest
   * accepted one (what event_cache.rs:81-88 documents) exactly when the front
   * batch is partial and the request missed the window by more than one, or the
   * advertised value saturated; otherwise the point just below it is accepted too.
   */
  lemma AdvertisedPoint(h: seq<CachedEvent>, capacity: nat, from: nat)
    requires capacity >= 1 && Ordered(h) && from <= U64_MAX
    requires Range(CacheOf(h, capacity), from).OutOfWindow?
    ensures var c := CacheOf(h, capacity);
            var a := Range(c, from).oldestAvailable;
            && from < a
            && Accepts(c, a)
            && ((forall f :: 0 < f < a ==> !Accepts(c, f)) <==>
                PartialFront(c) && (from + 1 < c.buffer[0].seqNo || c.buffer[0].seqNo == U64_MAX))
  {
    var c := CacheOf(h, capacity);
    var a := Range(c, from).oldestAvailable;
    var oldest := c.buffer[0].seqNo;
    assert h != [];
    assert oldest == h[EvictedCount(h, capacity)].seqNo;
    ResumeThreshold(h, capacity, from);
    ResumeThreshold(h, capacity, a);
    if PartialFront(c) && (from + 1 < oldest || oldest == U64_MAX) {
      forall f | 0 < f < a ensures !Accepts(c, f) {
        ResumeThreshold(h, capacity, f);
      }
    } else {
      ResumeThreshold(h, capacity, a - 1);
      assert 0 < a - 1 < a && Accepts(c, a - 1);
    }
  }

  /** The history says that a resume point is not covered: its successor is gone, or part of the front batch is. */
  ghost predicate Uncovered(h: seq<CachedEvent>, capacity: nat, from: nat) {
    && h != [] && capacity >= 1 && 0 < from < h[|h| - 1].seqNo
    && var k := EvictedCount(h, capacity);
       || from + 1 < h[k].seqNo
       || (k > 0 && h[k - 1].seqNo == h[k].seqNo && from < h[k].seqNo)
  }

  /** The point the history determines: past the gap, or past the batch that is only partly there. */
  ghost predicate PointsTo(h: seq<CachedEvent>, capacity: nat, from: nat, point: nat) {
    && Uncovered(h, capacity, from)
    && var front := h[EvictedCount(h, capacity)].seqNo;
       point == (if from + 1 < front then front else if front < U64_MAX then front + 1 else U64_MAX)
  }

  /** Truncation is reported exactly for what the history does not cover, with the point the history determines. */
  lemma TruncationFixed(h: seq<CachedEvent>, capacity: nat, from: nat)
    requires capacity >= 1 && Ordered(h)
    ensures Range(CacheOf(h, capacity), from).OutOfWindow? <==> Uncovered(h, capacity, from)
    ensures forall point ::
              Range(CacheOf(h, capacity), from) == OutOfWindow(point) <==> PointsTo(h, capacity, from, point)
  {
    hide After;
    if h != [] {
      var c, k := CacheOf(h, capacity), EvictedCount(h, capacity);
      assert c.buffer[0] == h[k] && c.buffer[|c.buffer| - 1] == h[|h| - 1];
      assert 1 <= h[k].seqNo <= h[|h| - 1].seqNo <= U64_MAX;
      hide CacheOf, Ordered;
    }
  }

  /** A client that retries at the advertised point is given every event past it, kept or evicted. */
  lemma RetryServesTheRest(h: seq<CachedEvent>, capacity: nat, from: nat)
    requires capacity >= 1 && Ordered(h) && from <= U64_MAX
    requires Range(CacheOf(h, capacity), from).OutOfWindow?
    ensures var c := CacheOf(h, capacity);
            var point := Range(c, from).oldestAvailable;
            && After(c.buffer, point) == After(h, point)
            && (|| Range(c, point) == InWindow(After(h, point))
                || (Range(c, point) == AtLiveTail && After(h, point) == []))
  {
    var c := CacheOf(h, capacity);
    var point := Range(c, from).oldestAvailable;
    AdvertisedPoint(h, capacity, from);
    RangeAgreesWithHistory(h, capacity, point);
    var k := EvictedCount(h, capacity);
    assert c.buffer[0] == h[k];
    var b := SplitExists(h, point);
    assert h[k].seqNo <= point;
    FrontBeforeSplit(h, k, point, b);
    AfterIsSuffix(h, point, b);
    WindowServes(h, k, point, b);
  }

  lemma FrontBeforeSplit(h: seq<CachedEvent>, k: nat, point: nat, b: nat)
    requires Splits(h, point, b) && k < |h| && h[k].seqNo <= point
    ensures k <= b
  {}

  /** A cache that advertises 3 although 2, the point just below, is accepted (event_cache.rs:81-88). */
  lemma AdvertisedNotSmallest()
    ensures var c := CacheOf([CachedEvent(1, []), CachedEvent(2, []), CachedEvent(3, [])], 1);
            Range(c, 1) == OutOfWindow(3) && Accepts(c, 2)
  {
    var h := [CachedEvent(1, []), CachedEvent(2, []), CachedEvent(3, [])];
    assert CacheOf(h, 1) == Cache([CachedEvent(3, [])], 1, 3, Some(2)) by {
      assert h[2..] == [CachedEvent(3, [])];
    }
  }

  /** Resume point 0 is always the live tail, never a backfill, whatever event_cache.rs:272-279 says. */
  lemma ZeroIsLiveTail(c: Cache)
    ensures Range(c, 0) == AtLiveTail
  {}

  ghost predicate HasEvent(h: seq<CachedEvent>, s: nat) {
    exists i :: 0 <= i < |h| && h[i].seqNo == s
  }

  /** Every sequence number up to the last one has at least one event. */
  ghost predicate Dense(h: seq<CachedEvent>) {
    h != [] ==> forall s :: 1 <= s <= h[|h| - 1].seqNo ==> HasEvent(h, s)
  }

  /** An event the client asked for has really been evicted. */
  ghost predicate Lost(h: seq<CachedEvent>, capacity: nat, from: nat) {
    exists i :: 0 <= i < EvictedCount(h, capacity) && h[i].seqNo > from
  }

  /**
   * A truncation notice is justified (an event past `from` was evicted) exactly
   * when the last evicted number is past `from`; with no gaps in the numbering
   * it always is.
   */
  lemma TruncationJustified(h: seq<CachedEvent>, capacity: nat, from: nat)
    requires capacity >= 1 && Ordered(h) && from <= U64_MAX
    requires Range(CacheOf(h, capacity), from).OutOfWindow?
    ensures var c := CacheOf(h, capacity);
            Lost(h, capacity, from) <==> c.lastEvicted.Some? && c.lastEvicted.value > from
    ensures Dense(h) ==> Lost(h, capacity, from)
  {
    var k := EvictedCount(h, capacity);
    assert CacheOf(h, capacity).buffer[0] == h[k];
    if Lost(h, capacity, from) {
      var i :| 0 <= i < k && h[i].seqNo > from;
      assert h[i].seqNo <= h[k - 1].seqNo;
    }
    ResumeThreshold(h, capacity, from);
    if Dense(h) {
      if from + 1 < h[k].seqNo {
        assert h[k].seqNo <= h[|h| - 1].seqNo;
        assert forall j :: k <= j < |h| ==> h[k].seqNo <= h[j].seqNo;
        assert HasEvent(h, from + 1);
        var i :| 0 <= i < |h| && h[i].seqNo == from + 1;
        assert Lost(h, capacity, from);
      } else {
        assert h[k - 1].seqNo > from;
      }
    }
  }

  /** Log frames without events leave gaps in the numbering, and then nothing need be lost. */
  lemma UnjustifiedTruncation()
    ensures exists h, capacity, from ::
              && Ordered(h) && capacity >= 1
              && Range(CacheOf(h, capacity), from).OutOfWindow? && !Lost(h, capacity, from)
  {
    var h := [CachedEvent(5, [])];
    assert Range(CacheOf(h, 1), 1) == OutOfWindow(5);
    assert Ordered(h) && !Lost(h, 1, 1);
  }

  // ----- The mutable cache -----

  /** The linear scan that answers an in-window query. */
  method FilterAfter(buffer: seq<CachedEvent>, fromSeq: nat) returns (events: seq<CachedEvent>)
    ensures events == After(buffer, fromSeq)
  {
    events := [];
    assert buffer[0..] == buffer;
    for i := 0 to |buffer|
      invariant events + After(buffer[i..], fromSeq) == After(buffer, fromSeq)
    {
      ghost var before, rest := events, After(buffer[i + 1..], fromSeq);
      assert buffer[i..][1..] == buffer[i + 1..];
      if buffer[i].seqNo > fromSeq {
        events := events + [buffer[i]];
        assert before + ([buffer[i]] + rest) == events + rest;
      } else {
        assert [] + rest == rest;
      }
    }
  }

  class EventCache {
    var buffer: seq<CachedEvent>
    const capacity: nat
    var lastPushedSeq: nat
    var lastEvictedSeq: Option<nat>
    ghost var history: seq<CachedEvent>

    ghost function State(): Cache
      reads this
    {
      Cache(buffer, capacity, lastPushedSeq, lastEvictedSeq)
    }

    ghost predicate Valid()
      reads this
    {
      && 1 <= capacity <= HARD_MAX_KEEP_HISTORY
      && Ordered(history)
      && State() == CacheOf(history, capacity)
    }

    constructor (requested: nat)
      requires requested >= 1
      ensures Valid() && history == []
      ensures capacity == if requested < HARD_MAX_KEEP_HISTORY then requested else HARD_MAX_KEEP_HISTORY
    {
      capacity := if requested < HARD_MAX_KEEP_HISTORY then requested else HARD_MAX_KEEP_HISTORY;
      buffer := [];
      lastPushedSeq := 0;
      lastEvictedSeq := None;
      history := [];
    }

    static method New(requested: nat) returns (r: NewCacheResult)
      ensures r.ZeroCapacity? <==> requested == 0
      ensures r.Created? ==> fresh(r.cache) && r.cache.Valid() && r.cache.history == []
      ensures r.Created? ==>
        r.cache.capacity == if requested < HARD_MAX_KEEP_HISTORY then requested else HARD_MAX_KEEP_HISTORY
    {
      if requested == 0 {
        return ZeroCapacity;
      }
      var c := new EventCache(requested);
      return Created(c);
    }

    /** Remembers the last `capacity` accepted events; refuses 0 and any decrease. */
    method PushEvent(event: CachedEvent) returns (r: PushOutcome)
      requires Valid() && event.seqNo <= U64_MAX
      modifies this
      ensures Valid()
      ensures r.OutOfOrder? <==> event.seqNo == 0 || event.seqNo < old(lastPushedSeq)
      ensures old(lastPushedSeq) == if old(history) == [] then 0 else old(history)[|old(history)| - 1].seqNo
      ensures r.OutOfOrder? ==> unchanged(this) && r == OutOfOrder(event.seqNo, lastPushedSeq)
      ensures r == Pushed ==> history == old(history) + [event]
    {
      hide CacheOf, Ordered;
      LastPushed(history, capacity);
      PushSlidesWindow(history, capacity, event);
      if event.seqNo == 0 || event.seqNo < lastPushedSeq {
        return OutOfOrder(event.seqNo, lastPushedSeq);
      }
      if |buffer| == capacity {
        var evicted := buffer[0];
        buffer := buffer[1..];
        lastEvictedSeq := Some(evicted.seqNo);
      }
      lastPushedSeq := event.seqNo;
      buffer := buffer + [event];
      history := history + [event];
      return Pushed;
    }

    method HasPartialFront() returns (partial: bool)
      requires Valid()
      ensures partial <==> var k := EvictedCount(history, capacity);
                           0 < k < |history| && history[k - 1].seqNo == history[k].seqNo
    {
      match lastEvictedSeq
      case None =>
        partial := false;
      case Some(evicted) =>
        partial := buffer != [] && evicted == buffer[0].seqNo;
    }

    /** The answer is the one the whole push history justifies. */
    method RangeFrom(fromSeq: nat) returns (r: RangeOutcome)
      requires Valid() && fromSeq <= U64_MAX
      ensures r == Range(CacheOf(history, capacity), fromSeq)
      ensures r.AtLiveTail? <==> history == [] || fromSeq == 0 || fromSeq >= history[|history| - 1].seqNo
      ensures r.OutOfWindow? <==> Uncovered(history, capacity, fromSeq)
      ensures r.OutOfWindow? ==> PointsTo(history, capacity, fromSeq, r.oldestAvailable)
      ensures r.InWindow? ==> r.events == After(history, fromSeq)
    {
      TruncationFixed(history, capacity, fromSeq);
      WindowEnds(history, capacity);
      hide Uncovered, PointsTo, After, Ordered, EvictedCount;
      if buffer == [] {
        return AtLiveTail;
      }
      var oldest := buffer[0].seqNo;
      var newest := buffer[|buffer| - 1].seqNo;
      if fromSeq == 0 || fromSeq >= newest {
        return AtLiveTail;
      }
      if SaturatingInc(fromSeq) < oldest {
        return OutOfWindow(oldest);
      }
      var partial := HasPartialFront();
      if partial && fromSeq < oldest {
        return OutOfWindow(SaturatingInc(oldest));
      }
      var events := FilterAfter(buffer, fromSeq);
      RangeAgreesWithHistory(history, capacity, fromSeq);
      return InWindow(events);
    }
  }
}
