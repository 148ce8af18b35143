/** What a subscriber receives, over every run and every interleaving. */
module Delivery {
  import opened Events
  import opened Subscription
  import opened Connections
  import opened ConnectionInvariant
  import opened Placement
  import opened Pipeline
  import opened PipelineInvariant
  import opened PipelineSteps
  import opened PipelineRuns

  /** The events of tagged items. */
  function EventsOf(items: seq<Item>): (es: seq<CachedEvent>)
    ensures |es| == |items|
  {
    seq(|items|, i requires 0 <= i < |items| => items[i].event)
  }

  /** The events written on a connection, as the client sees them. */
  function Received(c: Conn): seq<CachedEvent> {
    EventsOf(WireItems(c.wire))
  }

  /** Everything the run invariant says of one connection. */
  lemma ConnOfRun(run: seq<State>, i: nat, id: ConnId)
    requires IsRun(run) && i < |run| && id < |run[i].conns|
    ensures var s := run[i];
            var c := s.conns[id];
            && LocalInv(c) && FreshInv(c) && PlaceInv(c, s.hist, s.published)
            && Splits(s.hist, c.joinSeq, c.joinPos) && c.joinSeq <= FrontierSeq(s)
            && (!Unjoined(c.pc) ==> CaughtUp(c, ProgressOf(s, id)) && LagFits(c, ProgressOf(s, id).stage))
            && CoreInv(s) && RegistryInv(s) && Ordered(s.hist)
  {
    hide IsRun, LocalInv, FreshInv, PlaceInv, CaughtUp, Splits, CoreInv, RegistryInv;
    RunInv(run, i);
    HistoryOrdered(run[i]);
    assert ConnOk(run[i], id);
  }

  // ----- At most once, in order -----

  lemma PrefixIncreases(a: seq<Item>, b: seq<Item>, hist: seq<CachedEvent>)
    requires a <= b && Increasing(b) && Embedded(b, hist)
    ensures Increasing(a) && Embedded(a, hist)
  {
    assert forall k :: 0 <= k < |a| ==> a[k] == b[k];
  }

  /**
   * At-most-once, in order, always: for any resume point and any pattern of
   * queue overflow, the events written on a connection sit at strictly
   * increasing positions of the push history.
   */
  lemma DeliveredInOrder(run: seq<State>, i: nat, id: ConnId)
    requires IsRun(run) && i < |run| && id < |run[i].conns|
    ensures var out := WireItems(run[i].conns[id].wire);
            Increasing(out) && Embedded(out, run[i].hist)
  {
    hide IsRun, StreamShape, WireItems, Kept;
    var s, c := run[i], run[i].conns[id];
    ConnOfRun(run, i, id);
    StreamIncreases(c, s.hist, s.published);
    WireIsPrefixOfStream(c);
    PrefixIncreases(WireItems(c.wire), Stream(c), s.hist);
  }

  /** The drain never discards an event past the resume point that the backfill did not already write. */
  lemma DrainDropsOnlyDuplicates(run: seq<State>, i: nat, id: ConnId, k: nat)
    requires IsRun(run) && i < |run| && id < |run[i].conns| && k in run[i].conns[id].discarded
    ensures var c := run[i].conns[id];
            && k < |c.enqueued|
            && (c.enqueued[k].event.seqNo > c.resumeFrom ==> c.enqueued[k] in WireItems(c.wire))
  {
    hide IsRun, StreamShape, WireItems, Kept;
    var s, c := run[i], run[i].conns[id];
    ConnOfRun(run, i, id);
    var x := c.enqueued[k];
    if x.event.seqNo > c.resumeFrom {
      assert Mark(c) > 0 && c.backfill != [];
      var n := c.ranged.value;
      DuplicateIsBackfilled(c, x, s.hist, n);
      assert c.backfill <= WireItems(c.wire);
    }
  }

  lemma DuplicateIsBackfilled(c: Conn, x: Item, hist: seq<CachedEvent>, n: nat)
    requires n <= |hist| && Ordered(hist) && Boundary(hist, n) && BackfillFits(c, hist, n) && c.backfill != []
    requires x.pos < |hist| && hist[x.pos] == x.event && c.resumeFrom < x.event.seqNo <= Mark(c)
    ensures x in c.backfill
  {
    assert Mark(c) == hist[n - 1].seqNo;
    assert hist[..n][n - 1] == hist[n - 1];
    assert x.pos < n;
    assert hist[..n][x.pos] == hist[x.pos];
    assert c.backfill[x.pos - (n - |c.backfill|)] == x;
  }

  // ----- Exactly once -----

  /** The cache did not refuse the connection. */
  predicate Admitted(c: Conn) {
    c.ranged.Some?
  }

  /** Whatever it was refused and no backfill made up for comes after everything it received. */
  predicate Unbroken(c: Conn) {
    var out := WireItems(c.wire);
    c.missed.None? || out == [] || out[|out| - 1].pos < c.missed.value
  }

  /** What the run invariant says of an admitted connection's stream. */
  lemma StreamOfRun(run: seq<State>, i: nat, id: ConnId)
    requires IsRun(run) && i < |run| && id < |run[i].conns| && Admitted(run[i].conns[id])
    ensures var c, hist := run[i].conns[id], run[i].hist;
            && Whole(Stream(c), Start(c), c.missed) && Stream(c) == c.backfill + Beyond(c)
            && WireItems(c.wire) <= Stream(c) && Start(c) <= |hist| && Ordered(hist)
  {
    hide IsRun, StreamShape, WireItems, Kept, Whole, Beyond;
    hide Stream, Staged, MarkInv, WireInv, CaughtUp, CoreInv;
    var s, c := run[i], run[i].conns[id];
    ConnOfRun(run, i, id);
    StreamWhole(c, s.hist, s.published);
    WireIsPrefixOfStream(c);
  }

  /** A prefix of a whole stream skips nothing exactly when it ends before the first missed position. */
  lemma GapFreePrefix(out: seq<Item>, stream: seq<Item>, from: nat, missed: Option<nat>)
    requires out <= stream && Whole(stream, from, missed) && Increasing(out)
    ensures Contiguous(out, from) <==> missed.None? || out == [] || out[|out| - 1].pos < missed.value
  {
    assert forall k :: 0 <= k < |out| ==> out[k] == stream[k];
    if missed.Some? && missed.value - from < |out| {
      assert out[missed.value - from].pos != missed.value;
    }
  }

  /**
   * No gap, exactly: what an admitted connection has received occupies
   * consecutive positions of the push history from its start on if and only if
   * every event it was refused, and no backfill made up for, comes after it.
   */
  lemma GapFreeIffUnbroken(run: seq<State>, i: nat, id: ConnId)
    requires IsRun(run) && i < |run| && id < |run[i].conns| && Admitted(run[i].conns[id])
    ensures Contiguous(WireItems(run[i].conns[id].wire), Start(run[i].conns[id])) <==> Unbroken(run[i].conns[id])
  {
    hide IsRun, WireItems, Whole, Start, Stream, Embedded, Increasing, Contiguous;
    var c := run[i].conns[id];
    StreamOfRun(run, i, id);
    DeliveredInOrder(run, i, id);
    GapFreePrefix(WireItems(c.wire), Stream(c), Start(c), c.missed);
  }

  /** Contiguous items embedded in the history are a slice of it. */
  lemma ContiguousIsSlice(items: seq<Item>, from: nat, hist: seq<CachedEvent>)
    requires Contiguous(items, from) && Embedded(items, hist) && from <= |hist|
    ensures from + |items| <= |hist|
    ensures EventsOf(items) == hist[from..from + |items|]
  {
    if items != [] {
      assert items[|items| - 1].pos == from + |items| - 1;
    }
  }

  /**
   * Exactly-once delivery, in every interleaving: an unbroken connection has
   * received exactly the history from its start position up to some point, with
   * no gap and no duplicate, whatever its resume point. The start is the first
   * event of a batch; for resume point 0 it is where the connection joined the
   * broadcast.
   */
  lemma ExactlyOnce(run: seq<State>, i: nat, id: ConnId)
    requires IsRun(run) && i < |run| && id < |run[i].conns|
    requires Admitted(run[i].conns[id]) && Unbroken(run[i].conns[id])
    ensures var s := run[i];
            var c := s.conns[id];
            var from := Start(c);
            && from + |Received(c)| <= |s.hist|
            && Received(c) == s.hist[from..from + |Received(c)|]
            && Boundary(s.hist, from)
            && (c.resumeFrom == 0 ==> from == c.joinPos)
  {
    hide IsRun, WireItems, Start, Embedded, Increasing, Contiguous;
    hide Boundary, EventsOf, Unbroken, Stream, Whole;
    var s, c := run[i], run[i].conns[id];
    StreamOfRun(run, i, id);
    DeliveredInOrder(run, i, id);
    GapFreeIffUnbroken(run, i, id);
    ContiguousIsSlice(WireItems(c.wire), Start(c), s.hist);
    StartOfRun(run, i, id);
  }

  // ----- The resume point -----

  /** The resume point was below the newest number in the cache at the range query. */
  predicate BelowNewest(c: Conn, hist: seq<CachedEvent>) {
    c.ranged.Some? && 0 < c.ranged.value <= |hist| && c.resumeFrom < hist[c.ranged.value - 1].seqNo
  }

  /** Its resume point is not beyond what had been broadcast when it joined, or not beyond the cache when it asked. */
  predicate ResumesFromPast(c: Conn, hist: seq<CachedEvent>) {
    c.resumeFrom <= c.joinSeq || BelowNewest(c, hist)
  }

  /** Some event is numbered above `low` and at most `high`. */
  ghost predicate NumberedBetween(hist: seq<CachedEvent>, low: nat, high: nat) {
    exists k :: 0 <= k < |hist| && low < hist[k].seqNo <= high
  }

  /** A resume point is backfilled exactly when it is below the newest number in the cache. */
  lemma BackfilledIffBelowNewest(c: Conn, hist: seq<CachedEvent>, published: nat)
    requires RangeFits(c, hist, published) && c.ranged.Some? && c.resumeFrom > 0
    ensures c.backfill != [] <==> BelowNewest(c, hist)
  {
    var n := c.ranged.value;
    assert n > 0 ==> hist[..n][n - 1] == hist[n - 1];
  }

  /** Where an admitted connection starts, and what that means for its resume point. */
  lemma StartOfRun(run: seq<State>, i: nat, id: ConnId)
    requires IsRun(run) && i < |run| && id < |run[i].conns| && Admitted(run[i].conns[id])
    ensures var c, hist := run[i].conns[id], run[i].hist;
            && Boundary(hist, Start(c)) && Splits(hist, c.joinSeq, c.joinPos)
            && (c.resumeFrom == 0 ==> Start(c) == c.joinPos)
            && (c.resumeFrom > 0 ==>
                  if ResumesFromPast(c, hist) then Splits(hist, c.resumeFrom, Start(c)) else Start(c) == c.joinPos)
  {
    hide IsRun, LocalInv, CoreInv, RegistryInv, CaughtUp, Spaced, Embedded;
    hide Start, Boundary, Splits, RangeFits, Ordered, BelowNewest;
    var s, c := run[i], run[i].conns[id];
    ConnOfRun(run, i, id);
    NoBackfillWithoutResume(c, s.hist, s.published);
    if c.resumeFrom > 0 {
      BackfilledIffBelowNewest(c, s.hist, s.published);
    }
    if c.backfill == [] {
      StartOfLive(c, s.hist, s.published);
    } else {
      StartOfBackfill(c, s.hist, s.published);
    }
  }

  lemma NoBackfillWithoutResume(c: Conn, hist: seq<CachedEvent>, published: nat)
    requires RangeFits(c, hist, published)
    ensures c.resumeFrom == 0 ==> c.backfill == []
  {}

  /** A slice preceded only by events up to `f` begins the events after `f` exactly when its first event does. */
  lemma SliceAfter(hist: seq<CachedEvent>, f: nat, from: nat, n: nat)
    requires Ordered(hist) && from + n <= |hist| && (forall i :: 0 <= i < from ==> hist[i].seqNo <= f)
    ensures hist[from..from + n] <= After(hist, f) <==> n == 0 || hist[from].seqNo > f
  {
    hide After;
    var b := SplitExists(hist, f);
    AfterIsSuffix(hist, f, b);
    assert b < |hist| ==> hist[b].seqNo > f;
    assert from <= b;
    if n > 0 && hist[from..from + n] <= hist[b..] {
      assert hist[from..from + n][0] == hist[from] && hist[b..][0] == hist[b];
    }
  }

  /** The first event past the joining point is past `f` exactly when no event lies between the two numbers. */
  lemma FirstPastJoin(hist: seq<CachedEvent>, joinSeq: nat, joinPos: nat, f: nat)
    requires Ordered(hist) && Splits(hist, joinSeq, joinPos) && joinPos < |hist|
    ensures hist[joinPos].seqNo > f <==> !NumberedBetween(hist, joinSeq, f)
  {
    if NumberedBetween(hist, joinSeq, f) {
      var k :| 0 <= k < |hist| && joinSeq < hist[k].seqNo <= f;
      assert joinPos <= k;
    }
  }

  /** What the documented meaning of a resume point comes down to for a slice from the start on. */
  lemma ResumedSlice(c: Conn, hist: seq<CachedEvent>, start: nat, n: nat)
    requires Ordered(hist) && Splits(hist, c.joinSeq, c.joinPos) && start + n <= |hist|
    requires if ResumesFromPast(c, hist) then Splits(hist, c.resumeFrom, start) else start == c.joinPos
    ensures hist[start..start + n] <= After(hist, c.resumeFrom)
       <==> n == 0 || ResumesFromPast(c, hist) || !NumberedBetween(hist, c.joinSeq, c.resumeFrom)
  {
    hide After, BelowNewest;
    SliceAfter(hist, c.resumeFrom, start, n);
    if n > 0 && !ResumesFromPast(c, hist) {
      FirstPastJoin(hist, c.joinSeq, c.joinPos, c.resumeFrom);
    }
  }

  /**
   * A resume point r > 0 asks for the events numbered above r (frame.rs:136-139).
   * An unbroken connection has received the first of exactly these unless r lay
   * beyond everything broadcast when it joined, the cache had nothing newer than
   * r when it asked, and events up to r came after all: then, as soon as it
   * receives anything, it receives one of those.
   */
  lemma ResumeKeptIff(run: seq<State>, i: nat, id: ConnId)
    requires IsRun(run) && i < |run| && id < |run[i].conns| && run[i].conns[id].resumeFrom > 0
    requires Admitted(run[i].conns[id]) && Unbroken(run[i].conns[id])
    ensures var c, hist := run[i].conns[id], run[i].hist;
            Received(c) <= After(hist, c.resumeFrom) <==>
              || Received(c) == []
              || ResumesFromPast(c, hist)
              || !NumberedBetween(hist, c.joinSeq, c.resumeFrom)
  {
    hide IsRun, Start, After, Ordered, Splits, Boundary;
    hide Received, Unbroken, ResumesFromPast, NumberedBetween, Stream, Whole;
    var c := run[i].conns[id];
    StreamOfRun(run, i, id);
    StartOfRun(run, i, id);
    ExactlyOnce(run, i, id);
    ResumedSlice(c, run[i].hist, Start(c), |Received(c)|);
  }

  // ----- Nothing is missing once a connection has caught up -----

  /** The thread waits for events, has none set aside or queued, and no batch is in progress. */
  predicate Quiescent(s: State, id: ConnId)
    requires id < |s.conns|
  {
    var c := s.conns[id];
    c.pc == Receiving([]) && c.sub.queue == [] && Active(c) && !LockHeld(s)
  }

  lemma QuiescentStream(c: Conn)
    requires LocalInv(c) && c.pc == Receiving([]) && c.sub.queue == []
    ensures WireItems(c.wire) == Stream(c)
  {
    hide Kept, WireItems, StreamShape;
    assert c.taken == |c.enqueued| by { assert c.enqueued[c.taken..] == []; }
    assert c.enqueued[..c.taken] == c.enqueued;
    assert WireItems(c.wire) + [] == WireItems(c.wire);
  }

  lemma {:induction false} IncreasingFrom(items: seq<Item>, from: nat, k: nat)
    requires Increasing(items) && k < |items| && items[0].pos >= from
    ensures items[k].pos >= from + k
  {
    if k > 0 {
      IncreasingFrom(items, from, k - 1);
      assert items[k - 1].pos < items[k].pos;
    }
  }

  lemma {:induction false} IncreasingTo(items: seq<Item>, to: nat, k: nat)
    requires Increasing(items) && k < |items| && items[|items| - 1].pos < to
    ensures items[k].pos + |items| <= to + k
    decreases |items| - k
  {
    if k < |items| - 1 {
      IncreasingTo(items, to, k + 1);
      assert items[k].pos < items[k + 1].pos;
    }
  }

  /** As many increasing positions as there is room for leave no gap. */
  lemma FullMeansContiguous(items: seq<Item>, from: nat, to: nat)
    requires Increasing(items) && (items != [] ==> items[0].pos >= from && items[|items| - 1].pos < to)
    ensures |items| == to - from ==> Contiguous(items, from)
  {
    forall k | 0 <= k < |items| ensures from + k <= items[k].pos <= to - |items| + k {
      IncreasingFrom(items, from, k);
      IncreasingTo(items, to, k);
    }
  }

  /** A whole stream fills the history from `from` on exactly when nothing was missed. */
  lemma FullIffNothingMissed(stream: seq<Item>, from: nat, missed: Option<nat>, hist: seq<CachedEvent>)
    requires Whole(stream, from, missed) && Increasing(stream) && Embedded(stream, hist) && from <= |hist|
    requires stream != [] ==> stream[0].pos >= from
    requires match missed case None => from + |stream| == |hist| case Some(f) => f < |hist|
    ensures EventsOf(stream) == hist[from..] <==> missed.None?
  {
    if missed.None? {
      ContiguousIsSlice(stream, from, hist);
    } else {
      FullMeansContiguous(stream, from, |hist|);
      assert missed.value - from < |stream| ==> stream[missed.value - from].pos != missed.value;
    }
  }

  lemma StreamBegins(c: Conn, hist: seq<CachedEvent>, published: nat)
    requires RangeFits(c, hist, published) && Spaced(c) && c.ranged.Some? && Stream(c) == c.backfill + Beyond(c)
    ensures Stream(c) != [] ==> Stream(c)[0].pos >= Start(c)
  {
    hide Kept, Stream;
  }

  /**
   * The documented "no silent data loss" (lib.rs:112), made exact: a caught-up
   * connection, alive and with only event frames on its wire, has received
   * everything from its start on if and only if no event was refused for a full
   * queue since it joined or, if it was backfilled, since that query.
   */
  lemma CompleteIffNothingMissed(run: seq<State>, i: nat, id: ConnId)
    requires IsRun(run) && i < |run| && id < |run[i].conns|
    requires Admitted(run[i].conns[id]) && Quiescent(run[i], id)
    ensures Start(run[i].conns[id]) <= |run[i].hist| && AllEvents(run[i].conns[id].wire)
    ensures Received(run[i].conns[id]) == run[i].hist[Start(run[i].conns[id])..] <==> run[i].conns[id].missed.None?
  {
    hide IsRun, WireItems, Start, Whole, Stream, Embedded, Increasing, EventsOf;
    var s, c := run[i], run[i].conns[id];
    StreamOfRun(run, i, id);
    DeliveredInOrder(run, i, id);
    CaughtUpStream(run, i, id);
    FullIffNothingMissed(Stream(c), Start(c), c.missed, s.hist);
  }

  lemma CaughtUpStream(run: seq<State>, i: nat, id: ConnId)
    requires IsRun(run) && i < |run| && id < |run[i].conns|
    requires Admitted(run[i].conns[id]) && Quiescent(run[i], id)
    ensures var s, c := run[i], run[i].conns[id];
            && WireItems(c.wire) == Stream(c) && AllEvents(c.wire)
            && (Stream(c) != [] ==> Stream(c)[0].pos >= Start(c))
            && (match c.missed case None => Start(c) + |Stream(c)| == |s.hist| case Some(f) => f < |s.hist|)
  {
    hide IsRun, StreamShape, WireItems, Kept, Whole, Stream;
    hide AllEvents, Embedded, Increasing, GapsWithin, Beyond, CoreInv;
    var s, c := run[i], run[i].conns[id];
    StreamOfRun(run, i, id);
    ConnOfRun(run, i, id);
    LockFree(s);
    StreamBegins(c, s.hist, s.published);
    QuiescentStream(c);
    BackfillWithin(c, s.hist, s.published);
  }

  lemma BackfillWithin(c: Conn, hist: seq<CachedEvent>, published: nat)
    requires RangeFits(c, hist, published) && c.ranged.Some?
    ensures Start(c) + |c.backfill| == Base(c)
  {}

  lemma {:induction false} NoGapsMeansContiguous(items: seq<Item>, from: nat, k: nat)
    requires GapsWithin(items, from, 0) && Increasing(items) && k < |items|
    ensures items[k].pos == from + k
  {
    if k > 0 {
      NoGapsMeansContiguous(items, from, k - 1);
      assert items[k - 1].pos < items[k].pos;
    }
  }

  /** Without gaps in the queue there is none in the stream either. */
  lemma TightStream(c: Conn, hist: seq<CachedEvent>, published: nat)
    requires Spaced(c) && RangeFits(c, hist, published) && c.ranged.Some? && c.sub.maxLag == 0
    requires Stream(c) == c.backfill + Beyond(c)
    ensures Contiguous(Stream(c), Start(c))
  {
    hide Stream, Kept, Whole;
    var q := c.queuedAtRange;
    forall k | 0 <= k < |c.enqueued| ensures c.enqueued[k].pos == c.joinPos + k {
      NoGapsMeansContiguous(c.enqueued, c.joinPos, k);
    }
    if c.backfill != [] && q < |c.enqueued| {
      assert q > 0 ==> c.enqueued[q - 1].pos < c.ranged.value;
      assert c.enqueued[q].pos == c.ranged.value;
    }
  }

  /** With no overflow tolerated the first refusal ends the connection, so what it received never has a gap. */
  lemma NoToleranceNoGap(run: seq<State>, i: nat, id: ConnId)
    requires IsRun(run) && i < |run| && id < |run[i].conns|
    requires Admitted(run[i].conns[id]) && run[i].conns[id].sub.maxLag == 0
    ensures Unbroken(run[i].conns[id])
  {
    hide IsRun, WireItems, Stream, Whole, Start, LocalInv, CoreInv, CaughtUp, Spaced, RangeFits, Unbroken;
    var s, c := run[i], run[i].conns[id];
    ConnOfRun(run, i, id);
    StreamOfRun(run, i, id);
    TightStream(c, s.hist, s.published);
    assert Contiguous(WireItems(c.wire), Start(c));
    GapFreeIffUnbroken(run, i, id);
  }

  // ----- Bounded lag, and the shape of the stream -----

  /**
   * Bounded lag over every run: the queue stays within its depth, fewer than
   * `maxLag + 1` consecutive history positions are missing before or between
   * queued events, and for a subscriber still taking part the events refused
   * since the last queued one are exactly the ones counted by its lag, which is
   * within its bound except between the refusal that exceeds it and the eviction.
   */
  lemma BoundedLag(run: seq<State>, i: nat, id: ConnId)
    requires IsRun(run) && i < |run| && id < |run[i].conns|
    ensures var c, at := run[i].conns[id], ProgressOf(run[i], id);
            && |c.sub.queue| <= c.sub.depth <= HARD_MAX_SEND_QUEUE_DEPTH
            && Increasing(c.enqueued) && Embedded(c.enqueued, run[i].hist)
            && GapsWithin(c.enqueued, c.joinPos, c.sub.maxLag)
            && (Active(c) && !Unjoined(c.pc) ==>
                  && at.handed - NextPos(c) == c.sub.lag <= c.sub.maxLag + 1
                  && (c.sub.lag <= c.sub.maxLag || at.stage.Evicting?))
  {
    hide IsRun, StreamShape, WireItems, Kept, Ordered, Splits;
    hide ProgressOf, Increasing, Embedded, GapsWithin, Whole;
    ConnOfRun(run, i, id);
  }

  /**
   * Once a subscriber is disconnected at most one event enters its queue again:
   * the one whose offer had loaded the flag before it was set. After a lag
   * eviction there is no such offer, so nothing does.
   */
  lemma NothingQueuedAfterDisconnect(run: seq<State>, i: nat, j: nat, id: ConnId)
    requires IsRun(run) && i <= j < |run| && id < |run[i].conns| && run[i].conns[id].sub.disconnected
    ensures var c := run[i].conns[id];
            && id < |run[j].conns|
            && (run[j].conns[id].enqueued == c.enqueued
                || (OfferInFlight(run[i], id) && run[j].conns[id].enqueued == c.enqueued + [AtHand(run[i])]))
            && (c.sub.lag > c.sub.maxLag ==> !OfferInFlight(run[i], id))
  {
    hide IsRun, LocalInv, FreshInv, PlaceInv, CaughtUp, CoreInv, Splits;
    QueueAfterDisconnect(run, i, j, id);
    ConnOfRun(run, i, id);
    if OfferInFlight(run[i], id) {
      FlightStage(run[i], id);
    }
  }

  lemma FlightStage(s: State, id: ConnId)
    requires RegistryInv(s) && OfferInFlight(s, id) && id < |s.conns|
    ensures ProgressOf(s, id).stage.Sending? && !Unjoined(s.conns[id].pc)
  {}

  /** Every connection's frames are events followed by at most one terminal frame that fits them. */
  lemma StreamsHaveShape(run: seq<State>, i: nat, id: ConnId)
    requires IsRun(run) && i < |run| && id < |run[i].conns|
    ensures StreamShape(run[i].conns[id].wire)
  {
    hide IsRun, StreamShape, Ordered, Splits, ProgressOf;
    ConnOfRun(run, i, id);
  }
}
