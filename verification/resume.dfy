/** Reconnecting with the sequence number of a terminal frame. */
module Resume {
  import opened Events
  import opened Connections
  import opened ConnectionInvariant
  import opened Placement
  import opened Pipeline
  import opened PipelineInvariant
  import opened PipelineSteps
  import opened PipelineRuns
  import opened Delivery

  /** The stream ended with a notice naming `s` as the last delivered number. */
  predicate EndedWith(c: Conn, s: nat) {
    && c.wire != []
    && var f := c.wire[|c.wire| - 1];
       (f.LagExceededFrame? || f.ServerShutdownFrame?) && f.lastDelivered == s
  }

  /** The number in the notice is that of the last event received. */
  lemma NoticeNamesLast(c: Conn, s: nat)
    requires WireInv(c) && EndedWith(c, s)
    ensures s == LastSeq(WireItems(c.wire)) && Ended(c.pc)
  {
    var n := |c.wire| - 1;
    assert c.wire == c.wire[..n] + [c.wire[n]];
    WireAppend(c.wire[..n], c.wire[n]);
    assert WireItems(c.wire[..n]) + [] == WireItems(c.wire[..n]);
  }

  /** What has been handed to a connection is numbered up to the frontier. */
  lemma StreamNumbered(c: Conn, last: nat)
    requires NumberedUpTo(c.enqueued, last) && NumberedUpTo(c.backfill, last)
    ensures NumberedUpTo(Stream(c), last)
  {
    hide Kept;
    KeptKeeps(c.enqueued, Mark(c));
    var kept := Kept(c.enqueued, Mark(c));
    forall k | 0 <= k < |kept| ensures kept[k].event.seqNo <= last {
      assert kept[k] in c.enqueued;
    }
  }

  lemma NoticeBelowFrontier(run: seq<State>, i: nat, id: ConnId, s: nat)
    requires IsRun(run) && i < |run| && id < |run[i].conns| && EndedWith(run[i].conns[id], s)
    ensures s <= FrontierSeq(run[i])
    ensures Ended(run[i].conns[id].pc) && s == LastSeq(WireItems(run[i].conns[id].wire))
  {
    hide IsRun, Kept, WireItems, StreamShape, Ordered, Splits, CoreInv;
    hide RegistryInv, FreshInv, PlaceInv, ProgressOf, Stream, EndedWith;
    var c := run[i].conns[id];
    RunInv(run, i);
    assert ConnOk(run[i], id);
    NoticeNamesLast(c, s);
    StreamNumbered(c, FrontierSeq(run[i]));
    WireIsPrefixOfStream(c);
    PrefixNumbered(WireItems(c.wire), Stream(c), FrontierSeq(run[i]));
  }

  lemma PrefixNumbered(a: seq<Item>, b: seq<Item>, last: nat)
    requires a <= b && NumberedUpTo(b, last)
    ensures LastSeq(a) <= last
  {
    assert forall k :: 0 <= k < |a| ==> a[k] == b[k];
  }

  /** A connection that had not registered when the first one ended joins past everything it was told. */
  lemma LaterJoin(run: seq<State>, i: nat, j: nat, id: ConnId)
    requires IsRun(run) && i <= j < |run| && id < |run[j].conns| && run[j].conns[id].ranged.Some?
    requires id < |run[i].conns| ==> Unjoined(run[i].conns[id].pc)
    ensures FrontierSeq(run[i]) <= run[j].conns[id].joinSeq
  {
    hide IsRun, FrontierSeq, Frontier, Unjoined;
    var k := JoinedAtRegistration(run, j, id);
    if k + 1 <= i {
      RunAdvances(run, k + 1, i, id);
    } else {
      RunHistory(run, i, k);
    }
  }

  // ----- Two slices of the history -----

  /** The cut after position `p` (exclusive) does not split a batch. */
  predicate CutAtBatchEnd(hist: seq<CachedEvent>, p: nat) {
    0 < p < |hist| ==> hist[p - 1].seqNo != hist[p].seqNo
  }

  /**
   * Two slices, the second starting at the first event numbered above the last
   * one of the first slice, join up exactly when the first ends a batch.
   */
  lemma SlicesJoin(hist: seq<CachedEvent>, a: nat, p: nat, b: nat, q: nat)
    requires Ordered(hist) && a < p <= |hist| && b <= q <= |hist| && Splits(hist, hist[p - 1].seqNo, b)
    ensures p <= b
    ensures CutAtBatchEnd(hist, p) <==> p == b
    ensures p == b ==> hist[a..p] + hist[b..q] == hist[a..p + q - b]
    ensures b < q && p + q - b <= |hist| && hist[a..p] + hist[b..q] == hist[a..p + q - b] ==> p == b
  {
    assert p <= b;
    if b < q && p + q - b <= |hist| && hist[a..p] + hist[b..q] == hist[a..p + q - b] {
      assert (hist[a..p] + hist[b..q])[p - a] == hist[b];
      assert hist[a..p + q - b][p - a] == hist[p];
    }
  }

  /** The event streams of two connections, one after the other, are one gap-free slice of the history. */
  ghost predicate Continues(hist: seq<CachedEvent>, start: nat, first: seq<CachedEvent>, second: seq<CachedEvent>) {
    && start + |first| + |second| <= |hist|
    && first + second == hist[start..start + |first| + |second|]
  }

  /**
   * Two-connection resume: an unbroken connection ended with a terminal frame
   * carrying s > 0, be it a server shutdown or a lag eviction; later in the run
   * another one registers with resume point s, is admitted and unbroken too. Then
   * the second stream continues the first with no gap and no duplicate if the
   * first stream ended a batch, and, as soon as the second connection has
   * received anything, only if it did.
   */
  lemma ResumeContinues(run: seq<State>, i: nat, j: nat, id1: ConnId, id2: ConnId, s: nat)
    requires IsRun(run) && i <= j < |run| && id1 < |run[i].conns| && id2 < |run[j].conns|
    requires Admitted(run[i].conns[id1]) && Unbroken(run[i].conns[id1]) && EndedWith(run[i].conns[id1], s) && s > 0
    requires id2 < |run[i].conns| ==> Unjoined(run[i].conns[id2].pc)
    requires Admitted(run[j].conns[id2]) && Unbroken(run[j].conns[id2]) && run[j].conns[id2].resumeFrom == s
    ensures var c1, c2 := run[i].conns[id1], run[j].conns[id2];
            var from, hist := Start(c1), run[j].hist;
            var atEnd := CutAtBatchEnd(hist, from + |Received(c1)|);
            && (atEnd ==> Continues(hist, from, Received(c1), Received(c2)))
            && (Received(c2) != [] && Continues(hist, from, Received(c1), Received(c2)) ==> atEnd)
  {
    hide IsRun, Start, Received, Ordered, Boundary, Splits;
    hide FrontierSeq, CutAtBatchEnd, Unjoined, EndedWith, Unbroken;
    var c1, c2 := run[i].conns[id1], run[j].conns[id2];
    var hist := run[j].hist;
    NoticeBelowFrontier(run, i, id1, s);
    LaterJoin(run, i, j, id2);
    RunHistory(run, i, j);
    ExactlyOnce(run, i, id1);
    ExactlyOnce(run, j, id2);
    StartOfRun(run, j, id2);
    HistoryOfRun(run, j);
    LastReceived(c1, s);
    ReceivedSlice(run[i].hist, hist, Start(c1), Received(c1));
    JoinStreams(hist, Start(c1), Received(c1), Start(c2), Received(c2));
  }

  lemma HistoryOfRun(run: seq<State>, j: nat)
    requires IsRun(run) && j < |run|
    ensures Ordered(run[j].hist)
  {
    hide IsRun, Ordered, CoreInv, RegistryInv, ConnInv;
    RunInv(run, j);
    HistoryOrdered(run[j]);
  }

  /**
   * A lag-evicted client can resume: an admitted connection that ended with
   * LagExceeded meets the condition of the resume theorem if and only if it
   * received no more events than it was owed before the first refusal that no
   * backfill made up for. So it does when nothing was queued after that refusal,
   * and with no overflow tolerated it always does.
   */
  lemma EvictedMayResumeIff(run: seq<State>, i: nat, id: ConnId)
    requires IsRun(run) && i < |run| && id < |run[i].conns| && Admitted(run[i].conns[id])
    requires var w := run[i].conns[id].wire; w != [] && w[|w| - 1].LagExceededFrame? && w[|w| - 1].lastDelivered > 0
    ensures var c := run[i].conns[id];
            var out := WireItems(c.wire);
            && out != [] && EndedWith(c, out[|out| - 1].event.seqNo)
            && (Unbroken(c) <==> Contiguous(out, Start(c)))
            && (Unbroken(c) <==> c.missed.None? || Start(c) + |out| <= c.missed.value)
            && (c.missed.Some? && NextPos(c) <= c.missed.value ==> Unbroken(c))
            && (c.sub.maxLag == 0 ==> Unbroken(c))
  {
    hide IsRun, Start, WireItems, Contiguous, Whole, Stream, Increasing, Embedded, Unbroken, Beyond;
    var c := run[i].conns[id];
    NoticeBelowFrontier(run, i, id, c.wire[|c.wire| - 1].lastDelivered);
    GapFreeIffUnbroken(run, i, id);
    StreamOfRun(run, i, id);
    DeliveredInOrder(run, i, id);
    UnbrokenByCount(c);
    UnbrokenByQueue(run, i, id);
    if c.sub.maxLag == 0 {
      NoToleranceNoGap(run, i, id);
    }
  }

  /** Counting tells as much as looking at the last position. */
  lemma UnbrokenByCount(c: Conn)
    requires Whole(Stream(c), Start(c), c.missed) && WireItems(c.wire) <= Stream(c)
    ensures Unbroken(c) <==> c.missed.None? || Start(c) + |WireItems(c.wire)| <= c.missed.value
  {
    hide WireItems, Stream, Start;
    var out := WireItems(c.wire);
    if c.missed.Some? && out != [] {
      assert out[|out| - 1] == Stream(c)[|out| - 1];
    }
  }

  /** If nothing was queued after the first refusal, nothing can be received after it. */
  lemma UnbrokenByQueue(run: seq<State>, i: nat, id: ConnId)
    requires IsRun(run) && i < |run| && id < |run[i].conns| && Admitted(run[i].conns[id])
    ensures var c := run[i].conns[id]; c.missed.Some? && NextPos(c) <= c.missed.value ==> Unbroken(c)
  {
    hide IsRun, WireItems, Stream, Whole, LocalInv, CoreInv, CaughtUp, Embedded, Kept;
    var s, c := run[i], run[i].conns[id];
    ConnOfRun(run, i, id);
    StreamOfRun(run, i, id);
    if c.missed.Some? && NextPos(c) <= c.missed.value {
      BelowMissed(c, s.hist, s.published);
      var out := WireItems(c.wire);
      assert out != [] ==> out[|out| - 1] == Stream(c)[|out| - 1];
    }
  }

  lemma BelowMissed(c: Conn, hist: seq<CachedEvent>, published: nat)
    requires Spaced(c) && RangeFits(c, hist, published) && c.ranged.Some? && Stream(c) == c.backfill + Beyond(c)
    requires c.missed.Some? && NextPos(c) <= c.missed.value
    ensures forall k :: 0 <= k < |Stream(c)| ==> Stream(c)[k].pos < c.missed.value
  {
    hide Stream, Kept;
    assert forall k :: 0 <= k < |c.enqueued| ==> c.enqueued[k].pos < c.missed.value;
  }

  lemma ReceivedSlice(early: seq<CachedEvent>, hist: seq<CachedEvent>, a: nat, r: seq<CachedEvent>)
    requires early <= hist && a + |r| <= |early| && r == early[a..a + |r|]
    ensures r == hist[a..a + |r|]
  {}

  /** Two received slices, the second past the last number of the first, continue exactly at a batch end. */
  lemma JoinStreams(hist: seq<CachedEvent>, a: nat, r1: seq<CachedEvent>, b: nat, r2: seq<CachedEvent>)
    requires Ordered(hist) && r1 != [] && a + |r1| <= |hist| && r1 == hist[a..a + |r1|]
    requires b + |r2| <= |hist| && r2 == hist[b..b + |r2|]
    requires Splits(hist, r1[|r1| - 1].seqNo, b)
    ensures CutAtBatchEnd(hist, a + |r1|) ==> Continues(hist, a, r1, r2)
    ensures r2 != [] && Continues(hist, a, r1, r2) ==> CutAtBatchEnd(hist, a + |r1|)
  {
    hide Ordered, Splits, CutAtBatchEnd;
    assert hist[a + |r1| - 1] == r1[|r1| - 1];
    SlicesJoin(hist, a, a + |r1|, b, b + |r2|);
  }

  lemma LastReceived(c: Conn, s: nat)
    requires s > 0 && s == LastSeq(WireItems(c.wire))
    ensures |Received(c)| > 0 && Received(c)[|Received(c)| - 1].seqNo == s
  {
    hide WireItems;
  }
}
