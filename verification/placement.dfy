/** Where the events of one connection sit in the push history. */
module Placement {
  import opened Events
  import opened Subscription
  import opened Connections
  import opened ConnectionInvariant

  /** The subscriber still takes part in broadcasts. */
  predicate Active(c: Conn) {
    !c.sub.disconnected && c.sub.receiverOpen
  }

  /** First history position not queued yet, were nothing skipped from here on. */
  function NextPos(c: Conn): nat {
    if c.enqueued == [] then c.joinPos else c.enqueued[|c.enqueued| - 1].pos + 1
  }

  /** How far the broadcast has come for one subscriber: the position it is handed next, and where that offer is. */
  datatype Progress = Progress(handed: nat, stage: OfferStage)

  /** What an offer of the event at `at.handed` leads to. */
  function Advanced(c: Conn, item: Item, at: Progress): Progress {
    match OfferAccess(c.sub, item, at.stage).1
    case Some(Sending) => at.(stage := Sending)
    case Some(next) => Progress(at.handed + 1, next)
    case None => Progress(if at.stage.Evicting? then at.handed else at.handed + 1, Checking)
  }

  /** An event sent now would be queued or refused: the offer is past its check, or will pass it. */
  predicate Awaits(c: Conn, stage: OfferStage) {
    c.sub.receiverOpen && (stage.Sending? || !c.sub.disconnected)
  }

  /** Where the part of the queue begins that the backfill does not cover. */
  function Base(c: Conn): nat {
    if c.backfill != [] && c.ranged.Some? then c.ranged.value else c.joinPos
  }

  /** The events queued beyond the backfill. */
  function Beyond(c: Conn): seq<Item> {
    if c.backfill == [] || c.queuedAtRange > |c.enqueued| then c.enqueued else c.enqueued[c.queuedAtRange..]
  }

  /** Items carry the events found at their positions. */
  ghost predicate Embedded(items: seq<Item>, hist: seq<CachedEvent>) {
    forall k :: 0 <= k < |items| ==> items[k].pos < |hist| && hist[items[k].pos] == items[k].event
  }

  ghost predicate Increasing(items: seq<Item>) {
    forall j, k :: 0 <= j < k < |items| ==> items[j].pos < items[k].pos
  }

  ghost predicate Contiguous(items: seq<Item>, from: nat) {
    forall k :: 0 <= k < |items| ==> items[k].pos == from + k
  }

  /** At most `lag` positions are skipped before the first item and between neighbours. */
  ghost predicate GapsWithin(items: seq<Item>, from: nat, lag: nat) {
    && (items != [] ==> from <= items[0].pos <= from + lag)
    && (forall k :: 0 <= k < |items| - 1 ==> items[k + 1].pos <= items[k].pos + 1 + lag)
  }

  /** Nothing is skipped from `from` on, up to the first missed position if there is one; that one is skipped. */
  ghost predicate Whole(items: seq<Item>, from: nat, missed: Option<nat>) {
    match missed
    case None => Contiguous(items, from)
    case Some(f) =>
      && from <= f <= from + |items|
      && (forall k :: 0 <= k < f - from ==> items[k].pos == from + k)
      && (forall k :: f - from <= k < |items| ==> items[k].pos > f)
  }

  /** What was queued: in order, within the lag bound, and whole up to the first missed event. */
  ghost predicate Spaced(c: Conn) {
    && Increasing(c.enqueued)
    && GapsWithin(c.enqueued, c.joinPos, c.sub.maxLag)
    && Whole(Beyond(c), Base(c), c.missed)
  }

  /**
   * A subscriber that can be sent to has been handed every event up to
   * `at.handed`; only the last `lag` were refused.
   */
  ghost predicate CaughtUp(c: Conn, at: Progress) {
    Awaits(c, at.stage) ==>
      && NextPos(c) + c.sub.lag == at.handed
      && (match c.missed case None => at.handed == Base(c) + |Beyond(c)| case Some(f) => f < at.handed)
  }

  /** The lag exceeds its bound only when the subscriber is evicted for it, or about to be. */
  ghost predicate LagFits(c: Conn, stage: OfferStage) {
    && c.sub.maxLag <= HARD_MAX_SUBSCRIBER_LAG && c.sub.lag <= c.sub.maxLag + 1
    && (stage.Sending? || (!c.sub.disconnected && !stage.Evicting?) ==> c.sub.lag <= c.sub.maxLag)
    && (stage.Evicting? ==> c.sub.lag > c.sub.maxLag || !c.sub.receiverOpen)
  }

  /** No batch straddles position `n`. */
  ghost predicate Boundary(hist: seq<CachedEvent>, n: nat) {
    forall i, j :: 0 <= i < n <= j < |hist| ==> hist[i].seqNo < hist[j].seqNo
  }

  /** The backfill is the end of the history as it was, cut at the resume point. */
  ghost predicate BackfillFits(c: Conn, hist: seq<CachedEvent>, n: nat)
    requires n <= |hist|
  {
    && |c.backfill| <= n
    && (forall k :: 0 <= k < |c.backfill| ==>
          c.backfill[k] == Item(n - |c.backfill| + k, hist[n - |c.backfill| + k]))
    && (c.resumeFrom == 0 ==> c.backfill == [])
    && (c.resumeFrom > 0 ==> Splits(hist[..n], c.resumeFrom, n - |c.backfill|))
  }

  /** What was queued by the time of the backfill lies before its end, the rest after. */
  ghost predicate QueueFits(c: Conn, n: nat) {
    && c.joinPos <= n
    && c.queuedAtRange <= |c.enqueued|
    && (forall k :: 0 <= k < c.queuedAtRange ==> c.enqueued[k].pos < n)
    && (forall k :: c.queuedAtRange <= k < |c.enqueued| ==> c.enqueued[k].pos >= n)
  }

  ghost predicate RangeFits(c: Conn, hist: seq<CachedEvent>, published: nat) {
    match c.ranged
    case None => c.backfill == []
    case Some(n) => n <= published <= |hist| && Boundary(hist, n) && BackfillFits(c, hist, n) && QueueFits(c, n)
  }

  // ----- The broadcast reaches the connection -----

  /** One more item, at most `lag` positions further on. */
  lemma SpacingExtends(items: seq<Item>, from: nat, lag: nat, x: Item)
    requires Increasing(items) && GapsWithin(items, from, lag)
    requires var next := if items == [] then from else items[|items| - 1].pos + 1;
             next <= x.pos <= next + lag
    ensures Increasing(items + [x]) && GapsWithin(items + [x], from, lag)
  {
    forall j, k | 0 <= j < k < |items| + 1 ensures (items + [x])[j].pos < (items + [x])[k].pos {
      if k == |items| && j < |items| - 1 {
        assert items[j].pos < items[|items| - 1].pos;
      }
    }
  }

  lemma WholeExtends(items: seq<Item>, from: nat, missed: Option<nat>, x: Item)
    requires Whole(items, from, missed)
    requires match missed case None => x.pos == from + |items| case Some(f) => f < x.pos
    ensures Whole(items + [x], from, missed)
  {}

  lemma WholeMisses(items: seq<Item>, from: nat, pos: nat)
    requires Contiguous(items, from) && pos == from + |items|
    ensures Whole(items, from, Some(pos))
  {}

  lemma BeyondExtends(c: Conn, item: Item)
    requires c.queuedAtRange <= |c.enqueued|
    ensures Beyond(c.(enqueued := c.enqueued + [item])) == Beyond(c) + [item]
  {}

  lemma SentSpaced(c: Conn, item: Item)
    requires Spaced(c) && CaughtUp(c, Progress(item.pos, Sending)) && LagFits(c, Sending)
    requires c.queuedAtRange <= |c.enqueued| && TrySend(c.sub, Live(item)).1 == Sent
    ensures Spaced(Offered(c, item, Sending))
  {
    SentChanges(c, item);
    hide Increasing, GapsWithin, Whole, Offered, TrySend;
    SpacingExtends(c.enqueued, c.joinPos, c.sub.maxLag, item);
    BeyondExtends(c, item);
    WholeExtends(Beyond(c), Base(c), c.missed, item);
  }

  /** An accepted offer leaves all but the queue and the lag as it was. */
  lemma SentChanges(c: Conn, item: Item)
    requires TrySend(c.sub, Live(item)).1 == Sent
    ensures var o := Offered(c, item, Sending);
            && Beyond(o) == Beyond(c.(enqueued := c.enqueued + [item])) && Base(o) == Base(c)
            && o.enqueued == c.enqueued + [item] && o.joinPos == c.joinPos && o.missed == c.missed
            && o.sub.maxLag == c.sub.maxLag && c.sub.receiverOpen
  {}

  lemma RefusedSpaced(c: Conn, item: Item)
    requires Spaced(c) && CaughtUp(c, Progress(item.pos, Sending)) && TrySend(c.sub, Live(item)).1 == Full
    ensures Spaced(Offered(c, item, Sending))
  {
    hide Increasing, GapsWithin;
    if c.missed.None? {
      WholeMisses(Beyond(c), Base(c), item.pos);
    }
  }

  lemma OfferedSpaced(c: Conn, item: Item, at: Progress)
    requires Spaced(c) && CaughtUp(c, at) && LagFits(c, at.stage) && c.queuedAtRange <= |c.enqueued|
    requires at.stage.Sending? ==> at.handed == item.pos
    ensures Spaced(Offered(c, item, at.stage))
  {
    if at.stage.Sending? {
      match TrySend(c.sub, Live(item)).1 {
        case Sent => SentSpaced(c, item);
        case Full => RefusedSpaced(c, item);
        case Closed =>
      }
    }
  }

  lemma OfferedCaughtUp(c: Conn, item: Item, at: Progress)
    requires CaughtUp(c, at) && LagFits(c, at.stage) && c.queuedAtRange <= |c.enqueued|
    requires at.stage.Sending? ==> at.handed == item.pos
    ensures var c', at' := Offered(c, item, at.stage), Advanced(c, item, at);
            CaughtUp(c', at') && LagFits(c', at'.stage)
  {
    BeyondExtends(c, item);
  }

  lemma OfferedEmbedded(c: Conn, item: Item, stage: OfferStage, hist: seq<CachedEvent>)
    requires Embedded(c.enqueued, hist) && item.pos < |hist| && hist[item.pos] == item.event
    ensures Embedded(Offered(c, item, stage).enqueued, hist)
  {}

  lemma OfferedRangeFits(c: Conn, item: Item, stage: OfferStage, hist: seq<CachedEvent>, published: nat)
    requires RangeFits(c, hist, published) && item.pos >= published
    ensures RangeFits(Offered(c, item, stage), hist, published)
  {}

  /** A served connection is only ever offered events newer than its backfill. */
  lemma OfferIsNew(c: Conn, hist: seq<CachedEvent>, published: nat, pos: nat)
    requires RangeFits(c, hist, published) && published <= pos < |hist| && hist[pos].seqNo >= 1
    ensures hist[pos].seqNo > Mark(c)
  {}

  // ----- The history grows -----

  lemma EmbeddedGrows(items: seq<Item>, hist: seq<CachedEvent>, hist': seq<CachedEvent>)
    requires Embedded(items, hist) && hist <= hist'
    ensures Embedded(items, hist')
  {}

  /** Appending events newer than everything published keeps the backfill's place. */
  lemma RangeFitsGrows(c: Conn, hist: seq<CachedEvent>, published: nat, e: CachedEvent)
    requires RangeFits(c, hist, published) && published <= |hist|
    requires forall i :: 0 <= i < published ==> hist[i].seqNo < e.seqNo
    ensures RangeFits(c, hist + [e], published)
  {
    if c.ranged.Some? {
      var n := c.ranged.value;
      assert (hist + [e])[..n] == hist[..n];
    }
  }

  lemma RangeFitsLater(c: Conn, hist: seq<CachedEvent>, published: nat, published': nat)
    requires RangeFits(c, hist, published) && published <= published' <= |hist|
    ensures RangeFits(c, hist, published')
  {}

  lemma SplitsGrows(hist: seq<CachedEvent>, f: nat, b: nat, e: CachedEvent)
    requires Splits(hist, f, b) && e.seqNo > f
    ensures Splits(hist + [e], f, b)
  {}

  // ----- What the stream of a connection is -----

  /** The stream is embedded in the history, and its positions strictly increase. */
  lemma StreamIncreases(c: Conn, hist: seq<CachedEvent>, published: nat)
    requires Increasing(c.enqueued) && Embedded(c.enqueued, hist) && RangeFits(c, hist, published) && Ordered(hist)
    ensures Increasing(Stream(c)) && Embedded(Stream(c), hist)
  {
    hide Kept;
    var kept := Kept(c.enqueued, Mark(c));
    KeptKeeps(c.enqueued, Mark(c));
    if c.backfill != [] {
      var n := c.ranged.value;
      assert Mark(c) == hist[n - 1].seqNo;
      assert forall i :: 0 <= i < n ==> hist[i].seqNo <= hist[n - 1].seqNo;
      forall k | 0 <= k < |kept| ensures kept[k].pos >= n {
        assert kept[k] in c.enqueued;
      }
    }
  }

  lemma {:induction false} KeptKeeps(items: seq<Item>, mark: nat)
    ensures forall x :: x in Kept(items, mark) <==> x in items && x.event.seqNo > mark
    ensures Increasing(items) ==> Increasing(Kept(items, mark))
  {
    if items != [] {
      var n := |items| - 1;
      var front, kept := items[..n], Kept(items[..n], mark);
      KeptKeeps(front, mark);
      assert items == front + [items[n]];
      assert Kept(items, mark) == kept + (if items[n].event.seqNo > mark then [items[n]] else []);
      hide Kept;
      if Increasing(items) {
        forall k | 0 <= k < |kept| ensures kept[k].pos < items[n].pos {
          assert kept[k] in front;
        }
        hide *;
        IncreasingExtends(kept, items[n]);
      }
    }
  }

  lemma IncreasingExtends(items: seq<Item>, x: Item)
    requires Increasing(items) && forall k :: 0 <= k < |items| ==> items[k].pos < x.pos
    ensures Increasing(items + [x])
  {}

  lemma {:induction false} KeptSuffix(items: seq<Item>, mark: nat, k: nat)
    requires k <= |items|
    requires forall i :: 0 <= i < k ==> items[i].event.seqNo <= mark
    requires forall i :: k <= i < |items| ==> items[i].event.seqNo > mark
    ensures Kept(items, mark) == items[k..]
  {
    if items != [] {
      var n := |items| - 1;
      if k <= n {
        KeptSuffix(items[..n], mark, k);
        assert items[k..] == items[..n][k..] + [items[n]];
      } else {
        KeptSuffix(items[..n], mark, n);
      }
    }
  }

  /** First history position a served connection is owed. */
  function Start(c: Conn): nat {
    if |c.backfill| <= Base(c) then Base(c) - |c.backfill| else 0
  }

  /** A served connection's stream is the backfill and what was queued beyond it. */
  lemma StreamIsBackfillAndBeyond(c: Conn, hist: seq<CachedEvent>, published: nat)
    requires Embedded(c.enqueued, hist) && Ordered(hist) && RangeFits(c, hist, published) && c.ranged.Some?
    ensures Stream(c) == c.backfill + Beyond(c)
  {
    hide Kept;
    if c.backfill == [] {
      KeptSuffix(c.enqueued, 0, 0);
    } else {
      var n := c.ranged.value;
      assert Mark(c) == hist[n - 1].seqNo;
      assert forall i :: 0 <= i < n ==> hist[i].seqNo <= hist[n - 1].seqNo;
      KeptSuffix(c.enqueued, Mark(c), c.queuedAtRange);
    }
  }

  lemma BackfillThenWhole(backfill: seq<Item>, items: seq<Item>, base: nat, missed: Option<nat>)
    requires |backfill| <= base && Contiguous(backfill, base - |backfill|) && Whole(items, base, missed)
    ensures Whole(backfill + items, base - |backfill|, missed)
  {
    var all, n := backfill + items, |backfill|;
    assert forall k :: 0 <= k < |all| ==> all[k] == if k < n then backfill[k] else items[k - n];
  }

  /** The stream of a served connection is whole from its start to the first missed event. */
  lemma StreamWhole(c: Conn, hist: seq<CachedEvent>, published: nat)
    requires Spaced(c) && Embedded(c.enqueued, hist) && Ordered(hist)
    requires RangeFits(c, hist, published) && c.ranged.Some?
    ensures Whole(Stream(c), Start(c), c.missed) && Stream(c) == c.backfill + Beyond(c)
  {
    StreamIsBackfillAndBeyond(c, hist, published);
    hide Whole, Stream, Beyond;
    BackfillThenWhole(c.backfill, Beyond(c), Base(c), c.missed);
  }

  /** The start is a batch boundary, and for a resume point covered by the backfill the first event past it. */
  lemma StartOfBackfill(c: Conn, hist: seq<CachedEvent>, published: nat)
    requires Ordered(hist) && RangeFits(c, hist, published) && c.ranged.Some? && c.backfill != []
    ensures Splits(hist, c.resumeFrom, Start(c)) && Boundary(hist, Start(c))
  {
    var n := c.ranged.value;
    assert forall i :: 0 <= i < n ==> hist[..n][i] == hist[i];
    assert hist[n - 1].seqNo > c.resumeFrom;
    assert forall i :: n <= i < |hist| ==> hist[n - 1].seqNo < hist[i].seqNo;
  }

  /** With nothing to backfill, a resume point up to the joining point is the joining point. */
  lemma StartOfLive(c: Conn, hist: seq<CachedEvent>, published: nat)
    requires Ordered(hist) && RangeFits(c, hist, published) && c.ranged.Some? && c.backfill == []
    requires Splits(hist, c.joinSeq, c.joinPos)
    ensures Start(c) == c.joinPos && Boundary(hist, c.joinPos)
    ensures 0 < c.resumeFrom <= c.joinSeq ==> Splits(hist, c.resumeFrom, c.joinPos)
  {
    if 0 < c.resumeFrom <= c.joinSeq {
      var n := c.ranged.value;
      assert forall i :: 0 <= i < n ==> hist[..n][i] == hist[i];
      assert n > 0 ==> hist[n - 1].seqNo <= c.resumeFrom;
      assert n == c.joinPos;
    }
  }
}
