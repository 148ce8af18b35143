/**
 * What every connection thread keeps, whatever the other threads do: its writes
 * are a prefix of one fixed stream (the backfill, then the queued events newer
 * than it), and the frames on the wire have the documented shape.
 */
module ConnectionInvariant {
  import opened Events
  import opened Subscription
  import opened Connections

  /** The events among queued deliveries, in order. */
  function LiveItems(q: seq<Delivery<Item>>): seq<Item> {
    if q == [] then []
    else (if q[0].Live? then [q[0].item] else []) + LiveItems(q[1..])
  }

  /** The items numbered above `mark`, in order. */
  function Kept(items: seq<Item>, mark: nat): seq<Item> {
    if items == [] then []
    else
      var n := |items| - 1;
      Kept(items[..n], mark) + (if items[n].event.seqNo > mark then [items[n]] else [])
  }

  /** The events written on a connection, in order. */
  function WireItems(wire: seq<Frame>): seq<Item> {
    if wire == [] then []
    else
      var n := |wire| - 1;
      WireItems(wire[..n]) + (if wire[n].EventFrame? then [wire[n].item] else [])
  }

  function LastSeq(items: seq<Item>): nat {
    if items == [] then 0 else items[|items| - 1].event.seqNo
  }

  /** Highest sequence number of the backfill: what the drain suppresses up to. */
  function Mark(c: Conn): nat {
    LastSeq(c.backfill)
  }

  /** Everything the connection is going to be sent, given what has been queued so far. */
  function Stream(c: Conn): seq<Item> {
    c.backfill + Kept(c.enqueued, Mark(c))
  }

  ghost predicate AllEvents(wire: seq<Frame>) {
    forall i :: 0 <= i < |wire| ==> wire[i].EventFrame?
  }

  /** What a terminal frame says about the frames before it. */
  ghost predicate Fits(body: seq<Frame>, f: Frame) {
    match f
    case EventFrame(_) => false
    case LagExceededFrame(n) => n == LastSeq(WireItems(body))
    case ServerShutdownFrame(n) => n == LastSeq(WireItems(body))
    case TruncatedFrame(n) => body == [] && n <= U64_MAX
    case InvalidRequestFrame => body == []
  }

  /** Event* then at most one terminal frame, which reports the last event written. */
  ghost predicate StreamShape(wire: seq<Frame>) {
    || AllEvents(wire)
    || (&& wire != []
        && AllEvents(wire[..|wire| - 1])
        && Fits(wire[..|wire| - 1], wire[|wire| - 1]))
  }

  /** Sequence numbers are positive 64-bit values. */
  ghost predicate Numbered(items: seq<Item>) {
    forall k :: 0 <= k < |items| ==> 1 <= items[k].event.seqNo <= U64_MAX
  }

  predicate Unjoined(pc: Pc) {
    pc.Handshaking? || pc.Registering?
  }

  predicate BeforeRange(pc: Pc) {
    Unjoined(pc) || pc.Ranging? || pc.Refusing?
  }

  predicate BeforeDispatch(pc: Pc) {
    BeforeRange(pc) || pc.Backfilling? || pc.StopChecking? || pc.SelfSignalling? || pc.Entering?
  }

  /** The thread is in dispatch_live's main loop. */
  predicate Looping(pc: Pc) {
    pc.CheckingShutdown? || pc.CheckingDisconnected? || pc.Receiving? || pc.Probing? || pc.Writing?
  }

  /** The thread has returned from dispatch_live or given up earlier. */
  predicate Ended(pc: Pc) {
    pc.Unregistering? || pc.Finished?
  }

  /** Events the thread has taken out of the cache or the channel but not written yet. */
  function InHand(c: Conn): seq<Item> {
    match c.pc
    case Backfilling(n) => if n <= |c.backfill| then c.backfill[n..] else []
    case Draining(p) => LiveItems(p)
    case CheckingShutdown(p) => LiveItems(p)
    case CheckingDisconnected(p) => LiveItems(p)
    case Receiving(p) => LiveItems(p)
    case Writing(d, p) => LiveItems([d] + p)
    case _ => []
  }

  /** The part of the stream that has left the cache or the channel. */
  function Took(c: Conn): seq<Item>
    requires c.taken <= |c.enqueued|
  {
    c.backfill + Kept(c.enqueued[..c.taken], Mark(c))
  }

  /** What is on the wire and in hand is what has been taken; after the end, a prefix of the stream. */
  ghost predicate Balanced(c: Conn) {
    && c.taken <= |c.enqueued|
    && if Ended(c.pc) then WireItems(c.wire) <= Stream(c) else WireItems(c.wire) + InHand(c) == Took(c)
  }

  /** What holds before and after each stage of the thread. */
  ghost predicate Staged(c: Conn) {
    && (Unjoined(c.pc) ==> c.enqueued == [])
    && (BeforeRange(c.pc) ==> c.backfill == [] && c.wire == [])
    && (BeforeDispatch(c.pc) ==> c.taken == 0 && c.discarded == {})
    && (c.pc.Refusing? ==> c.pc.point <= U64_MAX)
    && (c.pc.Backfilling? ==> c.pc.next <= |c.backfill|)
    && (c.pc.Draining? ==> WireItems(c.wire) == c.backfill != [])
    && (Looping(c.pc) && c.backfill != [] ==> c.taken >= c.queuedAtRange)
  }

  /** The channel: what was enqueued and not taken is what is queued. */
  ghost predicate QueueInv(c: Conn) {
    && 1 <= c.sub.depth <= HARD_MAX_SEND_QUEUE_DEPTH && |c.sub.queue| <= c.sub.depth
    && c.taken <= |c.enqueued| && c.enqueued[c.taken..] == LiveItems(c.sub.queue)
    && c.sub.receiverOpen == !c.pc.Finished?
  }

  /** Events queued after the backfill was taken are newer than it; only older ones are thrown away. */
  ghost predicate MarkInv(c: Conn) {
    && Numbered(c.enqueued) && Numbered(c.backfill)
    && c.queuedAtRange <= |c.enqueued|
    && (forall k :: c.queuedAtRange <= k < |c.enqueued| ==> c.enqueued[k].event.seqNo > Mark(c))
    && (forall k :: k in c.discarded ==> k < |c.enqueued| && c.enqueued[k].event.seqNo <= Mark(c))
    && (c.discarded != {} ==> c.backfill <= WireItems(c.wire))
  }

  /** The wire: documented shape, and the delivered counter reports its last event. */
  ghost predicate WireInv(c: Conn) {
    && StreamShape(c.wire)
    && (!Ended(c.pc) ==> AllEvents(c.wire))
    && c.sub.lastDelivered == LastSeq(WireItems(c.wire))
  }

  ghost predicate LocalInv(c: Conn) {
    && QueueInv(c)
    && MarkInv(c)
    && WireInv(c)
    && Balanced(c)
    && Staged(c)
  }

  // ----- Sequence facts -----

  lemma {:induction false} LiveItemsAppend(q: seq<Delivery<Item>>, d: Delivery<Item>)
    ensures LiveItems(q + [d]) == LiveItems(q) + (if d.Live? then [d.item] else [])
  {
    var x := if d.Live? then [d.item] else [];
    if q == [] {
      assert q + [d] == [d] && [d][1..] == [];
    } else {
      var head := if q[0].Live? then [q[0].item] else [];
      assert (q + [d])[1..] == q[1..] + [d];
      LiveItemsAppend(q[1..], d);
      assert head + (LiveItems(q[1..]) + x) == head + LiveItems(q[1..]) + x;
    }
  }

  lemma KeptAppend(items: seq<Item>, x: Item, mark: nat)
    ensures Kept(items + [x], mark) == Kept(items, mark) + (if x.event.seqNo > mark then [x] else [])
  {
    assert (items + [x])[..|items|] == items;
  }

  lemma {:induction false} KeptConcat(a: seq<Item>, b: seq<Item>, mark: nat)
    ensures Kept(a + b, mark) == Kept(a, mark) + Kept(b, mark)
  {
    if b == [] {
      assert a + b == a;
    } else {
      var n := |b| - 1;
      KeptConcat(a, b[..n], mark);
      assert (a + b)[..|a| + n] == a + b[..n];
    }
  }

  lemma WireAppend(wire: seq<Frame>, f: Frame)
    ensures WireItems(wire + [f]) == WireItems(wire) + (if f.EventFrame? then [f.item] else [])
  {
    assert (wire + [f])[..|wire|] == wire;
  }

  /** The stream is what has been taken followed by what is still queued and kept. */
  lemma StreamSplits(c: Conn)
    requires c.taken <= |c.enqueued|
    ensures Stream(c) == Took(c) + Kept(c.enqueued[c.taken..], Mark(c))
  {
    var a, b, m := c.enqueued[..c.taken], c.enqueued[c.taken..], Mark(c);
    assert c.enqueued == a + b;
    KeptConcat(a, b, m);
    assert c.backfill + (Kept(a, m) + Kept(b, m)) == c.backfill + Kept(a, m) + Kept(b, m);
  }

  /** At every point of the thread, what is on the wire is a prefix of its stream. */
  lemma WireIsPrefixOfStream(c: Conn)
    requires Balanced(c)
    ensures WireItems(c.wire) <= Stream(c)
  {
    StreamSplits(c);
    if !Ended(c.pc) {
      assert WireItems(c.wire) <= WireItems(c.wire) + InHand(c);
    }
  }

  lemma AppendBoth(a: seq<Item>, b: seq<Item>, c: seq<Item>, d: seq<Item>, x: seq<Item>)
    requires a + b == c + d
    ensures a + (b + x) == c + (d + x)
  {
    assert a + (b + x) == (a + b) + x;
    assert c + (d + x) == (c + d) + x;
  }

  lemma ShiftHead(a: seq<Item>, x: Item, b: seq<Item>)
    ensures a + [x] + b == a + ([x] + b)
  {}

  // ----- Preservation by the actions of other threads -----

  lemma OfferedKeepsQueue(c: Conn, item: Item, stage: OfferStage)
    requires QueueInv(c)
    ensures QueueInv(Offered(c, item, stage))
  {
    LiveItemsAppend(c.sub.queue, Live(item));
    assert (c.enqueued + [item])[c.taken..] == c.enqueued[c.taken..] + [item];
  }

  lemma OfferedKeepsBalance(c: Conn, item: Item, stage: OfferStage)
    requires Balanced(c)
    ensures Balanced(Offered(c, item, stage))
  {
    var m := Mark(c);
    KeptAppend(c.enqueued, item, m);
    assert (c.enqueued + [item])[..c.taken] == c.enqueued[..c.taken];
    assert c.backfill + Kept(c.enqueued, m) <= c.backfill + (Kept(c.enqueued, m) + [item]);
  }

  lemma OfferedKeepsMark(c: Conn, item: Item, stage: OfferStage)
    requires MarkInv(c) && 1 <= item.event.seqNo <= U64_MAX && item.event.seqNo > Mark(c)
    ensures MarkInv(Offered(c, item, stage))
  {}

  lemma OfferedFrame(c: Conn, item: Item, stage: OfferStage)
    ensures var c' := Offered(c, item, stage);
            && c'.pc == c.pc && c'.wire == c.wire && c'.backfill == c.backfill && c'.taken == c.taken
            && c'.discarded == c.discarded && c'.queuedAtRange == c.queuedAtRange
            && c'.sub.lastDelivered == c.sub.lastDelivered
            && c'.sub.shutdownRequested == c.sub.shutdownRequested && c'.sub.receiverOpen == c.sub.receiverOpen
            && c'.resumeFrom == c.resumeFrom && c'.joinPos == c.joinPos && c'.joinSeq == c.joinSeq
            && c'.ranged == c.ranged && c'.parted == c.parted
  {}

  lemma OfferedKeepsInv(c: Conn, item: Item, stage: OfferStage)
    requires LocalInv(c) && !Unjoined(c.pc)
    requires 1 <= item.event.seqNo <= U64_MAX && item.event.seqNo > Mark(c)
    ensures LocalInv(Offered(c, item, stage))
  {
    hide Offered, QueueInv, MarkInv, Balanced, StreamShape, AllEvents, WireItems;
    OfferedKeepsQueue(c, item, stage);
    OfferedKeepsMark(c, item, stage);
    OfferedKeepsBalance(c, item, stage);
    OfferedFrame(c, item, stage);
  }

  lemma SignalledKeepsQueue(c: Conn, stage: SignalStage)
    requires QueueInv(c)
    ensures QueueInv(Signalled(c, stage))
  {
    LiveItemsAppend(c.sub.queue, Shutdown);
  }

  lemma SignalledKeepsInv(c: Conn, stage: SignalStage)
    requires LocalInv(c)
    ensures LocalInv(Signalled(c, stage))
  {
    hide LiveItems, Kept, WireItems, StreamShape, AllEvents;
    SignalledKeepsQueue(c, stage);
  }

  // ----- Preservation by the thread's own actions -----

  lemma JoinedKeepsInv(c: Conn, joinPos: nat, joinSeq: nat)
    requires LocalInv(c) && c.pc.Registering?
    ensures LocalInv(Joined(c, joinPos, joinSeq))
  {}

  lemma RangedOutKeepsInv(c: Conn, point: nat)
    requires LocalInv(c) && c.pc.Ranging? && point <= U64_MAX
    ensures LocalInv(RangedOut(c, point))
  {}

  lemma RangedKeepsBalance(c: Conn, backfill: seq<Item>, rangeLen: nat)
    requires c.taken == 0 && c.wire == [] && c.pc.Ranging?
    ensures Balanced(Ranged(c, backfill, rangeLen))
  {
    var c' := Ranged(c, backfill, rangeLen);
    assert Took(c') == backfill;
    assert InHand(c') == backfill;
  }

  lemma RangedKeepsInv(c: Conn, backfill: seq<Item>, rangeLen: nat)
    requires LocalInv(c) && c.pc.Ranging? && Numbered(backfill)
    ensures LocalInv(Ranged(c, backfill, rangeLen))
  {
    RangedKeepsBalance(c, backfill, rangeLen);
  }

  lemma LeftKeepsInv(c: Conn)
    requires LocalInv(c) && c.pc.Unregistering?
    ensures LocalInv(Left(c))
  {}

  lemma PoppedKeepsQueue(c: Conn)
    requires QueueInv(c) && c.sub.queue != [] && !c.pc.Finished?
    ensures QueueInv(Popped(c))
    ensures c.sub.queue[0].Live? ==> c.taken < |c.enqueued| && c.enqueued[c.taken] == c.sub.queue[0].item
  {
    var rest := LiveItems(c.sub.queue[1..]);
    if c.sub.queue[0].Live? {
      assert c.enqueued[c.taken..] == [c.sub.queue[0].item] + rest;
      assert c.enqueued[c.taken..][0] == c.enqueued[c.taken];
      assert c.enqueued[c.taken + 1..] == c.enqueued[c.taken..][1..];
    }
  }

  lemma ActKeepsQueue(c: Conn, a: Local)
    requires Enabled(c, a) && QueueInv(c)
    ensures QueueInv(Act(c, a))
  {
    hide LiveItems, SignalAccess;
    match a
    case SignalSelf => SignalledKeepsQueue(c, c.pc.stage);
    case DrainOne => PoppedKeepsQueue(c);
    case TakeNext => if c.pc.pending == [] { PoppedKeepsQueue(c); }
    case _ =>
  }

  /** An event frame extends an open wire. */
  lemma EventExtendsWire(wire: seq<Frame>, item: Item)
    requires AllEvents(wire)
    ensures AllEvents(wire + [EventFrame(item)])
    ensures WireItems(wire + [EventFrame(item)]) == WireItems(wire) + [item]
    ensures LastSeq(WireItems(wire + [EventFrame(item)])) == item.event.seqNo
    ensures StreamShape(wire + [EventFrame(item)])
  {
    WireAppend(wire, EventFrame(item));
  }

  /** A control frame closes an open wire. */
  lemma ControlClosesWire(wire: seq<Frame>, f: Frame)
    requires AllEvents(wire) && Fits(wire, f)
    ensures StreamShape(wire + [f])
    ensures WireItems(wire + [f]) == WireItems(wire)
  {
    WireAppend(wire, f);
    assert (wire + [f])[..|wire|] == wire;
  }

  lemma NoItems()
    ensures WireItems([]) == []
  {}

  lemma SignalFrame(sub: Sub<Item>, stage: SignalStage)
    ensures var sub' := SignalAccess(sub, stage).0;
            && sub'.lag == sub.lag && sub'.maxLag == sub.maxLag && sub'.receiverOpen == sub.receiverOpen
            && (sub.disconnected ==> sub'.disconnected)
            && (sub.shutdownRequested ==> sub'.shutdownRequested)
            && sub'.lastDelivered == sub.lastDelivered
  {}

  lemma ActKeepsWire(c: Conn, a: Local)
    requires Enabled(c, a) && WireInv(c) && (BeforeRange(c.pc) ==> c.wire == [])
    requires c.pc.Refusing? ==> c.pc.point <= U64_MAX
    ensures WireInv(Act(c, a))
  {
    hide WireItems, StreamShape, AllEvents, SignalAccess;
    NoItems();
    match a
    case RejectHandshake(_) => ControlClosesWire(c.wire, InvalidRequestFrame);
    case RefuseAtCapacity(_) => ControlClosesWire(c.wire, LagExceededFrame(0));
    case WriteTruncated(_) => ControlClosesWire(c.wire, TruncatedFrame(c.pc.point));
    case WriteBackfill(_) => EventExtendsWire(c.wire, c.backfill[c.pc.next]);
    case SignalSelf => SignalFrame(c.sub, c.pc.stage);
    case CheckShutdown(_) => ControlClosesWire(c.wire, ServerShutdownFrame(c.sub.lastDelivered));
    case CheckDisconnected(_) => ControlClosesWire(c.wire, LagExceededFrame(c.sub.lastDelivered));
    case WriteNext(_) =>
      match c.pc.event {
        case Live(item) => EventExtendsWire(c.wire, item);
        case Shutdown => ControlClosesWire(c.wire, ServerShutdownFrame(c.sub.lastDelivered));
      }
    case _ =>
  }

  /** No action takes back an event frame. */
  lemma ActExtendsWire(c: Conn, a: Local)
    requires Enabled(c, a)
    ensures c.wire <= Act(c, a).wire
    ensures WireItems(c.wire) <= WireItems(Act(c, a).wire)
  {
    ActWrites(c, a);
    hide Act, Enabled;
    var wire := Act(c, a).wire;
    if wire != c.wire {
      assert wire[..|wire| - 1] == c.wire;
    }
  }

  /** One action writes at most one frame. */
  lemma ActWrites(c: Conn, a: Local)
    requires Enabled(c, a)
    ensures var wire := Act(c, a).wire;
            wire == c.wire || (|wire| == |c.wire| + 1 && c.wire <= wire)
  {
    hide SignalAccess;
  }

  /** The thread's own actions leave the bookkeeping of the broadcast side alone. */
  lemma ActFrame(c: Conn, a: Local)
    requires Enabled(c, a)
    ensures var c' := Act(c, a);
            && c'.enqueued == c.enqueued && c'.backfill == c.backfill && c'.queuedAtRange == c.queuedAtRange
            && c'.joinPos == c.joinPos && c'.joinSeq == c.joinSeq && c'.ranged == c.ranged
            && c'.missed == c.missed && (c.parted ==> c'.parted)
            && (!a.AcceptHandshake? ==> c'.resumeFrom == c.resumeFrom)
            && (!a.DrainOne? ==> c'.discarded == c.discarded)
  {}

  lemma DrainKeepsMark(c: Conn)
    requires Enabled(c, DrainOne) && MarkInv(c) && QueueInv(c)
    requires WireItems(c.wire) == c.backfill && c.sub.lastDelivered == Mark(c)
    ensures MarkInv(Act(c, DrainOne))
  {
    PoppedKeepsQueue(c);
  }

  lemma ActKeepsMark(c: Conn, a: Local)
    requires Enabled(c, a) && MarkInv(c) && QueueInv(c)
    requires c.pc.Draining? ==> WireItems(c.wire) == c.backfill && c.sub.lastDelivered == Mark(c)
    ensures MarkInv(Act(c, a))
  {
    if a.DrainOne? {
      DrainKeepsMark(c);
    } else {
      ActExtendsWire(c, a);
      ActFrame(c, a);
    }
  }

  // ----- Balance, action by action -----

  lemma WriteBackfillBalance(c: Conn, ok: bool)
    requires Enabled(c, WriteBackfill(ok)) && Balanced(c) && AllEvents(c.wire)
    ensures Balanced(Act(c, WriteBackfill(ok)))
  {
    var item, rest := c.backfill[c.pc.next], c.backfill[c.pc.next + 1..];
    WireIsPrefixOfStream(c);
    EventExtendsWire(c.wire, item);
    assert InHand(c) == [item] + rest;
    ShiftHead(WireItems(c.wire), item, rest);
  }

  /** Taking the head of the channel grows both sides of the balance alike. */
  lemma PoppedTook(c: Conn)
    requires QueueInv(c) && c.sub.queue != [] && !c.pc.Finished?
    ensures Popped(c).taken <= |c.enqueued|
    ensures var d := c.sub.queue[0];
            Took(Popped(c)) ==
            c.backfill + (Kept(c.enqueued[..c.taken], Mark(c))
                          + (if d.Live? && d.item.event.seqNo > Mark(c) then [d.item] else []))
  {
    var d := c.sub.queue[0];
    PoppedKeepsQueue(c);
    if d.Live? {
      assert c.enqueued[..c.taken + 1] == c.enqueued[..c.taken] + [d.item];
      KeptAppend(c.enqueued[..c.taken], d.item, Mark(c));
    }
  }

  lemma DrainOneBalance(c: Conn)
    requires Enabled(c, DrainOne) && QueueInv(c) && Balanced(c) && c.sub.lastDelivered == Mark(c)
    ensures Balanced(Act(c, DrainOne))
  {
    hide Kept, WireItems, Stream;
    var d, p := c.sub.queue[0], c.pc.pending;
    PoppedTook(c);
    LiveItemsAppend(p, d);
    AppendBoth(WireItems(c.wire), LiveItems(p), c.backfill, Kept(c.enqueued[..c.taken], Mark(c)),
               if d.Live? && d.item.event.seqNo > Mark(c) then [d.item] else []);
  }

  lemma TakePendingBalance(c: Conn)
    requires Enabled(c, TakeNext) && Balanced(c) && c.pc.pending != []
    ensures Balanced(Act(c, TakeNext))
  {
    var p := c.pc.pending;
    assert [p[0]] + p[1..] == p;
  }

  lemma TakeQueuedBalance(c: Conn)
    requires Enabled(c, TakeNext) && QueueInv(c) && Balanced(c) && c.pc.pending == []
    requires c.sub.queue[0].Live? ==> c.sub.queue[0].item.event.seqNo > Mark(c)
    ensures Balanced(Act(c, TakeNext))
  {
    hide Kept, WireItems, Stream;
    var d := c.sub.queue[0];
    PoppedTook(c);
    LiveItemsAppend([], d);
    assert [d] + [] == [d] == [] + [d];
    AppendBoth(WireItems(c.wire), [], c.backfill, Kept(c.enqueued[..c.taken], Mark(c)),
               if d.Live? then [d.item] else []);
  }

  lemma TakeNextBalance(c: Conn)
    requires Enabled(c, TakeNext) && QueueInv(c) && MarkInv(c) && Balanced(c) && Staged(c)
    ensures Balanced(Act(c, TakeNext))
  {
    hide Act, Balanced, WireItems, LiveItems;
    if c.pc.pending != [] {
      TakePendingBalance(c);
    } else {
      PoppedKeepsQueue(c);
      TakeQueuedBalance(c);
    }
  }

  lemma WriteLiveBalance(c: Conn, item: Item)
    requires c.pc.Writing? && c.pc.event == Live(item)
    requires Balanced(c) && AllEvents(c.wire)
    ensures Balanced(Act(c, WriteNext(true)))
  {
    hide Kept, WireItems, AllEvents, StreamShape, LastSeq;
    EventExtendsWire(c.wire, item);
    assert ([c.pc.event] + c.pc.pending)[1..] == c.pc.pending;
    ShiftHead(WireItems(c.wire), item, LiveItems(c.pc.pending));
  }

  /** Once the thread gives up, or writes a control frame, the events written stay a prefix. */
  lemma EndBalance(c: Conn, c': Conn)
    requires Balanced(c) && Ended(c'.pc)
    requires c'.enqueued == c.enqueued && c'.backfill == c.backfill && c'.taken == c.taken
    requires c'.wire == c.wire || (exists f: Frame :: !f.EventFrame? && c'.wire == c.wire + [f])
    ensures Balanced(c')
  {
    WireIsPrefixOfStream(c);
    if c'.wire != c.wire {
      var f: Frame :| !f.EventFrame? && c'.wire == c.wire + [f];
      WireAppend(c.wire, f);
    }
  }

  /** The actions that neither move an event nor end the thread. */
  lemma QuietBalance(c: Conn, a: Local)
    requires Enabled(c, a) && Balanced(c) && !Ended(Act(c, a).pc)
    requires !a.WriteBackfill? && !a.DrainOne? && !a.TakeNext? && !a.WriteNext?
    requires c.pc.Backfilling? ==> c.pc.next <= |c.backfill|
    ensures Balanced(Act(c, a))
  {
    hide Kept, WireItems, SignalAccess, Stream;
    var c' := Act(c, a);
    assert InHand(c') == InHand(c);
    assert Took(c') == Took(c) && c'.wire == c.wire;
  }

  lemma ActKeepsBalance(c: Conn, a: Local)
    requires Enabled(c, a) && LocalInv(c)
    ensures Balanced(Act(c, a))
  {
    hide LiveItems, Kept, WireItems, InHand, Took, Stream;
    hide Balanced, MarkInv, StreamShape, AllEvents, SignalAccess;
    ActKeepsQueue(c, a);
    if Ended(Act(c, a).pc) {
      EndBalance(c, Act(c, a));
    } else {
      match a
      case WriteBackfill(ok) => WriteBackfillBalance(c, ok);
      case DrainOne => DrainOneBalance(c);
      case TakeNext => TakeNextBalance(c);
      case WriteNext(_) => WriteLiveBalance(c, c.pc.event.item);
      case _ => QuietBalance(c, a);
    }
  }

  /** When dispatch is entered the whole backfill, and nothing else, is on the wire. */
  lemma BackfillWritten(c: Conn)
    requires c.taken == 0 && Balanced(c) && (c.pc.StopChecking? || c.pc.Entering?)
    ensures WireItems(c.wire) == c.backfill
  {
    assert Took(c) == c.backfill;
    assert WireItems(c.wire) + [] == WireItems(c.wire);
  }

  lemma DrainedAll(c: Conn)
    requires QueueInv(c) && c.sub.queue == []
    ensures c.taken == |c.enqueued|
  {
    assert c.enqueued[c.taken..] == [];
  }

  lemma ActTakes(c: Conn, a: Local)
    requires Enabled(c, a)
    ensures Act(c, a).taken >= c.taken
    ensures BeforeDispatch(Act(c, a).pc) ==> Act(c, a).taken == c.taken && Act(c, a).discarded == c.discarded
    ensures BeforeDispatch(Act(c, a).pc) ==> BeforeDispatch(c.pc)
    ensures BeforeRange(Act(c, a).pc) ==> BeforeRange(c.pc) && Act(c, a).wire == c.wire
    ensures Unjoined(Act(c, a).pc) ==> Unjoined(c.pc)
  {}

  lemma ActKeepsStage(c: Conn, a: Local)
    requires Enabled(c, a) && QueueInv(c) && Staged(c) && c.queuedAtRange <= |c.enqueued|
    requires c.sub.lastDelivered == LastSeq(WireItems(c.wire))
    requires c.pc.Entering? ==> WireItems(c.wire) == c.backfill && Numbered(c.backfill)
    ensures Staged(Act(c, a))
  {
    hide Kept, WireItems, SignalAccess, LiveItems, BeforeRange, BeforeDispatch, Unjoined;
    ActFrame(c, a);
    ActTakes(c, a);
    if a.FinishDrain? {
      DrainedAll(c);
    }
  }

  /** Every action of the thread keeps the connection invariant. */
  lemma ActKeepsInv(c: Conn, a: Local)
    requires Enabled(c, a) && LocalInv(c)
    ensures LocalInv(Act(c, a))
  {
    hide Act;
    ActKeepsQueue(c, a);
    ActKeepsMark(c, a);
    ActKeepsWire(c, a);
    ActKeepsBalance(c, a);
    if c.pc.Entering? {
      BackfillWritten(c);
    }
    ActKeepsStage(c, a);
  }
}
