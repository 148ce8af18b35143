/** From the log to the client's socket: what a client decodes from the bytes it received. */
module EndToEnd {
  import opened Events
  import opened Connections
  import opened ConnectionInvariant
  import opened Placement
  import opened Pipeline
  import opened Delivery
  import opened Oversize
  import opened LogRefinement
  import opened Resume
  import SubscribeFrames

  // ----- Frames and their bytes -----

  /** The number a frame carries. */
  function NumberIn(f: Frame): nat {
    match f
    case EventFrame(item) => item.event.seqNo
    case LagExceededFrame(n) => n
    case TruncatedFrame(n) => n
    case ServerShutdownFrame(n) => n
    case InvalidRequestFrame => 0
  }

  /** A number in its 64-bit field. No number of a run is too large for it. */
  function Field(n: nat): u64 {
    if n <= U64_MAX then n else U64_MAX
  }

  function ToWire(f: Frame): SubscribeFrames.Outbound {
    match f
    case EventFrame(item) => SubscribeFrames.Event(Field(item.event.seqNo), item.event.payload)
    case LagExceededFrame(n) => SubscribeFrames.LagExceeded(Field(n))
    case TruncatedFrame(n) => SubscribeFrames.Truncated(Field(n))
    case ServerShutdownFrame(n) => SubscribeFrames.ServerShutdown(Field(n))
    case InvalidRequestFrame => SubscribeFrames.InvalidRequest
  }

  /** The frames as the encoder sees them; events that fit a frame never fail to encode, nor does any other frame. */
  function OnWire(wire: seq<Frame>, cfg: Config): (frames: seq<SubscribeFrames.Outbound>)
    requires PayloadsFit(wire, cfg)
    ensures |frames| == |wire|
    ensures forall i :: 0 <= i < |frames| ==> SubscribeFrames.EncodeOutbound(frames[i], cfg.maxFrameSize).Ok?
  {
    seq(|wire|, i requires 0 <= i < |wire| => ToWire(wire[i]))
  }

  /** The bytes written on a connection. */
  function Sent(c: Conn, cfg: Config): Bytes
    requires PayloadsFit(c.wire, cfg)
  {
    SubscribeFrames.EncodeAll(OnWire(c.wire, cfg), cfg.maxFrameSize)
  }

  // ----- Every number fits its field -----

  ghost predicate Encodable(wire: seq<Frame>) {
    forall i :: 0 <= i < |wire| ==> NumberIn(wire[i]) <= U64_MAX
  }

  lemma {:induction false} WireHas(wire: seq<Frame>, i: nat)
    requires i < |wire| && wire[i].EventFrame?
    ensures wire[i].item in WireItems(wire)
  {
    var n := |wire| - 1;
    if i < n {
      WireHas(wire[..n], i);
    }
  }

  lemma LastSeqFits(items: seq<Item>, hist: seq<CachedEvent>)
    requires Embedded(items, hist) && Ordered(hist)
    ensures LastSeq(items) <= U64_MAX && forall x :: x in items ==> x.event.seqNo <= U64_MAX
  {}

  lemma ShapeFits(wire: seq<Frame>, hist: seq<CachedEvent>)
    requires StreamShape(wire) && Embedded(WireItems(wire), hist) && Ordered(hist)
    ensures Encodable(wire)
  {
    hide WireItems, Ordered, Embedded;
    LastSeqFits(WireItems(wire), hist);
    var n := |wire| - 1;
    if wire != [] && !wire[n].EventFrame? {
      assert wire == wire[..n] + [wire[n]];
      WireAppend(wire[..n], wire[n]);
      assert WireItems(wire[..n]) + [] == WireItems(wire[..n]);
    }
    forall i | 0 <= i < |wire| ensures NumberIn(wire[i]) <= U64_MAX {
      if wire[i].EventFrame? {
        WireHas(wire, i);
      }
    }
  }

  /** In every run, every number on every wire fits its 64-bit field. */
  lemma NumbersFit(run: seq<State>, i: nat, id: ConnId)
    requires IsRun(run) && i < |run| && id < |run[i].conns|
    ensures Encodable(run[i].conns[id].wire)
  {
    hide IsRun, StreamShape, WireItems, Embedded, Increasing, Ordered, Encodable;
    StreamsHaveShape(run, i, id);
    DeliveredInOrder(run, i, id);
    HistoryOfRun(run, i);
    ShapeFits(run[i].conns[id].wire, run[i].hist);
  }

  // ----- The events among decoded frames -----

  function EventsIn(frames: seq<SubscribeFrames.Outbound>): seq<CachedEvent> {
    if frames == [] then []
    else
      var n := |frames| - 1;
      EventsIn(frames[..n]) + (if frames[n].Event? then [CachedEvent(frames[n].seqNo, frames[n].payload)] else [])
  }

  lemma {:induction false} EventsSurvive(wire: seq<Frame>, cfg: Config)
    requires PayloadsFit(wire, cfg) && Encodable(wire)
    ensures EventsIn(OnWire(wire, cfg)) == EventsOf(WireItems(wire))
  {
    if wire != [] {
      var n := |wire| - 1;
      EventsSurvive(wire[..n], cfg);
      assert OnWire(wire, cfg)[..n] == OnWire(wire[..n], cfg);
    }
  }

  lemma {:induction false} EventsOfPrefix(a: seq<SubscribeFrames.Outbound>, b: seq<SubscribeFrames.Outbound>)
    requires a <= b
    ensures EventsIn(a) <= EventsIn(b)
  {
    if a != b {
      EventsOfPrefix(a, b[..|b| - 1]);
    }
  }

  /** What the client decodes from its copy of the bytes, cut after `k` of them. */
  function Decoded(c: Conn, cfg: Config, k: nat): seq<CachedEvent>
    requires PayloadsFit(c.wire, cfg) && k <= |Sent(c, cfg)|
  {
    EventsIn(SubscribeFrames.DecodeUntilError(Sent(c, cfg)[..k], cfg.maxFrameSize).0)
  }

  lemma DecodedPrefix(c: Conn, cfg: Config, k: nat)
    requires PayloadsFit(c.wire, cfg) && k <= |Sent(c, cfg)| && Encodable(c.wire)
    ensures Decoded(c, cfg, k) <= Received(c)
    ensures k == |Sent(c, cfg)| ==> Decoded(c, cfg, k) == Received(c)
  {
    hide WireItems, EventsOf, OnWire, EventsIn, SubscribeFrames.DecodeUntilError, Encodable, PayloadsFit;
    var all, max := OnWire(c.wire, cfg), cfg.maxFrameSize;
    SubscribeFrames.CutStreamYieldsPrefix(all, max, k);
    EventsSurvive(c.wire, cfg);
    EventsOfPrefix(SubscribeFrames.DecodeUntilError(Sent(c, cfg)[..k], max).0, all);
  }

  /** The decoded frame says what was written. */
  predicate Carries(o: SubscribeFrames.Outbound, f: Frame) {
    match f
    case EventFrame(item) => o.Event? && o.seqNo == item.event.seqNo && o.payload == item.event.payload
    case LagExceededFrame(n) => o.LagExceeded? && o.lastDelivered == n
    case TruncatedFrame(n) => o.Truncated? && o.oldestAvailable == n
    case ServerShutdownFrame(n) => o.ServerShutdown? && o.lastDelivered == n
    case InvalidRequestFrame => o.InvalidRequest?
  }

  /** What the client reads from the first `k` bytes: some of the frames that were written, or all of them. */
  ghost predicate DecodesAt(c: Conn, cfg: Config, k: nat)
    requires PayloadsFit(c.wire, cfg) && k <= |Sent(c, cfg)|
  {
    var (got, e) := SubscribeFrames.DecodeUntilError(Sent(c, cfg)[..k], cfg.maxFrameSize);
    && |got| <= |c.wire| && (forall j :: 0 <= j < |got| ==> Carries(got[j], c.wire[j]))
    && (e == SubscribeFrames.EofBeforeHeader || e.ShortFrame?)
    && (k == |Sent(c, cfg)| ==> |got| == |c.wire| && e == SubscribeFrames.EofBeforeHeader)
  }

  lemma FramesSurvive(c: Conn, cfg: Config, k: nat)
    requires PayloadsFit(c.wire, cfg) && k <= |Sent(c, cfg)| && Encodable(c.wire)
    ensures DecodesAt(c, cfg, k)
  {
    hide PayloadsFit, SubscribeFrames.DecodeUntilError, SubscribeFrames.EncodeAll, SubscribeFrames.EncodeOutbound;
    var all := OnWire(c.wire, cfg);
    SubscribeFrames.CutStreamYieldsPrefix(all, cfg.maxFrameSize, k);
    var got := SubscribeFrames.DecodeUntilError(Sent(c, cfg)[..k], cfg.maxFrameSize).0;
    forall j | 0 <= j < |got| ensures Carries(got[j], c.wire[j]) {
      assert got[j] == all[j] == ToWire(c.wire[j]);
    }
  }

  /**
   * For any connection, unbroken or not, and any point at which the client's
   * copy of the bytes is cut: the client decodes a prefix of the frames that
   * were written, control frames included, and all of them if nothing is cut.
   */
  lemma ClientDecodesFrames(run: seq<State>, i: nat, id: ConnId)
    requires IsRun(run) && i < |run| && id < |run[i].conns|
    ensures PayloadsFit(run[i].conns[id].wire, run[i].cfg)
    ensures var c, cfg := run[i].conns[id], run[i].cfg;
            forall k :: 0 <= k <= |Sent(c, cfg)| ==> DecodesAt(c, cfg, k)
  {
    RunPayloadsFit(run, i, id);
    hide *;
    NumbersFit(run, i, id);
    var c, cfg := run[i].conns[id], run[i].cfg;
    forall k | 0 <= k <= |Sent(c, cfg)| ensures DecodesAt(c, cfg, k) {
      FramesSurvive(c, cfg, k);
    }
  }

  lemma PrefixOfSlice(a: seq<CachedEvent>, b: seq<CachedEvent>, hist: seq<CachedEvent>, from: nat)
    requires a <= b && from + |b| <= |hist| && b == hist[from..from + |b|]
    ensures a == hist[from..from + |a|]
  {
    assert a == b[..|a|];
  }

  /** These events are a slice of those. */
  predicate SliceAt(events: seq<CachedEvent>, all: seq<CachedEvent>, from: nat) {
    from + |events| <= |all| && events == all[from..from + |events|]
  }

  /**
   * Exactly once, end to end: take an unbroken connection, the bytes written on
   * it and any point at which the client's copy of them is cut. The events the
   * client decodes are the push history from the connection's start position on,
   * with no gap and no duplicate, and all of what was written if nothing is cut.
   */
  lemma ClientDecodesHistory(run: seq<State>, i: nat, id: ConnId)
    requires IsRun(run) && i < |run| && id < |run[i].conns|
    requires Admitted(run[i].conns[id]) && Unbroken(run[i].conns[id])
    ensures PayloadsFit(run[i].conns[id].wire, run[i].cfg)
    ensures var c, cfg := run[i].conns[id], run[i].cfg;
            && (forall k :: 0 <= k <= |Sent(c, cfg)| ==> SliceAt(Decoded(c, cfg, k), run[i].hist, Start(c)))
            && Decoded(c, cfg, |Sent(c, cfg)|) == Received(c)
  {
    RunPayloadsFit(run, i, id);
    hide *;
    var c, cfg := run[i].conns[id], run[i].cfg;
    NumbersFit(run, i, id);
    ExactlyOnce(run, i, id);
    forall k | 0 <= k <= |Sent(c, cfg)| ensures SliceAt(Decoded(c, cfg, k), run[i].hist, Start(c)) {
      CutDecodes(c, cfg, k, run[i].hist);
    }
    DecodedPrefix(c, cfg, |Sent(c, cfg)|);
  }

  lemma CutDecodes(c: Conn, cfg: Config, k: nat, hist: seq<CachedEvent>)
    requires PayloadsFit(c.wire, cfg) && k <= |Sent(c, cfg)| && Encodable(c.wire)
    requires Start(c) + |Received(c)| <= |hist| && Received(c) == hist[Start(c)..Start(c) + |Received(c)|]
    ensures SliceAt(Decoded(c, cfg, k), hist, Start(c))
  {
    hide PayloadsFit, Encodable, Decoded, Sent, Received, Start;
    DecodedPrefix(c, cfg, k);
    PrefixOfSlice(Decoded(c, cfg, k), Received(c), hist, Start(c));
  }

  lemma SliceOfPrefix(events: seq<CachedEvent>, a: seq<CachedEvent>, b: seq<CachedEvent>, from: nat)
    requires a <= b && SliceAt(events, a, from)
    ensures SliceAt(events, b, from)
  {}

  /**
   * From log bytes to client bytes, in every state of every run: the frames read
   * are the ones the file starts with, and what the client decodes, wherever its
   * copy is cut, is a gap-free slice of the extractor's answers to them.
   */
  lemma ClientDecodesLog(run: seq<State>, i: nat, id: ConnId, extract: Extract)
    requires IsRun(run) && i < |run| && id < |run[i].conns| && Obeys(run, extract)
    requires Admitted(run[i].conns[id]) && Unbroken(run[i].conns[id])
    ensures BytesInv(run[i]) && PayloadsFit(run[i].conns[id].wire, run[i].cfg)
    ensures var c, cfg := run[i].conns[id], run[i].cfg;
            var answers := Specified(run[i].frames, extract, |run[i].frames|);
            forall k :: 0 <= k <= |Sent(c, cfg)| ==> SliceAt(Decoded(c, cfg, k), answers, Start(c))
  {
    RunPayloadsFit(run, i, id);
    hide *;
    var s, c, cfg := run[i], run[i].conns[id], run[i].cfg;
    ClientDecodesHistory(run, i, id);
    PipelineRefinesLog(run, i, extract);
    FramesStartFile(run, i);
    var answers := Specified(s.frames, extract, |s.frames|);
    forall k | 0 <= k <= |Sent(c, cfg)| ensures SliceAt(Decoded(c, cfg, k), answers, Start(c)) {
      SliceOfPrefix(Decoded(c, cfg, k), s.hist, answers, Start(c));
    }
  }
}
