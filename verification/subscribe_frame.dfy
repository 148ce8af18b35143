/** Wire frames of the subscription protocol (canon-event-subscribe, frame.rs). */
module SubscribeFrames {
  import opened Events
  import opened ByteOrder
  import opened ByteStreams

  const HARD_MAX_FRAME_SIZE: nat := 16 * 1024 * 1024
  const KIND_SUBSCRIBE: uint8 := 0
  const KIND_EVENT: uint8 := 1
  const KIND_LAG_EXCEEDED: uint8 := 2
  const KIND_TRUNCATED: uint8 := 3
  const KIND_SERVER_SHUTDOWN: uint8 := 4
  const KIND_INVALID_REQUEST: uint8 := 5

  datatype Inbound = Subscribe(resumeFrom: u64)

  datatype Outbound =
    | Event(seqNo: u64, payload: Bytes)
    | LagExceeded(lastDelivered: u64)
    | Truncated(oldestAvailable: u64)
    | ServerShutdown(lastDelivered: u64)
    | InvalidRequest

  datatype FrameError =
    | Io
    | EofBeforeHeader
    | ShortFrame(bytesRead: nat, expected: nat)
    | UnknownKind(kind: uint8)
    | OversizeFrame(declared: nat, max: nat)

  datatype WriteError = PayloadOversize(len: nat, max: nat)

  function Cap(max: nat): nat {
    Min(max, HARD_MAX_FRAME_SIZE)
  }

  // ----- Encoding -----

  function Tagged(kind: uint8, n: nat): Bytes {
    [kind] + BE(n, 8)
  }

  function EncodeEvent(seqNo: u64, payload: Bytes): Bytes {
    Tagged(KIND_EVENT, seqNo) + BE(|payload|, 4) + payload
  }

  /** The clamp keeps every accepted payload within 32 bits, so the source's second size check never fires. */
  function EncodeOutbound(frame: Outbound, max: nat): Result<Bytes, WriteError> {
    match frame
    case Event(seqNo, payload) =>
      if |payload| > Cap(max) then Err(PayloadOversize(|payload|, Cap(max))) else Ok(EncodeEvent(seqNo, payload))
    case LagExceeded(n) => Ok(Tagged(KIND_LAG_EXCEEDED, n))
    case Truncated(n) => Ok(Tagged(KIND_TRUNCATED, n))
    case ServerShutdown(n) => Ok(Tagged(KIND_SERVER_SHUTDOWN, n))
    case InvalidRequest => Ok(Tagged(KIND_INVALID_REQUEST, 0))
  }

  function EncodeInbound(frame: Inbound): Bytes {
    Tagged(KIND_SUBSCRIBE, frame.resumeFrom)
  }

  // ----- Decoding -----

  /** What running out of bytes means: `already` bytes of the frame came before `s`. */
  function Short(s: Bytes, broken: bool, already: nat, expected: nat): FrameError {
    if broken then Io else ShortFrame(already + |s|, expected)
  }

  /** A 64-bit number from eight bytes. */
  function Number(bs: Bytes): u64
    requires |bs| == 8
  {
    FromBEBound(bs);
    Widths();
    FromBE(bs)
  }

  function Control(kind: uint8, n: u64): Outbound
    requires KIND_LAG_EXCEEDED <= kind <= KIND_INVALID_REQUEST
  {
    if kind == KIND_LAG_EXCEEDED then LagExceeded(n)
    else if kind == KIND_TRUNCATED then Truncated(n)
    else if kind == KIND_SERVER_SHUTDOWN then ServerShutdown(n)
    else InvalidRequest
  }

  /** An event frame after its tag: the frame or error, and the bytes left unread. */
  function DecodeEvent(s: Bytes, broken: bool, cap: nat): (Result<Outbound, FrameError>, Bytes) {
    if |s| < 8 then (Err(Short(s, broken, 1, 13)), [])
    else if |s| < 12 then (Err(Short(s[8..], broken, 9, 13)), [])
    else
      var declared := FromBE(s[8..12]);
      if declared > cap then (Err(OversizeFrame(declared, cap)), s[12..])
      else if |s| < 12 + declared then (Err(Short(s[12..], broken, 13, 13 + declared)), [])
      else (Ok(Event(Number(s[..8]), s[12..12 + declared])), s[12 + declared..])
  }

  /** One outbound frame from the front of a stream, and what is left of the stream. */
  function DecodeOutbound(s: Bytes, broken: bool, max: nat): (Result<Outbound, FrameError>, Bytes) {
    if s == [] then (Err(if broken then Io else EofBeforeHeader), [])
    else if s[0] == KIND_EVENT then DecodeEvent(s[1..], broken, Cap(max))
    else if KIND_LAG_EXCEEDED <= s[0] <= KIND_INVALID_REQUEST then
      if |s| < 9 then (Err(Short(s[1..], broken, 1, 9)), [])
      else (Ok(Control(s[0], Number(s[1..9]))), s[9..])
    else (Err(UnknownKind(s[0])), s[1..])
  }

  function DecodeInbound(s: Bytes, broken: bool): (Result<Inbound, FrameError>, Bytes) {
    if s == [] then (Err(if broken then Io else EofBeforeHeader), [])
    else if s[0] == KIND_SUBSCRIBE then
      if |s| < 9 then (Err(Short(s[1..], broken, 1, 9)), [])
      else (Ok(Subscribe(Number(s[1..9]))), s[9..])
    else (Err(UnknownKind(s[0])), s[1..])
  }

  // ----- The readers -----

  /** Fills the whole buffer, or reports how many bytes of the frame had come. */
  method ReadExactOrTruncated(r: Reader, buf: array<uint8>, already: nat, expected: nat) returns (e: Option<FrameError>)
    modifies r, buf
    ensures e.None? <==> |old(r.rest)| >= buf.Length
    ensures e.None? ==> buf[..] == old(r.rest)[..buf.Length] && r.rest == old(r.rest)[buf.Length..]
    ensures e.Some? ==> e.value == Short(old(r.rest), r.broken, already, expected) && r.rest == []
  {
    var filled := 0;
    while filled < buf.Length
      invariant filled <= buf.Length && filled <= |old(r.rest)|
      invariant buf[..filled] == old(r.rest)[..filled] && r.rest == old(r.rest)[filled..]
    {
      var n := r.Read(buf, filled);
      if n.None? {
        return Some(Io);
      }
      if n.value == 0 {
        return Some(ShortFrame(already + filled, expected));
      }
      filled := filled + n.value;
    }
    return None;
  }

  /** The first byte of a frame; an end of stream here is a clean disconnect. */
  method ReadKind(r: Reader) returns (k: Result<uint8, FrameError>)
    modifies r
    ensures k.Ok? <==> old(r.rest) != []
    ensures k.Ok? ==> k.value == old(r.rest)[0] && r.rest == old(r.rest)[1..]
    ensures k.Err? ==> k.error == (if r.broken then Io else EofBeforeHeader) && r.rest == []
  {
    var header := new uint8[1];
    var filled := 0;
    while filled < 1
      invariant filled <= 1 && filled <= |old(r.rest)|
      invariant header[..filled] == old(r.rest)[..filled] && r.rest == old(r.rest)[filled..]
    {
      var n := r.Read(header, filled);
      if n.None? {
        return Err(Io);
      }
      if n.value == 0 {
        return Err(EofBeforeHeader);
      }
      filled := filled + n.value;
    }
    assert header[..1][0] == header[0];
    return Ok(header[0]);
  }

  method ReadNumber(r: Reader, expected: nat) returns (n: Result<u64, FrameError>)
    modifies r
    ensures n.Ok? <==> |old(r.rest)| >= 8
    ensures n.Ok? ==> n.value == Number(old(r.rest)[..8]) && r.rest == old(r.rest)[8..]
    ensures n.Err? ==> n.error == Short(old(r.rest), r.broken, 1, expected) && r.rest == []
  {
    var buf := new uint8[8];
    var e := ReadExactOrTruncated(r, buf, 1, expected);
    if e.Some? {
      return Err(e.value);
    }
    return Ok(Number(buf[..]));
  }

  /** However the stream is fragmented, one frame is read and nothing past it. */
  method ReadInbound(r: Reader) returns (res: Result<Inbound, FrameError>)
    modifies r
    ensures (res, r.rest) == DecodeInbound(old(r.rest), r.broken)
  {
    var kind := ReadKind(r);
    if kind.Err? {
      return Err(kind.error);
    }
    if kind.value != KIND_SUBSCRIBE {
      return Err(UnknownKind(kind.value));
    }
    ghost var s := old(r.rest);
    assert |s| >= 9 ==> s[1..][..8] == s[1..9] && s[1..][8..] == s[9..];
    var n := ReadNumber(r, 9);
    if n.Err? {
      return Err(n.error);
    }
    return Ok(Subscribe(n.value));
  }

  method ReadEvent(r: Reader, cap: nat) returns (res: Result<Outbound, FrameError>)
    modifies r
    ensures (res, r.rest) == DecodeEvent(old(r.rest), r.broken, cap)
  {
    ghost var s := r.rest;
    var seqNo := ReadNumber(r, 13);
    if seqNo.Err? {
      return Err(seqNo.error);
    }
    var len := new uint8[4];
    var e := ReadExactOrTruncated(r, len, 9, 13);
    if e.Some? {
      return Err(e.value);
    }
    assert s[8..][..4] == s[8..12] && s[8..][4..] == s[12..];
    var declared := FromBE(len[..]);
    if declared > cap {
      return Err(OversizeFrame(declared, cap));
    }
    var payload := new uint8[declared];
    e := ReadExactOrTruncated(r, payload, 13, 13 + declared);
    if e.Some? {
      return Err(e.value);
    }
    assert s[12..][..declared] == s[12..12 + declared] && s[12..][declared..] == s[12 + declared..];
    return Ok(Event(seqNo.value, payload[..]));
  }

  method ReadOutbound(r: Reader, max: nat) returns (res: Result<Outbound, FrameError>)
    modifies r
    ensures (res, r.rest) == DecodeOutbound(old(r.rest), r.broken, max)
  {
    var cap := Min(max, HARD_MAX_FRAME_SIZE);
    var kind := ReadKind(r);
    if kind.Err? {
      return Err(kind.error);
    }
    if kind.value == KIND_EVENT {
      res := ReadEvent(r, cap);
      return;
    }
    if kind.value < KIND_LAG_EXCEEDED || kind.value > KIND_INVALID_REQUEST {
      return Err(UnknownKind(kind.value));
    }
    ghost var s := old(r.rest);
    assert |s| >= 9 ==> s[1..][..8] == s[1..9] && s[1..][8..] == s[9..];
    var n := ReadNumber(r, 9);
    if n.Err? {
      return Err(n.error);
    }
    return Ok(Control(kind.value, n.value));
  }

  // ----- Encoding and decoding are inverse -----

  lemma NumberOfBE(n: u64)
    ensures Number(BE(n, 8)) == n
  {
    Widths();
    FromBEOfBE(n, 8);
  }

  lemma TaggedFields(kind: uint8, n: u64, rest: Bytes)
    ensures var s := Tagged(kind, n) + rest;
            |s| >= 9 && s[0] == kind && s[1..9] == BE(n, 8) && Number(s[1..9]) == n && s[9..] == rest
  {
    NumberOfBE(n);
    var s := Tagged(kind, n) + rest;
    assert s[1..9] == BE(n, 8);
    assert s[9..] == rest;
  }

  lemma Layout(kind: uint8, a: Bytes, b: Bytes, c: Bytes, rest: Bytes)
    requires |a| == 8 && |b| == 4
    ensures var s := [kind] + a + b + c + rest;
            && s[0] == kind && s[1..][..8] == a && s[1..][8..12] == b
            && s[1..][12..12 + |c|] == c && s[1..][12 + |c|..] == rest && s[1..][12..] == c + rest
  {
    var s, t := [kind] + a + b + c + rest, a + b + c + rest;
    assert s[1..] == t;
    assert t[..8] == a;
    assert t[8..12] == b;
    assert t[12..12 + |c|] == c;
    assert t[12 + |c|..] == rest;
    assert t[12..] == c + rest;
  }

  lemma EventFields(seqNo: u64, payload: Bytes, rest: Bytes)
    requires |payload| <= HARD_MAX_FRAME_SIZE
    ensures var s := EncodeEvent(seqNo, payload) + rest;
            && |s| == 13 + |payload| + |rest| && s[0] == KIND_EVENT
            && Number(s[1..][..8]) == seqNo && FromBE(s[1..][8..12]) == |payload|
            && s[1..][12..12 + |payload|] == payload && s[1..][12 + |payload|..] == rest
            && s[1..][12..] == payload + rest
  {
    hide BE, FromBE;
    Widths();
    NumberOfBE(seqNo);
    FromBEOfBE(|payload|, 4);
    Layout(KIND_EVENT, BE(seqNo, 8), BE(|payload|, 4), payload, rest);
  }

  /** The payload is within the configured bound and the hard one. */
  predicate Within(frame: Outbound, max: nat) {
    frame.Event? ==> |frame.payload| <= max && |frame.payload| <= HARD_MAX_FRAME_SIZE
  }

  /** Exactly the events past a bound do not encode, and the error names the length and the lower bound. */
  lemma OversizeRefused(frame: Outbound, max: nat)
    ensures EncodeOutbound(frame, max).Ok? <==> Within(frame, max)
    ensures EncodeOutbound(frame, max).Err? ==>
              var e := EncodeOutbound(frame, max).error;
              && e.len == |frame.payload| && e.max <= max && e.max <= HARD_MAX_FRAME_SIZE
              && (e.max == max || e.max == HARD_MAX_FRAME_SIZE)
  {}

  /**
   * A frame followed by anything is read back as that frame, with what follows
   * untouched, if the reader's bounds admit its payload; otherwise its length is
   * reported and its payload left unread.
   */
  lemma OutboundRoundTrip(frame: Outbound, max: nat, rest: Bytes, broken: bool, max': nat)
    requires EncodeOutbound(frame, max).Ok?
    ensures var (r, left) := DecodeOutbound(EncodeOutbound(frame, max).value + rest, broken, max');
            if Within(frame, max') then r == Ok(frame) && left == rest
            else && r == Err(OversizeFrame(|frame.payload|, Min(max', HARD_MAX_FRAME_SIZE)))
                 && left == frame.payload + rest
  {
    match frame
    case Event(seqNo, payload) => EventFields(seqNo, payload, rest);
    case LagExceeded(n) => TaggedFields(KIND_LAG_EXCEEDED, n, rest);
    case Truncated(n) => TaggedFields(KIND_TRUNCATED, n, rest);
    case ServerShutdown(n) => TaggedFields(KIND_SERVER_SHUTDOWN, n, rest);
    case InvalidRequest => TaggedFields(KIND_INVALID_REQUEST, 0, rest);
  }

  lemma InboundRoundTrip(frame: Inbound, rest: Bytes, broken: bool)
    ensures DecodeInbound(EncodeInbound(frame) + rest, broken) == (Ok(frame), rest)
  {
    TaggedFields(KIND_SUBSCRIBE, frame.resumeFrom, rest);
  }

  /**
   * Conversely, what was read is what its encoding says, except that the
   * reserved bytes of an INVALID_REQUEST may be anything.
   */
  lemma OutboundCanonical(s: Bytes, broken: bool, max: nat)
    requires DecodeOutbound(s, broken, max).0.Ok?
    ensures var (r, rest) := DecodeOutbound(s, broken, max);
            var back := EncodeOutbound(r.value, max);
            && back.Ok?
            && (back.value + rest == s <==> (r.value.InvalidRequest? ==> s[1..9] == BE(0, 8)))
  {
    hide BE, FromBE;
    if s[0] == KIND_EVENT {
      assert s[1..][8..12] == s[9..13];
      EventCanonical(s, Cap(max));
    } else {
      ControlCanonical(s);
    }
  }

  lemma EventCanonical(s: Bytes, cap: nat)
    requires |s| >= 13 && s[0] == KIND_EVENT && FromBE(s[9..13]) <= cap && |s| >= 13 + FromBE(s[9..13])
    ensures var n := FromBE(s[9..13]);
            EncodeEvent(Number(s[1..][..8]), s[1..][12..12 + n]) + s[1..][12 + n..] == s
    ensures s[1..][8..12] == s[9..13]
  {
    var n := FromBE(s[9..13]);
    BEOfFromBE(s[1..9]);
    BEOfFromBE(s[9..13]);
    assert s[1..][..8] == s[1..9];
    assert s[1..][12..12 + n] == s[13..13 + n];
    assert s[1..][12 + n..] == s[13 + n..];
    assert s[1..][8..12] == s[9..13];
    assert s == [s[0]] + s[1..9] + s[9..13] + s[13..13 + n] + s[13 + n..];
  }

  lemma ControlCanonical(s: Bytes)
    requires |s| >= 9
    ensures Tagged(s[0], Number(s[1..9])) + s[9..] == s
    ensures Tagged(s[0], 0) + s[9..] == s <==> s[1..9] == BE(0, 8)
  {
    BEOfFromBE(s[1..9]);
    assert s == [s[0]] + s[1..9] + s[9..];
    assert (Tagged(s[0], 0) + s[9..])[1..9] == BE(0, 8);
  }

  // ----- Streams -----

  /** The frames one after the other; frames that do not encode are not sent. */
  function EncodeAll(frames: seq<Outbound>, max: nat): Bytes
    requires forall i :: 0 <= i < |frames| ==> EncodeOutbound(frames[i], max).Ok?
  {
    if frames == [] then [] else EncodeOutbound(frames[0], max).value + EncodeAll(frames[1..], max)
  }

  /** The first `n` frames of a stream and what is left, if all of them decode. */
  function DecodeMany(s: Bytes, broken: bool, max: nat, n: nat): Option<(seq<Outbound>, Bytes)> {
    if n == 0 then Some(([], s))
    else
      var (r, rest) := DecodeOutbound(s, broken, max);
      if r.Err? then None
      else match DecodeMany(rest, broken, max, n - 1)
           case None => None
           case Some((frames, rest')) => Some(([r.value] + frames, rest'))
  }

  /** A stream of frames is read back frame by frame, up to whatever follows it. */
  lemma {:induction false} StreamRoundTrip(frames: seq<Outbound>, rest: Bytes, broken: bool, max: nat)
    requires forall i :: 0 <= i < |frames| ==> EncodeOutbound(frames[i], max).Ok?
    ensures DecodeMany(EncodeAll(frames, max) + rest, broken, max, |frames|) == Some((frames, rest))
  {
    hide DecodeOutbound, EncodeOutbound;
    if frames == [] {
      assert [] + rest == rest;
    } else {
      var first, others := EncodeOutbound(frames[0], max).value, EncodeAll(frames[1..], max);
      HeadDecodes(frames[0], others + rest, broken, max);
      StreamRoundTrip(frames[1..], rest, broken, max);
      assert first + others + rest == first + (others + rest);
      assert [frames[0]] + frames[1..] == frames;
    }
  }

  lemma HeadDecodes(frame: Outbound, rest: Bytes, broken: bool, max: nat)
    requires EncodeOutbound(frame, max).Ok?
    ensures DecodeOutbound(EncodeOutbound(frame, max).value + rest, broken, max) == (Ok(frame), rest)
  {
    OutboundRoundTrip(frame, max, rest, broken, max);
  }

  // ----- Cut streams -----

  lemma EventCut(seqNo: u64, payload: Bytes, k: nat)
    requires |payload| <= HARD_MAX_FRAME_SIZE && 13 <= k < 13 + |payload|
    ensures |EncodeEvent(seqNo, payload)| == 13 + |payload|
    ensures FromBE(EncodeEvent(seqNo, payload)[..k][1..][8..12]) == |payload|
  {
    EventFields(seqNo, payload, []);
    var s := EncodeEvent(seqNo, payload);
    assert s + [] == s;
    LengthField(s, k);
  }

  /** Cutting after the length field leaves the length field alone. */
  lemma LengthField(s: Bytes, k: nat)
    requires 13 <= k <= |s|
    ensures s[..k][1..][8..12] == s[1..][8..12]
  {
    var a, b := s[..k][1..][8..12], s[1..][8..12];
    assert |a| == 4 && |b| == 4;
    assert a[0] == s[9] == b[0];
    assert a[1] == s[10] == b[1];
    assert a[2] == s[11] == b[2];
    assert a[3] == s[12] == b[3];
  }

  /**
   * A frame cut short is reported with exactly the number of bytes that came, a
   * cut at its start as a clean end, and a broken stream as an I/O error.
   */
  lemma CutFrameReported(frame: Outbound, max: nat, broken: bool, k: nat)
    requires EncodeOutbound(frame, max).Ok? && k < |EncodeOutbound(frame, max).value|
    ensures var bs := EncodeOutbound(frame, max).value;
            DecodeOutbound(bs[..k], broken, max) ==
            (Err(if broken then Io else if k == 0 then EofBeforeHeader
                 else ShortFrame(k, if frame.Event? && k < 13 then 13 else |bs|)), [])
  {
    if k == 0 {
      return;
    }
    var bs := EncodeOutbound(frame, max).value;
    assert bs[..k][0] == bs[0];
    if frame.Event? && k >= 13 {
      EventCut(frame.seqNo, frame.payload, k);
    }
  }

  lemma CutHandshakeReported(frame: Inbound, broken: bool, k: nat)
    requires k < |EncodeInbound(frame)|
    ensures DecodeInbound(EncodeInbound(frame)[..k], broken) ==
            (Err(if broken then Io else if k == 0 then EofBeforeHeader else ShortFrame(k, 9)), [])
  {
    if k > 0 {
      assert EncodeInbound(frame)[..k][0] == KIND_SUBSCRIBE;
    }
  }

  /** A first byte that names no frame is reported, and nothing after it is read. */
  lemma UnknownKindReported(s: Bytes, broken: bool, max: nat)
    requires s != []
    ensures s[0] !in {1, 2, 3, 4, 5} <==> DecodeOutbound(s, broken, max).0 == Err(UnknownKind(s[0]))
    ensures s[0] != 0 <==> DecodeInbound(s, broken).0 == Err(UnknownKind(s[0]))
    ensures DecodeOutbound(s, broken, max).0 == Err(UnknownKind(s[0])) ==> DecodeOutbound(s, broken, max).1 == s[1..]
    ensures DecodeInbound(s, broken).0 == Err(UnknownKind(s[0])) ==> DecodeInbound(s, broken).1 == s[1..]
  {}

  // ----- The layout -----

  /** Every frame byte by byte: the tag, the number, and for an event the length and the payload. */
  lemma OutboundLayout(frame: Outbound, max: nat)
    requires EncodeOutbound(frame, max).Ok?
    ensures var bs := EncodeOutbound(frame, max).value;
            match frame
            case Event(n, payload) =>
              && |bs| == 13 + |payload| && bs[0] == 1 && BigEndian(bs[1..9], n)
              && BigEndian(bs[9..13], |payload|) && bs[13..] == payload
            case LagExceeded(n) => |bs| == 9 && bs[0] == 2 && BigEndian(bs[1..], n)
            case Truncated(n) => |bs| == 9 && bs[0] == 3 && BigEndian(bs[1..], n)
            case ServerShutdown(n) => |bs| == 9 && bs[0] == 4 && BigEndian(bs[1..], n)
            case InvalidRequest => |bs| == 9 && bs[0] == 5 && BigEndian(bs[1..], 0)
  {
    hide BigEndian, BE;
    match frame
    case Event(n, payload) => EventLayout(n, payload);
    case LagExceeded(n) => TaggedLayout(2, n);
    case Truncated(n) => TaggedLayout(3, n);
    case ServerShutdown(n) => TaggedLayout(4, n);
    case InvalidRequest => TaggedLayout(5, 0);
  }

  lemma TaggedLayout(kind: uint8, n: nat)
    ensures var bs := Tagged(kind, n); |bs| == 9 && bs[0] == kind && BigEndian(bs[1..], n)
  {
    hide BigEndian, BE;
    Digits(n, 8);
    assert Tagged(kind, n)[1..] == BE(n, 8);
  }

  lemma EventLayout(n: u64, payload: Bytes)
    ensures var bs := EncodeEvent(n, payload);
            && |bs| == 13 + |payload| && bs[0] == 1 && BigEndian(bs[1..9], n)
            && BigEndian(bs[9..13], |payload|) && bs[13..] == payload
  {
    hide BigEndian, BE;
    Digits(n, 8);
    Digits(|payload|, 4);
    var bs := EncodeEvent(n, payload);
    assert bs[1..9] == BE(n, 8) && bs[9..13] == BE(|payload|, 4);
  }

  lemma InboundLayout(frame: Inbound)
    ensures var bs := EncodeInbound(frame); |bs| == 9 && bs[0] == 0 && BigEndian(bs[1..], frame.resumeFrom)
  {
    TaggedLayout(KIND_SUBSCRIBE, frame.resumeFrom);
  }

  lemma DecodeConsumes(s: Bytes, broken: bool, max: nat)
    ensures var (r, rest) := DecodeOutbound(s, broken, max); r.Ok? ==> |rest| < |s|
  {}

  /** A client reading frames until the first error: the frames, and the error. */
  function DecodeUntilError(s: Bytes, max: nat): (seq<Outbound>, FrameError)
    decreases |s|
  {
    DecodeConsumes(s, false, max);
    var (r, rest) := DecodeOutbound(s, false, max);
    match r
    case Err(e) => ([], e)
    case Ok(frame) =>
      var (frames, e) := DecodeUntilError(rest, max);
      ([frame] + frames, e)
  }

  /**
   * A stream cut at any byte yields the frames that came whole and no others;
   * the error tells a cut between frames from a cut inside one.
   */
  lemma {:induction false} CutStreamYieldsPrefix(frames: seq<Outbound>, max: nat, k: nat)
    requires forall i :: 0 <= i < |frames| ==> EncodeOutbound(frames[i], max).Ok?
    requires k <= |EncodeAll(frames, max)|
    ensures var (got, e) := DecodeUntilError(EncodeAll(frames, max)[..k], max);
            && got <= frames
            && (e == EofBeforeHeader <==> EncodeAll(got, max) == EncodeAll(frames, max)[..k])
            && (e == EofBeforeHeader || e.ShortFrame?)
            && (k == |EncodeAll(frames, max)| ==> got == frames && e == EofBeforeHeader)
  {
    hide DecodeOutbound, EncodeOutbound;
    if k == 0 {
      assert EncodeAll(frames, max)[..0] == [];
      NothingToDecode(max);
      EncodingNonEmpty(frames, max);
    } else {
      var first, others := EncodeOutbound(frames[0], max).value, EncodeAll(frames[1..], max);
      if k < |first| {
        assert (first + others)[..k] == first[..k];
        CutFrameReported(frames[0], max, false, k);
      } else {
        var rest := others[..k - |first|];
        assert (first + others)[..k] == first + rest;
        HeadDecodes(frames[0], rest, false, max);
        CutStreamYieldsPrefix(frames[1..], max, k - |first|);
        var (got, e) := DecodeUntilError(rest, max);
        GotHead(frames[0], got, frames, rest, max);
      }
    }
  }

  lemma GotHead(frame: Outbound, got: seq<Outbound>, frames: seq<Outbound>, rest: Bytes, max: nat)
    requires frames != [] && frame == frames[0] && got <= frames[1..]
    requires forall i :: 0 <= i < |frames| ==> EncodeOutbound(frames[i], max).Ok?
    ensures [frame] + got <= frames
    ensures forall i :: 0 <= i < |[frame] + got| ==> EncodeOutbound(([frame] + got)[i], max).Ok?
    ensures var first := EncodeOutbound(frame, max).value;
            EncodeAll([frame] + got, max) == first + rest <==> EncodeAll(got, max) == rest
    ensures |got| == |frames| - 1 ==> got == frames[1..] && [frame] + got == frames
  {
    hide EncodeOutbound;
    assert ([frame] + got)[1..] == got;
    var first := EncodeOutbound(frame, max).value;
    assert (first + EncodeAll(got, max))[|first|..] == EncodeAll(got, max);
    assert (first + rest)[|first|..] == rest;
  }

  lemma NothingToDecode(max: nat)
    ensures DecodeOutbound([], false, max) == (Err(EofBeforeHeader), [])
  {}

  lemma EncodingNonEmpty(frames: seq<Outbound>, max: nat)
    requires forall i :: 0 <= i < |frames| ==> EncodeOutbound(frames[i], max).Ok?
    ensures EncodeAll(frames, max) == [] <==> frames == []
  {}
}
