/** Length-prefixed request frames (canon-host, frame.rs). */
module HostFrames {
  import opened Events
  import opened ByteOrder
  import opened ByteStreams

  const HARD_MAX_FRAME_SIZE: nat := 16 * 1024 * 1024
  const HEADER_LEN: nat := 4

  datatype FrameError =
    | Io
    | EofBeforeHeader
    | TruncatedHeader(bytesRead: nat)
    | TruncatedPayload(bytesRead: nat, declared: nat)
    | OversizeFrame(declared: nat, max: nat)
    | ZeroLengthFrame

  datatype WriteError = PayloadTooLarge(len: nat)

  function Cap(max: nat): nat {
    Min(max, HARD_MAX_FRAME_SIZE)
  }

  function EncodeFrame(payload: Bytes): Result<Bytes, WriteError> {
    if |payload| > U32_MAX then Err(PayloadTooLarge(|payload|)) else Ok(BE(|payload|, HEADER_LEN) + payload)
  }

  function HeaderError(s: Bytes, broken: bool): FrameError {
    if broken then Io else if s == [] then EofBeforeHeader else TruncatedHeader(|s|)
  }

  /** One frame from the front of a stream, and what is left of the stream. */
  function DecodeFrame(s: Bytes, broken: bool, max: nat): (Result<Bytes, FrameError>, Bytes) {
    if |s| < HEADER_LEN then (Err(HeaderError(s, broken)), [])
    else
      var declared, rest := FromBE(s[..HEADER_LEN]), s[HEADER_LEN..];
      if declared == 0 then (Err(ZeroLengthFrame), rest)
      else if declared > Cap(max) then (Err(OversizeFrame(declared, Cap(max))), rest)
      else if |rest| < declared then (Err(if broken then Io else TruncatedPayload(|rest|, declared)), [])
      else (Ok(rest[..declared]), rest[declared..])
  }

  /** The four header bytes, or what their absence means. */
  method ReadHeader(r: Reader) returns (h: Result<nat, FrameError>)
    modifies r
    ensures h.Ok? <==> |old(r.rest)| >= HEADER_LEN
    ensures h.Ok? ==> h.value == FromBE(old(r.rest)[..HEADER_LEN]) && r.rest == old(r.rest)[HEADER_LEN..]
    ensures h.Err? ==> h.error == HeaderError(old(r.rest), r.broken) && r.rest == []
  {
    var header := new uint8[HEADER_LEN];
    var bytesRead := 0;
    while bytesRead < HEADER_LEN
      invariant bytesRead <= HEADER_LEN && bytesRead <= |old(r.rest)|
      invariant header[..bytesRead] == old(r.rest)[..bytesRead] && r.rest == old(r.rest)[bytesRead..]
    {
      var n := r.Read(header, bytesRead);
      if n.None? {
        return Err(Io);
      }
      if n.value == 0 {
        return Err(if bytesRead == 0 then EofBeforeHeader else TruncatedHeader(bytesRead));
      }
      assert old(r.rest)[..bytesRead + n.value] == old(r.rest)[..bytesRead] + old(r.rest)[bytesRead..][..n.value];
      bytesRead := bytesRead + n.value;
    }
    assert header[..] == header[..HEADER_LEN];
    return Ok(FromBE(header[..]));
  }

  /** However the stream is fragmented, one frame is read and nothing past it. */
  method ReadFrame(r: Reader, maxFrameSize: nat) returns (res: Result<Bytes, FrameError>)
    modifies r
    ensures (res, r.rest) == DecodeFrame(old(r.rest), r.broken, maxFrameSize)
  {
    var max := Min(maxFrameSize, HARD_MAX_FRAME_SIZE);
    var header := ReadHeader(r);
    if header.Err? {
      return Err(header.error);
    }
    var declared := header.value;
    if declared == 0 {
      return Err(ZeroLengthFrame);
    }
    if declared > max {
      return Err(OversizeFrame(declared, max));
    }
    ghost var body := r.rest;
    var payload := new uint8[declared];
    var filled := 0;
    while filled < declared
      invariant filled <= declared && filled <= |body|
      invariant payload[..filled] == body[..filled] && r.rest == body[filled..]
    {
      var n := r.Read(payload, filled);
      if n.None? {
        return Err(Io);
      }
      if n.value == 0 {
        return Err(TruncatedPayload(filled, declared));
      }
      filled := filled + n.value;
    }
    assert payload[..] == payload[..declared];
    return Ok(payload[..]);
  }

  lemma Layout(header: Bytes, payload: Bytes, rest: Bytes)
    requires |header| == HEADER_LEN
    ensures var s := header + payload + rest;
            s[..HEADER_LEN] == header && s[HEADER_LEN..] == payload + rest
  {}

  lemma FrameFields(payload: Bytes, rest: Bytes)
    requires |payload| <= U32_MAX
    ensures var s := BE(|payload|, HEADER_LEN) + payload + rest;
            && FromBE(s[..HEADER_LEN]) == |payload|
            && s[HEADER_LEN..] == payload + rest
  {
    hide FromBE, BE;
    Widths();
    FromBEOfBE(|payload|, HEADER_LEN);
    Layout(BE(|payload|, HEADER_LEN), payload, rest);
  }

  /** A frame byte by byte: its length, then the payload; only lengths past 32 bits do not encode. */
  lemma FrameLayout(payload: Bytes)
    ensures EncodeFrame(payload).Ok? <==> |payload| < 0x1_0000_0000
    ensures EncodeFrame(payload).Err? ==> EncodeFrame(payload).error == PayloadTooLarge(|payload|)
    ensures EncodeFrame(payload).Ok? ==>
              var bs := EncodeFrame(payload).value;
              |bs| == 4 + |payload| && BigEndian(bs[..4], |payload|) && bs[4..] == payload
  {
    hide BE, BigEndian;
    Digits(|payload|, 4);
  }

  /**
   * A frame followed by anything is read back, with what follows untouched, if
   * and only if its length is admitted; otherwise the error says why, and only
   * the header is consumed.
   */
  lemma FrameRoundTrip(payload: Bytes, rest: Bytes, broken: bool, max: nat)
    ensures (EncodeFrame(payload).Ok?
          && DecodeFrame(EncodeFrame(payload).value + rest, broken, max) == (Ok(payload), rest))
       <==> 1 <= |payload| && |payload| <= max && |payload| <= HARD_MAX_FRAME_SIZE
    ensures EncodeFrame(payload).Ok? && (|payload| == 0 || |payload| > max || |payload| > HARD_MAX_FRAME_SIZE) ==>
              DecodeFrame(EncodeFrame(payload).value + rest, broken, max) ==
              (Err(if |payload| == 0 then ZeroLengthFrame else OversizeFrame(|payload|, Min(max, HARD_MAX_FRAME_SIZE))),
               payload + rest)
  {
    hide FromBE, BE;
    if |payload| <= U32_MAX {
      FrameFields(payload, rest);
      assert (payload + rest)[..|payload|] == payload;
      assert (payload + rest)[|payload|..] == rest;
    }
  }

  /** Whatever was read re-encodes to the bytes it was read from. */
  lemma FrameCanonical(s: Bytes, broken: bool, max: nat)
    requires DecodeFrame(s, broken, max).0.Ok?
    ensures var (r, rest) := DecodeFrame(s, broken, max);
            EncodeFrame(r.value).Ok? && EncodeFrame(r.value).value + rest == s
  {
    var (r, rest) := DecodeFrame(s, broken, max);
    BEOfFromBE(s[..HEADER_LEN]);
    assert s == s[..HEADER_LEN] + r.value + rest;
  }

  /** A frame cut short is reported by which part is missing and how much of it came, or as the I/O error it was. */
  lemma CutFrameReported(payload: Bytes, max: nat, broken: bool, k: nat)
    requires 1 <= |payload| <= max && |payload| <= HARD_MAX_FRAME_SIZE && k < 4 + |payload|
    ensures EncodeFrame(payload).Ok? && |EncodeFrame(payload).value| == 4 + |payload|
    ensures DecodeFrame(EncodeFrame(payload).value[..k], broken, max) ==
            (Err(if broken then Io
                 else if k == 0 then EofBeforeHeader
                 else if k < 4 then TruncatedHeader(k)
                 else TruncatedPayload(k - 4, |payload|)), [])
  {
    hide FromBE, BE;
    var s := BE(|payload|, HEADER_LEN) + payload;
    if k >= HEADER_LEN {
      FrameFields(payload, []);
      assert s + [] == s;
      assert s[..k][..HEADER_LEN] == s[..HEADER_LEN];
    }
  }
}
