/** The log-tail reader (canon-event-subscribe, tail.rs). */
module Tailing {
  import opened Events
  import opened ByteOrder

  const FNV1A_64_OFFSET_BASIS: nat := 0xcbf2_9ce4_8422_2325
  const FNV1A_64_PRIME: nat := 0x0000_0100_0000_01b3
  const MAGIC: Bytes := [0x43, 0x41, 0x4E, 0x4F]
  const FRAME_HEADER_LEN: nat := 12
  const FRAME_TRAILER_LEN: nat := 8
  const FRAME_PAYLOAD_MAX: nat := 16 * 1024 * 1024

  /** Exclusive or, bit by bit from the lowest. */
  function Xor(a: nat, b: nat): nat {
    if a == 0 && b == 0 then 0 else (a + b) % 2 + 2 * Xor(a / 2, b / 2)
  }

  /** One round: xor, then a multiplication that wraps at 64 bits. */
  function FnvStep(h: nat, b: uint8): nat {
    (Xor(h, b as nat) * FNV1A_64_PRIME) % (U64_MAX + 1)
  }

  function Fnv(bytes: Bytes): (h: nat)
    ensures h <= U64_MAX
  {
    if bytes == [] then FNV1A_64_OFFSET_BASIS else FnvStep(Fnv(bytes[..|bytes| - 1]), bytes[|bytes| - 1])
  }

  method Fnv1a64(bytes: Bytes) returns (h: nat)
    ensures h == Fnv(bytes) && h <= U64_MAX
  {
    h := FNV1A_64_OFFSET_BASIS;
    for i := 0 to |bytes|
      invariant h == Fnv(bytes[..i])
    {
      assert bytes[..i + 1][..i] == bytes[..i];
      h := FnvStep(h, bytes[i]);
    }
    assert bytes[..|bytes|] == bytes;
  }

  function FrameLen(payload: Bytes): nat {
    FRAME_HEADER_LEN + |payload| + FRAME_TRAILER_LEN
  }

  function EncodeFrame(payload: Bytes): (out: Bytes)
    ensures |out| == FrameLen(payload)
  {
    MAGIC + LE(|payload|, 8) + payload + LE(Fnv(payload), 8)
  }

  /** A log: the frames one after the other. */
  function EncodeAll(payloads: seq<Bytes>): Bytes {
    if payloads == [] then []
    else EncodeAll(payloads[..|payloads| - 1]) + EncodeFrame(payloads[|payloads| - 1])
  }

  /** The reader's cursor and the next sequence number to assign. */
  datatype Tail = Tail(offset: nat, nextSeq: nat)

  datatype PollResult =
    | Frame(seqNo: nat, payload: Bytes)
    | Pending(tailBytes: nat)
    | Io
    | FileShrank(cursor: nat, newLen: nat)
    | BadMagic(offset: nat, got: Bytes)
    | OversizeFrame(offset: nat, declared: nat, max: nat)
    | BadTrailer(offset: nat, trailer: nat, expected: nat)

  const START := Tail(0, 1)

  /** One poll of a file holding these bytes. */
  function Poll(file: Bytes, t: Tail, max: nat): (PollResult, Tail) {
    if |file| < t.offset then (FileShrank(t.offset, |file|), t)
    else
      var rest := file[t.offset..];
      if |rest| < FRAME_HEADER_LEN then (Pending(|rest|), t)
      else if rest[..4] != MAGIC then (BadMagic(t.offset, rest[..4]), t)
      else
        var n := FromLE(rest[4..12]);
        if n > max then (OversizeFrame(t.offset, n, max), t)
        else if |rest| < FRAME_HEADER_LEN + n + FRAME_TRAILER_LEN then (Pending(|rest|), t)
        else
          var payload := rest[12..12 + n];
          var got := FromLE(rest[12 + n..12 + n + 8]);
          if got != Fnv(payload) then (BadTrailer(t.offset, got, Fnv(payload)), t)
          else (Frame(t.nextSeq, payload), Tail(t.offset + FrameLen(payload), SaturatingInc(t.nextSeq)))
  }

  predicate Failed(r: PollResult) {
    !r.Frame? && !r.Pending?
  }

  /** The four fields of a frame laid out one after the other can be cut out again. */
  lemma Fields(rest: Bytes, magic: Bytes, len: Bytes, payload: Bytes, trailer: Bytes)
    requires |magic| == 4 && |len| == 8 && |trailer| == 8
    requires magic + len + payload + trailer <= rest
    ensures var n := |payload|;
            && rest[..4] == magic && rest[4..12] == len
            && rest[12..12 + n] == payload && rest[12 + n..20 + n] == trailer
  {
    var e, n := magic + len + payload + trailer, |payload|;
    assert rest[..20 + n] == e;
    assert rest[..4] == e[..4] == magic;
    assert rest[4..12] == e[4..12] == len;
    assert rest[12..12 + n] == e[12..12 + n] == payload;
    assert rest[12 + n..20 + n] == e[12 + n..20 + n] == trailer;
  }

  // ----- A frame is accepted exactly when the bytes at the cursor are its encoding -----

  lemma FrameMeansEncoding(file: Bytes, t: Tail, max: nat)
    requires Poll(file, t, max).0.Frame?
    ensures var (r, t') := Poll(file, t, max);
            && t.offset <= t'.offset <= |file|
            && file[t.offset..t'.offset] == EncodeFrame(r.payload)
            && |r.payload| <= max
            && r.seqNo == t.nextSeq
  {
    hide Fnv, LE, FromLE;
    var rest := file[t.offset..];
    var n := FromLE(rest[4..12]);
    var payload := rest[12..12 + n];
    LEOfFromLE(rest[4..12]);
    LEOfFromLE(rest[12 + n..12 + n + 8]);
    assert rest[..20 + n] == rest[..4] + rest[4..12] + payload + rest[12 + n..20 + n];
    assert file[t.offset..t.offset + 20 + n] == rest[..20 + n];
  }

  lemma EncodingMeansFrame(file: Bytes, t: Tail, max: nat, payload: Bytes)
    requires |payload| <= max && |payload| <= U64_MAX
    requires t.offset + FrameLen(payload) <= |file|
    requires file[t.offset..t.offset + FrameLen(payload)] == EncodeFrame(payload)
    ensures Poll(file, t, max)
         == (Frame(t.nextSeq, payload), Tail(t.offset + FrameLen(payload), SaturatingInc(t.nextSeq)))
  {
    hide Fnv, LE, FromLE;
    var rest := file[t.offset..];
    assert EncodeFrame(payload) <= rest;
    Fields(rest, MAGIC, LE(|payload|, 8), payload, LE(Fnv(payload), 8));
    Widths();
    FromLEOfLE(|payload|, 8);
    FromLEOfLE(Fnv(payload), 8);
  }

  /** A torn frame: any strict prefix of a valid one is pending, never an error. */
  lemma TornFramePends(file: Bytes, t: Tail, max: nat, payload: Bytes)
    requires |payload| <= max && |payload| <= U64_MAX
    requires t.offset <= |file| < t.offset + FrameLen(payload)
    requires file[t.offset..] <= EncodeFrame(payload)
    ensures Poll(file, t, max) == (Pending(|file| - t.offset), t)
  {
    hide Fnv, LE, FromLE;
    var rest := file[t.offset..];
    var e := EncodeFrame(payload);
    if |rest| >= 12 {
      assert rest[..4] == e[..4] == MAGIC;
      assert rest[4..12] == e[4..12] == LE(|payload|, 8);
      Widths();
      FromLEOfLE(|payload|, 8);
    }
  }

  // ----- Every append schedule of a valid log -----

  lemma {:induction false} EncodeAllPrefix(payloads: seq<Bytes>, k: nat)
    requires k <= |payloads|
    ensures EncodeAll(payloads[..k]) <= EncodeAll(payloads)
    decreases |payloads| - k
  {
    if k == |payloads| {
      assert payloads[..k] == payloads;
    } else {
      EncodeAllPrefix(payloads, k + 1);
      assert payloads[..k + 1][..k] == payloads[..k];
    }
  }

  /** The reader has consumed exactly the first `k` frames of the log. */
  ghost predicate Consumed(t: Tail, log: seq<Bytes>, k: nat) {
    && k <= |log|
    && t.offset == |EncodeAll(log[..k])|
    && t.nextSeq == (if k < U64_MAX then k + 1 else U64_MAX)
  }

  lemma AtEnd(file: Bytes, t: Tail, max: nat)
    requires |file| == t.offset
    ensures Poll(file, t, max) == (Pending(0), t)
  {}

  /**
   * One poll of a file that is any byte prefix of a valid log: the next frame
   * if it is complete, otherwise pending with the state unchanged.
   */
  lemma PollOfLogPrefix(file: Bytes, t: Tail, max: nat, log: seq<Bytes>, k: nat)
    requires Consumed(t, log, k) && file <= EncodeAll(log) && t.offset <= |file|
    requires forall i :: 0 <= i < |log| ==> |log[i]| <= max && |log[i]| <= U64_MAX
    ensures var (r, t') := Poll(file, t, max);
            if k < |log| && |EncodeAll(log[..k + 1])| <= |file|
            then r == Frame(t.nextSeq, log[k]) && Consumed(t', log, k + 1) && t'.offset <= |file|
            else r == Pending(|file| - t.offset) && t' == t
  {
    hide Fnv, LE, FromLE, Poll, EncodeFrame;
    if k == |log| {
      assert log[..k] == log;
      AtEnd(file, t, max);
    } else {
      var e := EncodeFrame(log[k]);
      assert log[..k + 1][..k] == log[..k];
      EncodeAllPrefix(log, k);
      EncodeAllPrefix(log, k + 1);
      var all := EncodeAll(log);
      assert all[t.offset..t.offset + |e|] == e;
      if t.offset + |e| <= |file| {
        assert file[t.offset..t.offset + |e|] == e;
        EncodingMeansFrame(file, t, max, log[k]);
      } else {
        assert file[t.offset..] <= e;
        TornFramePends(file, t, max, log[k]);
      }
    }
  }

  /** Polls the file as it is at each moment; collects what comes out. */
  function PollAll(files: seq<Bytes>, max: nat): (seq<PollResult>, Tail) {
    if files == [] then ([], START)
    else
      var (rs, t) := PollAll(files[..|files| - 1], max);
      var (r, t') := Poll(files[|files| - 1], t, max);
      (rs + [r], t')
  }

  /** The payloads among poll results, in order. */
  function Payloads(rs: seq<PollResult>): seq<Bytes> {
    if rs == [] then []
    else Payloads(rs[..|rs| - 1]) + (if rs[|rs| - 1].Frame? then [rs[|rs| - 1].payload] else [])
  }

  lemma PayloadsOfNone()
    ensures Payloads([]) == []
  {}

  lemma PayloadsAppend(rs: seq<PollResult>, r: PollResult)
    ensures Payloads(rs + [r]) == Payloads(rs) + (if r.Frame? then [r.payload] else [])
  {
    assert (rs + [r])[..|rs|] == rs;
  }

  ghost predicate Growing(files: seq<Bytes>, log: seq<Bytes>) {
    && (forall i :: 0 <= i < |files| ==> files[i] <= EncodeAll(log))
    && (forall i, j :: 0 <= i <= j < |files| ==> |files[i]| <= |files[j]|)
  }

  /**
   * Tail correctness under any append schedule: successive polls never fail,
   * return the payloads of the log in order, and the cursor is always the total
   * length of the frames emitted.
   */
  lemma {:induction false} TailFollowsLog(files: seq<Bytes>, max: nat, log: seq<Bytes>)
    requires Growing(files, log)
    requires forall i :: 0 <= i < |log| ==> |log[i]| <= max && |log[i]| <= U64_MAX
    ensures var (rs, t) := PollAll(files, max);
            && |rs| == |files|
            && (forall i :: 0 <= i < |rs| ==> !Failed(rs[i]))
            && Payloads(rs) <= log
            && Consumed(t, log, |Payloads(rs)|)
            && (files != [] ==> t.offset <= |files[|files| - 1]|)
            && (files == [] ==> t.offset == 0)
  {
    hide Poll, EncodeFrame, Payloads;
    PayloadsOfNone();
    if files != [] {
      var n := |files| - 1;
      TailFollowsLog(files[..n], max, log);
      var (rs, t) := PollAll(files[..n], max);
      var (r, t') := Poll(files[n], t, max);
      var k := |Payloads(rs)|;
      assert files[n] <= EncodeAll(log);
      if n > 0 {
        assert |files[n - 1]| <= |files[n]|;
      }
      PollOfLogPrefix(files[n], t, max, log, k);
      PayloadsAppend(rs, r);
    }
  }

  lemma PollNumbers(file: Bytes, t: Tail, max: nat)
    ensures var (r, t') := Poll(file, t, max);
            if r.Frame? then r.seqNo == t.nextSeq && t'.nextSeq == SaturatingInc(t.nextSeq) else t' == t
  {
    hide Fnv, FromLE;
  }

  /** Whatever the file does, the i-th frame emitted (from 1) carries number i, until numbering saturates. */
  lemma {:induction false} SequenceNumbers(files: seq<Bytes>, max: nat)
    ensures var (rs, t) := PollAll(files, max);
            var n := |Payloads(rs)|;
            && t.nextSeq == (if n < U64_MAX then n + 1 else U64_MAX)
            && (rs != [] && rs[|rs| - 1].Frame? ==> rs[|rs| - 1].seqNo == if n < U64_MAX then n else U64_MAX)
  {
    hide Poll, Payloads;
    PayloadsOfNone();
    if files != [] {
      var n := |files| - 1;
      SequenceNumbers(files[..n], max);
      var (rs, t) := PollAll(files[..n], max);
      PollNumbers(files[n], t, max);
      PayloadsAppend(rs, Poll(files[n], t, max).0);
    }
  }

  // ----- A completely written frame is never retried -----

  /**
   * tail.rs:32-37 promises a retry on a trailer mismatch. In the code a frame
   * that is completely on disk is never pending: it is returned exactly when its
   * trailer matches and otherwise reported as corrupt.
   */
  lemma CompleteFrameDecided(file: Bytes, t: Tail, max: nat, payload: Bytes, trailer: Bytes)
    requires |payload| <= max && |payload| <= U64_MAX && |trailer| == 8
    requires t.offset + FrameLen(payload) <= |file|
    requires file[t.offset..t.offset + FrameLen(payload)] == MAGIC + LE(|payload|, 8) + payload + trailer
    ensures Poll(file, t, max).0 == Frame(t.nextSeq, payload) <==> FromLE(trailer) == Fnv(payload)
    ensures FromLE(trailer) != Fnv(payload) ==>
              Poll(file, t, max) == (BadTrailer(t.offset, FromLE(trailer), Fnv(payload)), t)
  {
    hide Fnv, LE, FromLE;
    var rest := file[t.offset..];
    assert MAGIC + LE(|payload|, 8) + payload + trailer <= rest;
    Fields(rest, MAGIC, LE(|payload|, 8), payload, trailer);
    Widths();
    FromLEOfLE(|payload|, 8);
  }

  // ----- The mutable reader -----

  class TailReader {
    var offset: nat
    var nextSeq: nat
    const payloadMax: nat

    ghost function State(): Tail
      reads this
    {
      Tail(offset, nextSeq)
    }

    constructor (requestedMax: nat)
      ensures State() == START
      ensures payloadMax == if requestedMax < FRAME_PAYLOAD_MAX then requestedMax else FRAME_PAYLOAD_MAX
    {
      offset := 0;
      nextSeq := 1;
      payloadMax := if requestedMax < FRAME_PAYLOAD_MAX then requestedMax else FRAME_PAYLOAD_MAX;
    }

    /** `file` is the file's content now; `ioFails` is whether some file operation of this call fails. */
    method PollOnce(file: Bytes, ioFails: bool) returns (r: PollResult)
      modifies this
      ensures ioFails ==> r == Io && unchanged(this)
      ensures !ioFails ==> (r, State()) == Poll(file, old(State()), payloadMax)
      ensures !r.Frame? ==> unchanged(this)
      ensures r.Frame? ==> old(offset) <= offset <= |file| && file[old(offset)..offset] == EncodeFrame(r.payload)
    {
      hide Fnv, LE, FromLE;
      if ioFails {
        return Io;
      }
      var totalLen := |file|;
      if totalLen < offset {
        return FileShrank(offset, totalLen);
      }
      if totalLen == offset {
        return Pending(0);
      }
      var available := totalLen - offset;
      if available < FRAME_HEADER_LEN {
        return Pending(available);
      }
      ghost var rest := file[offset..];
      var header := file[offset..offset + FRAME_HEADER_LEN];
      assert header == rest[..12];
      assert header[..4] == rest[..4];
      assert header[4..12] == rest[4..12];
      if header[..4] != MAGIC {
        return BadMagic(offset, header[..4]);
      }
      var payloadLen := FromLE(header[4..12]);
      if payloadLen > payloadMax {
        return OversizeFrame(offset, payloadLen, payloadMax);
      }
      var totalFrameLen := FRAME_HEADER_LEN + payloadLen + FRAME_TRAILER_LEN;
      if available < totalFrameLen {
        return Pending(available);
      }
      var payloadOffset := offset + FRAME_HEADER_LEN;
      var payload := file[payloadOffset..payloadOffset + payloadLen];
      var trailer := file[payloadOffset + payloadLen..payloadOffset + payloadLen + FRAME_TRAILER_LEN];
      assert payload == rest[12..12 + payloadLen] && trailer == rest[12 + payloadLen..20 + payloadLen];
      var trailerGot := FromLE(trailer);
      var trailerExpected := Fnv1a64(payload);
      if trailerGot != trailerExpected {
        return BadTrailer(offset, trailerGot, trailerExpected);
      }
      FrameMeansEncoding(file, State(), payloadMax);
      r := Frame(nextSeq, payload);
      nextSeq := SaturatingInc(nextSeq);
      offset := offset + totalFrameLen;
    }
  }
}
