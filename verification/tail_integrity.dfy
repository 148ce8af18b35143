/** What the log reader notices: the FNV-1a trailer and the frame header (canon-event-subscribe, tail.rs). */
module TailIntegrity {
  import opened Events
  import opened ByteOrder
  import opened Tailing

  // ----- Each round of the hash loses nothing -----

  /** Equal results with one argument in common: the other is the same too. */
  lemma {:induction false} XorInjective(a: nat, b: nat, a': nat, b': nat)
    requires Xor(a, b) == Xor(a', b')
    ensures a == a' <==> b == b'
    decreases a + b + a' + b'
  {
    hide Xor;
    if a + b + a' + b' > 0 {
      XorHalves(a, b);
      XorHalves(a', b');
      XorInjective(a / 2, b / 2, a' / 2, b' / 2);
      ByHalves(a, a');
      ByHalves(b, b');
    }
  }

  lemma ByHalves(a: nat, b: nat)
    ensures a == b <==> a / 2 == b / 2 && a % 2 == b % 2
  {}

  lemma {:induction false} XorHalves(a: nat, b: nat)
    ensures Xor(a, b) % 2 == (a + b) % 2 && Xor(a, b) / 2 == Xor(a / 2, b / 2)
  {
    if a + b > 0 {
      assert Xor(a, b) == (a + b) % 2 + 2 * Xor(a / 2, b / 2);
    } else {
      assert Xor(0, 0) == 0;
    }
  }

  lemma {:induction false} XorZero(a: nat)
    ensures Xor(a, 0) == a
  {
    if a > 0 {
      XorZero(a / 2);
    }
  }

  /** A byte only reaches the low eight bits. */
  lemma XorByteStays(h: nat, b: nat)
    requires h <= U64_MAX && b < 256
    ensures Xor(h, b) <= U64_MAX
  {
    XorSixteenths(h, b);
    XorSixteenths(h / 16, b / 16);
    hide Xor;
    XorZero(h / 256);
    assert h / 16 / 16 == h / 256 && Xor(h, b) / 16 / 16 == Xor(h, b) / 256;
  }

  lemma XorSixteenths(a: nat, b: nat)
    ensures Xor(a, b) / 16 == Xor(a / 16, b / 16)
  {
    hide Xor;
    XorQuarters(a, b);
    XorQuarters(a / 4, b / 4);
    assert a / 4 / 4 == a / 16 && b / 4 / 4 == b / 16 && Xor(a, b) / 4 / 4 == Xor(a, b) / 16;
  }

  lemma XorQuarters(a: nat, b: nat)
    ensures Xor(a, b) / 4 == Xor(a / 4, b / 4)
  {
    hide Xor;
    XorHalves(a, b);
    XorHalves(a / 2, b / 2);
    assert a / 2 / 2 == a / 4 && b / 2 / 2 == b / 4 && Xor(a, b) / 2 / 2 == Xor(a, b) / 4;
  }

  /** Multiplication by a number with an inverse modulo `m` can be undone. */
  lemma InvertibleCancels(x: nat, y: nat, p: nat, q: nat, c: nat, m: nat)
    requires p * q == m * c + 1 && x < m && y < m && (x * p) % m == (y * p) % m
    ensures x == y
  {
    var d := (x * p) / m - (y * p) / m;
    assert (x - y) * p == m * d;
    assert (x - y) * p * q == (x - y) * (p * q);
    assert (x - y) * (m * c + 1) == (x - y) * c * m + (x - y);
    var e := d * q - (x - y) * c;
    assert m * e == m * d * q - (x - y) * c * m;
    OnlyZeroInside(x - y, m, e);
  }

  /** The inverse of the FNV prime modulo 2^64. */
  const PRIME_INVERSE: nat := 0xce96_5057_aff6_957b

  lemma PrimeInvertible()
    ensures FNV1A_64_PRIME * PRIME_INVERSE == (U64_MAX + 1) * 0xce_9650_590f + 1
  {}

  lemma StepInjective(h: nat, a: uint8, h': nat, b: uint8)
    requires h <= U64_MAX && h' <= U64_MAX && FnvStep(h, a) == FnvStep(h', b)
    ensures h == h' <==> a == b
  {
    XorByteStays(h, a as nat);
    XorByteStays(h', b as nat);
    PrimeInvertible();
    hide Xor;
    InvertibleCancels(Xor(h, a as nat), Xor(h', b as nat), FNV1A_64_PRIME, PRIME_INVERSE, 0xce_9650_590f, U64_MAX + 1);
    XorInjective(h, a as nat, h', b as nat);
  }

  /** A single changed byte always changes the hash. */
  lemma {:induction false} OneByteChangesHash(p: Bytes, i: nat, b: uint8)
    requires i < |p| && b != p[i]
    ensures Fnv(p) != Fnv(p[i := b])
  {
    hide FnvStep;
    var n := |p| - 1;
    if Fnv(p) == Fnv(p[i := b]) {
      StepInjective(Fnv(p[..n]), p[n], Fnv(p[i := b][..n]), p[i := b][n]);
    }
    if i == n {
      assert p[i := b][..n] == p[..n];
    } else {
      OneByteChangesHash(p[..n], i, b);
      assert p[i := b][..n] == p[..n][i := b];
    }
  }

  lemma {:induction false} XorBit(a: nat, b: nat, x: nat, y: nat)
    requires x < 2 && y < 2
    ensures Xor(2 * a + x, 2 * b + y) == (if x == y then 0 else 1) + 2 * Xor(a, b)
  {
    XorHalves(2 * a + x, 2 * b + y);
    hide Xor;
    assert (2 * a + x) / 2 == a && (2 * b + y) / 2 == b;
  }

  /** The offset basis with the letter a, from the highest bit of the letter down. */
  lemma FirstXor()
    ensures Xor(FNV1A_64_OFFSET_BASIS, 0x61) == 0xcbf2_9ce4_8422_2344
  {
    hide Xor;
    XorZero(0x197e539c9084446);
    XorBit(0x197e539c9084446, 0x0, 0, 1);
    XorBit(0x32fca739210888c, 0x1, 1, 1);
    XorBit(0x65f94e724211119, 0x3, 0, 0);
    XorBit(0xcbf29ce48422232, 0x6, 0, 0);
    XorBit(0x197e539c90844464, 0xc, 1, 0);
    XorBit(0x32fca739210888c9, 0x18, 0, 0);
    XorBit(0x65f94e7242111192, 0x30, 1, 1);
  }

  /** The published FNV-1a-64 hash of the letter a. */
  lemma HashOfA()
    ensures Fnv([0x61]) == 0xaf63_dc4c_8601_ec8c
  {
    FirstXor();
    hide Xor;
    assert [0x61 as uint8][..0] == [];
    assert Fnv([]) == FNV1A_64_OFFSET_BASIS;
  }

  /** A log frame byte by byte: the magic, the length, the payload and its hash. */
  lemma FrameLayout(payload: Bytes)
    ensures var bs, n := EncodeFrame(payload), |payload|;
            && |bs| == 20 + n && bs[..4] == [0x43, 0x41, 0x4E, 0x4F] && LittleEndian(bs[4..12], n)
            && bs[12..12 + n] == payload && LittleEndian(bs[12 + n..], Fnv(payload))
  {
    hide Fnv, LE, LittleEndian;
    Digits(|payload|, 8);
    Digits(Fnv(payload), 8);
    var bs, n := EncodeFrame(payload), |payload|;
    Fields(bs, MAGIC, LE(n, 8), payload, LE(Fnv(payload), 8));
    assert bs[12 + n..20 + n] == bs[12 + n..];
  }

  // ----- What a poll notices -----

  /** A frame that is completely on disk, with one byte of its payload changed, is reported as corrupt. */
  lemma ChangedByteCaught(file: Bytes, t: Tail, max: nat, payload: Bytes, i: nat, b: uint8)
    requires |payload| <= max && |payload| <= U64_MAX && i < |payload| && b != payload[i]
    requires t.offset + FrameLen(payload) <= |file|
    requires file[t.offset..t.offset + FrameLen(payload)]
          == EncodeFrame(payload)[FRAME_HEADER_LEN + i := b]
    ensures Poll(file, t, max) == (BadTrailer(t.offset, Fnv(payload), Fnv(payload[i := b])), t)
  {
    hide Fnv, LE, FromLE, Poll;
    OneByteChangesHash(payload, i, b);
    Widths();
    FromLEOfLE(Fnv(payload), 8);
    var p := payload[i := b];
    assert EncodeFrame(payload)[FRAME_HEADER_LEN + i := b] == MAGIC + LE(|p|, 8) + p + LE(Fnv(payload), 8);
    CompleteFrameDecided(file, t, max, p, LE(Fnv(payload), 8));
  }

  /** What the twelve bytes at the cursor say about the frame: another magic, or a length past the bound. */
  predicate BadHeader(header: Bytes, max: nat)
    requires |header| == FRAME_HEADER_LEN
  {
    header[..4] != [0x43, 0x41, 0x4E, 0x4F] || FromLE(header[4..]) > max
  }

  /**
   * Before the frame's body counts: a file shorter than the cursor is reported
   * as shrunk, fewer than twelve bytes are awaited, and a header is refused
   * exactly if it is bad, whatever follows it. Nothing but a frame moves the cursor.
   */
  lemma HeaderDecides(file: Bytes, t: Tail, max: nat)
    ensures var (r, t') := Poll(file, t, max);
            && (!r.Frame? ==> t' == t)
            && (if |file| < t.offset then r == FileShrank(t.offset, |file|)
                else if |file| < t.offset + FRAME_HEADER_LEN then r == Pending(|file| - t.offset)
                else
                  var header := file[t.offset..t.offset + FRAME_HEADER_LEN];
                  && !r.FileShrank?
                  && (BadHeader(header, max) <==> r.BadMagic? || r.OversizeFrame?)
                  && (r.BadMagic? <==> header[..4] != [0x43, 0x41, 0x4E, 0x4F])
                  && (r.BadMagic? ==> r == BadMagic(t.offset, header[..4]))
                  && (r.OversizeFrame? ==> r == OversizeFrame(t.offset, FromLE(header[4..]), max)))
  {
    hide Fnv, FromLE;
    if |file| >= t.offset + FRAME_HEADER_LEN {
      var rest, header := file[t.offset..], file[t.offset..t.offset + FRAME_HEADER_LEN];
      assert rest[..4] == header[..4] && rest[4..12] == header[4..];
    }
  }
}
