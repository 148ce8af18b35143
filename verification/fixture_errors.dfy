/** The layout of fixture files, and what a load reports about damaged ones (canon-cross-stack, lib.rs). */
module FixtureErrors {
  import opened Events
  import opened ByteOrder
  import opened ByteStreams
  import opened FixtureFiles

  // ----- The layout -----

  /** The file byte by byte: magic, version, kind and count in sixteen bytes, then the records. */
  lemma FileLayout(f: Fixture)
    ensures var bs := Encode(f);
            && |bs| >= 16 && bs[..8] == [0x43, 0x58, 0x53, 0x46, 0, 0, 0, 1]
            && BigEndian(bs[8..12], match f.kind
                                    case Hash => 1
                                    case Ecdsa => 2
                                    case SignedAction => 3
                                    case L1Ingest => 4
                                    case FaultProofObserver => 5
                                    case Custom(t) => t)
            && BigEndian(bs[12..16], |f.records|) && bs[16..] == EncodeRecords(f.records)
  {
    VersionBytes();
    hide BE, BigEndian, EncodeRecords, ToTag;
    var bs, body := Encode(f), EncodeRecords(f.records);
    Layout(MAGIC, BE(FORMAT_VERSION, 4), BE(ToTag(f.kind), 4), BE(|f.records|, 4), body);
    Digits(ToTag(f.kind), 4);
    Digits(|f.records|, 4);
    assert bs[..8] == bs[..4] + bs[4..8];
    Tags(f.kind);
  }

  lemma VersionBytes()
    ensures BE(FORMAT_VERSION, 4) == [0, 0, 0, 1]
  {
    assert BE(0, 0) == [] && BE(0, 1) == [0] && BE(0, 2) == [0, 0] && BE(0, 3) == [0, 0, 0];
  }

  lemma Tags(kind: Kind)
    ensures ToTag(kind) == match kind
                           case Hash => 1
                           case Ecdsa => 2
                           case SignedAction => 3
                           case L1Ingest => 4
                           case FaultProofObserver => 5
                           case Custom(t) => t
  {}

  /** A record: each field after its length. */
  lemma RecordLayout(r: Record)
    ensures var bs, n, m := EncodeRecord(r), |r.input|, |r.expected|;
            && |bs| == 8 + n + m
            && BigEndian(bs[..4], n) && bs[4..4 + n] == r.input
            && BigEndian(bs[4 + n..8 + n], m) && bs[8 + n..] == r.expected
  {
    hide BE, BigEndian;
    Digits(|r.input|, 4);
    Digits(|r.expected|, 4);
    var bs, n := EncodeRecord(r), |r.input|;
    assert bs[..4] == BE(n, 4) && bs[4 + n..8 + n] == BE(|r.expected|, 4);
  }

  // ----- Headers -----

  /** Which headers are refused, and why. */
  lemma HeaderDecides(bytes: Bytes)
    ensures |bytes| < 16 <==> Decode(bytes) == Err(TruncatedHeader(|bytes|))
    ensures |bytes| >= 16 ==>
              && (bytes[..4] != [0x43, 0x58, 0x53, 0x46] <==> Decode(bytes) == Err(BadMagic(bytes[..4])))
              && (bytes[..4] == [0x43, 0x58, 0x53, 0x46] && bytes[4..8] != [0, 0, 0, 1] <==>
                  Decode(bytes) == Err(UnsupportedVersion(FromBE(bytes[4..8]))))
  {
    hide ReadRecords, FromTag, BE, FromBE;
    if |bytes| >= 16 {
      RecordErrors(bytes, 16, 0, U32At(bytes, 12), []);
      BEOfFromBE(bytes[4..8]);
      VersionBytes();
      FromBEOfBE(FORMAT_VERSION, 4);
    }
  }

  /** Reading records never complains about the header. */
  lemma {:induction false} RecordErrors(bytes: Bytes, cursor: nat, index: nat, count: nat, read: seq<Record>)
    ensures var r := ReadRecords(bytes, cursor, index, count, read);
            r.Err? ==> r.error.TruncatedRecord? || r.error.RecordTooLarge?
    decreases count - index
  {
    if index < count && ReadRecord(bytes, cursor, index).Ok? {
      var (r, next) := ReadRecord(bytes, cursor, index).value;
      RecordErrors(bytes, next, index + 1, count, read + [r]);
    }
  }

  // ----- Files cut short -----

  /** The part of a record that a cut after `d` of its bytes leaves incomplete. */
  function CutPart(r: Record, d: nat): Field {
    if d < 4 then InputLengthPrefix
    else if d < 4 + |r.input| then InputPayload
    else if d < 8 + |r.input| then ExpectedLengthPrefix
    else ExpectedPayload
  }

  lemma CutField(bytes: Bytes, cursor: nat, data: Bytes, d: nat, index: nat, prefix: Field, name: Field, payload: Field)
    requires |data| <= MAX_RECORD_BYTES && d < 4 + |data| && |bytes| == cursor + d
    requires bytes[cursor..] == EncodeField(data)[..d]
    ensures ReadField(bytes, cursor, index, prefix, name, payload) ==
            Err(TruncatedRecord(index, if d < 4 then prefix else payload))
  {
    hide BE, FromBE;
    if d >= 4 {
      Widths();
      FromBEOfBE(|data|, 4);
      assert bytes[cursor..cursor + 4] == bytes[cursor..][..4] == EncodeField(data)[..d][..4] == BE(|data|, 4);
    }
  }

  lemma CutRecord(bytes: Bytes, cursor: nat, index: nat, r: Record, d: nat)
    requires RecordFits(r, MAX_RECORD_BYTES) && d < |EncodeRecord(r)| && |bytes| == cursor + d
    requires bytes[cursor..] == EncodeRecord(r)[..d]
    ensures ReadRecord(bytes, cursor, index) == Err(TruncatedRecord(index, CutPart(r, d)))
  {
    hide ReadField, BE;
    var a, b := EncodeField(r.input), EncodeField(r.expected);
    assert EncodeRecord(r) == a + b;
    if d < |a| {
      assert (a + b)[..d] == a[..d];
      CutField(bytes, cursor, r.input, d, index, InputLengthPrefix, Input, InputPayload);
    } else {
      var mid := cursor + |a|;
      assert bytes[cursor..mid] == bytes[cursor..][..|a|] == (a + b)[..d][..|a|] == a;
      assert bytes[mid..] == bytes[cursor..][|a|..] == (a + b)[..d][|a|..] == b[..d - |a|];
      EncodingMeansField(bytes, cursor, r.input, index, InputLengthPrefix, Input, InputPayload);
      CutField(bytes, mid, r.expected, d - |a|, index, ExpectedLengthPrefix, Expected, ExpectedPayload);
    }
  }

  lemma {:induction false} EncodeRecordsSplit(rs: seq<Record>, i: nat)
    requires i <= |rs|
    ensures EncodeRecords(rs) == EncodeRecords(rs[..i]) + EncodeRecords(rs[i..])
  {
    hide EncodeRecord;
    if i == 0 {
      assert rs[0..] == rs;
    } else {
      EncodeRecordsSplit(rs[1..], i - 1);
      assert rs[..i][1..] == rs[1..][..i - 1] && rs[1..][i - 1..] == rs[i..];
    }
  }

  /** Records that are all there, and then one that cannot be read. */
  lemma {:induction false} RecordsThenError(bytes: Bytes, cursor: nat, index: nat, count: nat, read: seq<Record>,
                                            rs: seq<Record>, e: LoaderError)
    requires index + |rs| < count && AllFit(rs, MAX_RECORD_BYTES)
    requires cursor + |EncodeRecords(rs)| <= |bytes|
    requires bytes[cursor..cursor + |EncodeRecords(rs)|] == EncodeRecords(rs)
    requires ReadRecord(bytes, cursor + |EncodeRecords(rs)|, index + |rs|) == Err(e)
    ensures ReadRecords(bytes, cursor, index, count, read) == Err(e)
    decreases |rs|
  {
    hide ReadRecord, EncodeRecord, RecordFits;
    if rs != [] {
      var a, b := EncodeRecord(rs[0]), EncodeRecords(rs[1..]);
      var mid, end := cursor + |a|, cursor + |a| + |b|;
      assert bytes[cursor..mid] == bytes[cursor..end][..|a|] == a;
      assert bytes[mid..end] == bytes[cursor..end][|a|..] == b;
      EncodingMeansRecord(bytes, cursor, index, rs[0]);
      RecordsThenError(bytes, mid, index + 1, count, read + [rs[0]], rs[1..], e);
    }
  }

  /** Where a record begins in the file. */
  function RecordStart(f: Fixture, i: nat): nat
    requires i <= |f.records|
  {
    16 + |EncodeRecords(f.records[..i])|
  }

  /** The first `i` records and what follows them, in a file that begins like an encoding. */
  lemma BeforeRecord(f: Fixture, i: nat)
    requires i < |f.records|
    ensures var bs, at := Encode(f), RecordStart(f, i);
            && at + |EncodeRecord(f.records[i])| == RecordStart(f, i + 1) <= |bs|
            && bs[16..at] == EncodeRecords(f.records[..i])
            && bs[at..RecordStart(f, i + 1)] == EncodeRecord(f.records[i])
  {
    hide BE, EncodeRecord;
    var rs := f.records;
    EncodeRecordsSplit(rs, i);
    EncodeRecordsAppend(rs[..i], rs[i]);
    assert rs[..i] + [rs[i]] == rs[..i + 1];
    EncodeRecordsSplit(rs, i + 1);
    BodyOf(f);
    var bs, body := Encode(f), EncodeRecords(rs);
    var a, b, c := EncodeRecords(rs[..i]), EncodeRecord(rs[i]), EncodeRecords(rs[i + 1..]);
    assert body == a + b + c;
    assert bs[16..16 + |a|] == body[..|a|] == a;
    assert bs[16 + |a|..16 + |a| + |b|] == body[|a|..|a| + |b|] == b;
  }

  lemma BodyOf(f: Fixture)
    ensures |Encode(f)| == 16 + |EncodeRecords(f.records)| && Encode(f)[16..] == EncodeRecords(f.records)
  {
    hide BE, EncodeRecords;
  }

  /**
   * A file cut at any byte is reported by where the cut is: in the header, or in
   * which part of which record.
   */
  lemma CutFileReported(f: Fixture, n: nat, i: nat)
    requires Loadable(f) && n < |Encode(f)|
    requires n >= 16 ==> i < |f.records| && RecordStart(f, i) <= n < RecordStart(f, i + 1)
    ensures Decode(Encode(f)[..n]) ==
            Err(if n < 16 then TruncatedHeader(n)
                else TruncatedRecord(i, CutPart(f.records[i], n - RecordStart(f, i))))
  {
    if n >= 16 {
      hide BE, EncodeRecord, ReadRecord, ReadRecords, ReadU32BEAt, FromTag, ToTag, CutPart;
      var bs, r, at := Encode(f), f.records[i], RecordStart(f, i);
      BeforeRecord(f, i);
      var cut := bs[..n];
      assert cut[16..at] == bs[16..at] && cut[at..] == bs[at..RecordStart(f, i + 1)][..n - at];
      CutRecord(cut, at, i, r, n - at);
      RecordsThenError(cut, 16, 0, |f.records|, [], f.records[..i], TruncatedRecord(i, CutPart(r, n - at)));
      CutHeader(f, n);
    }
  }

  lemma CutHeader(f: Fixture, n: nat)
    requires |f.records| <= U32_MAX && 16 <= n <= |Encode(f)|
    ensures var b := Encode(f)[..n];
            b[..4] == MAGIC && U32At(b, 4) == FORMAT_VERSION && U32At(b, 12) == |f.records|
  {
    hide BE, FromBE, EncodeRecords, ToTag;
    var bs, b := Encode(f), Encode(f)[..n];
    HeaderFields(f.kind, |f.records|, EncodeRecords(f.records));
    assert b[..4] == bs[..4] && b[4..8] == bs[4..8] && b[12..16] == bs[12..16];
  }

  // ----- Files with too much in them -----

  /** Bytes after the last record are counted. */
  lemma TrailingBytesReported(f: Fixture, extra: Bytes)
    requires Loadable(f) && extra != []
    ensures Decode(Encode(f) + extra) == Err(TrailingBytes(|extra|))
  {
    hide BE, EncodeRecords, ReadRecords, ReadU32BEAt, FromTag, ToTag, AllFit;
    var body := EncodeRecords(f.records);
    var b := Encode(f) + extra;
    assert b == Header(f.kind, |f.records|) + (body + extra);
    HeaderFields(f.kind, |f.records|, body + extra);
    assert b[16..16 + |body|] == b[16..][..|body|] == body;
    EncodingMeansRecords(b, 16, 0, |f.records|, [], f.records);
  }

  lemma LongField(bytes: Bytes, cursor: nat, data: Bytes, index: nat, prefix: Field, name: Field, payload: Field)
    requires MAX_RECORD_BYTES < |data| <= U32_MAX && cursor + 4 <= |bytes|
    requires bytes[cursor..cursor + 4] == BE(|data|, 4)
    ensures ReadField(bytes, cursor, index, prefix, name, payload) == Err(RecordTooLarge(index, name, |data|))
  {
    hide BE, FromBE;
    Widths();
    FromBEOfBE(|data|, 4);
  }

  lemma LongRecord(bytes: Bytes, cursor: nat, index: nat, r: Record)
    requires RecordFits(r, U32_MAX) && !RecordFits(r, MAX_RECORD_BYTES)
    requires cursor + |EncodeRecord(r)| <= |bytes| && bytes[cursor..cursor + |EncodeRecord(r)|] == EncodeRecord(r)
    ensures ReadRecord(bytes, cursor, index) ==
            Err(if |r.input| > MAX_RECORD_BYTES then RecordTooLarge(index, Input, |r.input|)
                else RecordTooLarge(index, Expected, |r.expected|))
  {
    hide ReadField, BE;
    var a, b := EncodeField(r.input), EncodeField(r.expected);
    var mid, end := cursor + |a|, cursor + |a| + |b|;
    assert EncodeRecord(r) == a + b;
    assert bytes[cursor..mid] == bytes[cursor..end][..|a|] == a;
    assert bytes[mid..end] == bytes[cursor..end][|a|..] == b;
    if |r.input| > MAX_RECORD_BYTES {
      assert bytes[cursor..cursor + 4] == a[..4] == BE(|r.input|, 4);
      LongField(bytes, cursor, r.input, index, InputLengthPrefix, Input, InputPayload);
    } else {
      EncodingMeansField(bytes, cursor, r.input, index, InputLengthPrefix, Input, InputPayload);
      assert bytes[mid..mid + 4] == b[..4] == BE(|r.expected|, 4);
      LongField(bytes, mid, r.expected, index, ExpectedLengthPrefix, Expected, ExpectedPayload);
    }
  }

  /** A fixture that was written with a field past the bound is refused at the first one. */
  lemma LongFieldReported(f: Fixture, i: nat)
    requires Encodable(f) && i < |f.records|
    requires AllFit(f.records[..i], MAX_RECORD_BYTES) && !RecordFits(f.records[i], MAX_RECORD_BYTES)
    ensures var r := f.records[i];
            Decode(Encode(f)) == Err(if |r.input| > MAX_RECORD_BYTES then RecordTooLarge(i, Input, |r.input|)
                                     else RecordTooLarge(i, Expected, |r.expected|))
  {
    hide BE, EncodeRecord, ReadRecord, ReadRecords, ReadU32BEAt, FromTag, ToTag;
    var bs, r, at := Encode(f), f.records[i], RecordStart(f, i);
    BeforeRecord(f, i);
    LongRecord(bs, at, i, r);
    var e := if |r.input| > MAX_RECORD_BYTES then RecordTooLarge(i, Input, |r.input|)
             else RecordTooLarge(i, Expected, |r.expected|);
    RecordsThenError(bs, 16, 0, |f.records|, [], f.records[..i], e);
    assert bs[..|bs|] == bs;
    CutHeader(f, |bs|);
  }
}
