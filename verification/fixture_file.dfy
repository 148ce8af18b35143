/** Cross-stack fixture files (canon-cross-stack, lib.rs). */
module FixtureFiles {
  import opened Events
  import opened ByteOrder
  import opened ByteStreams

  const MAGIC: Bytes := [0x43, 0x58, 0x53, 0x46]
  const FORMAT_VERSION: nat := 1
  const MAX_RECORD_BYTES: nat := 16 * 1024 * 1024

  type u32 = n: nat | n <= U32_MAX

  datatype Kind = Hash | Ecdsa | SignedAction | L1Ingest | FaultProofObserver | Custom(tag: u32)

  datatype Record = Record(input: Bytes, expected: Bytes)

  datatype Fixture = Fixture(kind: Kind, records: seq<Record>)

  datatype Field = InputLengthPrefix | InputPayload | Input | ExpectedLengthPrefix | ExpectedPayload | Expected

  datatype LoaderError =
    | TruncatedHeader(actual: nat)
    | BadMagic(seen: Bytes)
    | UnsupportedVersion(version: nat)
    | TruncatedRecord(index: nat, field: Field)
    | RecordTooLarge(index: nat, field: Field, length: nat)
    | TrailingBytes(trailing: nat)

  // ----- Kinds -----

  function FromTag(tag: u32): Kind {
    match tag
    case 1 => Hash
    case 2 => Ecdsa
    case 3 => SignedAction
    case 4 => L1Ingest
    case 5 => FaultProofObserver
    case other => Custom(other)
  }

  function ToTag(kind: Kind): u32 {
    match kind
    case Hash => 1
    case Ecdsa => 2
    case SignedAction => 3
    case L1Ingest => 4
    case FaultProofObserver => 5
    case Custom(t) => t
  }

  /** A custom kind does not reuse the tag of a named one. */
  predicate Canonical(kind: Kind) {
    kind.Custom? ==> kind.tag < 1 || kind.tag > 5
  }

  lemma TagsRoundTrip(kind: Kind, tag: u32)
    ensures ToTag(FromTag(tag)) == tag && Canonical(FromTag(tag))
    ensures FromTag(ToTag(kind)) == kind <==> Canonical(kind)
  {}

  // ----- Encoding -----

  predicate RecordFits(r: Record, max: nat) {
    |r.input| <= max && |r.expected| <= max
  }

  predicate AllFit(rs: seq<Record>, max: nat) {
    forall i :: 0 <= i < |rs| ==> RecordFits(rs[i], max)
  }

  function EncodeRecord(r: Record): Bytes {
    BE(|r.input|, 4) + r.input + (BE(|r.expected|, 4) + r.expected)
  }

  function EncodeRecords(rs: seq<Record>): Bytes {
    if rs == [] then [] else EncodeRecord(rs[0]) + EncodeRecords(rs[1..])
  }

  function Header(kind: Kind, count: nat): Bytes {
    MAGIC + BE(FORMAT_VERSION, 4) + BE(ToTag(kind), 4) + BE(count, 4)
  }

  /** The 32-bit fields hold every count and length; otherwise `to_bytes` panics. */
  predicate Encodable(f: Fixture) {
    |f.records| <= U32_MAX && AllFit(f.records, U32_MAX)
  }

  function Encode(f: Fixture): Bytes {
    Header(f.kind, |f.records|) + EncodeRecords(f.records)
  }

  lemma {:induction false} EncodeRecordsAppend(rs: seq<Record>, r: Record)
    ensures EncodeRecords(rs + [r]) == EncodeRecords(rs) + EncodeRecord(r)
  {
    hide EncodeRecord;
    if rs == [] {
      assert [r][1..] == [];
    } else {
      EncodeRecordsAppend(rs[1..], r);
      assert (rs + [r])[1..] == rs[1..] + [r];
    }
  }

  /** `to_bytes`, with its panics as `None`. */
  method ToBytes(f: Fixture) returns (bytes: Option<Bytes>)
    ensures bytes == if Encodable(f) then Some(Encode(f)) else None
  {
    if |f.records| > U32_MAX {
      return None;
    }
    var out := MAGIC;
    out := out + BE(FORMAT_VERSION, 4);
    out := out + BE(ToTag(f.kind), 4);
    out := out + BE(|f.records|, 4);
    for i := 0 to |f.records|
      invariant AllFit(f.records[..i], U32_MAX)
      invariant out == Header(f.kind, |f.records|) + EncodeRecords(f.records[..i])
    {
      var r := f.records[i];
      if |r.input| > U32_MAX || |r.expected| > U32_MAX {
        assert !RecordFits(f.records[i], U32_MAX);
        return None;
      }
      out := AppendRecord(out, f.records[..i], r, Header(f.kind, |f.records|));
      assert f.records[..i + 1] == f.records[..i] + [r];
    }
    assert f.records[..|f.records|] == f.records;
    return Some(out);
  }

  method AppendRecord(out: Bytes, ghost done: seq<Record>, r: Record, ghost head: Bytes) returns (out': Bytes)
    requires out == head + EncodeRecords(done)
    ensures out' == head + EncodeRecords(done + [r])
  {
    hide EncodeRecords, BE;
    out' := out + BE(|r.input|, 4);
    out' := out' + r.input;
    out' := out' + BE(|r.expected|, 4);
    out' := out' + r.expected;
    EncodeRecordsAppend(done, r);
    assert out' == out + EncodeRecord(r);
  }

  // ----- Decoding -----

  /** A 32-bit number at `offset` and the position after it, if it is there. */
  function ReadU32BEAt(bytes: Bytes, offset: nat): Option<(u32, nat)> {
    if offset + 4 > |bytes| then None
    else
      var field := bytes[offset..offset + 4];
      FromBEBound(field);
      Widths();
      Some((FromBE(field), offset + 4))
  }

  /** A length-prefixed field at `cursor` and the position after it. */
  function ReadField(bytes: Bytes, cursor: nat, index: nat, prefix: Field, name: Field,
                     payload: Field): Result<(Bytes, nat), LoaderError> {
    match ReadU32BEAt(bytes, cursor)
    case None => Err(TruncatedRecord(index, prefix))
    case Some((len, start)) =>
      if len > MAX_RECORD_BYTES then Err(RecordTooLarge(index, name, len))
      else if start + len > |bytes| then Err(TruncatedRecord(index, payload))
      else Ok((bytes[start..start + len], start + len))
  }

  function ReadRecord(bytes: Bytes, cursor: nat, index: nat): Result<(Record, nat), LoaderError> {
    match ReadField(bytes, cursor, index, InputLengthPrefix, Input, InputPayload)
    case Err(e) => Err(e)
    case Ok((input, mid)) =>
      match ReadField(bytes, mid, index, ExpectedLengthPrefix, Expected, ExpectedPayload)
      case Err(e) => Err(e)
      case Ok((expected, end)) => Ok((Record(input, expected), end))
  }

  /** Records `index` to `count` from `cursor` on, added to those already read. */
  function ReadRecords(bytes: Bytes, cursor: nat, index: nat, count: nat,
                       read: seq<Record>): Result<(seq<Record>, nat), LoaderError>
    decreases count - index
  {
    if index >= count then Ok((read, cursor))
    else match ReadRecord(bytes, cursor, index)
         case Err(e) => Err(e)
         case Ok((r, next)) => ReadRecords(bytes, next, index + 1, count, read + [r])
  }

  function U32At(bytes: Bytes, offset: nat): u32
    requires offset + 4 <= |bytes|
  {
    ReadU32BEAt(bytes, offset).value.0
  }

  function Decode(bytes: Bytes): Result<Fixture, LoaderError> {
    if |bytes| < 16 then Err(TruncatedHeader(|bytes|))
    else if bytes[..4] != MAGIC then Err(BadMagic(bytes[..4]))
    else if U32At(bytes, 4) != FORMAT_VERSION then Err(UnsupportedVersion(U32At(bytes, 4)))
    else match ReadRecords(bytes, 16, 0, U32At(bytes, 12), [])
         case Err(e) => Err(e)
         case Ok((records, end)) =>
           if end != |bytes| then Err(TrailingBytes(if end < |bytes| then |bytes| - end else 0))
           else Ok(Fixture(FromTag(U32At(bytes, 8)), records))
  }

  method FromBytes(bytes: Bytes) returns (res: Result<Fixture, LoaderError>)
    ensures res == Decode(bytes)
  {
    if |bytes| < 16 {
      return Err(TruncatedHeader(|bytes|));
    }
    if bytes[0..4] != MAGIC {
      return Err(BadMagic(bytes[0..4]));
    }
    var version := U32At(bytes, 4);
    if version != FORMAT_VERSION {
      return Err(UnsupportedVersion(version));
    }
    var kind := FromTag(U32At(bytes, 8));
    var count := U32At(bytes, 12);
    var records := [];
    var cursor := 16;
    for index := 0 to count
      invariant 16 <= cursor <= |bytes|
      invariant ReadRecords(bytes, 16, 0, count, []) == ReadRecords(bytes, cursor, index, count, records)
    {
      var r := ReadRecord(bytes, cursor, index);
      if r.Err? {
        return Err(r.error);
      }
      cursor := r.value.1;
      records := records + [r.value.0];
    }
    if cursor != |bytes| {
      return Err(TrailingBytes(|bytes| - cursor));
    }
    return Ok(Fixture(kind, records));
  }

  // ----- What one record's bytes mean -----

  function EncodeField(data: Bytes): Bytes {
    BE(|data|, 4) + data
  }

  lemma FieldMeansEncoding(bytes: Bytes, cursor: nat, index: nat, prefix: Field, name: Field, payload: Field)
    requires ReadField(bytes, cursor, index, prefix, name, payload).Ok?
    ensures var (data, end) := ReadField(bytes, cursor, index, prefix, name, payload).value;
            && cursor <= end <= |bytes| && |data| <= MAX_RECORD_BYTES
            && bytes[cursor..end] == EncodeField(data)
  {
    hide BE, FromBE;
    var (data, end) := ReadField(bytes, cursor, index, prefix, name, payload).value;
    BEOfFromBE(bytes[cursor..cursor + 4]);
    assert bytes[cursor..end] == bytes[cursor..cursor + 4] + data;
  }

  lemma EncodingMeansField(bytes: Bytes, cursor: nat, data: Bytes, index: nat, prefix: Field, name: Field,
                           payload: Field)
    requires |data| <= MAX_RECORD_BYTES && cursor + 4 + |data| <= |bytes|
    requires bytes[cursor..cursor + 4 + |data|] == EncodeField(data)
    ensures ReadField(bytes, cursor, index, prefix, name, payload) == Ok((data, cursor + 4 + |data|))
  {
    hide BE, FromBE;
    Widths();
    FromBEOfBE(|data|, 4);
    var slice := bytes[cursor..cursor + 4 + |data|];
    assert slice[..4] == bytes[cursor..cursor + 4] && EncodeField(data)[..4] == BE(|data|, 4);
    assert slice[4..] == bytes[cursor + 4..cursor + 4 + |data|] && EncodeField(data)[4..] == data;
  }

  lemma Joined(bytes: Bytes, a: nat, b: nat, c: nat)
    requires a <= b <= c <= |bytes|
    ensures bytes[a..b] + bytes[b..c] == bytes[a..c]
  {}

  lemma RecordMeansEncoding(bytes: Bytes, cursor: nat, index: nat)
    requires ReadRecord(bytes, cursor, index).Ok?
    ensures var (r, end) := ReadRecord(bytes, cursor, index).value;
            && cursor <= end <= |bytes| && RecordFits(r, MAX_RECORD_BYTES)
            && bytes[cursor..end] == EncodeRecord(r)
  {
    hide ReadField, BE;
    var (r, end) := ReadRecord(bytes, cursor, index).value;
    var mid := ReadField(bytes, cursor, index, InputLengthPrefix, Input, InputPayload).value.1;
    FieldMeansEncoding(bytes, cursor, index, InputLengthPrefix, Input, InputPayload);
    FieldMeansEncoding(bytes, mid, index, ExpectedLengthPrefix, Expected, ExpectedPayload);
    Joined(bytes, cursor, mid, end);
  }

  lemma EncodingMeansRecord(bytes: Bytes, cursor: nat, index: nat, r: Record)
    requires RecordFits(r, MAX_RECORD_BYTES)
    requires cursor + |EncodeRecord(r)| <= |bytes| && bytes[cursor..cursor + |EncodeRecord(r)|] == EncodeRecord(r)
    ensures ReadRecord(bytes, cursor, index) == Ok((r, cursor + |EncodeRecord(r)|))
  {
    hide ReadField, BE;
    var a, b := EncodeField(r.input), EncodeField(r.expected);
    var mid, end := cursor + |a|, cursor + |a| + |b|;
    assert EncodeRecord(r) == a + b;
    assert bytes[cursor..mid] == bytes[cursor..end][..|a|] == a;
    assert bytes[mid..end] == bytes[cursor..end][|a|..] == b;
    EncodingMeansField(bytes, cursor, r.input, index, InputLengthPrefix, Input, InputPayload);
    EncodingMeansField(bytes, mid, r.expected, index, ExpectedLengthPrefix, Expected, ExpectedPayload);
  }

  // ----- All the records -----

  lemma {:induction false} RecordsMeanEncoding(bytes: Bytes, cursor: nat, index: nat, count: nat, read: seq<Record>)
    requires index <= count && cursor <= |bytes| && ReadRecords(bytes, cursor, index, count, read).Ok?
    ensures var (rs, end) := ReadRecords(bytes, cursor, index, count, read).value;
            && cursor <= end <= |bytes| && |rs| == |read| + count - index && read <= rs
            && AllFit(rs[|read|..], MAX_RECORD_BYTES) && bytes[cursor..end] == EncodeRecords(rs[|read|..])
    decreases count - index
  {
    hide ReadRecord, EncodeRecord, RecordFits;
    if index < count {
      RecordMeansEncoding(bytes, cursor, index);
      var (r, next) := ReadRecord(bytes, cursor, index).value;
      RecordsMeanEncoding(bytes, next, index + 1, count, read + [r]);
      var (rs, end) := ReadRecords(bytes, cursor, index, count, read).value;
      Joined(bytes, cursor, next, end);
      var tail := rs[|read|..];
      assert tail[0] == r && tail[1..] == rs[|read + [r]|..];
    }
  }

  lemma {:induction false} EncodingMeansRecords(bytes: Bytes, cursor: nat, index: nat, count: nat,
                                                read: seq<Record>, rs: seq<Record>)
    requires index + |rs| == count && AllFit(rs, MAX_RECORD_BYTES)
    requires cursor + |EncodeRecords(rs)| <= |bytes|
    requires bytes[cursor..cursor + |EncodeRecords(rs)|] == EncodeRecords(rs)
    ensures ReadRecords(bytes, cursor, index, count, read) == Ok((read + rs, cursor + |EncodeRecords(rs)|))
    decreases |rs|
  {
    hide ReadRecord, EncodeRecord, RecordFits;
    if rs == [] {
      assert read + rs == read;
    } else {
      var a, b := EncodeRecord(rs[0]), EncodeRecords(rs[1..]);
      var mid, end := cursor + |a|, cursor + |a| + |b|;
      assert bytes[cursor..mid] == bytes[cursor..end][..|a|] == a;
      assert bytes[mid..end] == bytes[cursor..end][|a|..] == b;
      EncodingMeansRecord(bytes, cursor, index, rs[0]);
      EncodingMeansRecords(bytes, mid, index + 1, count, read + [rs[0]], rs[1..]);
      assert read + [rs[0]] + rs[1..] == read + rs;
    }
  }

  // ----- The whole file -----

  lemma HeaderFields(kind: Kind, count: u32, body: Bytes)
    ensures var b := Header(kind, count) + body;
            && |b| == 16 + |body| && b[..4] == MAGIC && b[16..] == body
            && U32At(b, 4) == FORMAT_VERSION && U32At(b, 8) == ToTag(kind) && U32At(b, 12) == count
  {
    hide BE, FromBE, ToTag;
    Widths();
    FromBEOfBE(FORMAT_VERSION, 4);
    FromBEOfBE(ToTag(kind), 4);
    FromBEOfBE(count, 4);
    Layout(MAGIC, BE(FORMAT_VERSION, 4), BE(ToTag(kind), 4), BE(count, 4), body);
  }

  lemma Layout(a: Bytes, b: Bytes, c: Bytes, d: Bytes, body: Bytes)
    requires |a| == |b| == |c| == |d| == 4
    ensures var s := a + b + c + d + body;
            s[..4] == a && s[4..8] == b && s[8..12] == c && s[12..16] == d && s[16..] == body
  {
    var s := a + b + c + d + body;
    assert s[..4] == a;
    assert s[4..8] == b;
    assert s[8..12] == c;
    assert s[12..16] == d;
    assert s[16..] == body;
  }

  lemma HeaderFromFields(b: Bytes)
    requires |b| >= 16 && b[..4] == MAGIC && U32At(b, 4) == FORMAT_VERSION
    ensures b == Header(FromTag(U32At(b, 8)), U32At(b, 12)) + b[16..]
  {
    hide BE, FromBE;
    BEOfFromBE(b[4..8]);
    BEOfFromBE(b[8..12]);
    BEOfFromBE(b[12..16]);
    TagsRoundTrip(Hash, U32At(b, 8));
    assert b == b[..4] + b[4..8] + b[8..12] + b[12..16] + b[16..];
  }

  /** A fixture that a load can produce. */
  predicate Loadable(f: Fixture) {
    Canonical(f.kind) && |f.records| <= U32_MAX && AllFit(f.records, MAX_RECORD_BYTES)
  }

  /**
   * The format is a bijection: a byte string is accepted as `f` if and only if
   * `f` is loadable and the bytes are its encoding.
   */
  lemma DecodeInvertsEncode(bytes: Bytes, f: Fixture)
    ensures Decode(bytes) == Ok(f) <==> Loadable(f) && bytes == Encode(f)
  {
    if Loadable(f) && bytes == Encode(f) {
      EncodedIsAccepted(f);
    }
    if Decode(bytes) == Ok(f) {
      AcceptedIsEncoded(bytes);
    }
  }

  lemma EncodedIsAccepted(f: Fixture)
    requires Loadable(f)
    ensures Decode(Encode(f)) == Ok(f)
  {
    hide EncodeRecords, ReadRecords, ReadU32BEAt, Header, FromTag, ToTag, AllFit;
    var b := Encode(f);
    var body := EncodeRecords(f.records);
    HeaderFields(f.kind, |f.records|, body);
    assert b[16..16 + |body|] == body;
    EncodingMeansRecords(b, 16, 0, |f.records|, [], f.records);
    assert [] + f.records == f.records;
    TagsRoundTrip(f.kind, 0);
  }

  lemma AcceptedIsEncoded(bytes: Bytes)
    requires Decode(bytes).Ok?
    ensures Loadable(Decode(bytes).value) && bytes == Encode(Decode(bytes).value)
  {
    hide EncodeRecords, ReadRecords, ReadU32BEAt, Header, FromTag, ToTag, AllFit;
    var f := Decode(bytes).value;
    RecordsMeanEncoding(bytes, 16, 0, U32At(bytes, 12), []);
    assert f.records[0..] == f.records;
    assert bytes[16..|bytes|] == bytes[16..];
    HeaderFromFields(bytes);
    TagsRoundTrip(f.kind, U32At(bytes, 8));
  }

  /**
   * Writing then loading gives the same fixture if and only if the kind is
   * canonical and every field is within the bound.
   */
  lemma WriteThenLoad(f: Fixture)
    ensures Encodable(f) && Decode(Encode(f)) == Ok(f) <==> Loadable(f)
  {
    DecodeInvertsEncode(Encode(f), f);
    assert AllFit(f.records, MAX_RECORD_BYTES) ==> AllFit(f.records, U32_MAX);
  }

  /** Records read from a file are read from every extension of it. */
  lemma {:induction false} RecordsOfExtension(bytes: Bytes, more: Bytes, cursor: nat, index: nat, count: nat,
                                              read: seq<Record>)
    requires index <= count && cursor <= |bytes| && ReadRecords(bytes, cursor, index, count, read).Ok?
    ensures ReadRecords(bytes + more, cursor, index, count, read) == ReadRecords(bytes, cursor, index, count, read)
    decreases count - index
  {
    hide ReadRecord, EncodeRecord, RecordFits;
    if index < count {
      RecordMeansEncoding(bytes, cursor, index);
      var (r, next) := ReadRecord(bytes, cursor, index).value;
      assert (bytes + more)[cursor..next] == bytes[cursor..next];
      EncodingMeansRecord(bytes + more, cursor, index, r);
      RecordsOfExtension(bytes, more, next, index + 1, count, read + [r]);
    }
  }

  /** A proper prefix of an accepted file is never accepted. */
  lemma TornFileRejected(bytes: Bytes, k: nat)
    requires Decode(bytes).Ok? && k < |bytes|
    ensures Decode(bytes[..k]).Err?
  {
    hide ReadRecords, FromBE;
    var cut, more := bytes[..k], bytes[k..];
    assert cut + more == bytes;
    if k >= 16 {
      assert bytes[..4] == cut[..4] && bytes[4..8] == cut[4..8] && bytes[12..16] == cut[12..16];
      var count := U32At(bytes, 12);
      if ReadRecords(cut, 16, 0, count, []).Ok? {
        RecordsOfExtension(cut, more, 16, 0, count, []);
      }
    }
  }
}
