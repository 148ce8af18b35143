/** Values shared by the subscription pipeline: bytes, 64-bit bounds, and sequenced events. */
module Events {

  newtype uint8 = x: int | 0 <= x < 256

  type Bytes = seq<uint8>

  const U64_MAX: nat := 0xFFFF_FFFF_FFFF_FFFF

  type u64 = n: nat | n <= U64_MAX

  /** `u64::saturating_add(1)`. */
  function SaturatingInc(x: nat): nat {
    if x < U64_MAX then x + 1 else U64_MAX
  }

  datatype Option<+T> = None | Some(value: T)

  /** One event of the stream. All events of one log frame share its sequence number. */
  datatype CachedEvent = CachedEvent(seqNo: nat, payload: Bytes)

  /** A push history: sequence numbers are positive 64-bit values and never decrease. */
  ghost predicate Ordered(h: seq<CachedEvent>) {
    && (forall i :: 0 <= i < |h| ==> 1 <= h[i].seqNo <= U64_MAX)
    && (forall i, j :: 0 <= i <= j < |h| ==> h[i].seqNo <= h[j].seqNo)
  }

  /** The events a client that has seen everything up to `f` still needs, in push order. */
  function After(h: seq<CachedEvent>, f: nat): seq<CachedEvent> {
    if h == [] then []
    else (if h[0].seqNo > f then [h[0]] else []) + After(h[1..], f)
  }

  /** Position `b` separates the events up to `f` from the later ones. */
  ghost predicate Splits(h: seq<CachedEvent>, f: nat, b: nat) {
    && b <= |h|
    && (forall i :: 0 <= i < b ==> h[i].seqNo <= f)
    && (forall i :: b <= i < |h| ==> h[i].seqNo > f)
  }

  lemma {:induction false} AfterIsSuffix(h: seq<CachedEvent>, f: nat, b: nat)
    requires Splits(h, f, b)
    ensures After(h, f) == h[b..]
  {
    if h != [] {
      AfterIsSuffix(h[1..], f, if b == 0 then 0 else b - 1);
      if b == 0 {
        assert h == [h[0]] + h[1..];
      } else {
        assert h[b..] == h[1..][b - 1..];
      }
    }
  }

  /** Every ordered history has a split point. */
  lemma {:induction false} SplitExists(h: seq<CachedEvent>, f: nat) returns (b: nat)
    requires Ordered(h)
    ensures Splits(h, f, b)
  {
    if h == [] {
      b := 0;
    } else {
      var n := |h| - 1;
      b := SplitExists(h[..n], f);
      if h[n].seqNo <= f {
        assert forall i :: 0 <= i < n ==> h[i].seqNo <= f by {
          forall i | 0 <= i < n ensures h[i].seqNo <= f {
            assert h[i].seqNo <= h[n].seqNo;
          }
        }
        b := |h|;
      } else {
        assert forall i :: 0 <= i < n ==> h[..n][i] == h[i];
      }
    }
  }
}
