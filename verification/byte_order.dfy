/** Fixed-width integers as bytes, in both byte orders. */
module ByteOrder {
  import opened Events

  function Pow256(k: nat): (p: nat)
    ensures p >= 1
  {
    if k == 0 then 1 else 256 * Pow256(k - 1)
  }

  /** `n` as `k` bytes, most significant first; bits that do not fit are dropped. */
  function BE(n: nat, k: nat): (bs: Bytes)
    ensures |bs| == k
  {
    if k == 0 then [] else BE(n / 256, k - 1) + [(n % 256) as uint8]
  }

  function FromBE(bs: Bytes): nat {
    if bs == [] then 0 else 256 * FromBE(bs[..|bs| - 1]) + bs[|bs| - 1] as nat
  }

  /** `n` as `k` bytes, least significant first. */
  function LE(n: nat, k: nat): (bs: Bytes)
    ensures |bs| == k
  {
    if k == 0 then [] else [(n % 256) as uint8] + LE(n / 256, k - 1)
  }

  function FromLE(bs: Bytes): nat {
    if bs == [] then 0 else bs[0] as nat + 256 * FromLE(bs[1..])
  }

  lemma {:induction false} FromBEBound(bs: Bytes)
    ensures FromBE(bs) < Pow256(|bs|)
  {
    if bs != [] {
      FromBEBound(bs[..|bs| - 1]);
    }
  }

  /** Encoding then decoding recovers every value that fits. */
  lemma {:induction false} FromBEOfBE(n: nat, k: nat)
    requires n < Pow256(k)
    ensures FromBE(BE(n, k)) == n
  {
    if k > 0 {
      FromBEOfBE(n / 256, k - 1);
      assert BE(n, k)[..k - 1] == BE(n / 256, k - 1);
    }
  }

  /** Decoding then encoding recovers the bytes. */
  lemma {:induction false} BEOfFromBE(bs: Bytes)
    ensures BE(FromBE(bs), |bs|) == bs
  {
    if bs != [] {
      var front, last := bs[..|bs| - 1], bs[|bs| - 1];
      BEOfFromBE(front);
      var n := FromBE(bs);
      assert n / 256 == FromBE(front) && n % 256 == last as nat;
      assert bs == front + [last];
    }
  }

  lemma {:induction false} FromLEOfLE(n: nat, k: nat)
    requires n < Pow256(k)
    ensures FromLE(LE(n, k)) == n
  {
    if k > 0 {
      FromLEOfLE(n / 256, k - 1);
      assert LE(n, k)[1..] == LE(n / 256, k - 1);
    }
  }

  lemma {:induction false} LEOfFromLE(bs: Bytes)
    ensures LE(FromLE(bs), |bs|) == bs
  {
    if bs != [] {
      LEOfFromLE(bs[1..]);
      var n := FromLE(bs);
      assert n / 256 == FromLE(bs[1..]) && n % 256 == bs[0] as nat;
      assert bs == [bs[0]] + bs[1..];
    }
  }

  lemma DropByte(n: nat, p: nat)
    requires p > 0
    ensures n / 256 / p == n / (256 * p)
  {
    var q := n / (256 * p);
    var r := n % (256 * p);
    assert n == 256 * (p * q) + r;
    assert n / 256 == p * q + r / 256;
    assert 0 <= r / 256 < p;
    QuotientOf(n / 256, p, q, r / 256);
  }

  /** The only multiple of `m` strictly between `-m` and `m` is 0. */
  lemma OnlyZeroInside(d: int, m: nat, e: int)
    requires d == m * e && d < m && -d < m
    ensures d == 0 == e
  {
    assert e >= 1 ==> m * e >= m;
    assert e <= -1 ==> -(m * e) >= m;
  }

  lemma QuotientOf(n: nat, p: nat, q: nat, r: nat)
    requires p > 0 && n == p * q + r && r < p
    ensures n / p == q
  {
    var d := n / p - q;
    assert n == p * (n / p) + n % p;
    assert p * d == p * (n / p) - p * q;
    OnlyZeroInside(p * d, p, d);
  }

  /** Big-endian: the byte at `i` is the digit to the base 256 with `k - 1 - i` lower ones. */
  lemma {:induction false} BEByte(n: nat, k: nat, i: nat)
    requires i < k
    ensures BE(n, k)[i] as nat == n / Pow256(k - 1 - i) % 256
  {
    if i < k - 1 {
      assert BE(n, k)[i] == BE(n / 256, k - 1)[i] && Pow256(k - 1 - i) == 256 * Pow256(k - 2 - i);
      hide BE, Pow256;
      BEByte(n / 256, k - 1, i);
      DropByte(n, Pow256(k - 2 - i));
    } else {
      assert Pow256(0) == 1;
    }
  }

  /** Little-endian: the byte at `i` is the digit with `i` lower ones. */
  lemma {:induction false} LEByte(n: nat, k: nat, i: nat)
    requires i < k
    ensures LE(n, k)[i] as nat == n / Pow256(i) % 256
  {
    if i > 0 {
      assert LE(n, k)[i] == LE(n / 256, k - 1)[i - 1] && Pow256(i) == 256 * Pow256(i - 1);
      hide LE, Pow256;
      LEByte(n / 256, k - 1, i - 1);
      DropByte(n, Pow256(i - 1));
    } else {
      assert Pow256(0) == 1;
    }
  }

  /** The bytes are the digits of `n` to the base 256, most significant first. */
  ghost predicate BigEndian(bs: Bytes, n: nat) {
    forall i :: 0 <= i < |bs| ==> bs[i] as nat == n / Pow256(|bs| - 1 - i) % 256
  }

  ghost predicate LittleEndian(bs: Bytes, n: nat) {
    forall i :: 0 <= i < |bs| ==> bs[i] as nat == n / Pow256(i) % 256
  }

  /** The two encodings, digit by digit. */
  lemma Digits(n: nat, k: nat)
    ensures BigEndian(BE(n, k), n) && LittleEndian(LE(n, k), n)
  {
    hide BE, LE;
    forall i | 0 <= i < k ensures BE(n, k)[i] as nat == n / Pow256(k - 1 - i) % 256 {
      BEByte(n, k, i);
    }
    forall i | 0 <= i < k ensures LE(n, k)[i] as nat == n / Pow256(i) % 256 {
      LEByte(n, k, i);
    }
  }

  const U32_MAX: nat := 0xFFFF_FFFF

  lemma Widths()
    ensures Pow256(4) == U32_MAX + 1
    ensures Pow256(8) == U64_MAX + 1
  {
    assert Pow256(2) == 65536;
    assert Pow256(4) == 65536 * Pow256(2);
    assert Pow256(6) == 65536 * Pow256(4);
    assert Pow256(8) == 65536 * Pow256(6);
  }
}
