/** The reading end of a byte stream, as `std::io::Read` presents it. */
module ByteStreams {
  import opened Events

  datatype Result<+T, +E> = Ok(value: T) | Err(error: E)

  function Min(a: nat, b: nat): nat {
    if a <= b then a else b
  }

  /**
   * A stream delivers the bytes of `rest` and then either ends or fails. How
   * many bytes one read delivers is left open, so what holds of a caller holds
   * however the stream is fragmented.
   */
  class Reader {
    var rest: Bytes
    const broken: bool

    constructor (bytes: Bytes, broken: bool)
      ensures rest == bytes && this.broken == broken
    {
      this.rest, this.broken := bytes, broken;
    }

    /** Fills part of `buf` from position `from`: some bytes, none at the end, `None` for a failure. */
    method Read(buf: array<uint8>, from: nat) returns (n: Option<nat>)
      requires from < buf.Length
      modifies this, buf
      ensures old(rest) == [] ==> n == (if broken then None else Some(0)) && rest == [] && buf[..] == old(buf[..])
      ensures old(rest) != [] ==>
                && n.Some? && 1 <= n.value <= buf.Length - from && n.value <= |old(rest)|
                && rest == old(rest)[n.value..]
                && buf[..from + n.value] == old(buf[..from]) + old(rest)[..n.value]
    {
      if rest == [] {
        return if broken then None else Some(0);
      }
      var k :| 1 <= k <= buf.Length - from && k <= |rest|;
      forall i | from <= i < from + k {
        buf[i] := rest[i - from];
      }
      rest := rest[k..];
      n := Some(k);
    }
  }
}
