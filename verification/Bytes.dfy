/** Bytes, and little-endian numbers of a fixed width. */
module Bytes {

  type Byte = x: int | 0 <= x < 256

  type Bytes = seq<Byte>

  /** How many numbers fit in `width` bytes. */
  function Limit(width: nat): (n: nat)
    ensures n > 0
  {
    if width == 0 then 1 else 256 * Limit(width - 1)
  }

  function ToBytes(n: nat, width: nat): (s: Bytes)
    ensures |s| == width
  {
    if width == 0 then [] else [n % 256] + ToBytes(n / 256, width - 1)
  }

  function FromBytes(s: Bytes): nat {
    if s == [] then 0 else s[0] + 256 * FromBytes(s[1..])
  }

  lemma {:induction false} BytesRoundTrip(n: nat, width: nat)
    ensures n < Limit(width) ==> FromBytes(ToBytes(n, width)) == n
    decreases width
  {
    if width > 0 {
      BytesRoundTrip(n / 256, width - 1);
      assert ToBytes(n, width)[1..] == ToBytes(n / 256, width - 1);
    }
  }

  lemma Limits()
    ensures Limit(4) == 0x1_0000_0000 && Limit(8) == 0x1_0000_0000_0000_0000
  {
    assert Limit(1) == 256 && Limit(2) == 0x1_0000 && Limit(3) == 0x100_0000;
    assert Limit(5) == 256 * Limit(4) && Limit(6) == 256 * Limit(5) && Limit(7) == 256 * Limit(6);
  }

  /** The number of `width` bytes at position `pos`. */
  function NumberAt(s: Bytes, pos: nat, width: nat): nat
    requires pos + width <= |s|
  {
    FromBytes(s[pos..pos + width])
  }

  /** A number written somewhere is read back from there. */
  lemma NumberWritten(before: Bytes, n: nat, width: nat, after: Bytes)
    requires n < Limit(width)
    ensures NumberAt(before + ToBytes(n, width) + after, |before|, width) == n
  {
    BytesRoundTrip(n, width);
    var s := before + ToBytes(n, width) + after;
    assert s[|before|..|before| + width] == ToBytes(n, width);
  }
}
