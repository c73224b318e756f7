/** Bytes and the four-byte big-endian integers used on the wire. */
module Bytes {
  type Byte = b: int | 0 <= b < 256

  const TWO32: nat := 0x1_0000_0000

  /** n.to_bytes(4, "big") */
  function BigEndian4(n: nat): (b: seq<Byte>)
    requires n < TWO32
    ensures |b| == 4
    ensures FromBigEndian4(b) == n
  {
    var b1 := n / 256;
    var b2 := b1 / 256;
    var b3 := b2 / 256;
    [b3, b2 % 256, b1 % 256, n % 256]
  }

  /** int.from_bytes(b, "big") on four bytes */
  function FromBigEndian4(b: seq<Byte>): (n: nat)
    requires |b| == 4
    ensures n < TWO32
  {
    (b[0] as int) * 0x100_0000 + (b[1] as int) * 0x1_0000 + (b[2] as int) * 0x100 + (b[3] as int)
  }
}
