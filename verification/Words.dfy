/**
 32-bit quantities held in `unsigned long`, which is 64 bits wide here: packing
 and unpacking big-endian bytes.
 */
module Words {

  type ulong = bv64
  type byte = bv8

  /** (uchar) of a word. */
  function Low(x: ulong): byte {
    (x & 0xFF) as bv8
  }

  // The bytes that PUT_UINT32_BE writes.
  function Byte0(x: ulong): byte { Low(x >> 24) }
  function Byte1(x: ulong): byte { Low(x >> 16) }
  function Byte2(x: ulong): byte { Low(x >> 8) }
  function Byte3(x: ulong): byte { Low(x) }

  /** GET_UINT32_BE on four bytes. */
  function Pack(a: byte, b: byte, c: byte, d: byte): ulong {
    ((a as ulong) << 24) | ((b as ulong) << 16) | ((c as ulong) << 8) | (d as ulong)
  }

  /** A word that fits 32 bits. */
  predicate Is32(x: ulong) {
    x & 0xFFFF_FFFF_0000_0000 == 0
  }

  lemma PackBytes(a: byte, b: byte, c: byte, d: byte)
    ensures var w := Pack(a, b, c, d);
            Byte0(w) == a && Byte1(w) == b && Byte2(w) == c && Byte3(w) == d && Is32(w)
  {
  }

  lemma PackXor(a: byte, b: byte, c: byte, d: byte, a': byte, b': byte, c': byte, d': byte)
    ensures Pack(a, b, c, d) ^ Pack(a', b', c', d') == Pack(a ^ a', b ^ b', c ^ c', d ^ d')
  {
  }

  /** Unpacking a 32-bit word and packing it again. */
  lemma PackUnpack(x: ulong)
    requires Is32(x)
    ensures Pack(Byte0(x), Byte1(x), Byte2(x), Byte3(x)) == x
  {
  }
}
