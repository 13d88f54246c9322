/**
 * Fixed-width integers and the byte-order conversion used by the
 * force/torque receive path: a 32-bit load of four payload bytes on a
 * little-endian host, `__bswap_32`, and the cast to `int32_t`.
 */
module ByteOrder {

  type byte = x: int | 0 <= x < 0x100
  type uint32 = x: int | 0 <= x < 0x1_0000_0000
  type int32 = x: int | -0x8000_0000 <= x < 0x8000_0000

  /** Four bytes, in the order they sit in memory or on the wire. */
  type Quad = b: seq<byte> | |b| == 4 witness [0, 0, 0, 0]

  /** The value of a 32-bit load from memory holding `b` on a little-endian host. */
  function LoadLittleEndian(b: Quad): (w: uint32)
    ensures w % 0x100 == b[0] && (w / 0x100) % 0x100 == b[1]
    ensures (w / 0x1_0000) % 0x100 == b[2] && w / 0x100_0000 == b[3]
  {
    b[0] as int + 0x100 * (b[1] as int + 0x100 * (b[2] as int + 0x100 * b[3] as int))
  }

  /** The bytes a little-endian host stores for `w`, lowest address first. */
  function StoreLittleEndian(w: uint32): Quad
  {
    var w1 := w / 0x100;
    var w2 := w1 / 0x100;
    [w % 0x100, w1 % 0x100, w2 % 0x100, w2 / 0x100]
  }

  /** Splitting a number into its lowest byte and the rest. */
  lemma SplitLowByte(lo: byte, hi: nat)
    ensures (lo + 0x100 * hi) % 0x100 == lo
    ensures (lo + 0x100 * hi) / 0x100 == hi
  {
  }

  lemma LoadStore(w: uint32)
    ensures LoadLittleEndian(StoreLittleEndian(w)) == w
  {
  }

  lemma StoreLoad(b: Quad)
    ensures StoreLittleEndian(LoadLittleEndian(b)) == b
  {
    var hi2 := b[2] as int + 0x100 * b[3] as int;
    var hi1 := b[1] as int + 0x100 * hi2;
    SplitLowByte(b[0], hi1);
    SplitLowByte(b[1], hi2);
    SplitLowByte(b[2], b[3]);
  }

  function Reverse(b: Quad): (r: Quad)
    ensures forall i :: 0 <= i < 4 ==> r[i] == b[3 - i]
  {
    [b[3], b[2], b[1], b[0]]
  }

  /** `__bswap_32`: the word whose bytes are those of `w` in the opposite order. */
  function Bswap32(w: uint32): (r: uint32)
    ensures StoreLittleEndian(r) == Reverse(StoreLittleEndian(w))
  {
    var r := LoadLittleEndian(Reverse(StoreLittleEndian(w)));
    StoreLoad(Reverse(StoreLittleEndian(w)));
    r
  }

  lemma Bswap32Involutive(w: uint32)
    ensures Bswap32(Bswap32(w)) == w
  {
  }

  /** The `(int32_t)` cast: the two's-complement reading of a 32-bit word. */
  function ToSigned(w: uint32): (x: int32)
    ensures x < 0 <==> w >= 0x8000_0000
    ensures x == w || x == w - 0x1_0000_0000
  {
    if w < 0x8000_0000 then w else w - 0x1_0000_0000
  }

  /** The `(uint32_t)` cast: the 32-bit word whose two's-complement reading is `x`. */
  function ToUnsigned(x: int32): (w: uint32)
    ensures ToSigned(w) == x
  {
    if x < 0 then x + 0x1_0000_0000 else x
  }

  lemma ToUnsignedToSigned(w: uint32)
    ensures ToUnsigned(ToSigned(w)) == w
  {
  }

  /**
   * Reference definition: the signed 32-bit value of four bytes in network
   * order (most significant byte first, two's complement).
   */
  function BigEndianSigned(b: Quad): int32
  {
    var u := ((b[0] as int * 0x100 + b[1]) * 0x100 + b[2]) * 0x100 + b[3];
    if u < 0x8000_0000 then u else u - 0x1_0000_0000
  }

  /** The four network-order bytes of `x`. */
  function EncodeBigEndian(x: int32): (b: Quad)
    ensures BigEndianSigned(b) == x
  {
    Reverse(StoreLittleEndian(ToUnsigned(x)))
  }

  lemma DecodeEncode(b: Quad)
    ensures EncodeBigEndian(BigEndianSigned(b)) == b
  {
  }

  /**
   * `(int32_t)__bswap_32(w)` where `w` is the 32-bit load of `b` on a
   * little-endian host: the payload word decode of the receive path.
   */
  function HostDecode(b: Quad): (x: int32)
    ensures x == BigEndianSigned(b)
  {
    StoreLoad(b);
    LoadStore(Bswap32(LoadLittleEndian(b)));
    ToSigned(Bswap32(LoadLittleEndian(b)))
  }
}
