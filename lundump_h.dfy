/** The constants and byte-swap macros shared by the dumper and the loader
    (src/lundump.h; src/ldump.c repeats the two macros verbatim). */
module LundumpH {
  import opened ByteSeq

  /** Version byte of the header: this is Lua 5.1. */
  const LuacVersion: bv8 := 0x51

  /** Format byte of the official (native) header. */
  const LuacFormat: bv8 := 0

  /** Size of the header of a binary chunk. */
  const LuacHeaderSize: nat := 12

  /** BSWAP_32: reverse the four bytes of a 32-bit value. */
  function Bswap32(x: bv32): bv32 {
    (x << 24) | ((x << 8) & 0xFF0000) | ((x >> 8) & 0xFF00) | (x >> 24)
  }

  /** BSWAP_64: reverse the eight bytes of a 64-bit value. */
  function Bswap64(x: bv64): bv64 {
    (x << 56)
    | ((x << 40) & 0xFF000000000000)
    | ((x << 24) & 0xFF0000000000)
    | ((x << 8) & 0xFF00000000)
    | ((x >> 8) & 0xFF000000)
    | ((x >> 24) & 0xFF0000)
    | ((x >> 40) & 0xFF00)
    | (x >> 56)
  }

  /** The bytes of a 32-bit value, least significant first. */
  function Bytes32(x: bv32): (r: Bytes)
    ensures |r| == 4
  {
    [(x & 0xFF) as bv8, ((x >> 8) & 0xFF) as bv8, ((x >> 16) & 0xFF) as bv8, (x >> 24) as bv8]
  }

  /** The 32-bit value whose bytes, least significant first, are b. */
  function Word32(b: Bytes): bv32
    requires |b| == 4
  {
    (b[0] as bv32) | ((b[1] as bv32) << 8) | ((b[2] as bv32) << 16) | ((b[3] as bv32) << 24)
  }

  /** The bytes of a 64-bit value, least significant first. */
  function Bytes64(x: bv64): (r: Bytes)
    ensures |r| == 8
  {
    [ (x & 0xFF) as bv8, ((x >> 8) & 0xFF) as bv8, ((x >> 16) & 0xFF) as bv8, ((x >> 24) & 0xFF) as bv8,
      ((x >> 32) & 0xFF) as bv8, ((x >> 40) & 0xFF) as bv8, ((x >> 48) & 0xFF) as bv8, (x >> 56) as bv8 ]
  }

  /** The 64-bit value whose bytes, least significant first, are b. */
  function Word64(b: Bytes): bv64
    requires |b| == 8
  {
    (b[0] as bv64) | ((b[1] as bv64) << 8) | ((b[2] as bv64) << 16) | ((b[3] as bv64) << 24)
    | ((b[4] as bv64) << 32) | ((b[5] as bv64) << 40) | ((b[6] as bv64) << 48) | ((b[7] as bv64) << 56)
  }

  lemma {:induction false} Word32OfBytes32(x: bv32)
    ensures Word32(Bytes32(x)) == x
  {
  }

  lemma {:induction false} Bytes32OfWord32(b: Bytes)
    requires |b| == 4
    ensures Bytes32(Word32(b)) == b
  {
  }

  lemma {:induction false} Word64OfBytes64(x: bv64)
    ensures Word64(Bytes64(x)) == x
  {
  }

  lemma {:induction false} Bytes64OfWord64(b: Bytes)
    requires |b| == 8
    ensures Bytes64(Word64(b)) == b
  {
  }

  /** BSWAP_32 reverses the bytes of its argument. */
  lemma {:induction false} Bswap32Reverses(x: bv32)
    ensures Bytes32(Bswap32(x)) == Reverse(Bytes32(x))
  {
    var b := Bytes32(x);
    Bswap32Bytes(x);
    assert Reverse(b) == [b[3], b[2], b[1], b[0]];
  }

  lemma {:induction false} Bswap32Bytes(x: bv32)
    ensures var b := Bytes32(x); Bytes32(Bswap32(x)) == [b[3], b[2], b[1], b[0]]
  {
  }

  /** BSWAP_32 undoes itself. */
  lemma {:induction false} Bswap32Involutive(x: bv32)
    ensures Bswap32(Bswap32(x)) == x
  {
    Bswap32Reverses(x);
    Bswap32Reverses(Bswap32(x));
    ReverseInvolutive(Bytes32(x));
    Word32OfBytes32(x);
    Word32OfBytes32(Bswap32(Bswap32(x)));
  }

  /** BSWAP_64 reverses the bytes of its argument. */
  lemma {:induction false} Bswap64Reverses(x: bv64)
    ensures Bytes64(Bswap64(x)) == Reverse(Bytes64(x))
  {
    var b := Bytes64(x);
    Bswap64Bytes(x);
    assert Reverse(b) == [b[7], b[6], b[5], b[4], b[3], b[2], b[1], b[0]];
  }

  lemma {:induction false} Bswap64Bytes(x: bv64)
    ensures var b := Bytes64(x); Bytes64(Bswap64(x)) == [b[7], b[6], b[5], b[4], b[3], b[2], b[1], b[0]]
  {
  }

  /** BSWAP_64 undoes itself. */
  lemma {:induction false} Bswap64Involutive(x: bv64)
    ensures Bswap64(Bswap64(x)) == x
  {
    Bswap64Reverses(x);
    Bswap64Reverses(Bswap64(x));
    ReverseInvolutive(Bytes64(x));
    Word64OfBytes64(x);
    Word64OfBytes64(Bswap64(Bswap64(x)));
  }

  /** How a host stores a 32-bit value in memory. */
  function HostBytes32(x: bv32, littleEndian: bool): (r: Bytes)
    ensures |r| == 4
  {
    InHostOrder(Bytes32(x), littleEndian)
  }

  /** The 32-bit value a host reads from the memory bytes b. */
  function HostWord32(b: Bytes, littleEndian: bool): bv32
    requires |b| == 4
  {
    Word32(InHostOrder(b, littleEndian))
  }

  function HostBytes64(x: bv64, littleEndian: bool): (r: Bytes)
    ensures |r| == 8
  {
    InHostOrder(Bytes64(x), littleEndian)
  }

  function HostWord64(b: Bytes, littleEndian: bool): bv64
    requires |b| == 8
  {
    Word64(InHostOrder(b, littleEndian))
  }

  /** Storing a value swapped on a big-endian host lays its bytes out least
      significant first: the reason the portable format is little-endian on
      every host. */
  lemma {:induction false} SwappedOnBigEndianIsLittleEndian32(x: bv32)
    ensures HostBytes32(Bswap32(x), false) == Bytes32(x)
  {
    Bswap32Reverses(x);
    ReverseInvolutive(Bytes32(x));
  }

  lemma {:induction false} SwappedOnBigEndianIsLittleEndian64(x: bv64)
    ensures HostBytes64(Bswap64(x), false) == Bytes64(x)
  {
    Bswap64Reverses(x);
    ReverseInvolutive(Bytes64(x));
  }

  /** Reading memory bytes on a big-endian host and swapping the value gives
      the value those bytes denote least significant first. */
  lemma {:induction false} SwappedReadOnBigEndian32(b: Bytes)
    requires |b| == 4
    ensures Bytes32(Bswap32(HostWord32(b, false))) == b
  {
    var x := HostWord32(b, false);
    Bswap32Reverses(x);
    Bytes32OfWord32(Reverse(b));
    ReverseInvolutive(b);
  }

  lemma {:induction false} SwappedReadOnBigEndian64(b: Bytes)
    requires |b| == 8
    ensures Bytes64(Bswap64(HostWord64(b, false))) == b
  {
    var x := HostWord64(b, false);
    Bswap64Reverses(x);
    Bytes64OfWord64(Reverse(b));
    ReverseInvolutive(b);
  }

  /** Reading eight bytes as a 64-bit value in either byte order, swapping
      it and storing it back in the same order reverses the bytes. */
  lemma {:induction false} SwappedImage64(b: Bytes, littleEndian: bool)
    requires |b| == 8
    ensures HostBytes64(Bswap64(HostWord64(b, littleEndian)), littleEndian) == Reverse(b)
  {
    var w := HostWord64(b, littleEndian);
    Bswap64Reverses(w);
    Bytes64OfWord64(InHostOrder(b, littleEndian));
    if !littleEndian {
      ReverseInvolutive(Reverse(b));
      ReverseInvolutive(b);
    }
  }
}
