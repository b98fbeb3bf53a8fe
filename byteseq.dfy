/** Byte strings and the integer <-> byte conversions that the host's memory
    performs implicitly when the C code copies a variable with `memcpy` or
    hands its address to the writer. Everything here is plain arithmetic on
    `nat`; bit-vectors appear only in the byte-swap macros (LundumpH). */
module ByteSeq {

  type Bytes = seq<bv8>

  /** The byte holding `v mod 256`. */
  function ByteOf(v: nat): bv8 {
    (v % 256) as bv8
  }

  /** The numeric value of a byte. */
  function ValueOf(b: bv8): (v: nat)
    ensures v < 256
  {
    b as nat
  }

  lemma {:induction false} ByteOfValueOf(b: bv8)
    ensures ByteOf(ValueOf(b)) == b
  {
    assert (b as nat) as bv8 == b;
  }

  lemma {:induction false} ValueOfByteOf(v: nat)
    ensures ValueOf(ByteOf(v)) == v % 256
  {
    ByteValue(v % 256);
  }

  lemma {:induction false} ByteValue(m: nat)
    requires m < 256
    ensures (m as bv8) as nat == m
  {
    assert m as bv8 == (m as bv16) as bv8;
  }

  /** 256 to the power n: one more than the largest unsigned n-byte value. */
  function Pow256(n: nat): (p: nat)
    ensures p >= 1
  {
    if n == 0 then 1 else 256 * Pow256(n - 1)
  }

  lemma {:induction false} Pow256Monotone(m: nat, n: nat)
    requires m <= n
    ensures Pow256(m) <= Pow256(n)
  {
    if m < n {
      Pow256Monotone(m, n - 1);
    }
  }

  lemma {:induction false} Pow256Of4()
    ensures Pow256(4) == 0x1_0000_0000
  {
  }

  /** Every width of four bytes or more holds the 32-bit range. */
  lemma {:induction false} Pow256AtLeast4(n: nat)
    requires 4 <= n
    ensures 0x1_0000_0000 <= Pow256(n)
  {
    Pow256Monotone(4, n);
  }

  /** The low n bytes of v, least significant first: the memory image of an
      unsigned n-byte variable holding v on a little-endian host (and the
      truncation a C cast to an n-byte unsigned type performs). */
  function LE(v: nat, n: nat): (bs: Bytes)
    ensures |bs| == n
  {
    if n == 0 then [] else [ByteOf(v)] + LE(v / 256, n - 1)
  }

  /** The unsigned value of a little-endian byte string. */
  function LEValue(bs: Bytes): (v: nat)
    ensures v < Pow256(|bs|)
  {
    if bs == [] then 0 else ValueOf(bs[0]) + 256 * LEValue(bs[1..])
  }

  lemma {:induction false} LEValueOfLE(v: nat, n: nat)
    requires v < Pow256(n)
    ensures LEValue(LE(v, n)) == v
  {
    if n > 0 {
      LEValueOfLE(v / 256, n - 1);
      ValueOfByteOf(v);
    }
  }

  lemma {:induction false} LEOfLEValue(bs: Bytes)
    ensures LE(LEValue(bs), |bs|) == bs
  {
    if bs != [] {
      LEOfLEValue(bs[1..]);
      var w := LEValue(bs[1..]);
      var b := ValueOf(bs[0]);
      DivMod256(b, w);
      ByteOfValueOf(bs[0]);
      assert LE(b + 256 * w, |bs|) == [bs[0]] + bs[1..];
    }
  }

  lemma DivMod256(b: nat, w: nat)
    requires b < 256
    ensures (b + 256 * w) % 256 == b && (b + 256 * w) / 256 == w
  {
  }

  /** Zero has the all-zero image in every width. */
  lemma {:induction false} LEValueOfZeros(n: nat)
    ensures LE(0, n) == seq(n, _ => 0 as bv8)
    ensures LEValue(seq(n, _ => 0 as bv8)) == 0
  {
    if n > 0 {
      LEValueOfZeros(n - 1);
      assert seq(n, _ => 0 as bv8) == [0 as bv8] + seq(n - 1, _ => 0 as bv8);
    }
  }

  /** A non-zero most significant byte makes the value at least 256 to
      the power of the bytes below it. */
  lemma {:induction false} LEValueHighByte(a: Bytes, b: bv8)
    requires b != 0
    ensures LEValue(a + [b]) >= Pow256(|a|)
  {
    if a == [] {
      assert [] + [b] == [b];
      assert ValueOf(b) != 0;
    } else {
      LEValueHighByte(a[1..], b);
      assert (a + [b])[1..] == a[1..] + [b];
    }
  }

  function Reverse(s: Bytes): (r: Bytes)
    ensures |r| == |s|
    ensures forall i :: 0 <= i < |s| ==> r[i] == s[|s| - 1 - i]
  {
    if s == [] then [] else Reverse(s[1..]) + [s[0]]
  }

  lemma {:induction false} ReverseInvolutive(s: Bytes)
    ensures Reverse(Reverse(s)) == s
  {
    assert forall i :: 0 <= i < |s| ==> Reverse(Reverse(s))[i] == s[i];
  }

  /** A little-endian image laid out in the byte order of a host. */
  function InHostOrder(image: Bytes, littleEndian: bool): (r: Bytes)
    ensures |r| == |image|
  {
    if littleEndian then image else Reverse(image)
  }

  lemma {:induction false} InHostOrderInvolutive(image: Bytes, littleEndian: bool)
    ensures InHostOrder(InHostOrder(image, littleEndian), littleEndian) == image
  {
    ReverseInvolutive(image);
  }

  /** The two's-complement bit pattern of i in n bytes (a C conversion of i
      to an n-byte integer type keeps exactly this). */
  function Unsigned(i: int, n: nat): (u: nat)
    ensures u < Pow256(n)
  {
    i % Pow256(n)
  }

  /** The value of an n-byte two's-complement bit pattern. */
  function Signed(u: nat, n: nat): int {
    if 2 * u < Pow256(n) then u else u - Pow256(n)
  }

  lemma {:induction false} SignedOfUnsigned(i: int, n: nat)
    requires -(Pow256(n) as int) <= 2 * i < Pow256(n)
    ensures Signed(Unsigned(i, n), n) == i
  {
    var p: int := Pow256(n);
    if i < 0 {
      ModOfNegative(i, p);
    } else {
      ModOfSmall(i, p);
    }
  }

  lemma {:induction false} ModOfSmall(i: int, p: int)
    requires 0 <= i < p
    ensures i % p == i
  {
  }

  lemma {:induction false} ModOfNegative(i: int, p: int)
    requires p > 0 && -p <= i < 0
    ensures i % p == i + p
  {
  }

  /** The bytes of a sequence of blocks, in order: what a reader sees of
      the blocks a writer was handed. */
  function Flatten(blocks: seq<Bytes>): Bytes {
    if blocks == [] then [] else blocks[0] + Flatten(blocks[1..])
  }

  lemma {:induction false} FlattenAppend(a: seq<Bytes>, b: seq<Bytes>)
    ensures Flatten(a + b) == Flatten(a) + Flatten(b)
  {
    if a != [] {
      assert (a + b)[0] == a[0];
      assert (a + b)[1..] == a[1..] + b;
      FlattenAppend(a[1..], b);
    } else {
      assert a + b == b;
    }
  }

  /** The images of the elements of xs, one after another: what copying an
      array of fixed-size elements from memory writes. */
  function Concat<T>(xs: seq<T>, image: T -> Bytes): Bytes {
    if xs == [] then [] else image(xs[0]) + Concat(xs[1..], image)
  }

  lemma {:induction false} ConcatAppend<T>(a: seq<T>, b: seq<T>, image: T -> Bytes)
    ensures Concat(a + b, image) == Concat(a, image) + Concat(b, image)
  {
    if a == [] {
      assert a + b == b;
    } else {
      assert (a + b)[0] == a[0];
      assert (a + b)[1..] == a[1..] + b;
      ConcatAppend(a[1..], b, image);
    }
  }

  lemma {:induction false} ConcatSnoc<T>(xs: seq<T>, i: nat, image: T -> Bytes)
    requires i < |xs|
    ensures Concat(xs[..i + 1], image) == Concat(xs[..i], image) + image(xs[i])
  {
    assert xs[..i + 1] == xs[..i] + [xs[i]];
    ConcatAppend(xs[..i], [xs[i]], image);
    assert Concat([xs[i]], image) == image(xs[i]) + Concat([], image);
  }

  /** The blocks written for each element of xs, one element after another. */
  function Blocks<T>(xs: seq<T>, blocks: T -> seq<Bytes>): seq<Bytes> {
    if xs == [] then [] else blocks(xs[0]) + Blocks(xs[1..], blocks)
  }

  lemma {:induction false} BlocksAppend<T>(a: seq<T>, b: seq<T>, blocks: T -> seq<Bytes>)
    ensures Blocks(a + b, blocks) == Blocks(a, blocks) + Blocks(b, blocks)
  {
    if a == [] {
      assert a + b == b;
    } else {
      assert (a + b)[0] == a[0];
      assert (a + b)[1..] == a[1..] + b;
      BlocksAppend(a[1..], b, blocks);
    }
  }

  lemma {:induction false} BlocksSnoc<T>(xs: seq<T>, i: nat, blocks: T -> seq<Bytes>)
    requires i < |xs|
    ensures Blocks(xs[..i + 1], blocks) == Blocks(xs[..i], blocks) + blocks(xs[i])
  {
    assert xs[..i + 1] == xs[..i] + [xs[i]];
    BlocksAppend(xs[..i], [xs[i]], blocks);
    assert Blocks([xs[i]], blocks) == blocks(xs[i]) + Blocks([], blocks);
  }

  lemma {:induction false} ConcatCongruent<T>(xs: seq<T>, f: T -> Bytes, g: T -> Bytes)
    requires forall i :: 0 <= i < |xs| ==> f(xs[i]) == g(xs[i])
    ensures Concat(xs, f) == Concat(xs, g)
  {
    if xs != [] {
      ConcatCongruent(xs[1..], f, g);
    }
  }

  lemma {:induction false} BlocksCongruent<T>(xs: seq<T>, f: T -> seq<Bytes>, g: T -> seq<Bytes>)
    requires forall i :: 0 <= i < |xs| ==> f(xs[i]) == g(xs[i])
    ensures Blocks(xs, f) == Blocks(xs, g)
  {
    if xs != [] {
      BlocksCongruent(xs[1..], f, g);
    }
  }

  /** Concatenating the images of mapped elements is concatenating the
      composed images. */
  lemma {:induction false} ConcatMap<T, U>(xs: seq<T>, f: T -> U, g: U -> Bytes)
    ensures Concat(seq(|xs|, i requires 0 <= i < |xs| => f(xs[i])), g) == Concat(xs, x => g(f(x)))
  {
    var ys := seq(|xs|, i requires 0 <= i < |xs| => f(xs[i]));
    if xs != [] {
      ConcatMap(xs[1..], f, g);
      assert ys[1..] == seq(|xs[1..]|, i requires 0 <= i < |xs[1..]| => f(xs[1..][i]));
    }
  }

  /** With images of a fixed width w, the image of element i sits at
      offset i * w. */
  lemma {:induction false} ConcatSlice<T>(xs: seq<T>, image: T -> Bytes, w: nat, i: nat, off: nat)
    requires forall j :: 0 <= j < |xs| ==> |image(xs[j])| == w
    requires i < |xs| && off == i * w
    ensures off + w <= |Concat(xs, image)|
    ensures Concat(xs, image)[off .. off + w] == image(xs[i])
  {
    var c := Concat(xs[1..], image);
    assert Concat(xs, image) == image(xs[0]) + c;
    if i > 0 {
      MulStep(i, w);
      ConcatSlice(xs[1..], image, w, i - 1, off - w);
      assert Concat(xs, image)[off .. off + w] == c[off - w .. off];
    }
  }

  lemma {:induction false} MulStep(i: nat, w: nat)
    requires i > 0
    ensures i * w == (i - 1) * w + w
  {
  }

  lemma {:induction false} ConcatLength<T>(xs: seq<T>, image: T -> Bytes, w: nat)
    requires forall j :: 0 <= j < |xs| ==> |image(xs[j])| == w
    ensures |Concat(xs, image)| == |xs| * w
  {
    if xs != [] {
      ConcatLength(xs[1..], image, w);
    }
  }

  lemma {:induction false} FlattenOne(a: Bytes)
    ensures Flatten([a]) == a
  {
    assert [a][1..] == [];
  }

  lemma {:induction false} FlattenTwo(a: Bytes, b: Bytes)
    ensures Flatten([a, b]) == a + b
  {
    assert [a, b][1..] == [b];
    FlattenOne(b);
  }

  lemma OneBlock(a: Bytes, rest: Bytes)
    ensures Flatten([a]) + rest == a + rest
  {
    FlattenOne(a);
  }

  lemma TwoBlocks(a: Bytes, b: Bytes, rest: Bytes)
    ensures Flatten([a, b]) + rest == a + (b + rest)
  {
    FlattenTwo(a, b);
    assert (a + b) + rest == a + (b + rest);
  }

  /** Flattening blocks and then appending more bytes, split at a block
      boundary. */
  lemma {:induction false} FlattenAppendRest(a: seq<Bytes>, b: seq<Bytes>, rest: Bytes)
    ensures Flatten(a + b) + rest == Flatten(a) + (Flatten(b) + rest)
  {
    FlattenAppend(a, b);
  }

  /** b cut into consecutive pieces of w bytes; a shorter tail is dropped. */
  function Chunks(b: Bytes, w: nat): (cs: seq<Bytes>)
    ensures forall i :: 0 <= i < |cs| ==> |cs[i]| == w
    decreases |b|
  {
    if w == 0 || |b| < w then [] else [b[..w]] + Chunks(b[w..], w)
  }

  /** Cutting the images of fixed width w back apart gives the images. */
  lemma {:induction false} ChunksOfConcat<T>(xs: seq<T>, image: T -> Bytes, w: nat)
    requires w > 0
    requires forall j :: 0 <= j < |xs| ==> |image(xs[j])| == w
    ensures Chunks(Concat(xs, image), w) == seq(|xs|, i requires 0 <= i < |xs| => image(xs[i]))
  {
    if xs != [] {
      var c := Concat(xs, image);
      assert c == image(xs[0]) + Concat(xs[1..], image);
      assert c[..w] == image(xs[0]);
      assert c[w..] == Concat(xs[1..], image);
      ChunksOfConcat(xs[1..], image, w);
    }
  }

  /** Bytes that are n images of width w long cut into n pieces. */
  lemma {:induction false} ChunksCount(b: Bytes, w: nat, n: nat)
    requires w > 0 && |b| == n * w
    ensures |Chunks(b, w)| == n
  {
    if n > 0 {
      MulStep(n, w);
      ChunksCount(b[w..], w, n - 1);
    }
  }
}
