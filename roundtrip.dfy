/** What the loader makes of what the dumper writes: for every prototype
    tree whose numbers fit the 32-bit fields of the portable format, loading
    a dump gives the tree back, with the source names resolved the way the
    loader resolves them, the debug information gone when it was stripped
    and, across hosts with different double layouts, each number's image
    reversed. */
module RoundTrip {
  import opened Wrappers
  import opened ByteSeq
  import opened LundumpH
  import opened Chunk
  import opened Header
  import opened DumpSpec
  import opened LoadSpec

  // ---------------------------------------------------------------------
  // Which trees and which host pairs

  /** A count or an int field the loader accepts: non-negative int32. */
  predicate FitsInt(i: int) {
    0 <= i < 0x8000_0000
  }

  /** A line number: any int32. */
  predicate FitsLine(i: int) {
    -0x8000_0000 <= i < 0x8000_0000
  }

  /** A string whose size (with its terminating zero) fits in 32 bits. */
  predicate FitsString(s: LuaString) {
    s.Some? ==> |s.value| + 1 < 0x1_0000_0000
  }

  predicate FitsConstant(c: Constant) {
    c.Str? ==> FitsString(c.s)
  }

  predicate FitsLocVar(v: LocVar) {
    FitsString(v.varname) && FitsInt(v.startpc) && FitsInt(v.endpc)
  }

  /** Every field of every prototype of the tree survives the 32-bit
      conversions of the portable format. */
  predicate Fits(f: Proto) {
    FitsProto(f) && forall i :: 0 <= i < |f.p| ==> Fits(f.p[i])
  }

  /** The fields of one prototype, its nested prototypes aside. */
  predicate FitsProto(f: Proto) {
    FitsString(f.source) && FitsInt(f.linedefined) && FitsInt(f.lastlinedefined)
    && FitsCode(f.code) && FitsConstants(f.k) && FitsInt(|f.p|) && FitsDebug(f)
  }

  /** The length of a vector the portable dumper writes in one block: the
      block's size, 4 bytes per element, is computed as an int. */
  predicate FitsVector(n: nat) {
    4 * n < 0x8000_0000
  }

  /** Every instruction is a 32-bit word. */
  predicate FitsCode(code: seq<nat>) {
    FitsVector(|code|) && forall i :: 0 <= i < |code| ==> code[i] < 0x1_0000_0000
  }

  predicate FitsConstants(k: seq<Constant>) {
    FitsInt(|k|) && forall i :: 0 <= i < |k| ==> FitsConstant(k[i])
  }

  predicate FitsDebug(f: Proto) {
    FitsVector(|f.lineinfo|) && (forall i :: 0 <= i < |f.lineinfo| ==> FitsLine(f.lineinfo[i]))
    && FitsInt(|f.locvars|) && (forall i :: 0 <= i < |f.locvars| ==> FitsLocVar(f.locvars[i]))
    && FitsInt(|f.upvalues|) && (forall i :: 0 <= i < |f.upvalues| ==> FitsString(f.upvalues[i]))
  }

  /** Two hosts that lay out int, size_t and Instruction the same way. */
  predicate SameLayout(d: Host, l: Host) {
    d.littleEndian == l.littleEndian && d.intSize == l.intSize
    && d.sizeTSize == l.sizeTSize && d.instrSize == l.instrSize
  }

  /** The primitives of a dumper and a loader agree: both native on hosts
      with the same layout, or both portable on hosts whose doubles are
      IEEE-754. */
  predicate PrimitivesMatch(df: DumpFuncs, lf: LoadFuncs) {
    match df
    case NativeDump(d) => lf.NativeLoad? && SameLayout(d, lf.host)
    case PortableDump(d) => lf.PortableLoad? && d.float != UnknownFloat && lf.host.float != UnknownFloat
  }

  /** The source names also come through: the corrected portable loader
      always reads them right; the loader as written reads them with the
      host's own size_t, which agrees with the portable 8-byte
      little-endian size only on a host with an 8-byte size_t that is
      little-endian, or when every size written is zero (stripping). */
  predicate Compatible(df: DumpFuncs, lf: LoadFuncs, strip: bool) {
    PrimitivesMatch(df, lf)
    && (lf.PortableLoad? && !lf.sourcePortable ==> lf.host.sizeTSize == 8 && (lf.host.littleEndian || strip))
  }

  /** Whether two hosts store doubles in opposite byte orders. */
  function NumbersFlip(d: Host, l: Host): bool {
    (d.float == IeeeBig) != (l.float == IeeeBig)
  }

  /** Whether number images come back reversed: a portable dump and load
      between a host with little-endian doubles and one with big-endian
      doubles. */
  function Flip(df: DumpFuncs, lf: LoadFuncs): bool {
    df.PortableDump? && lf.PortableLoad? && NumbersFlip(df.host, lf.host)
  }

  // ---------------------------------------------------------------------
  // What comes back

  function ReloadedConstant(c: Constant, flip: bool): Constant {
    match c
    case Number(x) => if flip then Number(Reverse(x)) else c
    case _ => c
  }

  /** The source name a reloaded prototype ends up with. */
  function Resolved(f: Proto, strip: bool, q: LuaString): LuaString {
    if strip || f.source.None? then q else f.source
  }

  /** The tree the loader builds from a dump of f: a prototype without a
      written source name (none, or stripped) gets the inherited one `q`;
      nested prototypes inherit the resolved name; stripping drops the debug
      information. */
  function Reloaded(f: Proto, strip: bool, q: LuaString, flip: bool): Proto
    decreases f
  {
    var source := Resolved(f, strip, q);
    Proto(source, f.linedefined, f.lastlinedefined, f.nups, f.numparams, f.isVararg, f.maxstacksize,
          f.code,
          seq(|f.k|, i requires 0 <= i < |f.k| => ReloadedConstant(f.k[i], flip)),
          seq(|f.p|, i requires 0 <= i < |f.p| => Reloaded(f.p[i], strip, source, flip)),
          if strip then [] else f.lineinfo,
          if strip then [] else f.locvars,
          if strip then [] else f.upvalues)
  }

  // ---------------------------------------------------------------------
  // Primitives

  /** What a portable loader makes of four bytes it reads as a word: the
      word whose little-endian bytes they are, on either byte order. */
  function PortableWord(h: Host, b: Bytes): bv32
    requires |b| == 4
  {
    if h.littleEndian then HostWord32(b, true) else Bswap32(HostWord32(b, false))
  }

  lemma {:induction false} PortableWordBytes(h: Host, b: Bytes)
    requires |b| == 4
    ensures Bytes32(PortableWord(h, b)) == b
  {
    if h.littleEndian {
      Bytes32OfWord32(b);
    } else {
      SwappedReadOnBigEndian32(b);
    }
  }

  /** The portable int reader reads 4-byte little-endian two's complement
      on every host, and rejects negative values. */
  lemma {:induction false} PortableIntRead(h: Host, sp: bool, s: Bytes)
    ensures LoadInt(PortableLoad(h, sp), s) ==
      if |s| < 4 then Err(UnexpectedEnd)
      else if Signed(LEValue(s[..4]), 4) < 0 then Err(BadInteger)
      else Ok(Parsed(Signed(LEValue(s[..4]), 4), s[4..]))
  {
    if |s| >= 4 {
      PortableWordBytes(h, s[..4]);
    }
  }

  /** Portable sizes are 8-byte little-endian values, cut to the host's
      size_t. */
  lemma {:induction false} PortableSizeRead(h: Host, sp: bool, s: Bytes)
    ensures LoadSize(PortableLoad(h, sp), s) ==
      if |s| < 8 then Err(UnexpectedEnd)
      else Ok(Parsed(LEValue(s[..8]) % Pow256(h.sizeTSize), s[8..]))
  {
    if |s| >= 8 {
      var b := s[..8];
      if h.littleEndian {
        Bytes64OfWord64(b);
      } else {
        SwappedReadOnBigEndian64(b);
      }
    }
  }

  lemma {:induction false} IntRoundTrip(df: DumpFuncs, lf: LoadFuncs, i: int, rest: Bytes)
    requires PrimitivesMatch(df, lf) && FitsInt(i)
    ensures LoadInt(lf, IntBytes(df, i) + rest) == Ok(Parsed(i, rest))
  {
    IntBytesValue(df, lf, i, rest);
  }

  /** A negative int is written, but the loader refuses it. */
  lemma {:induction false} NegativeIntRejected(df: DumpFuncs, lf: LoadFuncs, i: int, rest: Bytes)
    requires PrimitivesMatch(df, lf) && -0x8000_0000 <= i < 0
    ensures LoadInt(lf, IntBytes(df, i) + rest) == Err(BadInteger)
  {
    IntBytesValue(df, lf, i, rest);
  }

  lemma {:induction false} IntBytesValue(df: DumpFuncs, lf: LoadFuncs, i: int, rest: Bytes)
    requires PrimitivesMatch(df, lf) && FitsLine(i)
    ensures LoadInt(lf, IntBytes(df, i) + rest) == if i < 0 then Err(BadInteger) else Ok(Parsed(i, rest))
  {
    match df
    case PortableDump(d) =>
      PortableIntValue(d, lf.host, lf.sourcePortable, i, rest);
    case NativeDump(d) =>
      NativeIntValue(d, lf.host, i, rest);
  }

  lemma {:induction false} PortableIntValue(d: Host, l: Host, sp: bool, i: int, rest: Bytes)
    requires FitsLine(i)
    ensures LoadInt(PortableLoad(l, sp), IntBytes(PortableDump(d), i) + rest)
      == if i < 0 then Err(BadInteger) else Ok(Parsed(i, rest))
  {
    var s := IntBytes(PortableDump(d), i) + rest;
    PortableIntWire(d, i);
    PortableIntRead(l, sp, s);
    Pow256Of4();
    assert s[..4] == LE(Unsigned(i, 4), 4) && s[4..] == rest;
    LEValueOfLE(Unsigned(i, 4), 4);
    SignedOfUnsigned(i, 4);
  }

  lemma {:induction false} NativeIntValue(d: Host, l: Host, i: int, rest: Bytes)
    requires SameLayout(d, l) && FitsLine(i)
    ensures LoadInt(NativeLoad(l), IntBytes(NativeDump(d), i) + rest)
      == if i < 0 then Err(BadInteger) else Ok(Parsed(i, rest))
  {
    var n := d.intSize;
    Pow256AtLeast4(n);
    LEValueOfLE(Unsigned(i, n), n);
    SignedOfUnsigned(i, n);
    NativeIntRead(l, LE(Unsigned(i, n), n), i, rest);
  }

  /** A native int is read back from its memory image. */
  lemma {:induction false} NativeIntRead(l: Host, image: Bytes, x: int, rest: Bytes)
    requires |image| == l.intSize && Signed(LEValue(image), l.intSize) == x
    ensures LoadInt(NativeLoad(l), InHostOrder(image, l.littleEndian) + rest)
      == if x < 0 then Err(BadInteger) else Ok(Parsed(x, rest))
  {
    var s := InHostOrder(image, l.littleEndian) + rest;
    assert s[..|image|] == InHostOrder(image, l.littleEndian) && s[|image|..] == rest;
    InHostOrderInvolutive(image, l.littleEndian);
  }

  lemma {:induction false} SizeRoundTrip(df: DumpFuncs, lf: LoadFuncs, n: nat, rest: Bytes)
    requires PrimitivesMatch(df, lf) && n < 0x1_0000_0000
    ensures LoadSize(lf, SizeBytes(df, n) + rest) == Ok(Parsed(n, rest))
  {
    match df
    case PortableDump(d) => PortableSizeRoundTrip(d, lf.host, lf.sourcePortable, n, rest);
    case NativeDump(d) =>
      Pow256AtLeast4(d.sizeTSize);
      NativeSizeRoundTrip(d, lf.host, n, rest);
  }

  lemma {:induction false} PortableSizeRoundTrip(d: Host, l: Host, sp: bool, n: nat, rest: Bytes)
    requires n < 0x1_0000_0000
    ensures LoadSize(PortableLoad(l, sp), SizeBytes(PortableDump(d), n) + rest) == Ok(Parsed(n, rest))
  {
    var s := SizeBytes(PortableDump(d), n) + rest;
    PortableSizeWire(d, n);
    PortableSizeRead(l, sp, s);
    assert s[..8] == LE(n, 8) && s[8..] == rest;
    Pow256AtLeast4(8);
    LEValueOfLE(n, 8);
    Pow256AtLeast4(l.sizeTSize);
    ModOfSmall(n, Pow256(l.sizeTSize));
  }

  lemma {:induction false} NativeSizeRoundTrip(d: Host, l: Host, n: nat, rest: Bytes)
    requires SameLayout(d, l) && n < Pow256(d.sizeTSize)
    ensures LoadSize(NativeLoad(l), SizeBytes(NativeDump(d), n) + rest) == Ok(Parsed(n, rest))
  {
    var w := d.sizeTSize;
    var image := InHostOrder(LE(n, w), d.littleEndian);
    var s := image + rest;
    assert s[..w] == image && s[w..] == rest;
    assert Read(s, w) == Ok(Parsed(image, rest));
    InHostOrderInvolutive(LE(n, w), d.littleEndian);
    LEValueOfLE(n, w);
    assert NativeValue(image, l.littleEndian) == n;
  }

  lemma {:induction false} StringRoundTrip(df: DumpFuncs, lf: LoadFuncs, str: LuaString, rest: Bytes)
    requires PrimitivesMatch(df, lf) && FitsString(str)
    ensures LoadString(lf, Flatten(StringBlocks(df, str)) + rest) == Ok(Parsed(str, rest))
  {
    var n := if str.Some? then |str.value| + 1 else 0;
    var after := if str.Some? then (str.value + [0]) + rest else rest;
    StringBytes(df, str, rest);
    SizeRoundTrip(df, lf, n, after);
    StringBodyRead(str, LoadSize(lf, SizeBytes(df, n) + after), rest);
  }

  /** The bytes of a written string: its size, then its characters and
      the terminating zero. */
  lemma {:induction false} StringBytes(df: DumpFuncs, str: LuaString, rest: Bytes)
    ensures var n := if str.Some? then |str.value| + 1 else 0;
      Flatten(StringBlocks(df, str)) + rest
        == SizeBytes(df, n) + (if str.Some? then (str.value + [0]) + rest else rest)
  {
    if str.Some? {
      TwoBlocks(SizeBytes(df, |str.value| + 1), str.value + [0], rest);
    } else {
      OneBlock(SizeBytes(df, 0), rest);
    }
  }

  lemma {:induction false} StringBodyRead(str: LuaString, size: Load<nat>, rest: Bytes)
    requires size == Ok(Parsed(if str.Some? then |str.value| + 1 else 0,
                               if str.Some? then (str.value + [0]) + rest else rest))
    ensures LoadStringBody(size) == Ok(Parsed(str, rest))
  {
    if str.Some? {
      var body := str.value + [0];
      assert (body + rest)[..|body|] == body && (body + rest)[|body|..] == rest;
      assert body[..|str.value|] == str.value;
    }
  }

  /** The loader as written reads a portable source name with its own
      size_t: on a compatible host it still reads what was written. */
  lemma {:induction false} SourceRoundTrip(df: DumpFuncs, lf: LoadFuncs, strip: bool, str: LuaString, rest: Bytes)
    requires Compatible(df, lf, strip) && FitsString(str) && (strip ==> str.None?)
    ensures LoadSource(lf, Flatten(StringBlocks(df, str)) + rest) == Ok(Parsed(str, rest))
  {
    if lf.PortableLoad? && !lf.sourcePortable {
      PortableSourceAsWritten(df.host, lf.host, str, rest);
    } else {
      StringRoundTrip(df, lf, str, rest);
    }
  }

  /** The portable loader as written reads the source name back when its
      host's size_t reads the portable size right. */
  lemma {:induction false} PortableSourceAsWritten(d: Host, l: Host, str: LuaString, rest: Bytes)
    requires FitsString(str) && l.sizeTSize == 8 && (l.littleEndian || str.None?)
    ensures LoadSource(PortableLoad(l, false), Flatten(StringBlocks(PortableDump(d), str)) + rest) == Ok(Parsed(str, rest))
  {
    var n := if str.Some? then |str.value| + 1 else 0;
    StringBytes(PortableDump(d), str, rest);
    PortableSizeWire(d, n);
    SourceOfPortableSize(l, str, rest);
  }

  lemma {:induction false} SourceOfPortableSize(l: Host, str: LuaString, rest: Bytes)
    requires FitsString(str) && l.sizeTSize == 8 && (l.littleEndian || str.None?)
    ensures var n := if str.Some? then |str.value| + 1 else 0;
      var after := if str.Some? then (str.value + [0]) + rest else rest;
      LoadSource(PortableLoad(l, false), LE(n, 8) + after) == Ok(Parsed(str, rest))
  {
    var n := if str.Some? then |str.value| + 1 else 0;
    var after := if str.Some? then (str.value + [0]) + rest else rest;
    NativeSizeOfPortableSize(l, n, after);
    StringBodyRead(str, LoadSizeN(l, LE(n, 8) + after), rest);
  }

  /** An 8-byte little-endian size read as a host size_t: right on a host
      with an 8-byte little-endian size_t, and right for zero on any host
      with an 8-byte size_t. */
  lemma {:induction false} NativeSizeOfPortableSize(l: Host, n: nat, rest: Bytes)
    requires l.sizeTSize == 8 && (l.littleEndian || n == 0) && n < 0x1_0000_0000
    ensures LoadSizeN(l, LE(n, 8) + rest) == Ok(Parsed(n, rest))
  {
    var s := LE(n, 8) + rest;
    assert s[..8] == LE(n, 8) && s[8..] == rest;
    Pow256AtLeast4(8);
    if l.littleEndian {
      LEValueOfLE(n, 8);
    } else {
      LEValueOfZeros(8);
      var zeros := seq(8, _ => 0 as bv8);
      assert Reverse(zeros) == zeros;
    }
  }

  lemma {:induction false} NumberRoundTrip(df: DumpFuncs, lf: LoadFuncs, x: Image8, rest: Bytes)
    requires PrimitivesMatch(df, lf)
    ensures LoadNumber(lf, NumberBytes(df, x) + rest) == Ok(Parsed(if Flip(df, lf) then Reverse(x) else x, rest))
  {
    match df
    case PortableDump(d) =>
      PortableNumberRoundTrip(d, lf.host, lf.sourcePortable, x, rest);
    case NativeDump(d) =>
      var s := x + rest;
      assert s[..8] == x && s[8..] == rest;
  }

  lemma {:induction false} PortableNumberRoundTrip(d: Host, l: Host, sp: bool, x: Image8, rest: Bytes)
    ensures var flip := (d.float == IeeeBig) != (l.float == IeeeBig);
      LoadNumber(PortableLoad(l, sp), NumberBytes(PortableDump(d), x) + rest)
        == Ok(Parsed(if flip then Reverse(x) else x, rest))
  {
    var y := NumberBytes(PortableDump(d), x);
    var s := y + rest;
    PortableNumberWire(d, x);
    assert s[..8] == y && s[8..] == rest;
    if l.float == IeeeBig {
      SwappedImage64(y, l.littleEndian);
    }
    ReverseInvolutive(x);
  }

  function PortableWords(h: Host, b: Bytes): seq<bv32> {
    var cs := Chunks(b, 4);
    seq(|cs|, i requires 0 <= i < |cs| => PortableWord(h, cs[i]))
  }

  /** load_byte4_vector reads the count and then that many words, each the
      little-endian value of its four bytes. */
  lemma {:induction false} Byte4VectorRead(l: Host, sp: bool, s: Bytes, n: nat, b: Bytes, rest: Bytes)
    requires LoadInt(PortableLoad(l, sp), s) == Ok(Parsed(n, b + rest)) && |b| == n * 4
    ensures LoadByte4Vector(l, s) == Ok(Parsed(PortableWords(l, b), rest))
  {
    assert (b + rest)[..n * 4] == b && (b + rest)[n * 4..] == rest;
    assert Read(b + rest, n * 4) == Ok(Parsed(b, rest));
    var ws := MemoryWords32(b, l.littleEndian);
    var expected := PortableWords(l, b);
    if l.littleEndian {
      assert ws == expected;
    } else {
      assert seq(|ws|, i requires 0 <= i < |ws| => Bswap32(ws[i])) == expected;
    }
  }

  /** One instruction, written and read back by native primitives. */
  lemma {:induction false} NativeInstrValue(d: Host, x: nat)
    requires x < 0x1_0000_0000
    ensures |InstrBytes(NativeDump(d), x)| == d.instrSize
    ensures NativeValue(InstrBytes(NativeDump(d), x), d.littleEndian) == x
  {
    Pow256AtLeast4(d.instrSize);
    InHostOrderInvolutive(LE(x, d.instrSize), d.littleEndian);
    LEValueOfLE(x, d.instrSize);
  }

  /** One instruction, written and read back by portable primitives. */
  lemma {:induction false} PortableInstrValue(d: Host, l: Host, x: nat)
    requires x < 0x1_0000_0000
    ensures |InstrBytes(PortableDump(d), x)| == 4
    ensures Uint32Value(PortableWord(l, InstrBytes(PortableDump(d), x))) == x
  {
    PortableInstrWire(d, x);
    PortableWordBytes(l, LE(x, 4));
    Pow256Of4();
    LEValueOfLE(x, 4);
  }

  /** One line number, written and read back by native primitives. */
  lemma {:induction false} NativeLineValue(d: Host, i: int)
    requires FitsLine(i)
    ensures |LineBytes(NativeDump(d), i)| == d.intSize
    ensures Signed(NativeValue(LineBytes(NativeDump(d), i), d.littleEndian), d.intSize) == i
  {
    var w := d.intSize;
    Pow256AtLeast4(w);
    InHostOrderInvolutive(LE(Unsigned(i, w), w), d.littleEndian);
    LEValueOfLE(Unsigned(i, w), w);
    SignedOfUnsigned(i, w);
  }

  /** One line number, written and read back by portable primitives. */
  lemma {:induction false} PortableLineValue(d: Host, l: Host, i: int)
    requires FitsLine(i)
    ensures |LineBytes(PortableDump(d), i)| == 4
    ensures Int32Value(PortableWord(l, LineBytes(PortableDump(d), i))) == i
  {
    Pow256Of4();
    PortableLineWire(d, i);
    PortableWordBytes(l, LE(Unsigned(i, 4), 4));
    LEValueOfLE(Unsigned(i, 4), 4);
    SignedOfUnsigned(i, 4);
  }

  /** The bytes of a written vector: its count, then its elements. */
  lemma {:induction false} VectorBytes(count: Bytes, b: Bytes, rest: Bytes)
    ensures Flatten([count, b]) + rest == count + (b + rest)
  {
    FlattenTwo(count, b);
  }

  lemma {:induction false} CodeRoundTrip(df: DumpFuncs, lf: LoadFuncs, code: seq<nat>, rest: Bytes)
    requires PrimitivesMatch(df, lf) && FitsCode(code)
    ensures LoadCode(lf, Flatten(CodeBlocks(df, code)) + rest) == Ok(Parsed(code, rest))
  {
    var b := Concat(code, x => InstrBytes(df, x));
    VectorBytes(IntBytes(df, |code|), b, rest);
    IntRoundTrip(df, lf, |code|, b + rest);
    var s := IntBytes(df, |code|) + (b + rest);
    match df
    case PortableDump(d) =>
      PortableCodeWords(d, lf.host, code, b);
      PortableCodeRead(lf.host, lf.sourcePortable, code, s, b, rest);
    case NativeDump(d) =>
      NativeCodeWords(d, code, b);
      NativeCodeRead(lf.host, code, s, b, rest);
  }

  lemma {:induction false} PortableCodeRead(l: Host, sp: bool, code: seq<nat>, s: Bytes, b: Bytes, rest: Bytes)
    requires |b| == |code| * 4
    requires var ws := PortableWords(l, b);
      |ws| == |code| && forall i :: 0 <= i < |code| ==> Uint32Value(ws[i]) == code[i]
    requires LoadInt(PortableLoad(l, sp), s) == Ok(Parsed(|code|, b + rest))
    ensures LoadCode(PortableLoad(l, sp), s) == Ok(Parsed(code, rest))
  {
    Byte4VectorRead(l, sp, s, |code|, b, rest);
    var ws := PortableWords(l, b);
    PortableCodeOfWords(l, sp, s, ws, rest);
    assert seq(|ws|, i requires 0 <= i < |ws| => Uint32Value(ws[i])) == code;
  }

  /** The words a portable loader reads from the written instructions
      have the instructions' values. */
  lemma {:induction false} PortableCodeWords(d: Host, l: Host, code: seq<nat>, b: Bytes)
    requires forall i :: 0 <= i < |code| ==> code[i] < 0x1_0000_0000
    requires b == Concat(code, x => InstrBytes(PortableDump(d), x))
    ensures |b| == |code| * 4
    ensures var ws := PortableWords(l, b);
      |ws| == |code| && forall i :: 0 <= i < |code| ==> Uint32Value(ws[i]) == code[i]
  {
    var image := x => InstrBytes(PortableDump(d), x);
    forall i | 0 <= i < |code| ensures |image(code[i])| == 4 {
      PortableInstrValue(d, l, code[i]);
    }
    ConcatLength(code, image, 4);
    ChunksOfConcat(code, image, 4);
    var cs := Chunks(b, 4);
    var ws := PortableWords(l, b);
    forall i | 0 <= i < |code| ensures Uint32Value(ws[i]) == code[i] {
      var c := InstrBytes(PortableDump(d), code[i]);
      assert cs[i] == c;
      assert ws[i] == PortableWord(l, c);
      PortableInstrValue(d, l, code[i]);
    }
  }

  lemma {:induction false} PortableCodeOfWords(l: Host, sp: bool, s: Bytes, ws: seq<bv32>, rest: Bytes)
    requires LoadByte4Vector(l, s) == Ok(Parsed(ws, rest))
    ensures LoadCode(PortableLoad(l, sp), s)
      == Ok(Parsed(seq(|ws|, i requires 0 <= i < |ws| => Uint32Value(ws[i])), rest))
  {
    var v := LoadByte4Vector(l, s).value.value;
    assert v == ws;
    assert LoadCode(PortableLoad(l, sp), s).Ok?;
    assert LoadCode(PortableLoad(l, sp), s).value.rest == rest;
    assert LoadCode(PortableLoad(l, sp), s).value.value == seq(|v|, i requires 0 <= i < |v| => Uint32Value(v[i]));
    assert seq(|v|, i requires 0 <= i < |v| => Uint32Value(v[i]))
      == seq(|ws|, i requires 0 <= i < |ws| => Uint32Value(ws[i]));
  }

  lemma {:induction false} NativeCodeRead(l: Host, code: seq<nat>, s: Bytes, b: Bytes, rest: Bytes)
    requires |b| == |code| * l.instrSize
    requires var cs := Chunks(b, l.instrSize);
      |cs| == |code| && forall i :: 0 <= i < |code| ==> NativeValue(cs[i], l.littleEndian) == code[i]
    requires LoadIntN(l, s) == Ok(Parsed(|code|, b + rest))
    ensures LoadCode(NativeLoad(l), s) == Ok(Parsed(code, rest))
  {
    assert (b + rest)[..|b|] == b && (b + rest)[|b|..] == rest;
    assert Read(b + rest, |code| * l.instrSize) == Ok(Parsed(b, rest));
    var cs := Chunks(b, l.instrSize);
    assert seq(|cs|, i requires 0 <= i < |cs| => NativeValue(cs[i], l.littleEndian)) == code;
  }

  /** Cut back into instructions, the written bytes have the instructions'
      values. */
  lemma {:induction false} NativeCodeWords(d: Host, code: seq<nat>, b: Bytes)
    requires forall i :: 0 <= i < |code| ==> code[i] < 0x1_0000_0000
    requires b == Concat(code, x => InstrBytes(NativeDump(d), x))
    ensures |b| == |code| * d.instrSize
    ensures var cs := Chunks(b, d.instrSize);
      |cs| == |code| && forall i :: 0 <= i < |code| ==> NativeValue(cs[i], d.littleEndian) == code[i]
  {
    var image := x => InstrBytes(NativeDump(d), x);
    var w := d.instrSize;
    forall i | 0 <= i < |code| ensures |image(code[i])| == w {
      NativeInstrValue(d, code[i]);
    }
    ConcatLength(code, image, w);
    ChunksOfConcat(code, image, w);
    var cs := Chunks(b, w);
    forall i | 0 <= i < |code| ensures NativeValue(cs[i], d.littleEndian) == code[i] {
      assert cs[i] == InstrBytes(NativeDump(d), code[i]);
      NativeInstrValue(d, code[i]);
    }
  }
  lemma {:induction false} LineinfoRoundTrip(df: DumpFuncs, lf: LoadFuncs, lineinfo: seq<int>, rest: Bytes)
    requires PrimitivesMatch(df, lf) && FitsInt(|lineinfo|)
    requires forall i :: 0 <= i < |lineinfo| ==> FitsLine(lineinfo[i])
    ensures LoadLineinfo(lf, Flatten(LineinfoBlocks(df, lineinfo)) + rest) == Ok(Parsed(lineinfo, rest))
  {
    var b := Concat(lineinfo, x => LineBytes(df, x));
    VectorBytes(IntBytes(df, |lineinfo|), b, rest);
    IntRoundTrip(df, lf, |lineinfo|, b + rest);
    var s := IntBytes(df, |lineinfo|) + (b + rest);
    match df
    case PortableDump(d) =>
      PortableLineWords(d, lf.host, lineinfo, b);
      PortableLineinfoRead(lf.host, lf.sourcePortable, lineinfo, s, b, rest);
    case NativeDump(d) =>
      NativeLineWords(d, lineinfo, b);
      NativeLineinfoRead(lf.host, lineinfo, s, b, rest);
  }

  lemma {:induction false} PortableLineinfoRead(l: Host, sp: bool, lineinfo: seq<int>, s: Bytes, b: Bytes, rest: Bytes)
    requires |b| == |lineinfo| * 4
    requires var ws := PortableWords(l, b);
      |ws| == |lineinfo| && forall i :: 0 <= i < |lineinfo| ==> Int32Value(ws[i]) == lineinfo[i]
    requires LoadInt(PortableLoad(l, sp), s) == Ok(Parsed(|lineinfo|, b + rest))
    ensures LoadLineinfo(PortableLoad(l, sp), s) == Ok(Parsed(lineinfo, rest))
  {
    Byte4VectorRead(l, sp, s, |lineinfo|, b, rest);
    var ws := PortableWords(l, b);
    PortableLineinfoOfWords(l, sp, s, ws, rest);
    assert seq(|ws|, i requires 0 <= i < |ws| => Int32Value(ws[i])) == lineinfo;
  }

  /** The words a portable loader reads from the written line numbers
      have the line numbers' values. */
  lemma {:induction false} PortableLineWords(d: Host, l: Host, lineinfo: seq<int>, b: Bytes)
    requires forall i :: 0 <= i < |lineinfo| ==> FitsLine(lineinfo[i])
    requires b == Concat(lineinfo, x => LineBytes(PortableDump(d), x))
    ensures |b| == |lineinfo| * 4
    ensures var ws := PortableWords(l, b);
      |ws| == |lineinfo| && forall i :: 0 <= i < |lineinfo| ==> Int32Value(ws[i]) == lineinfo[i]
  {
    var image := x => LineBytes(PortableDump(d), x);
    forall i | 0 <= i < |lineinfo| ensures |image(lineinfo[i])| == 4 {
      PortableLineValue(d, l, lineinfo[i]);
    }
    ConcatLength(lineinfo, image, 4);
    ChunksOfConcat(lineinfo, image, 4);
    var cs := Chunks(b, 4);
    var ws := PortableWords(l, b);
    forall i | 0 <= i < |lineinfo| ensures Int32Value(ws[i]) == lineinfo[i] {
      var c := LineBytes(PortableDump(d), lineinfo[i]);
      assert cs[i] == c;
      assert ws[i] == PortableWord(l, c);
      PortableLineValue(d, l, lineinfo[i]);
    }
  }

  lemma {:induction false} PortableLineinfoOfWords(l: Host, sp: bool, s: Bytes, ws: seq<bv32>, rest: Bytes)
    requires LoadByte4Vector(l, s) == Ok(Parsed(ws, rest))
    ensures LoadLineinfo(PortableLoad(l, sp), s)
      == Ok(Parsed(seq(|ws|, i requires 0 <= i < |ws| => Int32Value(ws[i])), rest))
  {
    var v := LoadByte4Vector(l, s).value.value;
    assert v == ws;
    assert LoadLineinfo(PortableLoad(l, sp), s).Ok?;
    assert LoadLineinfo(PortableLoad(l, sp), s).value.rest == rest;
    assert LoadLineinfo(PortableLoad(l, sp), s).value.value == seq(|v|, i requires 0 <= i < |v| => Int32Value(v[i]));
    assert seq(|v|, i requires 0 <= i < |v| => Int32Value(v[i]))
      == seq(|ws|, i requires 0 <= i < |ws| => Int32Value(ws[i]));
  }

  lemma {:induction false} NativeLineinfoRead(l: Host, lineinfo: seq<int>, s: Bytes, b: Bytes, rest: Bytes)
    requires |b| == |lineinfo| * l.intSize
    requires var cs := Chunks(b, l.intSize);
      |cs| == |lineinfo| && forall i :: 0 <= i < |lineinfo| ==> Signed(NativeValue(cs[i], l.littleEndian), l.intSize) == lineinfo[i]
    requires LoadIntN(l, s) == Ok(Parsed(|lineinfo|, b + rest))
    ensures LoadLineinfo(NativeLoad(l), s) == Ok(Parsed(lineinfo, rest))
  {
    assert (b + rest)[..|b|] == b && (b + rest)[|b|..] == rest;
    assert Read(b + rest, |lineinfo| * l.intSize) == Ok(Parsed(b, rest));
    var cs := Chunks(b, l.intSize);
    assert seq(|cs|, i requires 0 <= i < |cs| => Signed(NativeValue(cs[i], l.littleEndian), l.intSize)) == lineinfo;
  }

  /** Cut back into ints, the written bytes have the line numbers' values. */
  lemma {:induction false} NativeLineWords(d: Host, lineinfo: seq<int>, b: Bytes)
    requires forall i :: 0 <= i < |lineinfo| ==> FitsLine(lineinfo[i])
    requires b == Concat(lineinfo, x => LineBytes(NativeDump(d), x))
    ensures |b| == |lineinfo| * d.intSize
    ensures var cs := Chunks(b, d.intSize);
      |cs| == |lineinfo| && forall i :: 0 <= i < |lineinfo| ==> Signed(NativeValue(cs[i], d.littleEndian), d.intSize) == lineinfo[i]
  {
    var image := x => LineBytes(NativeDump(d), x);
    var w := d.intSize;
    forall i | 0 <= i < |lineinfo| ensures |image(lineinfo[i])| == w {
      NativeLineValue(d, lineinfo[i]);
    }
    ConcatLength(lineinfo, image, w);
    ChunksOfConcat(lineinfo, image, w);
    var cs := Chunks(b, w);
    forall i | 0 <= i < |lineinfo| ensures Signed(NativeValue(cs[i], d.littleEndian), d.intSize) == lineinfo[i] {
      assert cs[i] == LineBytes(NativeDump(d), lineinfo[i]);
      NativeLineValue(d, lineinfo[i]);
    }
  }

  // ---------------------------------------------------------------------
  // Records

  lemma {:induction false} LoadCharOf(x: bv8, rest: Bytes)
    ensures LoadChar([x] + rest) == Ok(Parsed(x, rest))
  {
    assert ([x] + rest)[..1] == [x] && ([x] + rest)[1..] == rest;
  }

  /** The bytes of blocks headed by one single-byte block. */
  lemma {:induction false} HeadByte(x: bv8, blocks: seq<Bytes>, rest: Bytes)
    ensures Flatten([[x]] + blocks) + rest == [x] + (Flatten(blocks) + rest)
  {
    FlattenAppendRest([[x]], blocks, rest);
    FlattenOne([x]);
  }

  /** A constant comes back with its tag and payload; a number image
      comes back reversed across double layouts. */
  lemma {:induction false} ConstantRoundTrip(df: DumpFuncs, lf: LoadFuncs, c: Constant, rest: Bytes)
    requires PrimitivesMatch(df, lf) && FitsConstant(c)
    ensures LoadConstant(lf, Flatten(ConstantBlocks(df, c)) + rest)
      == Ok(Parsed(ReloadedConstant(c, Flip(df, lf)), rest))
  {
    var payload := ConstantBlocks(df, c)[1..];
    assert ConstantBlocks(df, c) == [[TagOf(c)]] + payload;
    var t := Flatten(payload) + rest;
    HeadByte(TagOf(c), payload, rest);
    match c
    case Nil =>
      FlattenOne([]);
      NilRead(lf, rest);
    case Boolean(b) =>
      FlattenOne([Flag(b)]);
      BooleanRead(lf, b, rest);
    case Number(x) =>
      FlattenOne(NumberBytes(df, x));
      NumberRoundTrip(df, lf, x, rest);
      NumberRead(lf, NumberBytes(df, x) + rest, ReloadedConstant(c, Flip(df, lf)).image, rest);
    case Str(str) =>
      StringRoundTrip(df, lf, str, rest);
      StringRead(lf, t, str, rest);
  }

  lemma {:induction false} NilRead(lf: LoadFuncs, rest: Bytes)
    ensures LoadConstant(lf, [TNil] + rest) == Ok(Parsed(Nil, rest))
  {
    LoadCharOf(TNil, rest);
  }

  lemma {:induction false} BooleanRead(lf: LoadFuncs, b: bool, rest: Bytes)
    ensures LoadConstant(lf, [TBoolean] + ([Flag(b)] + rest)) == Ok(Parsed(Boolean(b), rest))
  {
    LoadCharOf(TBoolean, [Flag(b)] + rest);
    LoadCharOf(Flag(b), rest);
  }

  lemma {:induction false} NumberRead(lf: LoadFuncs, t: Bytes, y: Image8, rest: Bytes)
    requires LoadNumber(lf, t) == Ok(Parsed(y, rest))
    ensures LoadConstant(lf, [TNumber] + t) == Ok(Parsed(Number(y), rest))
  {
    LoadCharOf(TNumber, t);
  }

  lemma {:induction false} StringRead(lf: LoadFuncs, t: Bytes, str: LuaString, rest: Bytes)
    requires LoadString(lf, t) == Ok(Parsed(str, rest))
    ensures LoadConstant(lf, [TString] + t) == Ok(Parsed(Str(str), rest))
  {
    LoadCharOf(TString, t);
  }

  /** Reading n items one after another gives each item's reading, when
      every item reads back from its own blocks whatever follows them. */
  lemma {:induction false} RepeatRoundTrip<T, U>(xs: seq<T>, blocks: T -> seq<Bytes>, item: Bytes -> Load<U>,
                                                 g: T -> U, rest: Bytes)
    requires forall j, r :: 0 <= j < |xs| ==> item(Flatten(blocks(xs[j])) + r) == Ok(Parsed(g(xs[j]), r))
    ensures var r := Repeat(|xs|, Flatten(Blocks(xs, blocks)) + rest, item);
      r.Ok? && r.value.rest == rest && |r.value.value| == |xs|
      && forall i :: 0 <= i < |xs| ==> r.value.value[i] == g(xs[i])
  {
    if xs != [] {
      var tail := Flatten(Blocks(xs[1..], blocks)) + rest;
      FlattenAppendRest(blocks(xs[0]), Blocks(xs[1..], blocks), rest);
      assert item(Flatten(blocks(xs[0])) + tail) == Ok(Parsed(g(xs[0]), tail));
      RepeatRoundTrip(xs[1..], blocks, item, g, rest);
    } else {
      assert Flatten(Blocks(xs, blocks)) + rest == rest;
    }
  }

  lemma {:induction false} LocVarRoundTrip(df: DumpFuncs, lf: LoadFuncs, v: LocVar, rest: Bytes)
    requires PrimitivesMatch(df, lf) && FitsLocVar(v)
    ensures LoadLocVar(lf, Flatten(LocVarBlocks(df, v)) + rest) == Ok(Parsed(v, rest))
  {
    var a := IntBytes(df, v.startpc);
    var b := IntBytes(df, v.endpc);
    var name := Flatten(StringBlocks(df, v.varname));
    assert Flatten(LocVarBlocks(df, v)) + rest == name + (a + (b + rest)) by {
      FlattenAppendRest(StringBlocks(df, v.varname), [a, b], rest);
      TwoBlocks(a, b, rest);
    }
    StringRoundTrip(df, lf, v.varname, a + (b + rest));
    IntRoundTrip(df, lf, v.startpc, b + rest);
    IntRoundTrip(df, lf, v.endpc, rest);
    LocVarRead(lf, v, name, a, b, rest);
  }

  lemma {:induction false} LocVarRead(lf: LoadFuncs, v: LocVar, name: Bytes, a: Bytes, b: Bytes, rest: Bytes)
    requires LoadString(lf, name + (a + (b + rest))) == Ok(Parsed(v.varname, a + (b + rest)))
    requires LoadInt(lf, a + (b + rest)) == Ok(Parsed(v.startpc, b + rest))
    requires LoadInt(lf, b + rest) == Ok(Parsed(v.endpc, rest))
    ensures LoadLocVar(lf, name + (a + (b + rest))) == Ok(Parsed(v, rest))
  {
  }

  /** The local variables come back. */
  lemma {:induction false} LocVarsRoundTrip(df: DumpFuncs, lf: LoadFuncs, locvars: seq<LocVar>, rest: Bytes)
    requires PrimitivesMatch(df, lf)
    requires forall i :: 0 <= i < |locvars| ==> FitsLocVar(locvars[i])
    ensures Repeat(|locvars|, Flatten(Blocks(locvars, v => LocVarBlocks(df, v))) + rest, t => LoadLocVar(lf, t))
      == Ok(Parsed(locvars, rest))
  {
    var blocks := v => LocVarBlocks(df, v);
    var item := t => LoadLocVar(lf, t);
    var g := v => v;
    forall j, r | 0 <= j < |locvars|
      ensures item(Flatten(blocks(locvars[j])) + r) == Ok(Parsed(g(locvars[j]), r))
    {
      LocVarRoundTrip(df, lf, locvars[j], r);
    }
    RepeatRoundTrip(locvars, blocks, item, g, rest);
    var r := Repeat(|locvars|, Flatten(Blocks(locvars, blocks)) + rest, item);
    assert r.value.value == locvars;
  }

  /** The upvalue names come back. */
  lemma {:induction false} UpvaluesRoundTrip(df: DumpFuncs, lf: LoadFuncs, upvalues: seq<LuaString>, rest: Bytes)
    requires PrimitivesMatch(df, lf)
    requires forall i :: 0 <= i < |upvalues| ==> FitsString(upvalues[i])
    ensures Repeat(|upvalues|, Flatten(Blocks(upvalues, u => StringBlocks(df, u))) + rest, t => LoadString(lf, t))
      == Ok(Parsed(upvalues, rest))
  {
    var blocks := u => StringBlocks(df, u);
    var item := t => LoadString(lf, t);
    var g := u => u;
    forall j, r | 0 <= j < |upvalues|
      ensures item(Flatten(blocks(upvalues[j])) + r) == Ok(Parsed(g(upvalues[j]), r))
    {
      StringRoundTrip(df, lf, upvalues[j], r);
    }
    RepeatRoundTrip(upvalues, blocks, item, g, rest);
    var r := Repeat(|upvalues|, Flatten(Blocks(upvalues, blocks)) + rest, item);
    assert r.value.value == upvalues;
  }

  /** The debug information comes back, or nothing of it when it was
      stripped. */
  lemma {:induction false} DebugRoundTrip(df: DumpFuncs, lf: LoadFuncs, strip: bool, f: Proto, rest: Bytes)
    requires PrimitivesMatch(df, lf) && FitsDebug(f)
    ensures LoadDebug(lf, Flatten(DebugBlocks(df, strip, f)) + rest)
      == Ok(Parsed(if strip then DebugInfo([], [], []) else DebugInfo(f.lineinfo, f.locvars, f.upvalues), rest))
  {
    var li := if strip then [] else f.lineinfo;
    var lv := if strip then [] else f.locvars;
    var uv := if strip then [] else f.upvalues;
    var bl := Blocks(lv, v => LocVarBlocks(df, v));
    var bu := Blocks(uv, u => StringBlocks(df, u));
    var t3 := Flatten(bu) + rest;
    var t2 := IntBytes(df, |uv|) + t3;
    var t1 := Flatten(bl) + t2;
    var t0 := IntBytes(df, |lv|) + t1;
    var s := Flatten(LineinfoBlocks(df, li)) + t0;
    assert Flatten(DebugBlocks(df, strip, f)) + rest == s by {
      DebugLayout(LineinfoBlocks(df, li), IntBytes(df, |lv|), bl, IntBytes(df, |uv|), bu, rest);
    }
    LineinfoRoundTrip(df, lf, li, t0);
    IntRoundTrip(df, lf, |lv|, t1);
    LocVarsRoundTrip(df, lf, lv, t2);
    IntRoundTrip(df, lf, |uv|, t3);
    UpvaluesRoundTrip(df, lf, uv, rest);
    DebugRead(lf, s, DebugInfo(li, lv, uv), t0, t1, t2, t3, rest);
  }

  lemma {:induction false} DebugLayout(a: seq<Bytes>, x: Bytes, b: seq<Bytes>, y: Bytes, c: seq<Bytes>, rest: Bytes)
    ensures Flatten(a + [x] + b + [y] + c) + rest
      == Flatten(a) + (x + (Flatten(b) + (y + (Flatten(c) + rest))))
  {
    FlattenAppendRest(a + [x] + b + [y], c, rest);
    var t3 := Flatten(c) + rest;
    FlattenAppendRest(a + [x] + b, [y], t3);
    FlattenOne(y);
    FlattenAppendRest(a + [x], b, y + t3);
    FlattenAppendRest(a, [x], Flatten(b) + (y + t3));
    FlattenOne(x);
  }

  lemma {:induction false} DebugRead(lf: LoadFuncs, s: Bytes, d: DebugInfo, t0: Bytes, t1: Bytes, t2: Bytes, t3: Bytes, rest: Bytes)
    requires LoadLineinfo(lf, s) == Ok(Parsed(d.lineinfo, t0))
    requires LoadInt(lf, t0) == Ok(Parsed(|d.locvars|, t1))
    requires Repeat(|d.locvars|, t1, t => LoadLocVar(lf, t)) == Ok(Parsed(d.locvars, t2))
    requires LoadInt(lf, t2) == Ok(Parsed(|d.upvalues|, t3))
    requires Repeat(|d.upvalues|, t3, t => LoadString(lf, t)) == Ok(Parsed(d.upvalues, rest))
    ensures LoadDebug(lf, s) == Ok(Parsed(d, rest))
  {
  }

  // ---------------------------------------------------------------------
  // Prototypes

  /** What load_function reads, step by step. */
  lemma {:induction false} FunctionRead(lf: LoadFuncs, s: Bytes, q: LuaString, calls: nat, check: Proto -> bool,
                     written: LuaString, g: Proto, t0: Bytes, t1: Bytes, t2: Bytes, t3: Bytes,
                     t4: Bytes, t5: Bytes, rest: Bytes)
    requires calls + 1 <= MaxCCalls
    requires LoadSource(lf, s) == Ok(Parsed(written, t0))
    requires g.source == if written.None? then q else written
    requires LoadInt(lf, t0) == Ok(Parsed(g.linedefined, t1))
    requires LoadInt(lf, t1) == Ok(Parsed(g.lastlinedefined, t2))
    requires t2 == [g.nups, g.numparams, g.isVararg, g.maxstacksize] + t3
    requires LoadCode(lf, t3) == Ok(Parsed(g.code, t4))
    requires LoadConstants(lf, t4, g.source, calls + 1, check) == Ok(Parsed((g.k, g.p), t5))
    requires LoadDebug(lf, t5) == Ok(Parsed(DebugInfo(g.lineinfo, g.locvars, g.upvalues), rest))
    requires check(g)
    ensures LoadFunction(lf, s, q, calls, check) == Ok(Parsed(g, rest))
  {
    var four := [g.nups, g.numparams, g.isVararg, g.maxstacksize];
    assert t2[..4] == four && t2[4..] == t3;
    assert Read(t2, 4) == Ok(Parsed(four, t3));
    var h := Head(g.source, g.linedefined, g.lastlinedefined, four);
    assert LoadFunctionHead(lf, s, q) == Ok(Parsed(h, t3));
    assert LoadFunctionRest(lf, t3, h, calls + 1, check) == Ok(Parsed(g, rest));
  }

  /** What load_constants reads, step by step. */
  lemma {:induction false} ConstantsRead(lf: LoadFuncs, s: Bytes, source: LuaString, depth: nat, check: Proto -> bool,
                      n: nat, k: seq<Constant>, m: nat, ps: seq<Proto>, t0: Bytes, t1: Bytes, t2: Bytes, rest: Bytes)
    requires depth <= MaxCCalls
    requires LoadInt(lf, s) == Ok(Parsed(n, t0))
    requires Repeat(n, t0, t => LoadConstant(lf, t)) == Ok(Parsed(k, t1))
    requires LoadInt(lf, t1) == Ok(Parsed(m, t2))
    requires Repeat(m, t2, t => LoadFunction(lf, t, source, depth, check)) == Ok(Parsed(ps, rest))
    ensures LoadConstants(lf, s, source, depth, check) == Ok(Parsed((k, ps), rest))
  {
  }

  lemma {:induction false} FunctionLayout(sb: seq<Bytes>, a: Bytes, b: Bytes, four: seq<Bytes>, cb: seq<Bytes>, kb: seq<Bytes>,
                       db: seq<Bytes>, rest: Bytes)
    ensures Flatten(sb + [a, b] + four + cb + kb + db) + rest
      == Flatten(sb) + (a + (b + (Flatten(four) + (Flatten(cb) + (Flatten(kb) + (Flatten(db) + rest))))))
  {
    var t5 := Flatten(db) + rest;
    var t4 := Flatten(kb) + t5;
    var t3 := Flatten(cb) + t4;
    FlattenAppendRest(sb + [a, b] + four + cb + kb, db, rest);
    FlattenAppendRest(sb + [a, b] + four + cb, kb, t5);
    FlattenAppendRest(sb + [a, b] + four, cb, t4);
    FlattenAppendRest(sb + [a, b], four, t3);
    FlattenAppendRest(sb, [a, b], Flatten(four) + t3);
    FlattenTwo(a, b);
    assert (a + b) + (Flatten(four) + t3) == a + (b + (Flatten(four) + t3));
  }

  lemma {:induction false} FourBytes(w: bv8, x: bv8, y: bv8, z: bv8)
    ensures Flatten([[w], [x], [y], [z]]) == [w, x, y, z]
  {
    FlattenAppend([[w], [x]], [[y], [z]]);
    FlattenTwo([w], [x]);
    FlattenTwo([y], [z]);
    assert [[w], [x]] + [[y], [z]] == [[w], [x], [y], [z]];
  }

  lemma {:induction false} ConstantsLayout(x: Bytes, bk: seq<Bytes>, y: Bytes, ch: seq<Bytes>, rest: Bytes)
    ensures Flatten([x] + bk + [y] + ch) + rest == x + (Flatten(bk) + (y + (Flatten(ch) + rest)))
  {
    var t := Flatten(ch) + rest;
    FlattenAppendRest([x] + bk + [y], ch, rest);
    FlattenAppendRest([x] + bk, [y], t);
    FlattenOne(y);
    FlattenAppendRest([x], bk, y + t);
    FlattenOne(x);
  }

  lemma {:induction false} CheckedChildren(check: Proto -> bool, f: Proto, strip: bool, q: LuaString, flip: bool)
    requires Checked(check, Reloaded(f, strip, q, flip))
    ensures check(Reloaded(f, strip, q, flip))
    ensures forall i :: 0 <= i < |f.p| ==> Checked(check, Reloaded(f.p[i], strip, Resolved(f, strip, q), flip))
  {
    var g := Reloaded(f, strip, q, flip);
    forall i | 0 <= i < |f.p| ensures Checked(check, Reloaded(f.p[i], strip, Resolved(f, strip, q), flip)) {
      assert g.p[i] == Reloaded(f.p[i], strip, Resolved(f, strip, q), flip);
    }
  }

  /** The source name load_function ends up with is the resolved one. */
  lemma {:induction false} SourceResolved(f: Proto, strip: bool, parent: LuaString, q: LuaString)
    requires !strip && parent.Some? ==> q == parent
    ensures var written := if f.source == parent || strip then None else f.source;
      (if written.None? then q else written) == Resolved(f, strip, q)
  {
  }

  /** A prototype comes back from its dump, with its source name resolved
      and its debug information gone when stripped, as long as the nesting
      stays within LUAI_MAXCCALLS and the bytecode verifier accepts what
      comes back. `parent` is the source the dumper compares with, `q` the
      one the loader inherits. */
  lemma {:induction false} FunctionRoundTrip(df: DumpFuncs, lf: LoadFuncs, strip: bool, f: Proto, parent: LuaString,
                                             q: LuaString, calls: nat, check: Proto -> bool, rest: Bytes)
    requires Compatible(df, lf, strip) && FitsProto(f) && forall i :: 0 <= i < |f.p| ==> Fits(f.p[i])
    requires !strip && parent.Some? ==> q == parent
    requires calls + Height(f) <= MaxCCalls
    requires Checked(check, Reloaded(f, strip, q, Flip(df, lf)))
    ensures LoadFunction(lf, Flatten(FunctionBlocks(df, strip, f, parent)) + rest, q, calls, check)
      == Ok(Parsed(Reloaded(f, strip, q, Flip(df, lf)), rest))
    decreases f, 3
  {
    CheckedChildren(check, f, strip, q, Flip(df, lf));
    PartsRoundTrip(df, lf, strip, f, q, calls, check, rest);
    FunctionAssemble(df, lf, strip, f, parent, q, calls, check, rest);
  }

  lemma {:induction false} PartsRoundTrip(df: DumpFuncs, lf: LoadFuncs, strip: bool, f: Proto,
                                          q: LuaString, calls: nat, check: Proto -> bool, rest: Bytes)
    requires Compatible(df, lf, strip) && FitsProto(f) && forall i :: 0 <= i < |f.p| ==> Fits(f.p[i])
    requires calls + Height(f) <= MaxCCalls
    requires forall i :: 0 <= i < |f.p| ==> Checked(check, Reloaded(f.p[i], strip, Resolved(f, strip, q), Flip(df, lf)))
    ensures var t5 := Flatten(DebugBlocks(df, strip, f)) + rest;
      var t4 := Flatten(ConstantsBlocks(df, strip, f)) + t5;
      var g := Reloaded(f, strip, q, Flip(df, lf));
      && LoadCode(lf, Flatten(CodeBlocks(df, f.code)) + t4) == Ok(Parsed(f.code, t4))
      && LoadConstants(lf, t4, Resolved(f, strip, q), calls + 1, check) == Ok(Parsed((g.k, g.p), t5))
      && LoadDebug(lf, t5)
        == Ok(Parsed(if strip then DebugInfo([], [], []) else DebugInfo(f.lineinfo, f.locvars, f.upvalues), rest))
    decreases f, 2
  {
    var t5 := Flatten(DebugBlocks(df, strip, f)) + rest;
    var t4 := Flatten(ConstantsBlocks(df, strip, f)) + t5;
    CodeRoundTrip(df, lf, f.code, t4);
    ConstantsRoundTrip(df, lf, strip, f, q, calls + 1, check, t5);
    DebugRoundTrip(df, lf, strip, f, rest);
  }

  /** The prototype read back from the parts that come back on their own. */
  lemma {:induction false} FunctionAssemble(df: DumpFuncs, lf: LoadFuncs, strip: bool, f: Proto, parent: LuaString,
                         q: LuaString, calls: nat, check: Proto -> bool, rest: Bytes)
    requires Compatible(df, lf, strip)
    requires FitsString(f.source) && FitsInt(f.linedefined) && FitsInt(f.lastlinedefined)
    requires !strip && parent.Some? ==> q == parent
    requires calls + 1 <= MaxCCalls
    requires check(Reloaded(f, strip, q, Flip(df, lf)))
    requires var t5 := Flatten(DebugBlocks(df, strip, f)) + rest;
      var t4 := Flatten(ConstantsBlocks(df, strip, f)) + t5;
      var g := Reloaded(f, strip, q, Flip(df, lf));
      && LoadCode(lf, Flatten(CodeBlocks(df, f.code)) + t4) == Ok(Parsed(f.code, t4))
      && LoadConstants(lf, t4, Resolved(f, strip, q), calls + 1, check) == Ok(Parsed((g.k, g.p), t5))
      && LoadDebug(lf, t5)
        == Ok(Parsed(if strip then DebugInfo([], [], []) else DebugInfo(f.lineinfo, f.locvars, f.upvalues), rest))
    ensures LoadFunction(lf, Flatten(FunctionBlocks(df, strip, f, parent)) + rest, q, calls, check)
      == Ok(Parsed(Reloaded(f, strip, q, Flip(df, lf)), rest))
  {
    var g := Reloaded(f, strip, q, Flip(df, lf));
    var written := if f.source == parent || strip then None else f.source;
    var a := IntBytes(df, f.linedefined);
    var b := IntBytes(df, f.lastlinedefined);
    var t5 := Flatten(DebugBlocks(df, strip, f)) + rest;
    var t4 := Flatten(ConstantsBlocks(df, strip, f)) + t5;
    var t3 := Flatten(CodeBlocks(df, f.code)) + t4;
    var t2 := [f.nups, f.numparams, f.isVararg, f.maxstacksize] + t3;
    FunctionBytes(df, strip, f, parent, rest);
    HeadRoundTrip(df, lf, strip, written, f.linedefined, f.lastlinedefined, t2);
    SourceResolved(f, strip, parent, q);
    FunctionRead(lf, Flatten(StringBlocks(df, written)) + (a + (b + t2)), q, calls, check, written, g,
                 a + (b + t2), b + t2, t2, t3, t4, t5, rest);
  }

  /** The bytes of a dumped prototype, part by part. */
  lemma {:induction false} FunctionBytes(df: DumpFuncs, strip: bool, f: Proto, parent: LuaString, rest: Bytes)
    ensures Flatten(FunctionBlocks(df, strip, f, parent)) + rest
      == Flatten(StringBlocks(df, if f.source == parent || strip then None else f.source))
         + (IntBytes(df, f.linedefined) + (IntBytes(df, f.lastlinedefined)
         + ([f.nups, f.numparams, f.isVararg, f.maxstacksize]
         + (Flatten(CodeBlocks(df, f.code)) + (Flatten(ConstantsBlocks(df, strip, f))
         + (Flatten(DebugBlocks(df, strip, f)) + rest))))))
  {
    var sb := StringBlocks(df, if f.source == parent || strip then None else f.source);
    var a := IntBytes(df, f.linedefined);
    var b := IntBytes(df, f.lastlinedefined);
    var four := [[f.nups], [f.numparams], [f.isVararg], [f.maxstacksize]];
    var cb := CodeBlocks(df, f.code);
    var kb := ConstantsBlocks(df, strip, f);
    var db := DebugBlocks(df, strip, f);
    assert FunctionBlocks(df, strip, f, parent) == sb + [a, b] + four + cb + kb + db;
    FunctionLayout(sb, a, b, four, cb, kb, db, rest);
    FourBytes(f.nups, f.numparams, f.isVararg, f.maxstacksize);
  }

  /** The source name and the line range come back. */
  lemma {:induction false} HeadRoundTrip(df: DumpFuncs, lf: LoadFuncs, strip: bool, written: LuaString, x: int, y: int, rest: Bytes)
    requires Compatible(df, lf, strip) && FitsString(written) && (strip ==> written.None?)
    requires FitsInt(x) && FitsInt(y)
    ensures var t1 := IntBytes(df, y) + rest;
      var t0 := IntBytes(df, x) + t1;
      && LoadSource(lf, Flatten(StringBlocks(df, written)) + t0) == Ok(Parsed(written, t0))
      && LoadInt(lf, t0) == Ok(Parsed(x, t1))
      && LoadInt(lf, t1) == Ok(Parsed(y, rest))
  {
    var t1 := IntBytes(df, y) + rest;
    SourceRoundTrip(df, lf, strip, written, IntBytes(df, x) + t1);
    IntRoundTrip(df, lf, x, t1);
    IntRoundTrip(df, lf, y, rest);
  }

  /** The constants and the nested prototypes come back; the nested ones
      inherit the resolved source name. */
  lemma {:induction false} ConstantsRoundTrip(df: DumpFuncs, lf: LoadFuncs, strip: bool, f: Proto, q: LuaString,
                                              depth: nat, check: Proto -> bool, rest: Bytes)
    requires Compatible(df, lf, strip) && FitsConstants(f.k)
    requires FitsInt(|f.p|) && forall i :: 0 <= i < |f.p| ==> Fits(f.p[i])
    requires depth + ListHeight(f.p) <= MaxCCalls && depth <= MaxCCalls
    requires forall i :: 0 <= i < |f.p| ==> Checked(check, Reloaded(f.p[i], strip, Resolved(f, strip, q), Flip(df, lf)))
    ensures var g := Reloaded(f, strip, q, Flip(df, lf));
      LoadConstants(lf, Flatten(ConstantsBlocks(df, strip, f)) + rest, Resolved(f, strip, q), depth, check)
        == Ok(Parsed((g.k, g.p), rest))
    decreases f, 1
  {
    ChildrenRoundTrip(df, lf, strip, f.p, f.source, Resolved(f, strip, q), depth, check, rest);
    ConstantsAssemble(df, lf, strip, f, q, depth, check, rest);
  }

  /** The constants and the counts read back around the nested prototypes. */
  lemma {:induction false} ConstantsAssemble(df: DumpFuncs, lf: LoadFuncs, strip: bool, f: Proto, q: LuaString,
                                             depth: nat, check: Proto -> bool, rest: Bytes)
    requires PrimitivesMatch(df, lf) && FitsConstants(f.k) && FitsInt(|f.p|) && depth <= MaxCCalls
    requires var r := Repeat(|f.p|, Flatten(ChildrenBlocks(df, strip, f.p, f.source)) + rest,
                             t => LoadFunction(lf, t, Resolved(f, strip, q), depth, check));
      r.Ok? && r.value.rest == rest && |r.value.value| == |f.p|
      && forall i :: 0 <= i < |f.p| ==> r.value.value[i] == Reloaded(f.p[i], strip, Resolved(f, strip, q), Flip(df, lf))
    ensures var g := Reloaded(f, strip, q, Flip(df, lf));
      LoadConstants(lf, Flatten(ConstantsBlocks(df, strip, f)) + rest, Resolved(f, strip, q), depth, check)
        == Ok(Parsed((g.k, g.p), rest))
  {
    var flip := Flip(df, lf);
    var source := Resolved(f, strip, q);
    var bk := Blocks(f.k, c => ConstantBlocks(df, c));
    var ch := ChildrenBlocks(df, strip, f.p, f.source);
    var x := IntBytes(df, |f.k|);
    var y := IntBytes(df, |f.p|);
    var t2 := Flatten(ch) + rest;
    var t1 := y + t2;
    var t0 := Flatten(bk) + t1;
    var s := x + t0;
    assert Flatten(ConstantsBlocks(df, strip, f)) + rest == s by {
      ConstantsLayout(x, bk, y, ch, rest);
    }
    ConstantsHead(df, lf, f.k, |f.p|, t2);
    var ks := Repeat(|f.k|, t0, t => LoadConstant(lf, t)).value.value;
    var gs := Repeat(|f.p|, t2, t => LoadFunction(lf, t, source, depth, check)).value.value;
    ReloadedParts(f, strip, q, flip, ks, gs);
    ConstantsRead(lf, s, source, depth, check, |f.k|, ks, |f.p|, gs, t0, t1, t2, rest);
  }

  /** The constant count, the constants and the prototype count read back. */
  lemma {:induction false} ConstantsHead(df: DumpFuncs, lf: LoadFuncs, k: seq<Constant>, n: nat, rest: Bytes)
    requires PrimitivesMatch(df, lf) && FitsConstants(k) && FitsInt(n)
    ensures var t1 := IntBytes(df, n) + rest;
      var t0 := Flatten(Blocks(k, c => ConstantBlocks(df, c))) + t1;
      var r := Repeat(|k|, t0, t => LoadConstant(lf, t));
      && LoadInt(lf, IntBytes(df, |k|) + t0) == Ok(Parsed(|k|, t0))
      && r.Ok? && r.value.rest == t1 && |r.value.value| == |k|
      && (forall i :: 0 <= i < |k| ==> r.value.value[i] == ReloadedConstant(k[i], Flip(df, lf)))
      && LoadInt(lf, t1) == Ok(Parsed(n, rest))
  {
    var t1 := IntBytes(df, n) + rest;
    var t0 := Flatten(Blocks(k, c => ConstantBlocks(df, c))) + t1;
    IntRoundTrip(df, lf, |k|, t0);
    ConstantListRoundTrip(df, lf, k, t1);
    IntRoundTrip(df, lf, n, rest);
  }

  /** The nested prototypes come back one after another, each from its
      own dump. */
  lemma {:induction false} ChildrenRoundTrip(df: DumpFuncs, lf: LoadFuncs, strip: bool, ps: seq<Proto>,
                                             parent: LuaString, source: LuaString, depth: nat,
                                             check: Proto -> bool, rest: Bytes)
    requires Compatible(df, lf, strip) && forall i :: 0 <= i < |ps| ==> Fits(ps[i])
    requires !strip && parent.Some? ==> source == parent
    requires depth + ListHeight(ps) <= MaxCCalls
    requires forall i :: 0 <= i < |ps| ==> Checked(check, Reloaded(ps[i], strip, source, Flip(df, lf)))
    ensures var r := Repeat(|ps|, Flatten(ChildrenBlocks(df, strip, ps, parent)) + rest,
                            t => LoadFunction(lf, t, source, depth, check));
      r.Ok? && r.value.rest == rest && |r.value.value| == |ps|
      && forall i :: 0 <= i < |ps| ==> r.value.value[i] == Reloaded(ps[i], strip, source, Flip(df, lf))
    decreases ps, 0
  {
    var blocks := p => FunctionBlocks(df, strip, p, parent);
    var item := t => LoadFunction(lf, t, source, depth, check);
    var g := p => Reloaded(p, strip, source, Flip(df, lf));
    forall j, r | 0 <= j < |ps|
      ensures item(Flatten(blocks(ps[j])) + r) == Ok(Parsed(g(ps[j]), r))
    {
      FitsParts(ps[j]);
      ListHeightBound(ps, j);
      FunctionRoundTrip(df, lf, strip, ps[j], parent, source, depth, check, r);
    }
    ChildrenAsBlocks(df, strip, ps, parent);
    RepeatRoundTrip(ps, blocks, item, g, rest);
  }

  /** No nested prototype is higher than the list. */
  lemma {:induction false} ListHeightBound(ps: seq<Proto>, j: nat)
    requires j < |ps|
    ensures Height(ps[j]) <= ListHeight(ps)
  {
    if j > 0 {
      ListHeightBound(ps[1..], j - 1);
      assert ps[1..][j - 1] == ps[j];
    }
  }

  /** The children's blocks are the blocks of each child in turn. */
  lemma {:induction false} ChildrenAsBlocks(df: DumpFuncs, strip: bool, ps: seq<Proto>, parent: LuaString)
    ensures ChildrenBlocks(df, strip, ps, parent) == Blocks(ps, p => FunctionBlocks(df, strip, p, parent))
  {
    if ps != [] {
      ChildrenAsBlocks(df, strip, ps[1..], parent);
    }
  }

  lemma {:induction false} FitsParts(f: Proto)
    requires Fits(f)
    ensures FitsProto(f) && forall i :: 0 <= i < |f.p| ==> Fits(f.p[i])
  {
  }

  /** The constant list comes back, numbers reversed across double layouts. */
  lemma {:induction false} ConstantListRoundTrip(df: DumpFuncs, lf: LoadFuncs, k: seq<Constant>, rest: Bytes)
    requires PrimitivesMatch(df, lf)
    requires forall i :: 0 <= i < |k| ==> FitsConstant(k[i])
    ensures var r := Repeat(|k|, Flatten(Blocks(k, c => ConstantBlocks(df, c))) + rest, t => LoadConstant(lf, t));
      r.Ok? && r.value.rest == rest && |r.value.value| == |k|
      && forall i :: 0 <= i < |k| ==> r.value.value[i] == ReloadedConstant(k[i], Flip(df, lf))
  {
    var blocks := c => ConstantBlocks(df, c);
    var item := t => LoadConstant(lf, t);
    var g := c => ReloadedConstant(c, Flip(df, lf));
    forall j, r | 0 <= j < |k|
      ensures item(Flatten(blocks(k[j])) + r) == Ok(Parsed(g(k[j]), r))
    {
      ConstantRoundTrip(df, lf, k[j], r);
    }
    RepeatRoundTrip(k, blocks, item, g, rest);
  }

  /** Element by element, the reloaded constants and nested prototypes. */
  lemma {:induction false} ReloadedParts(f: Proto, strip: bool, q: LuaString, flip: bool, ks: seq<Constant>, gs: seq<Proto>)
    requires |ks| == |f.k| && forall i :: 0 <= i < |f.k| ==> ks[i] == ReloadedConstant(f.k[i], flip)
    requires |gs| == |f.p| && forall i :: 0 <= i < |f.p| ==> gs[i] == Reloaded(f.p[i], strip, Resolved(f, strip, q), flip)
    ensures ks == Reloaded(f, strip, q, flip).k && gs == Reloaded(f, strip, q, flip).p
  {
  }

}
