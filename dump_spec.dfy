/** What src/ldump.c writes, as the sequence of blocks it hands to the
    writer: every call of DumpBlock is one block, in call order, including
    the empty blocks written for empty vectors. The native routines
    (DumpInt, DumpString, DumpFunction, ...) and the portable ones
    (dump_int_o, dump_string, dump_function, ...) share one definition per
    record kind; `DumpFuncs` says which primitives fill it in. */
module DumpSpec {
  import opened Wrappers
  import opened ByteSeq
  import opened LundumpH
  import opened Chunk
  import opened Header

  /** The primitives a dump uses: the native ones, which copy the host's
      memory, or the portable ones that setup_dump_funcs picks for the host
      (the `_o` variants on a little-endian host, `_s` on a big-endian one;
      dump_number_s when the host stores doubles big-endian). */
  datatype DumpFuncs = NativeDump(host: Host) | PortableDump(host: Host)

  /** setup_dump_funcs: fails with "dump: unknown number format" when the
      host's doubles are neither little- nor big-endian IEEE-754. */
  function SetupDumpFuncs(h: Host): (r: Result<DumpFuncs, CodecError>)
    ensures r.Ok? <==> h.float != UnknownFloat
    ensures r.Ok? ==> r.value.PortableDump? && r.value.host == h
    ensures r.Err? ==> r.error == UnknownNumberFormat
  {
    if h.float == UnknownFloat then Err(UnknownNumberFormat) else Ok(PortableDump(h))
  }

  // ---------------------------------------------------------------------
  // Portable primitives

  /** `(int32_t)i`: the low 32 bits of i's two's-complement pattern. */
  function Int32Pattern(i: int): (x: bv32)
    ensures Bytes32(x) == LE(Unsigned(i, 4), 4)
  {
    Bytes32OfWord32(LE(Unsigned(i, 4), 4));
    Word32(LE(Unsigned(i, 4), 4))
  }

  /** `(uint64_t)n` for a size: the low 64 bits of n. */
  function Size64Pattern(n: nat): (x: bv64)
    ensures Bytes64(x) == LE(n, 8)
  {
    Bytes64OfWord64(LE(n, 8));
    Word64(LE(n, 8))
  }

  /** dump_int_o: the memory of the int32 on a little-endian host. */
  function DumpIntO(i: int): Bytes {
    HostBytes32(Int32Pattern(i), true)
  }

  /** dump_int_s: the int32 swapped, stored by a big-endian host. */
  function DumpIntS(i: int): Bytes {
    HostBytes32(Bswap32(Int32Pattern(i)), false)
  }

  /** dump_size_t_o. */
  function DumpSizeO(n: nat): Bytes {
    HostBytes64(Size64Pattern(n), true)
  }

  /** dump_size_t_s. */
  function DumpSizeS(n: nat): Bytes {
    HostBytes64(Bswap64(Size64Pattern(n)), false)
  }

  /** dump_number_s: the double's memory read as a uint64 in the host's
      integer byte order, swapped, and stored back in that order. */
  function DumpNumberS(h: Host, x: Image8): Bytes {
    HostBytes64(Bswap64(HostWord64(x, h.littleEndian)), h.littleEndian)
  }

  /** One instruction of dump_code_vector_o: the instruction's own memory
      when it is 4 bytes wide, otherwise its `(uint32_t)` conversion. */
  function CodeWordO(h: Host, x: nat): Bytes {
    if h.instrSize == 4 then InHostOrder(LE(x, h.instrSize), true)
    else HostBytes32(Word32(LE(x, 4)), true)
  }

  /** One instruction of dump_code_vector_s: BSWAP_32 of its low 32 bits. */
  function CodeWordS(x: nat): Bytes {
    HostBytes32(Bswap32(Word32(LE(x, 4))), false)
  }

  /** One line number of dump_int_vector_o: the int's own memory when int
      is 4 bytes wide, otherwise its `int32_t` conversion. */
  function LineWordO(h: Host, i: int): Bytes {
    if h.intSize == 4 then InHostOrder(LE(Unsigned(i, h.intSize), h.intSize), true)
    else HostBytes32(Int32Pattern(i), true)
  }

  /** One line number of dump_int_vector_s. */
  function LineWordS(i: int): Bytes {
    HostBytes32(Bswap32(Int32Pattern(i)), false)
  }

  // ---------------------------------------------------------------------
  // Native primitives: DumpVar copies the host's memory

  function NativeInt(h: Host, i: int): Bytes {
    InHostOrder(LE(Unsigned(i, h.intSize), h.intSize), h.littleEndian)
  }

  function NativeSize(h: Host, n: nat): Bytes {
    InHostOrder(LE(n, h.sizeTSize), h.littleEndian)
  }

  function NativeInstr(h: Host, x: nat): Bytes {
    InHostOrder(LE(x, h.instrSize), h.littleEndian)
  }

  // ---------------------------------------------------------------------
  // The primitive each record kind uses

  /** dump_int / DumpInt. */
  function IntBytes(fs: DumpFuncs, i: int): Bytes {
    match fs
    case NativeDump(h) => NativeInt(h, i)
    case PortableDump(h) => if h.littleEndian then DumpIntO(i) else DumpIntS(i)
  }

  /** dump_size_t / the size_t DumpVar of DumpString. */
  function SizeBytes(fs: DumpFuncs, n: nat): Bytes {
    match fs
    case NativeDump(h) => NativeSize(h, n)
    case PortableDump(h) => if h.littleEndian then DumpSizeO(n) else DumpSizeS(n)
  }

  /** dump_number / DumpNumber. */
  function NumberBytes(fs: DumpFuncs, x: Image8): Bytes {
    match fs
    case NativeDump(_) => x
    case PortableDump(h) => if h.float == IeeeBig then DumpNumberS(h, x) else x
  }

  /** One element of dump_code_vector / the memory DumpCode copies. */
  function InstrBytes(fs: DumpFuncs, x: nat): Bytes {
    match fs
    case NativeDump(h) => NativeInstr(h, x)
    case PortableDump(h) => if h.littleEndian then CodeWordO(h, x) else CodeWordS(x)
  }

  /** One element of dump_int_vector / the memory DumpVector copies for
      line numbers. */
  function LineBytes(fs: DumpFuncs, i: int): Bytes {
    match fs
    case NativeDump(h) => NativeInt(h, i)
    case PortableDump(h) => if h.littleEndian then LineWordO(h, i) else LineWordS(i)
  }

  // ---------------------------------------------------------------------
  // Block sequences

  /** dump_string / DumpString: a null string is a zero size; otherwise the
      size counts the terminating zero, which is written after the
      characters. */
  function StringBlocks(fs: DumpFuncs, s: LuaString): seq<Bytes> {
    match s
    case None => [SizeBytes(fs, 0)]
    case Some(b) => [SizeBytes(fs, |b| + 1), b + [0]]
  }

  /** dump_code_vector / DumpCode: the count, then all instructions in one
      block. */
  function CodeBlocks(fs: DumpFuncs, code: seq<nat>): seq<Bytes> {
    [IntBytes(fs, |code|), Concat(code, x => InstrBytes(fs, x))]
  }

  /** dump_int_vector / DumpVector for the line information. */
  function LineinfoBlocks(fs: DumpFuncs, lineinfo: seq<int>): seq<Bytes> {
    [IntBytes(fs, |lineinfo|), Concat(lineinfo, i => LineBytes(fs, i))]
  }

  /** One constant of dump_constants / DumpConstants: its tag byte, then its
      payload. */
  function ConstantBlocks(fs: DumpFuncs, c: Constant): seq<Bytes> {
    [[TagOf(c)]] +
    match c
    case Nil => []
    case Boolean(b) => [[Flag(b)]]
    case Number(x) => [NumberBytes(fs, x)]
    case Str(s) => StringBlocks(fs, s)
  }

  /** One local variable record of dump_debug / DumpDebug. */
  function LocVarBlocks(fs: DumpFuncs, v: LocVar): seq<Bytes> {
    StringBlocks(fs, v.varname) + [IntBytes(fs, v.startpc), IntBytes(fs, v.endpc)]
  }

  /** dump_debug / DumpDebug: with `strip` every count is written as 0 and
      nothing else follows it. */
  function DebugBlocks(fs: DumpFuncs, strip: bool, f: Proto): seq<Bytes> {
    var lineinfo := if strip then [] else f.lineinfo;
    var locvars := if strip then [] else f.locvars;
    var upvalues := if strip then [] else f.upvalues;
    LineinfoBlocks(fs, lineinfo)
    + [IntBytes(fs, |locvars|)] + Blocks(locvars, v => LocVarBlocks(fs, v))
    + [IntBytes(fs, |upvalues|)] + Blocks(upvalues, u => StringBlocks(fs, u))
  }

  /** dump_function / DumpFunction: the source (omitted when it is the
      parent's or when stripping), the line range, four byte-sized fields,
      the code, the constants with the nested prototypes, and the debug
      information. */
  function FunctionBlocks(fs: DumpFuncs, strip: bool, f: Proto, parent: LuaString): seq<Bytes>
    decreases f, 2
  {
    StringBlocks(fs, if f.source == parent || strip then None else f.source)
    + [IntBytes(fs, f.linedefined), IntBytes(fs, f.lastlinedefined)]
    + [[f.nups], [f.numparams], [f.isVararg], [f.maxstacksize]]
    + CodeBlocks(fs, f.code)
    + ConstantsBlocks(fs, strip, f)
    + DebugBlocks(fs, strip, f)
  }

  /** dump_constants / DumpConstants: the constants, then the nested
      prototypes, each dumped with this prototype's source as parent. */
  function ConstantsBlocks(fs: DumpFuncs, strip: bool, f: Proto): seq<Bytes>
    decreases f, 1
  {
    [IntBytes(fs, |f.k|)] + Blocks(f.k, c => ConstantBlocks(fs, c))
    + [IntBytes(fs, |f.p|)] + ChildrenBlocks(fs, strip, f.p, f.source)
  }

  function ChildrenBlocks(fs: DumpFuncs, strip: bool, ps: seq<Proto>, parent: LuaString): seq<Bytes>
    decreases ps, 0
  {
    if ps == [] then []
    else FunctionBlocks(fs, strip, ps[0], parent) + ChildrenBlocks(fs, strip, ps[1..], parent)
  }

  /** The outcome of luaU_dump: the blocks handed to the writer and the
      error thrown, if any. */
  datatype DumpRun = DumpRun(blocks: seq<Bytes>, thrown: Option<CodecError>)

  /** luaU_dump. In portable mode (`dump_portable_bytecode`) the header is
      written before setup_dump_funcs can throw; the root has no parent
      source. */
  function DumpChunk(h: Host, portable: bool, strip: bool, f: Proto): (r: DumpRun)
    ensures |r.blocks| >= 1
    ensures r.blocks[0] == (if portable then PortableHeader(h) else NativeHeader(h))
    ensures r.thrown.Some? <==> portable && h.float == UnknownFloat
  {
    if portable then
      match SetupDumpFuncs(h)
      case Err(e) => DumpRun([PortableHeader(h)], Some(e))
      case Ok(fs) => DumpRun([PortableHeader(h)] + FunctionBlocks(fs, strip, f, None), None)
    else
      DumpRun([NativeHeader(h)] + FunctionBlocks(NativeDump(h), strip, f, None), None)
  }

  // ---------------------------------------------------------------------
  // The portable wire format

  /** Portable ints are 4-byte little-endian two's complement on every
      host. */
  lemma {:induction false} PortableIntWire(h: Host, i: int)
    ensures IntBytes(PortableDump(h), i) == LE(Unsigned(i, 4), 4)
  {
    if !h.littleEndian {
      SwappedOnBigEndianIsLittleEndian32(Int32Pattern(i));
    }
  }

  /** Portable sizes are 8-byte little-endian on every host. */
  lemma {:induction false} PortableSizeWire(h: Host, n: nat)
    ensures SizeBytes(PortableDump(h), n) == LE(n, 8)
  {
    if !h.littleEndian {
      SwappedOnBigEndianIsLittleEndian64(Size64Pattern(n));
    }
  }

  /** Portable instructions are their low 32 bits, little-endian, on every
      host. */
  lemma {:induction false} PortableInstrWire(h: Host, x: nat)
    ensures InstrBytes(PortableDump(h), x) == LE(x, 4)
  {
    if h.littleEndian {
      if h.instrSize != 4 {
        Bytes32OfWord32(LE(x, 4));
      }
    } else {
      SwappedOnBigEndianIsLittleEndian32(Word32(LE(x, 4)));
      Bytes32OfWord32(LE(x, 4));
    }
  }

  /** Portable line numbers are 4-byte little-endian two's complement on
      every host. */
  lemma {:induction false} PortableLineWire(h: Host, i: int)
    ensures LineBytes(PortableDump(h), i) == LE(Unsigned(i, 4), 4)
  {
    if !h.littleEndian {
      SwappedOnBigEndianIsLittleEndian32(Int32Pattern(i));
    }
  }

  /** Portable numbers are the double's little-endian IEEE-754 image: a
      host storing doubles big-endian writes its image reversed, whatever
      its integer byte order. */
  lemma {:induction false} PortableNumberWire(h: Host, x: Image8)
    ensures NumberBytes(PortableDump(h), x) == (if h.float == IeeeBig then Reverse(x) else x)
  {
    if h.float == IeeeBig {
      SwappedImage64(x, h.littleEndian);
    }
  }

  /** Every portable primitive except the number one writes the same bytes
      on every host. */
  lemma {:induction false} PortablePrimitivesAgree(h1: Host, h2: Host)
    ensures forall i: int :: IntBytes(PortableDump(h1), i) == IntBytes(PortableDump(h2), i)
    ensures forall n: nat :: SizeBytes(PortableDump(h1), n) == SizeBytes(PortableDump(h2), n)
    ensures forall x: nat :: InstrBytes(PortableDump(h1), x) == InstrBytes(PortableDump(h2), x)
    ensures forall i: int :: LineBytes(PortableDump(h1), i) == LineBytes(PortableDump(h2), i)
  {
    forall i: int ensures IntBytes(PortableDump(h1), i) == IntBytes(PortableDump(h2), i) {
      PortableIntWire(h1, i);
      PortableIntWire(h2, i);
    }
    forall n: nat ensures SizeBytes(PortableDump(h1), n) == SizeBytes(PortableDump(h2), n) {
      PortableSizeWire(h1, n);
      PortableSizeWire(h2, n);
    }
    forall x: nat ensures InstrBytes(PortableDump(h1), x) == InstrBytes(PortableDump(h2), x) {
      PortableInstrWire(h1, x);
      PortableInstrWire(h2, x);
    }
    forall i: int ensures LineBytes(PortableDump(h1), i) == LineBytes(PortableDump(h2), i) {
      PortableLineWire(h1, i);
      PortableLineWire(h2, i);
    }
  }

  /** A portable dump depends on the host only through its double format:
      two hosts with the same format, whatever their byte order and their
      int, size_t and Instruction widths, write the same blocks. */
  lemma {:induction false} PortableDumpHostIndependent(h1: Host, h2: Host, strip: bool, f: Proto, parent: LuaString)
    requires h1.float == h2.float
    ensures FunctionBlocks(PortableDump(h1), strip, f, parent) == FunctionBlocks(PortableDump(h2), strip, f, parent)
    decreases f, 2
  {
    var fs1, fs2 := PortableDump(h1), PortableDump(h2);
    var source := if f.source == parent || strip then None else f.source;
    assert StringBlocks(fs1, source) == StringBlocks(fs2, source) by {
      StringBlocksAgree(h1, h2);
    }
    assert CodeBlocks(fs1, f.code) == CodeBlocks(fs2, f.code) by {
      PortablePrimitivesAgree(h1, h2);
      ConcatCongruent(f.code, x => InstrBytes(fs1, x), x => InstrBytes(fs2, x));
    }
    PortableConstantsHostIndependent(h1, h2, strip, f);
    PortableDebugHostIndependent(h1, h2, strip, f);
    PortableIntWire(h1, f.linedefined);
    PortableIntWire(h2, f.linedefined);
    PortableIntWire(h1, f.lastlinedefined);
    PortableIntWire(h2, f.lastlinedefined);
  }

  lemma {:induction false} PortableConstantsHostIndependent(h1: Host, h2: Host, strip: bool, f: Proto)
    requires h1.float == h2.float
    ensures ConstantsBlocks(PortableDump(h1), strip, f) == ConstantsBlocks(PortableDump(h2), strip, f)
    decreases f, 1
  {
    var fs1, fs2 := PortableDump(h1), PortableDump(h2);
    assert IntBytes(fs1, |f.k|) == IntBytes(fs2, |f.k|) && IntBytes(fs1, |f.p|) == IntBytes(fs2, |f.p|) by {
      PortableIntWire(h1, |f.k|);
      PortableIntWire(h2, |f.k|);
      PortableIntWire(h1, |f.p|);
      PortableIntWire(h2, |f.p|);
    }
    assert Blocks(f.k, c => ConstantBlocks(fs1, c)) == Blocks(f.k, c => ConstantBlocks(fs2, c)) by {
      forall i | 0 <= i < |f.k| ensures ConstantBlocks(fs1, f.k[i]) == ConstantBlocks(fs2, f.k[i]) {
        PortableConstantAgree(h1, h2, f.k[i]);
      }
      BlocksCongruent(f.k, c => ConstantBlocks(fs1, c), c => ConstantBlocks(fs2, c));
    }
    PortableChildrenHostIndependent(h1, h2, strip, f.p, f.source);
  }

  lemma PortableConstantAgree(h1: Host, h2: Host, c: Constant)
    requires h1.float == h2.float
    ensures ConstantBlocks(PortableDump(h1), c) == ConstantBlocks(PortableDump(h2), c)
  {
    match c
    case Nil =>
    case Boolean(_) =>
    case Number(x) =>
      PortableNumberWire(h1, x);
      PortableNumberWire(h2, x);
    case Str(s) =>
      PortableStringBlocksAgree(h1, h2, s);
  }

  lemma {:induction false} PortableDebugHostIndependent(h1: Host, h2: Host, strip: bool, f: Proto)
    ensures DebugBlocks(PortableDump(h1), strip, f) == DebugBlocks(PortableDump(h2), strip, f)
  {
    var fs1, fs2 := PortableDump(h1), PortableDump(h2);
    var locvars := if strip then [] else f.locvars;
    var upvalues := if strip then [] else f.upvalues;
    var lineinfo := if strip then [] else f.lineinfo;
    assert LineinfoBlocks(fs1, lineinfo) == LineinfoBlocks(fs2, lineinfo) by {
      PortablePrimitivesAgree(h1, h2);
      ConcatCongruent(lineinfo, i => LineBytes(fs1, i), i => LineBytes(fs2, i));
    }
    assert Blocks(locvars, v => LocVarBlocks(fs1, v)) == Blocks(locvars, v => LocVarBlocks(fs2, v)) by {
      forall i | 0 <= i < |locvars| ensures LocVarBlocks(fs1, locvars[i]) == LocVarBlocks(fs2, locvars[i]) {
        var v := locvars[i];
        PortableStringBlocksAgree(h1, h2, v.varname);
        PortableIntWire(h1, v.startpc);
        PortableIntWire(h2, v.startpc);
        PortableIntWire(h1, v.endpc);
        PortableIntWire(h2, v.endpc);
      }
      BlocksCongruent(locvars, v => LocVarBlocks(fs1, v), v => LocVarBlocks(fs2, v));
    }
    assert Blocks(upvalues, u => StringBlocks(fs1, u)) == Blocks(upvalues, u => StringBlocks(fs2, u)) by {
      forall i | 0 <= i < |upvalues| ensures StringBlocks(fs1, upvalues[i]) == StringBlocks(fs2, upvalues[i]) {
        PortableStringBlocksAgree(h1, h2, upvalues[i]);
      }
      BlocksCongruent(upvalues, u => StringBlocks(fs1, u), u => StringBlocks(fs2, u));
    }
    PortableIntWire(h1, |locvars|);
    PortableIntWire(h2, |locvars|);
    PortableIntWire(h1, |upvalues|);
    PortableIntWire(h2, |upvalues|);
  }

  lemma {:induction false} PortableStringBlocksAgree(h1: Host, h2: Host, s: LuaString)
    ensures StringBlocks(PortableDump(h1), s) == StringBlocks(PortableDump(h2), s)
  {
    var n := if s.Some? then |s.value| + 1 else 0;
    PortableSizeWire(h1, n);
    PortableSizeWire(h2, n);
  }

  lemma {:induction false} PortableChildrenHostIndependent(h1: Host, h2: Host, strip: bool, ps: seq<Proto>, parent: LuaString)
    requires h1.float == h2.float
    ensures ChildrenBlocks(PortableDump(h1), strip, ps, parent) == ChildrenBlocks(PortableDump(h2), strip, ps, parent)
    decreases ps, 0
  {
    if ps != [] {
      PortableDumpHostIndependent(h1, h2, strip, ps[0], parent);
      PortableChildrenHostIndependent(h1, h2, strip, ps[1..], parent);
    }
  }

  lemma {:induction false} StringBlocksAgree(h1: Host, h2: Host)
    ensures forall s :: StringBlocks(PortableDump(h1), s) == StringBlocks(PortableDump(h2), s)
  {
    PortablePrimitivesAgree(h1, h2);
  }

  /** With `strip`, the debug part does not depend on the prototype: it is
      the three counts, all zero, and the empty line-number block. */
  lemma {:induction false} StripErasesDebug(fs: DumpFuncs, f: Proto)
    ensures DebugBlocks(fs, true, f) == [IntBytes(fs, 0), [], IntBytes(fs, 0), IntBytes(fs, 0)]
  {
  }

  /** A nested prototype whose source is its parent's, or any prototype
      when stripping, starts with a zero size: its source is omitted. */
  lemma {:induction false} SourceOmitted(fs: DumpFuncs, strip: bool, f: Proto, parent: LuaString)
    requires f.source == parent || strip || f.source.None?
    ensures FunctionBlocks(fs, strip, f, parent)[0] == SizeBytes(fs, 0)
  {
  }

  /** Otherwise the source name is written out: its size counting the
      terminating zero, then its characters and the zero. */
  lemma {:induction false} SourceWritten(fs: DumpFuncs, strip: bool, f: Proto, parent: LuaString)
    requires f.source != parent && !strip && f.source.Some?
    ensures var blocks := FunctionBlocks(fs, strip, f, parent);
      |blocks| >= 2 && blocks[0] == SizeBytes(fs, |f.source.value| + 1) && blocks[1] == f.source.value + [0]
  {
    FrontOfSix(StringBlocks(fs, f.source), [IntBytes(fs, f.linedefined), IntBytes(fs, f.lastlinedefined)],
               [[f.nups], [f.numparams], [f.isVararg], [f.maxstacksize]], CodeBlocks(fs, f.code),
               ConstantsBlocks(fs, strip, f), DebugBlocks(fs, strip, f));
  }

  lemma FrontOfSix<T>(a: seq<T>, b: seq<T>, c: seq<T>, d: seq<T>, e: seq<T>, g: seq<T>)
    requires |a| >= 2
    ensures var s := a + b + c + d + e + g; |s| >= 2 && s[0] == a[0] && s[1] == a[1]
  {
  }

  /** dump_code_vector: the 4-byte count, then exactly four bytes per
      instruction, on every host. */
  lemma {:induction false} PortableCodeLength(h: Host, code: seq<nat>)
    ensures |Flatten(CodeBlocks(PortableDump(h), code))| == 4 + 4 * |code|
  {
    var fs := PortableDump(h);
    var image := x => InstrBytes(fs, x);
    forall j | 0 <= j < |code|
      ensures |image(code[j])| == 4
    {
      PortableInstrWire(h, code[j]);
    }
    ConcatLength(code, image, 4);
    PortableIntWire(h, |code|);
    FlattenTwo(IntBytes(fs, |code|), Concat(code, image));
  }

  /** dump_int_vector: the 4-byte count, then exactly four bytes per line
      number, on every host. */
  lemma {:induction false} PortableLineinfoLength(h: Host, lineinfo: seq<int>)
    ensures |Flatten(LineinfoBlocks(PortableDump(h), lineinfo))| == 4 + 4 * |lineinfo|
  {
    var fs := PortableDump(h);
    var image := i => LineBytes(fs, i);
    forall j | 0 <= j < |lineinfo|
      ensures |image(lineinfo[j])| == 4
    {
      PortableLineWire(h, lineinfo[j]);
    }
    ConcatLength(lineinfo, image, 4);
    PortableIntWire(h, |lineinfo|);
    FlattenTwo(IntBytes(fs, |lineinfo|), Concat(lineinfo, image));
  }

  // ---------------------------------------------------------------------
  // The writer and the status gate of DumpBlock

  /** A lua_Writer, as the status it returns for a block given the blocks
      it has received before. */
  type Writer = (seq<Bytes>, Bytes) -> int

  /** The writer's view of a dump: the status of the DumpState and the
      blocks handed to the writer so far. */
  datatype Sink = Sink(status: int, sent: seq<Bytes>)

  /** DumpBlock: call the writer only while the status is 0; its result
      becomes the status. */
  function Step(w: Writer, st: Sink, b: Bytes): Sink {
    if st.status == 0 then Sink(w(st.sent, b), st.sent + [b]) else st
  }

  /** A sequence of DumpBlock calls. */
  function Gate(w: Writer, st: Sink, bs: seq<Bytes>): Sink
    decreases |bs|
  {
    if bs == [] then st else Gate(w, Step(w, st, bs[0]), bs[1..])
  }

  lemma {:induction false} GateAppend(w: Writer, st: Sink, a: seq<Bytes>, b: seq<Bytes>)
    ensures Gate(w, st, a + b) == Gate(w, Gate(w, st, a), b)
    decreases |a|
  {
    if a == [] {
      assert a + b == b;
    } else {
      assert (a + b)[0] == a[0];
      assert (a + b)[1..] == a[1..] + b;
      GateAppend(w, Step(w, st, a[0]), a[1..], b);
    }
  }

  /** Once the writer has failed, nothing more is written and the status is
      kept. */
  lemma {:induction false} GateStopped(w: Writer, st: Sink, bs: seq<Bytes>)
    requires st.status != 0
    ensures Gate(w, st, bs) == st
    decreases |bs|
  {
    if bs != [] {
      GateStopped(w, st, bs[1..]);
    }
  }

  /** The writer accepted each of the blocks sent[from..] (returned 0). */
  predicate Accepted(w: Writer, sent: seq<Bytes>, from: nat, to: nat)
    requires from <= to <= |sent|
  {
    forall j :: from <= j < to ==> w(sent[..j], sent[j]) == 0
  }

  /** What the writer makes of the blocks `bs` after the accepted history
      `pre`, ending in the state `r`: it receives a prefix of the blocks,
      each with exactly the blocks before it as history. It receives all of
      them and accepts each exactly when the final status is 0; otherwise
      it accepted all but the last block it received, and the status is
      what it returned for that one. */
  predicate Outcome(w: Writer, pre: seq<Bytes>, bs: seq<Bytes>, r: Sink) {
    |pre| <= |r.sent| <= |pre| + |bs| && r.sent == pre + bs[..|r.sent| - |pre|]
    && (r.status == 0 <==> r.sent == pre + bs && Accepted(w, r.sent, |pre|, |r.sent|))
    && (r.status != 0 ==>
          |r.sent| > |pre| && Accepted(w, r.sent, |pre|, |r.sent| - 1)
          && r.status == w(r.sent[..|r.sent| - 1], r.sent[|r.sent| - 1]))
  }

  /** The outcome of a dump from status 0, by induction on the blocks. */
  lemma {:induction false} GateOutcome(w: Writer, pre: seq<Bytes>, bs: seq<Bytes>)
    ensures Outcome(w, pre, bs, Gate(w, Sink(0, pre), bs))
    decreases |bs|
  {
    if bs == [] {
      assert Gate(w, Sink(0, pre), bs) == Sink(0, pre);
    } else if w(pre, bs[0]) == 0 {
      var r := Gate(w, Sink(0, pre), bs);
      assert r == Gate(w, Sink(0, pre + [bs[0]]), bs[1..]);
      GateOutcome(w, pre + [bs[0]], bs[1..]);
      GateOutcomeStep(w, pre, bs[0], bs[1..], r);
      assert [bs[0]] + bs[1..] == bs;
    } else {
      GateOutcomeRefused(w, pre, bs);
    }
  }

  /** The first block refused: the writer received it and nothing more. */
  lemma {:induction false} GateOutcomeRefused(w: Writer, pre: seq<Bytes>, bs: seq<Bytes>)
    requires bs != [] && w(pre, bs[0]) != 0
    ensures Outcome(w, pre, bs, Gate(w, Sink(0, pre), bs))
  {
    var st := Step(w, Sink(0, pre), bs[0]);
    GateStopped(w, st, bs[1..]);
    var r := Gate(w, Sink(0, pre), bs);
    assert r == st;
    assert bs[..1] == [bs[0]];
    assert r.sent[..|pre|] == pre && r.sent[|pre|] == bs[0];
  }

  /** One accepted block in front of the outcome of the rest. */
  lemma {:induction false} GateOutcomeStep(w: Writer, pre: seq<Bytes>, b: Bytes, bs: seq<Bytes>, r: Sink)
    requires w(pre, b) == 0
    requires Outcome(w, pre + [b], bs, r)
    ensures Outcome(w, pre, [b] + bs, r)
  {
    var pre' := pre + [b];
    var bs' := [b] + bs;
    var m := |r.sent| - |pre'|;
    assert pre' + bs[..m] == pre + bs'[..m + 1];
    assert r.sent[..|pre|] == pre && r.sent[|pre|] == b;
    if r.status == 0 {
      assert pre' + bs == pre + bs';
    }
  }

}
