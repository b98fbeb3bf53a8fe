/** What src/lundump.c reads: every loader routine as a function from the
    unread bytes of the stream to the value it builds and the bytes after
    it, or to the error it raises. The native routines (LoadInt,
    LoadString, LoadFunction, ...) and the portable ones (load_int_o,
    load_string, load_function, ...) share one definition per record kind;
    `LoadFuncs` says which primitives fill it in. */
module LoadSpec {
  import opened Wrappers
  import opened ByteSeq
  import opened LundumpH
  import opened Chunk
  import opened Header

  /** The primitives a load uses: the native ones, which copy bytes into
      the host's memory, or the portable ones that setup_load_funcs picks
      for the host. `sourcePortable` selects how the portable loader reads a
      prototype's source name: false is the code as written (with the
      native LoadString), true the corrected loader (with load_string). */
  datatype LoadFuncs = NativeLoad(host: Host) | PortableLoad(host: Host, sourcePortable: bool)

  /** A loader step: the value read and the unread rest, or the error. */
  type Load<T> = Result<Parsed<T>, CodecError>

  /** setup_load_funcs: fails with "load: unknown number format" when the
      host's doubles are neither little- nor big-endian IEEE-754. */
  function SetupLoadFuncs(h: Host, sourcePortable: bool): (r: Result<LoadFuncs, CodecError>)
    ensures r.Ok? <==> h.float != UnknownFloat
    ensures r.Ok? ==> r.value.PortableLoad? && r.value.host == h && r.value.sourcePortable == sourcePortable
    ensures r.Err? ==> r.error == UnknownNumberFormat
  {
    if h.float == UnknownFloat then Err(UnknownNumberFormat) else Ok(PortableLoad(h, sourcePortable))
  }

  /** LoadBlock: luaZ_read must deliver all n bytes, or "unexpected end". */
  function Read(s: Bytes, n: nat): (r: Load<Bytes>)
    ensures r.Ok? <==> n <= |s|
    ensures r.Ok? ==> |r.value.value| == n && r.value.value + r.value.rest == s
    ensures r.Err? ==> r.error == UnexpectedEnd
  {
    if n <= |s| then Ok(Parsed(s[..n], s[n..])) else Err(UnexpectedEnd)
  }

  /** LoadChar / LoadByte. */
  function LoadChar(s: Bytes): (r: Load<bv8>)
    ensures r.Ok? <==> |s| >= 1
    ensures r.Ok? ==> [r.value.value] + r.value.rest == s
  {
    var b :- Read(s, 1);
    Ok(Parsed(b.value[0], b.rest))
  }

  // ---------------------------------------------------------------------
  // Values of fixed-width patterns

  /** The value of a 32-bit pattern read as an int32_t. */
  function Int32Value(x: bv32): int {
    Signed(LEValue(Bytes32(x)), 4)
  }

  /** The value of a 32-bit pattern read as a uint32_t. */
  function Uint32Value(x: bv32): nat {
    LEValue(Bytes32(x))
  }

  /** The value of a 64-bit pattern read as a uint64_t. */
  function Uint64Value(x: bv64): nat {
    LEValue(Bytes64(x))
  }

  // ---------------------------------------------------------------------
  // Portable primitives

  /** load_int_o: an int32 from memory on a little-endian host; negative
      values are "bad integer". */
  function LoadIntO(s: Bytes): (r: Load<int>)
    ensures r.Ok? ==> r.value.value >= 0
  {
    var b :- Read(s, 4);
    var x := Int32Value(HostWord32(b.value, true));
    if x < 0 then Err(BadInteger) else Ok(Parsed(x, b.rest))
  }

  /** load_int_s: the int32 read by a big-endian host, then swapped. */
  function LoadIntS(s: Bytes): (r: Load<int>)
    ensures r.Ok? ==> r.value.value >= 0
  {
    var b :- Read(s, 4);
    var x := Int32Value(Bswap32(HostWord32(b.value, false)));
    if x < 0 then Err(BadInteger) else Ok(Parsed(x, b.rest))
  }

  /** load_size_t_o: a uint64 from memory, converted to the host's size_t
      (which keeps its low bytes). */
  function LoadSizeO(h: Host, s: Bytes): Load<nat> {
    var b :- Read(s, 8);
    Ok(Parsed(Uint64Value(HostWord64(b.value, true)) % Pow256(h.sizeTSize), b.rest))
  }

  /** load_size_t_s. */
  function LoadSizeS(h: Host, s: Bytes): Load<nat> {
    var b :- Read(s, 8);
    Ok(Parsed(Uint64Value(Bswap64(HostWord64(b.value, false))) % Pow256(h.sizeTSize), b.rest))
  }

  /** load_number_s: the eight bytes read as a uint64 in the host's integer
      byte order, swapped, and the double's memory taken from the result. */
  function LoadNumberS(h: Host, s: Bytes): Load<Image8> {
    var b :- Read(s, 8);
    Ok(Parsed(HostBytes64(Bswap64(HostWord64(b.value, h.littleEndian)), h.littleEndian), b.rest))
  }

  /** The uint32 array that LoadVector fills from the memory bytes b. */
  function MemoryWords32(b: Bytes, littleEndian: bool): (ws: seq<bv32>)
    ensures |ws| == |Chunks(b, 4)|
  {
    var cs := Chunks(b, 4);
    seq(|cs|, i requires 0 <= i < |cs| => HostWord32(cs[i], littleEndian))
  }

  /** load_byte4_vector_o / load_byte4_vector_s: a count (load_int), then
      that many 4-byte words; the `_s` variant swaps each word in place. */
  function LoadByte4Vector(h: Host, s: Bytes): Load<seq<bv32>> {
    var n :- if h.littleEndian then LoadIntO(s) else LoadIntS(s);
    var b :- Read(n.rest, n.value * 4);
    var ws := MemoryWords32(b.value, h.littleEndian);
    if h.littleEndian then Ok(Parsed(ws, b.rest))
    else Ok(Parsed(seq(|ws|, i requires 0 <= i < |ws| => Bswap32(ws[i])), b.rest))
  }

  // ---------------------------------------------------------------------
  // Native primitives: LoadVar copies the bytes into the host's memory

  /** The value of an n-byte integer whose memory on the host is b. */
  function NativeValue(b: Bytes, littleEndian: bool): nat {
    LEValue(InHostOrder(b, littleEndian))
  }

  /** LoadInt: a host int; negative values are "bad integer". */
  function LoadIntN(h: Host, s: Bytes): (r: Load<int>)
    ensures r.Ok? ==> r.value.value >= 0
  {
    var b :- Read(s, h.intSize);
    var x := Signed(NativeValue(b.value, h.littleEndian), h.intSize);
    if x < 0 then Err(BadInteger) else Ok(Parsed(x, b.rest))
  }

  /** The size_t read by LoadString. */
  function LoadSizeN(h: Host, s: Bytes): Load<nat> {
    var b :- Read(s, h.sizeTSize);
    Ok(Parsed(NativeValue(b.value, h.littleEndian), b.rest))
  }

  /** LoadNumber, and load_number_o: the double's eight bytes as they are. */
  function LoadNumberRaw(s: Bytes): Load<Image8> {
    var b :- Read(s, 8);
    Ok(Parsed(b.value, b.rest))
  }

  // ---------------------------------------------------------------------
  // The primitive each record kind uses

  /** load_int / LoadInt. */
  function LoadInt(lf: LoadFuncs, s: Bytes): (r: Load<int>)
    ensures r.Ok? ==> r.value.value >= 0
  {
    match lf
    case NativeLoad(h) => LoadIntN(h, s)
    case PortableLoad(h, _) => if h.littleEndian then LoadIntO(s) else LoadIntS(s)
  }

  /** load_size_t / the size_t LoadVar of LoadString. */
  function LoadSize(lf: LoadFuncs, s: Bytes): Load<nat> {
    match lf
    case NativeLoad(h) => LoadSizeN(h, s)
    case PortableLoad(h, _) => if h.littleEndian then LoadSizeO(h, s) else LoadSizeS(h, s)
  }

  /** load_number / LoadNumber. */
  function LoadNumber(lf: LoadFuncs, s: Bytes): Load<Image8> {
    match lf
    case NativeLoad(_) => LoadNumberRaw(s)
    case PortableLoad(h, _) => if h.float == IeeeBig then LoadNumberS(h, s) else LoadNumberRaw(s)
  }

  /** The rest of load_string / LoadString once the size is read: a zero
      size is the null string; otherwise `size` bytes follow, and the last
      one (the terminating zero) is dropped without being looked at. */
  function LoadStringBody(size: Load<nat>): (r: Load<LuaString>)
    ensures size.Err? ==> r == Err(size.error)
    ensures size.Ok? && size.value.value == 0 ==> r == Ok(Parsed(None, size.value.rest))
    ensures size.Ok? && size.value.value > 0 ==>
      var n, t := size.value.value, size.value.rest;
      && (r.Ok? <==> n <= |t|)
      && (r.Ok? ==> r.value.value == Some(t[..n - 1]) && r.value.rest == t[n..])
      && (r.Err? ==> r.error == UnexpectedEnd)
  {
    var n :- size;
    if n.value == 0 then Ok(Parsed(None, n.rest))
    else
      var b :- Read(n.rest, n.value);
      assert b.value[..n.value - 1] == n.rest[..n.value - 1];
      Ok(Parsed(Some(b.value[..n.value - 1]), b.rest))
  }

  /** load_string / LoadString. */
  function LoadString(lf: LoadFuncs, s: Bytes): Load<LuaString> {
    LoadStringBody(LoadSize(lf, s))
  }

  /** The LoadString of lundump.c, whatever the primitives. */
  function NativeLoadString(h: Host, s: Bytes): Load<LuaString> {
    LoadStringBody(LoadSizeN(h, s))
  }

  /** How a prototype's source name is read: load_function reads it with
      the native LoadString, not with load_string. */
  function LoadSource(lf: LoadFuncs, s: Bytes): Load<LuaString> {
    match lf
    case PortableLoad(h, sourcePortable) =>
      if sourcePortable then LoadString(lf, s) else NativeLoadString(h, s)
    case NativeLoad(_) => LoadString(lf, s)
  }

  /** The number of bytes of `count` elements `width` bytes wide. */
  function VectorSize(count: nat, width: nat): nat {
    count * width
  }

  /** load_code / LoadCode: the instruction count, then the instructions. */
  function LoadCode(lf: LoadFuncs, s: Bytes): Load<seq<nat>> {
    match lf
    case NativeLoad(h) =>
      var n :- LoadIntN(h, s);
      var b :- Read(n.rest, VectorSize(n.value, h.instrSize));
      var cs := Chunks(b.value, h.instrSize);
      Ok(Parsed(seq(|cs|, i requires 0 <= i < |cs| => NativeValue(cs[i], h.littleEndian)), b.rest))
    case PortableLoad(h, _) =>
      // Used as they are when Instruction is 32 bits wide, converted one
      // by one otherwise: either way each instruction is the word's value.
      var ws :- LoadByte4Vector(h, s);
      Ok(Parsed(seq(|ws.value|, i requires 0 <= i < |ws.value| => Uint32Value(ws.value[i])), ws.rest))
  }

  /** The line information of load_debug / LoadDebug. */
  function LoadLineinfo(lf: LoadFuncs, s: Bytes): Load<seq<int>> {
    match lf
    case NativeLoad(h) =>
      var n :- LoadIntN(h, s);
      var b :- Read(n.rest, VectorSize(n.value, h.intSize));
      var cs := Chunks(b.value, h.intSize);
      Ok(Parsed(seq(|cs|, i requires 0 <= i < |cs| => Signed(NativeValue(cs[i], h.littleEndian), h.intSize)), b.rest))
    case PortableLoad(h, _) =>
      var ws :- LoadByte4Vector(h, s);
      Ok(Parsed(seq(|ws.value|, i requires 0 <= i < |ws.value| => Int32Value(ws.value[i])), ws.rest))
  }

  /** One constant of load_constants / LoadConstants: a tag byte, then the
      payload the tag calls for; any other tag is "bad constant". */
  function LoadConstant(lf: LoadFuncs, s: Bytes): Load<Constant> {
    var t :- LoadChar(s);
    if t.value == TNil then Ok(Parsed(Nil, t.rest))
    else if t.value == TBoolean then
      var b :- LoadChar(t.rest);
      Ok(Parsed(Boolean(b.value != 0), b.rest))
    else if t.value == TNumber then
      var x :- LoadNumber(lf, t.rest);
      Ok(Parsed(Number(x.value), x.rest))
    else if t.value == TString then
      var x :- LoadString(lf, t.rest);
      Ok(Parsed(Str(x.value), x.rest))
    else Err(BadConstant)
  }

  /** A loop of n reads of one kind, stopping at the first error. */
  function Repeat<T>(n: nat, s: Bytes, item: Bytes -> Load<T>): (r: Load<seq<T>>)
    ensures r.Ok? ==> |r.value.value| == n
    decreases n
  {
    if n == 0 then Ok(Parsed([], s))
    else
      var x :- item(s);
      var xs :- Repeat(n - 1, x.rest, item);
      Ok(Parsed([x.value] + xs.value, xs.rest))
  }

  /** One local variable record of load_debug / LoadDebug. */
  function LoadLocVar(lf: LoadFuncs, s: Bytes): Load<LocVar> {
    var name :- LoadString(lf, s);
    var startpc :- LoadInt(lf, name.rest);
    var endpc :- LoadInt(lf, startpc.rest);
    Ok(Parsed(LocVar(name.value, startpc.value, endpc.value), endpc.rest))
  }

  /** The debug part of a prototype. */
  datatype DebugInfo = DebugInfo(lineinfo: seq<int>, locvars: seq<LocVar>, upvalues: seq<LuaString>)

  /** load_debug / LoadDebug. */
  function LoadDebug(lf: LoadFuncs, s: Bytes): Load<DebugInfo> {
    var lineinfo :- LoadLineinfo(lf, s);
    var n :- LoadInt(lf, lineinfo.rest);
    var locvars :- Repeat(n.value, n.rest, t => LoadLocVar(lf, t));
    var m :- LoadInt(lf, locvars.rest);
    var upvalues :- Repeat(m.value, m.rest, t => LoadString(lf, t));
    Ok(Parsed(DebugInfo(lineinfo.value, locvars.value, upvalues.value), upvalues.rest))
  }

  /** load_function / LoadFunction, entered with `calls` nested C calls
      (the `nCcalls` of the Lua state): one more call than LUAI_MAXCCALLS is
      "code too deep"; a missing source name is inherited (`q`); the
      finished prototype must pass the bytecode verifier `check`
      (luaG_checkcode, which is not part of this model), else "bad code". */
  function LoadFunction(lf: LoadFuncs, s: Bytes, q: LuaString, calls: nat, check: Proto -> bool): Load<Proto>
    decreases MaxCCalls - calls, 1
  {
    if calls + 1 > MaxCCalls then Err(TooDeep)
    else
      var h :- LoadFunctionHead(lf, s, q);
      LoadFunctionRest(lf, h.rest, h.value, calls + 1, check)
  }

  /** What load_function reads before the code: the source name (a
      missing one is inherited from `q`), the two line numbers, and
      nups, numparams, is_vararg and maxstacksize, one LoadByte each. */
  datatype Head = Head(source: LuaString, linedefined: int, lastlinedefined: int, four: Bytes)

  function LoadFunctionHead(lf: LoadFuncs, s: Bytes, q: LuaString): (r: Load<Head>)
    ensures r.Ok? ==> |r.value.value.four| == 4
  {
    var src :- LoadSource(lf, s);
    var linedefined :- LoadInt(lf, src.rest);
    var lastlinedefined :- LoadInt(lf, linedefined.rest);
    var bytes :- Read(lastlinedefined.rest, 4);
    Ok(Parsed(Head(if src.value.None? then q else src.value, linedefined.value, lastlinedefined.value, bytes.value),
              bytes.rest))
  }

  /** The second half of load_function, entered with the call count
      already raised to `depth`: code, constants and nested prototypes,
      debug information, then the bytecode check on the prototype built
      from all of it. */
  function LoadFunctionRest(lf: LoadFuncs, s: Bytes, h: Head, depth: nat, check: Proto -> bool): Load<Proto>
    requires depth <= MaxCCalls && |h.four| == 4
    decreases MaxCCalls - depth, 3
  {
    var code :- LoadCode(lf, s);
    var kp :- LoadConstants(lf, code.rest, h.source, depth, check);
    var debug :- LoadDebug(lf, kp.rest);
    var f := Proto(h.source, h.linedefined, h.lastlinedefined, h.four[0], h.four[1], h.four[2], h.four[3],
                   code.value, kp.value.0, kp.value.1,
                   debug.value.lineinfo, debug.value.locvars, debug.value.upvalues);
    if !check(f) then Err(BadCode) else Ok(Parsed(f, debug.rest))
  }

  /** load_constants / LoadConstants: the constants, then the nested
      prototypes, which inherit this prototype's source name. `depth` is
      the call count of the enclosing LoadFunction. */
  function LoadConstants(lf: LoadFuncs, s: Bytes, source: LuaString, depth: nat, check: Proto -> bool)
    : Load<(seq<Constant>, seq<Proto>)>
    requires depth <= MaxCCalls
    decreases MaxCCalls - depth, 2
  {
    var n :- LoadInt(lf, s);
    var k :- Repeat(n.value, n.rest, t => LoadConstant(lf, t));
    var m :- LoadInt(lf, k.rest);
    // one LoadFunction per nested prototype, each entered with `depth`
    var ps :- Repeat(m.value, m.rest, t => LoadFunction(lf, t, source, depth, check));
    Ok(Parsed((k.value, ps.value), ps.rest))
  }

  /** check_header: the portable header is tried first, then the native
      one; anything else is "bad header". The result says whether the
      chunk is portable. */
  function CheckHeader(h: Host, s: Bytes): (r: Load<bool>)
    ensures r.Ok? ==> |s| >= LuacHeaderSize && r.value.rest == s[LuacHeaderSize..]
    ensures r.Ok? ==> (r.value.value <==> s[..LuacHeaderSize] == PortableHeader(h))
    ensures r.Ok? <==> |s| >= LuacHeaderSize &&
                       (s[..LuacHeaderSize] == PortableHeader(h) || s[..LuacHeaderSize] == NativeHeader(h))
  {
    var b :- Read(s, LuacHeaderSize);
    if b.value == PortableHeader(h) then Ok(Parsed(true, b.rest))
    else if b.value == NativeHeader(h) then Ok(Parsed(false, b.rest))
    else Err(BadHeader)
  }

  /** luaU_undump on a host, for either way of reading source names. The
      root inherits "=?" when it has no source name; bytes after the chunk
      are not read. */
  function UndumpWith(h: Host, sourcePortable: bool, s: Bytes, calls: nat, check: Proto -> bool)
    : Result<Proto, CodecError>
  {
    var portable :- CheckHeader(h, s);
    var lf :- if portable.value then SetupLoadFuncs(h, sourcePortable) else Ok(NativeLoad(h));
    var f :- LoadFunction(lf, portable.rest, Some(RootSource), calls, check);
    Ok(f.value)
  }

  /** luaU_undump as written. */
  function Undump(h: Host, s: Bytes, calls: nat, check: Proto -> bool): Result<Proto, CodecError> {
    UndumpWith(h, false, s, calls, check)
  }

  /** luaU_undump with the portable loader reading source names with
      load_string, as the dumper writes them. */
  function UndumpCorrected(h: Host, s: Bytes, calls: nat, check: Proto -> bool): Result<Proto, CodecError> {
    UndumpWith(h, true, s, calls, check)
  }

  // ---------------------------------------------------------------------
  // Error messages

  /** The chunk name used in messages: a leading '@' or '=' is dropped, a
      name starting with the signature's escape character is "binary
      string". */
  function ChunkName(name: string): (r: string)
    ensures |name| > 0 && (name[0] == '@' || name[0] == '=') ==> r == name[1..]
    ensures |name| > 0 && name[0] == '\U{1B}' ==> r == "binary string"
    ensures (|name| == 0 || (name[0] != '@' && name[0] != '=' && name[0] != '\U{1B}')) ==> r == name
  {
    if |name| > 0 && (name[0] == '@' || name[0] == '=') then name[1..]
    else if |name| > 0 && name[0] == '\U{1B}' then "binary string"
    else name
  }

  function Why(e: CodecError): string {
    match e
    case UnexpectedEnd => "unexpected end"
    case BadInteger => "bad integer"
    case BadConstant => "bad constant"
    case BadCode => "bad code"
    case TooDeep => "code too deep"
    case BadHeader => "bad header"
    case UnknownNumberFormat => "unknown number format"
  }

  const InPrecompiledChunk: string := " in precompiled chunk"

  /** The message a failed load leaves: "<name>: <why> in precompiled
      chunk", except for the unknown number format, which is reported
      without the chunk name. */
  function ErrorMessage(name: string, e: CodecError): (m: string)
    ensures e != UnknownNumberFormat ==>
      |m| >= |ChunkName(name)| + |InPrecompiledChunk|
      && m[..|ChunkName(name)|] == ChunkName(name)
      && m[|m| - |InPrecompiledChunk|..] == InPrecompiledChunk
    ensures e == UnknownNumberFormat ==> m == "load: unknown number format"
  {
    if e == UnknownNumberFormat then "load: unknown number format"
    else ChunkName(name) + ": " + Why(e) + InPrecompiledChunk
  }

  /** Different errors give different messages for the same chunk name. */
  lemma {:induction false} ErrorMessagesDistinct(name: string, e1: CodecError, e2: CodecError)
    requires e1 != e2
    ensures ErrorMessage(name, e1) != ErrorMessage(name, e2)
  {
    var c := ChunkName(name);
    var m1, m2 := ErrorMessage(name, e1), ErrorMessage(name, e2);
    if e1 != UnknownNumberFormat && e2 != UnknownNumberFormat {
      assert m1[|c| + 2..|m1| - |InPrecompiledChunk|] == Why(e1);
      assert m2[|c| + 2..|m2| - |InPrecompiledChunk|] == Why(e2);
    } else if e1 != UnknownNumberFormat {
      assert m1[|m1| - 1] == 'k';
      assert m2[|m2| - 1] == 't';
    } else {
      assert m2[|m2| - 1] == 'k';
      assert m1[|m1| - 1] == 't';
    }
  }
}
