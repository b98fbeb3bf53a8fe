/** The data the codec works on: the function prototype tree (`Proto`, with
    its constants and debug records), the properties of the host that the
    C code reads with `sizeof` and memory probes, and the loader's errors. */
module Chunk {
  import opened Wrappers
  import opened ByteSeq

  /** A `TString*`: `None` is the null pointer; otherwise the characters,
      without the terminating zero that the string object also stores. */
  type LuaString = Option<Bytes>

  /** The memory image of a `lua_Number` (a C double: eight bytes). The codec
      never computes with numbers; it only moves these bytes. */
  type Image8 = s: Bytes | |s| == 8 witness [0, 0, 0, 0, 0, 0, 0, 0]

  /** A constant of a prototype, by type tag. */
  datatype Constant = Nil | Boolean(b: bool) | Number(image: Image8) | Str(s: LuaString)

  /** A local variable's debug record. */
  datatype LocVar = LocVar(varname: LuaString, startpc: int, endpc: int)

  /** A function prototype. `code` holds the instruction words, `k` the
      constants, `p` the nested prototypes; `lineinfo`, `locvars` and
      `upvalues` are the debug information. The array sizes of the C struct
      (`sizecode`, `sizek`, ...) are the lengths of these sequences. */
  datatype Proto = Proto(
    source: LuaString,
    linedefined: int,
    lastlinedefined: int,
    nups: bv8,
    numparams: bv8,
    isVararg: bv8,
    maxstacksize: bv8,
    code: seq<nat>,
    k: seq<Constant>,
    p: seq<Proto>,
    lineinfo: seq<int>,
    locvars: seq<LocVar>,
    upvalues: seq<LuaString>)

  /** The width in bytes of `int`, `size_t` or `Instruction` on a host Lua
      5.1 builds on: `int` has at least 32 bits, and no width exceeds 8
      bytes. */
  type Width = w: nat | 4 <= w <= 8 witness 4

  /** How the host stores a C double, as found by comparing the bytes of a
      known double with its little- and big-endian IEEE-754 images. */
  datatype FloatFormat = IeeeLittle | IeeeBig | UnknownFloat

  /** What the C code learns about the machine it runs on: the byte order
      (`*(char*)&x` for x == 1), `sizeof(int)`, `sizeof(size_t)`,
      `sizeof(Instruction)`, the double format and whether `lua_Number` is
      integral (`(lua_Number)0.5 == 0`). */
  datatype Host = Host(
    littleEndian: bool,
    intSize: Width,
    sizeTSize: Width,
    instrSize: Width,
    float: FloatFormat,
    integral: bool)


  /** The reasons a dump or a load fails. */
  datatype CodecError =
    | UnexpectedEnd
    | BadInteger
    | BadConstant
    | BadCode
    | TooDeep
    | BadHeader
    | UnknownNumberFormat

  /** A value read from the front of a byte stream, and what follows it. */
  datatype Parsed<+T> = Parsed(value: T, rest: Bytes)

  /** Type tags of constants (LUA_TNIL, LUA_TBOOLEAN, LUA_TNUMBER and
      LUA_TSTRING of lua.h, which is not part of this model). */
  const TNil: bv8 := 0
  const TBoolean: bv8 := 1
  const TNumber: bv8 := 3
  const TString: bv8 := 4

  /** LUA_SIGNATURE of lua.h: "\033Lua". */
  const Signature: Bytes := [0x1B, 0x4C, 0x75, 0x61]

  /** LUAI_MAXCCALLS of luaconf.h (default 200; luaconf.h is not part of
      this model). */
  const MaxCCalls: nat := 200

  /** "=?": the source name inherited by a root prototype without one. */
  const RootSource: Bytes := [0x3D, 0x3F]

  /** The tag byte the dumper writes for a constant. */
  function TagOf(c: Constant): bv8 {
    match c
    case Nil => TNil
    case Boolean(_) => TBoolean
    case Number(_) => TNumber
    case Str(_) => TString
  }

  /** Nesting depth of a prototype tree: 1 for a prototype without children. */
  function Height(f: Proto): (h: nat)
    ensures h >= 1
    decreases f, 1
  {
    1 + ListHeight(f.p)
  }

  function ListHeight(ps: seq<Proto>): nat
    decreases ps, 0
  {
    if ps == [] then 0
    else
      var h := Height(ps[0]);
      var r := ListHeight(ps[1..]);
      if h < r then r else h
  }

  /** `check` (the bytecode verifier) accepts every prototype of the tree. */
  predicate Checked(check: Proto -> bool, f: Proto) {
    check(f) && forall i :: 0 <= i < |f.p| ==> Checked(check, f.p[i])
  }
}
