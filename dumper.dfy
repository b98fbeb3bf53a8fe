/** src/ldump.c as it runs: a DumpState whose writer status and history
    change block by block, the native routines (DumpInt, DumpString,
    DumpFunction, ...) and the portable ones (dump_int_o, dump_string,
    dump_function, ...) behind one set of methods, and the scratch arrays
    the portable vector routines fill. Each method is proved to hand the
    writer exactly the blocks that DumpSpec lists, through the status gate
    of DumpBlock. */
module Dumper {
  import opened Wrappers
  import opened ByteSeq
  import opened LundumpH
  import opened Chunk
  import opened Header
  import opened DumpSpec

  lemma GateOne(w: Writer, st: Sink, b: Bytes)
    ensures Gate(w, st, [b]) == Step(w, st, b)
  {
    assert [b][1..] == [];
  }

  lemma {:induction false} ChildrenSnoc(fs: DumpFuncs, strip: bool, ps: seq<Proto>, i: nat, parent: LuaString)
    requires i < |ps|
    ensures ChildrenBlocks(fs, strip, ps[..i + 1], parent)
      == ChildrenBlocks(fs, strip, ps[..i], parent) + FunctionBlocks(fs, strip, ps[i], parent)
  {
    if i == 0 {
      ChildrenOne(fs, strip, ps, parent);
    } else {
      ChildrenSnoc(fs, strip, ps[1..], i - 1, parent);
      ChildrenSnocStep(fs, strip, ps, i, parent);
    }
  }

  lemma ChildrenOne(fs: DumpFuncs, strip: bool, ps: seq<Proto>, parent: LuaString)
    requires 0 < |ps|
    ensures ChildrenBlocks(fs, strip, ps[..1], parent)
      == ChildrenBlocks(fs, strip, ps[..0], parent) + FunctionBlocks(fs, strip, ps[0], parent)
  {
    var x := FunctionBlocks(fs, strip, ps[0], parent);
    FirstOfSlice(ps, 1);
    assert ChildrenBlocks(fs, strip, ps[..1], parent) == x + ChildrenBlocks(fs, strip, [], parent);
    RightUnit(x);
    LeftUnit(x);
  }

  lemma ChildrenSnocStep(fs: DumpFuncs, strip: bool, ps: seq<Proto>, i: nat, parent: LuaString)
    requires 0 < i < |ps|
    requires var q := ps[1..];
      ChildrenBlocks(fs, strip, q[..i], parent)
      == ChildrenBlocks(fs, strip, q[..i - 1], parent) + FunctionBlocks(fs, strip, q[i - 1], parent)
    ensures ChildrenBlocks(fs, strip, ps[..i + 1], parent)
      == ChildrenBlocks(fs, strip, ps[..i], parent) + FunctionBlocks(fs, strip, ps[i], parent)
  {
    var q := ps[1..];
    var x := FunctionBlocks(fs, strip, ps[0], parent);
    var y := ChildrenBlocks(fs, strip, q[..i - 1], parent);
    var z := FunctionBlocks(fs, strip, ps[i], parent);
    FirstOfSlice(ps, i + 1);
    FirstOfSlice(ps, i);
    assert q[i - 1] == ps[i];
    assert ChildrenBlocks(fs, strip, ps[..i + 1], parent) == x + (y + z);
    assert ChildrenBlocks(fs, strip, ps[..i], parent) == x + y;
    Assoc(x, y, z);
  }

  /** A non-empty prefix: its first element, and its tail as a prefix of the tail. */
  lemma FirstOfSlice<T>(ps: seq<T>, n: nat)
    requires 0 < n <= |ps|
    ensures ps[..n][0] == ps[0] && ps[..n][1..] == ps[1..][..n - 1] && ps[..n] != []
  {
  }

  lemma Assoc(x: seq<Bytes>, y: seq<Bytes>, z: seq<Bytes>)
    ensures x + (y + z) == (x + y) + z
  {
  }

  lemma RightUnit(x: seq<Bytes>)
    ensures x + [] == x
  {
  }

  lemma LeftUnit(x: seq<Bytes>)
    ensures [] + x == x
  {
  }

  /** Blocks written one after another, grouped as the block lists of
      DumpSpec group them. */
  lemma Regroup2(s: seq<Bytes>, a: Bytes, b: Bytes)
    ensures s + [a] + [b] == s + [a, b]
  {
  }

  lemma Regroup4(s: seq<Bytes>, a: Bytes, b: Bytes, c: Bytes, d: Bytes)
    ensures s + [a] + [b] + [c] + [d] == s + [a, b, c, d]
  {
  }

  /** What dump_function writes before the code. */
  function HeadBlocks(fs: DumpFuncs, f: Proto, source: LuaString): seq<Bytes> {
    StringBlocks(fs, source) + [IntBytes(fs, f.linedefined), IntBytes(fs, f.lastlinedefined)]
    + [[f.nups], [f.numparams], [f.isVararg], [f.maxstacksize]]
  }

  /** Two runs of DumpBlock calls, one after the other. */
  lemma GateThen(w: Writer, v0: Sink, a: seq<Bytes>, v1: Sink, b: seq<Bytes>, v2: Sink)
    requires v1 == Gate(w, v0, a) && v2 == Gate(w, v1, b)
    ensures v2 == Gate(w, v0, a + b)
  {
    GateAppend(w, v0, a, b);
  }

  /** Four runs of DumpBlock calls, one after the other. */
  lemma GateFour(w: Writer, v0: Sink, a: seq<Bytes>, v1: Sink, b: seq<Bytes>, v2: Sink,
                 c: seq<Bytes>, v3: Sink, d: seq<Bytes>, v4: Sink)
    requires v1 == Gate(w, v0, a) && v2 == Gate(w, v1, b) && v3 == Gate(w, v2, c) && v4 == Gate(w, v3, d)
    ensures v4 == Gate(w, v0, a + b + c + d)
  {
    GateAppend(w, v0, a, b);
    GateAppend(w, v0, a + b, c);
    GateAppend(w, v0, a + b + c, d);
  }

  /** Two sequences whose elements have the same images have the same
      concatenated image. */
  lemma {:induction false} ConcatPointwise<T, U>(xs: seq<T>, ys: seq<U>, f: T -> Bytes, g: U -> Bytes)
    requires |xs| == |ys|
    requires forall i :: 0 <= i < |xs| ==> f(xs[i]) == g(ys[i])
    ensures Concat(xs, f) == Concat(ys, g)
  {
    if xs != [] {
      assert f(xs[0]) == g(ys[0]);
      ConcatPointwise(xs[1..], ys[1..], f, g);
    }
  }

  /** The memory of a `uint32_t` array. */
  function WordsMemory(ws: seq<bv32>, littleEndian: bool): Bytes {
    Concat(ws, w => HostBytes32(w, littleEndian))
  }

  /** One element of the scratch array of dump_code_vector_o (the
      instruction converted to `uint32_t`) or of dump_code_vector_s (the
      same passed through BSWAP_32). */
  function CodeWord(h: Host, x: nat): bv32 {
    if h.littleEndian then Word32(LE(x, 4)) else Bswap32(Word32(LE(x, 4)))
  }

  /** One element of the scratch array of dump_int_vector_o (the line
      number converted to `int32_t`) or of dump_int_vector_s (the same
      passed through BSWAP_32). */
  function LineWord(h: Host, i: int): bv32 {
    if h.littleEndian then Int32Pattern(i) else Bswap32(Int32Pattern(i))
  }

  /** The scratch array of dump_code_vector_o (instructions wider than 4
      bytes) and of dump_code_vector_s (a big-endian host): the block it
      hands to DumpBlock. */
  method PortableCodeVector(h: Host, code: seq<nat>) returns (block: Bytes)
    requires !(h.littleEndian && h.instrSize == 4)
    ensures block == Concat(code, x => InstrBytes(PortableDump(h), x))
  {
    var d := new bv32[|code|];
    for i := 0 to |code|
      invariant forall j :: 0 <= j < i ==> d[j] == CodeWord(h, code[j])
    {
      d[i] := CodeWord(h, code[i]);
    }
    block := WordsMemory(d[..], h.littleEndian);
    CodeMemory(h, d[..], code);
  }

  /** The scratch array of dump_int_vector_o (ints wider than 4 bytes)
      and of dump_int_vector_s (a big-endian host). */
  method PortableLineVector(h: Host, lineinfo: seq<int>) returns (block: Bytes)
    requires !(h.littleEndian && h.intSize == 4)
    ensures block == Concat(lineinfo, i => LineBytes(PortableDump(h), i))
  {
    var d := new bv32[|lineinfo|];
    for i := 0 to |lineinfo|
      invariant forall j :: 0 <= j < i ==> d[j] == LineWord(h, lineinfo[j])
    {
      d[i] := LineWord(h, lineinfo[i]);
    }
    block := WordsMemory(d[..], h.littleEndian);
    LineMemory(h, d[..], lineinfo);
  }

  /** The filled scratch array of PortableCodeVector, as memory. */
  lemma CodeMemory(h: Host, ws: seq<bv32>, code: seq<nat>)
    requires !(h.littleEndian && h.instrSize == 4)
    requires |ws| == |code|
    requires forall j :: 0 <= j < |ws| ==> ws[j] == CodeWord(h, code[j])
    ensures WordsMemory(ws, h.littleEndian) == Concat(code, x => InstrBytes(PortableDump(h), x))
  {
    forall j | 0 <= j < |ws| ensures HostBytes32(ws[j], h.littleEndian) == InstrBytes(PortableDump(h), code[j]) {
      assert ws[j] == CodeWord(h, code[j]);
    }
    ConcatPointwise(ws, code, w => HostBytes32(w, h.littleEndian), x => InstrBytes(PortableDump(h), x));
  }

  /** The filled scratch array of PortableLineVector, as memory. */
  lemma LineMemory(h: Host, ws: seq<bv32>, lineinfo: seq<int>)
    requires !(h.littleEndian && h.intSize == 4)
    requires |ws| == |lineinfo|
    requires forall j :: 0 <= j < |ws| ==> ws[j] == LineWord(h, lineinfo[j])
    ensures WordsMemory(ws, h.littleEndian) == Concat(lineinfo, i => LineBytes(PortableDump(h), i))
  {
    forall j | 0 <= j < |ws| ensures HostBytes32(ws[j], h.littleEndian) == LineBytes(PortableDump(h), lineinfo[j]) {
      assert ws[j] == LineWord(h, lineinfo[j]);
    }
    ConcatPointwise(ws, lineinfo, w => HostBytes32(w, h.littleEndian), i => LineBytes(PortableDump(h), i));
  }

  /** DumpState: the writer, the strip flag and the status, together with
      the blocks the writer has received (`sent`) and the primitives in
      use (`fs`: the native ones, or those setup_dump_funcs chose). */
  class DumpState {
    const writer: Writer
    const host: Host
    const strip: bool
    var fs: DumpFuncs
    var status: int
    var sent: seq<Bytes>

    /** What the writer has seen, and the status it last returned. */
    function View(): Sink
      reads this`status, this`sent
    {
      Sink(status, sent)
    }

    constructor (writer: Writer, host: Host, strip: bool)
      ensures this.writer == writer && this.host == host && this.strip == strip
      ensures fs == NativeDump(host) && View() == Sink(0, [])
    {
      this.writer := writer;
      this.host := host;
      this.strip := strip;
      fs := NativeDump(host);
      status := 0;
      sent := [];
    }

    /** DumpBlock: the writer is called only while the status is 0. */
    method DumpBlock(b: Bytes)
      modifies this`status, this`sent
      ensures View() == Gate(writer, old(View()), [b])
    {
      GateOne(writer, View(), b);
      if status == 0 {
        status := writer(sent, b);
        sent := sent + [b];
      }
    }

    /** DumpChar. */
    method DumpChar(y: bv8)
      modifies this`status, this`sent
      ensures View() == Gate(writer, old(View()), [[y]])
    {
      DumpBlock([y]);
    }

    /** DumpInt (DumpVar of an int) or dump_int_o / dump_int_s. */
    method DumpInt(x: int)
      modifies this`status, this`sent
      ensures View() == Gate(writer, old(View()), [IntBytes(fs, x)])
    {
      match fs
      case NativeDump(h) =>
        DumpBlock(NativeInt(h, x));
      case PortableDump(h) =>
        if h.littleEndian {
          DumpBlock(DumpIntO(x));
        } else {
          DumpBlock(DumpIntS(x));
        }
    }

    /** The size_t DumpVar of DumpString, or dump_size_t_o / _s. */
    method DumpSize(n: nat)
      modifies this`status, this`sent
      ensures View() == Gate(writer, old(View()), [SizeBytes(fs, n)])
    {
      match fs
      case NativeDump(h) =>
        DumpBlock(NativeSize(h, n));
      case PortableDump(h) =>
        if h.littleEndian {
          DumpBlock(DumpSizeO(n));
        } else {
          DumpBlock(DumpSizeS(n));
        }
    }

    /** DumpNumber, or dump_number_o / dump_number_s. */
    method DumpNumber(x: Image8)
      modifies this`status, this`sent
      ensures View() == Gate(writer, old(View()), [NumberBytes(fs, x)])
    {
      match fs
      case NativeDump(_) =>
        DumpBlock(x);
      case PortableDump(h) =>
        if h.float == IeeeBig {
          DumpBlock(DumpNumberS(h, x));
        } else {
          DumpBlock(x);
        }
    }

    /** DumpString / dump_string. */
    method DumpString(s: LuaString)
      modifies this`status, this`sent
      ensures View() == Gate(writer, old(View()), StringBlocks(fs, s))
    {
      ghost var v0 := View();
      match s
      case None =>
        DumpSize(0);
      case Some(b) =>
        DumpSize(|b| + 1);
        DumpBlock(b + [0]);
        GateAppend(writer, v0, [SizeBytes(fs, |b| + 1)], [b + [0]]);
    }

    /** DumpCode (DumpVector of the instructions) or dump_code_vector_o /
        dump_code_vector_s: the count, then one block; the instructions'
        own memory where the C code copies it, else the scratch array. */
    method DumpCode(code: seq<nat>)
      modifies this`status, this`sent
      ensures View() == Gate(writer, old(View()), CodeBlocks(fs, code))
    {
      ghost var v0 := View();
      var dfs := fs;
      DumpInt(|code|);
      ghost var v1 := View();
      var block;
      if dfs.NativeDump? || (dfs.host.littleEndian && dfs.host.instrSize == 4) {
        block := Concat(code, x => InstrBytes(dfs, x));
      } else {
        block := PortableCodeVector(dfs.host, code);
      }
      DumpBlock(block);
      GateThen(writer, v0, [IntBytes(dfs, |code|)], v1, [block], View());
    }

    /** The line information: DumpVector, or dump_int_vector_o /
        dump_int_vector_s. */
    method DumpLineinfo(lineinfo: seq<int>)
      modifies this`status, this`sent
      ensures View() == Gate(writer, old(View()), LineinfoBlocks(fs, lineinfo))
    {
      ghost var v0 := View();
      var dfs := fs;
      DumpInt(|lineinfo|);
      ghost var v1 := View();
      var block;
      if dfs.NativeDump? || (dfs.host.littleEndian && dfs.host.intSize == 4) {
        block := Concat(lineinfo, i => LineBytes(dfs, i));
      } else {
        block := PortableLineVector(dfs.host, lineinfo);
      }
      DumpBlock(block);
      GateThen(writer, v0, [IntBytes(dfs, |lineinfo|)], v1, [block], View());
    }

    /** One constant of DumpConstants / dump_constants: the tag, then the
        value the tag calls for. */
    method DumpConstant(c: Constant)
      modifies this`status, this`sent
      ensures View() == Gate(writer, old(View()), ConstantBlocks(fs, c))
    {
      ghost var v0 := View();
      DumpChar(TagOf(c));
      ghost var v1 := View();
      match c
      case Nil =>
        assert [[TagOf(c)]] + [] == [[TagOf(c)]];
      case Boolean(b) =>
        DumpChar(Flag(b));
        GateThen(writer, v0, [[TagOf(c)]], v1, [[Flag(b)]], View());
      case Number(x) =>
        DumpNumber(x);
        GateThen(writer, v0, [[TagOf(c)]], v1, [NumberBytes(fs, x)], View());
      case Str(s) =>
        DumpString(s);
        GateThen(writer, v0, [[TagOf(c)]], v1, StringBlocks(fs, s), View());
    }

    /** The constant loop of DumpConstants / dump_constants. */
    method DumpConstantValues(k: seq<Constant>)
      modifies this`status, this`sent
      ensures var dfs := fs; View() == Gate(writer, old(View()), Blocks(k, c => ConstantBlocks(dfs, c)))
    {
      ghost var v0 := View();
      ghost var dfs := fs;
      for i := 0 to |k|
        invariant View() == Gate(writer, v0, Blocks(k[..i], c => ConstantBlocks(dfs, c)))
      {
        DumpConstantAt(k, i, v0);
      }
      assert k[..|k|] == k;
    }

    /** One turn of the constant loop. */
    method DumpConstantAt(k: seq<Constant>, i: nat, ghost v0: Sink)
      requires i < |k|
      requires var dfs := fs; View() == Gate(writer, v0, Blocks(k[..i], c => ConstantBlocks(dfs, c)))
      modifies this`status, this`sent
      ensures var dfs := fs; View() == Gate(writer, v0, Blocks(k[..i + 1], c => ConstantBlocks(dfs, c)))
    {
      ghost var dfs := fs;
      ghost var blocks := c => ConstantBlocks(dfs, c);
      ghost var v1 := View();
      DumpConstant(k[i]);
      GateThen(writer, v0, Blocks(k[..i], blocks), v1, ConstantBlocks(dfs, k[i]), View());
      BlocksSnoc(k, i, blocks);
    }

    /** DumpConstants / dump_constants: the constants, then the nested
        prototypes with this one's source as their parent's. */
    method DumpConstants(f: Proto)
      modifies this`status, this`sent
      ensures View() == Gate(writer, old(View()), ConstantsBlocks(fs, strip, f))
      decreases f, 1
    {
      ghost var dfs := fs;
      ghost var v0 := View();
      DumpInt(|f.k|);
      ghost var v1 := View();
      DumpConstantValues(f.k);
      ghost var v2 := View();
      DumpInt(|f.p|);
      ghost var v3 := View();
      for i := 0 to |f.p|
        invariant View() == Gate(writer, v3, ChildrenBlocks(dfs, strip, f.p[..i], f.source))
      {
        DumpChildAt(f, i, v3);
      }
      assert f.p[..|f.p|] == f.p;
      GateFour(writer, v0, [IntBytes(dfs, |f.k|)], v1, Blocks(f.k, c => ConstantBlocks(dfs, c)), v2,
               [IntBytes(dfs, |f.p|)], v3, ChildrenBlocks(dfs, strip, f.p, f.source), View());
    }

    /** One turn of the nested prototype loop. */
    method DumpChildAt(f: Proto, i: nat, ghost v0: Sink)
      requires i < |f.p|
      requires View() == Gate(writer, v0, ChildrenBlocks(fs, strip, f.p[..i], f.source))
      modifies this`status, this`sent
      ensures View() == Gate(writer, v0, ChildrenBlocks(fs, strip, f.p[..i + 1], f.source))
      decreases f, 0
    {
      ghost var v1 := View();
      DumpFunction(f.p[i], f.source);
      GateThen(writer, v0, ChildrenBlocks(fs, strip, f.p[..i], f.source), v1,
               FunctionBlocks(fs, strip, f.p[i], f.source), View());
      ChildrenSnoc(fs, strip, f.p, i, f.source);
    }

    /** One local variable record: name, startpc, endpc. */
    method DumpLocVar(v: LocVar)
      modifies this`status, this`sent
      ensures View() == Gate(writer, old(View()), LocVarBlocks(fs, v))
    {
      ghost var v0 := View();
      DumpString(v.varname);
      ghost var v1 := View();
      DumpInt(v.startpc);
      ghost var v2 := View();
      DumpInt(v.endpc);
      GateThen(writer, v0, StringBlocks(fs, v.varname), v1, [IntBytes(fs, v.startpc)], v2);
      GateThen(writer, v0, StringBlocks(fs, v.varname) + [IntBytes(fs, v.startpc)], v2,
               [IntBytes(fs, v.endpc)], View());
      Regroup2(StringBlocks(fs, v.varname), IntBytes(fs, v.startpc), IntBytes(fs, v.endpc));
    }

    /** The local variable loop of DumpDebug / dump_debug. */
    method DumpLocVars(locvars: seq<LocVar>)
      modifies this`status, this`sent
      ensures var dfs := fs; View() == Gate(writer, old(View()), Blocks(locvars, v => LocVarBlocks(dfs, v)))
    {
      ghost var v0 := View();
      ghost var dfs := fs;
      for i := 0 to |locvars|
        invariant View() == Gate(writer, v0, Blocks(locvars[..i], v => LocVarBlocks(dfs, v)))
      {
        DumpLocVarAt(locvars, i, v0);
      }
      assert locvars[..|locvars|] == locvars;
    }

    /** One turn of the local variable loop. */
    method DumpLocVarAt(locvars: seq<LocVar>, i: nat, ghost v0: Sink)
      requires i < |locvars|
      requires var dfs := fs; View() == Gate(writer, v0, Blocks(locvars[..i], v => LocVarBlocks(dfs, v)))
      modifies this`status, this`sent
      ensures var dfs := fs; View() == Gate(writer, v0, Blocks(locvars[..i + 1], v => LocVarBlocks(dfs, v)))
    {
      ghost var dfs := fs;
      ghost var blocks := v => LocVarBlocks(dfs, v);
      ghost var v1 := View();
      DumpLocVar(locvars[i]);
      GateThen(writer, v0, Blocks(locvars[..i], blocks), v1, LocVarBlocks(dfs, locvars[i]), View());
      BlocksSnoc(locvars, i, blocks);
    }

    /** The upvalue loop of DumpDebug / dump_debug. */
    method DumpUpvalues(upvalues: seq<LuaString>)
      modifies this`status, this`sent
      ensures var dfs := fs; View() == Gate(writer, old(View()), Blocks(upvalues, u => StringBlocks(dfs, u)))
    {
      ghost var v0 := View();
      ghost var dfs := fs;
      for i := 0 to |upvalues|
        invariant View() == Gate(writer, v0, Blocks(upvalues[..i], u => StringBlocks(dfs, u)))
      {
        DumpUpvalueAt(upvalues, i, v0);
      }
      assert upvalues[..|upvalues|] == upvalues;
    }

    /** One turn of the upvalue loop. */
    method DumpUpvalueAt(upvalues: seq<LuaString>, i: nat, ghost v0: Sink)
      requires i < |upvalues|
      requires var dfs := fs; View() == Gate(writer, v0, Blocks(upvalues[..i], u => StringBlocks(dfs, u)))
      modifies this`status, this`sent
      ensures var dfs := fs; View() == Gate(writer, v0, Blocks(upvalues[..i + 1], u => StringBlocks(dfs, u)))
    {
      ghost var dfs := fs;
      ghost var blocks := u => StringBlocks(dfs, u);
      ghost var v1 := View();
      DumpString(upvalues[i]);
      GateThen(writer, v0, Blocks(upvalues[..i], blocks), v1, StringBlocks(dfs, upvalues[i]), View());
      BlocksSnoc(upvalues, i, blocks);
    }

    /** DumpDebug / dump_debug: with `strip`, every count is 0. */
    method DumpDebug(f: Proto)
      modifies this`status, this`sent
      ensures View() == Gate(writer, old(View()), DebugBlocks(fs, strip, f))
    {
      ghost var dfs := fs;
      ghost var v0 := View();
      var lineinfo := if strip then [] else f.lineinfo;
      var locvars := if strip then [] else f.locvars;
      var upvalues := if strip then [] else f.upvalues;
      DumpLineinfo(lineinfo);
      ghost var v1 := View();
      DumpInt(|locvars|);
      ghost var v1' := View();
      DumpLocVars(locvars);
      ghost var v2 := View();
      DumpInt(|upvalues|);
      ghost var v2' := View();
      DumpUpvalues(upvalues);
      ghost var a := LineinfoBlocks(dfs, lineinfo);
      ghost var x := [IntBytes(dfs, |locvars|)];
      ghost var b := Blocks(locvars, v => LocVarBlocks(dfs, v));
      ghost var y := [IntBytes(dfs, |upvalues|)];
      ghost var c := Blocks(upvalues, u => StringBlocks(dfs, u));
      GateThen(writer, v0, a, v1, x, v1');
      GateThen(writer, v0, a + x, v1', b, v2);
      GateThen(writer, v0, a + x + b, v2, y, v2');
      GateThen(writer, v0, a + x + b + y, v2', c, View());
    }

    /** The first writes of DumpFunction / dump_function: the source name
        (or none), the line range and the four byte-sized fields. */
    method DumpHead(f: Proto, source: LuaString)
      modifies this`status, this`sent
      ensures View() == Gate(writer, old(View()), HeadBlocks(fs, f, source))
    {
      ghost var v0 := View();
      DumpString(source);
      ghost var acc := StringBlocks(fs, source);
      ghost var v := View();
      DumpInt(f.linedefined);
      GateThen(writer, v0, acc, v, [IntBytes(fs, f.linedefined)], View());
      acc, v := acc + [IntBytes(fs, f.linedefined)], View();
      DumpInt(f.lastlinedefined);
      GateThen(writer, v0, acc, v, [IntBytes(fs, f.lastlinedefined)], View());
      acc, v := acc + [IntBytes(fs, f.lastlinedefined)], View();
      DumpChar(f.nups);
      GateThen(writer, v0, acc, v, [[f.nups]], View());
      acc, v := acc + [[f.nups]], View();
      DumpChar(f.numparams);
      GateThen(writer, v0, acc, v, [[f.numparams]], View());
      acc, v := acc + [[f.numparams]], View();
      DumpChar(f.isVararg);
      GateThen(writer, v0, acc, v, [[f.isVararg]], View());
      acc, v := acc + [[f.isVararg]], View();
      DumpChar(f.maxstacksize);
      GateThen(writer, v0, acc, v, [[f.maxstacksize]], View());
      Regroup2(StringBlocks(fs, source), IntBytes(fs, f.linedefined), IntBytes(fs, f.lastlinedefined));
      Regroup4(StringBlocks(fs, source) + [IntBytes(fs, f.linedefined), IntBytes(fs, f.lastlinedefined)],
               [f.nups], [f.numparams], [f.isVararg], [f.maxstacksize]);
    }

    /** DumpFunction / dump_function, with `parent` the source of the
        enclosing prototype (none for the root). */
    method DumpFunction(f: Proto, parent: LuaString)
      modifies this`status, this`sent
      ensures View() == Gate(writer, old(View()), FunctionBlocks(fs, strip, f, parent))
      decreases f, 2
    {
      ghost var dfs := fs;
      ghost var v0 := View();
      var source := if f.source == parent || strip then None else f.source;
      DumpHead(f, source);
      ghost var v1 := View();
      DumpCode(f.code);
      ghost var v2 := View();
      DumpConstants(f);
      ghost var v3 := View();
      DumpDebug(f);
      assert FunctionBlocks(dfs, strip, f, parent)
        == HeadBlocks(dfs, f, source) + CodeBlocks(dfs, f.code) + ConstantsBlocks(dfs, strip, f) + DebugBlocks(dfs, strip, f);
      GateFour(writer, v0, HeadBlocks(dfs, f, source), v1, CodeBlocks(dfs, f.code), v2, ConstantsBlocks(dfs, strip, f), v3,
               DebugBlocks(dfs, strip, f), View());
    }

    /** DumpHeader: the native header, as one block. */
    method DumpHeader()
      modifies this`status, this`sent
      ensures View() == Gate(writer, old(View()), [NativeHeader(host)])
    {
      var header := new bv8[LuacHeaderSize];
      MakeHeader(host, header);
      DumpBlock(header[..]);
    }

    /** The portable header, which luaU_dump writes as one block before
        anything can throw. */
    method DumpHeaderP()
      modifies this`status, this`sent
      ensures View() == Gate(writer, old(View()), [PortableHeader(host)])
    {
      var header := new bv8[LuacHeaderSize];
      MakeHeaderP(host, header);
      DumpBlock(header[..]);
    }

    /** setup_dump_funcs: switch to the portable primitives, or throw
        "dump: unknown number format". */
    method SetupDumpFuncs() returns (e: Option<CodecError>)
      modifies this`fs
      ensures e.None? <==> DumpSpec.SetupDumpFuncs(host).Ok?
      ensures e.Some? ==> e.value == DumpSpec.SetupDumpFuncs(host).error && fs == old(fs)
      ensures e.None? ==> fs == DumpSpec.SetupDumpFuncs(host).value
    {
      if host.float == UnknownFloat {
        return Some(UnknownNumberFormat);
      }
      fs := PortableDump(host);
      return None;
    }
  }

  /** luaU_dump: the header (luaU_header_p in portable mode, luaU_header
      otherwise), then the root prototype without a parent source. The
      result is the final status, the blocks the writer received, and the
      error thrown, if any. */
  method Dump(h: Host, portable: bool, strip: bool, f: Proto, w: Writer)
    returns (status: int, sent: seq<Bytes>, thrown: Option<CodecError>)
    ensures var run := DumpChunk(h, portable, strip, f);
      Sink(status, sent) == Gate(w, Sink(0, []), run.blocks) && thrown == run.thrown
  {
    var D := new DumpState(w, h, strip);
    ghost var run := DumpChunk(h, portable, strip, f);
    if portable {
      D.DumpHeaderP();
      thrown := D.SetupDumpFuncs();
      if thrown.Some? {
        assert run.blocks == [run.blocks[0]];
        return D.status, D.sent, thrown;
      }
    } else {
      D.DumpHeader();
      thrown := None;
    }
    ghost var v1 := D.View();
    ghost var body := FunctionBlocks(D.fs, strip, f, None);
    ChunkBody(h, portable, strip, f, D.fs);
    D.DumpFunction(f, None);
    ChunkGate(w, run.blocks, body, v1, D.View());
    status, sent := D.status, D.sent;
  }

  /** The writer's view after the root prototype, from its view after the
      header. */
  lemma ChunkGate(w: Writer, blocks: seq<Bytes>, body: seq<Bytes>, v1: Sink, v2: Sink)
    requires |blocks| >= 1 && blocks == [blocks[0]] + body
    requires v1 == Gate(w, Sink(0, []), [blocks[0]]) && v2 == Gate(w, v1, body)
    ensures v2 == Gate(w, Sink(0, []), blocks)
  {
    GateAppend(w, Sink(0, []), [blocks[0]], body);
  }

  /** Once the dump functions are set up, the chunk is the header followed
      by the root prototype's blocks. */
  lemma ChunkBody(h: Host, portable: bool, strip: bool, f: Proto, fs: DumpFuncs)
    requires portable ==> DumpSpec.SetupDumpFuncs(h) == Ok(fs)
    requires !portable ==> fs == NativeDump(h)
    ensures var run := DumpChunk(h, portable, strip, f);
      run.thrown.None? && run.blocks == [run.blocks[0]] + FunctionBlocks(fs, strip, f, None)
  {
  }
}
