/** The loader of src/lundump.c as it runs: a LoadState whose cursor
    luaZ_read advances, the C-call counter of the Lua state that
    load_function raises and lowers, and the loops that fill a prototype's
    arrays. Each method is proved to read what the functions of LoadSpec
    read from the bytes in front of the cursor. */
module Loader {
  import opened Wrappers
  import opened ByteSeq
  import opened LundumpH
  import opened Chunk
  import opened Header
  import opened LoadSpec

  /** A method's result with the bytes it left unread, as a LoadSpec step. */
  function AsLoad<T>(r: Result<T, CodecError>, rest: Bytes): Load<T> {
    match r
    case Ok(v) => Ok(Parsed(v, rest))
    case Err(e) => Err(e)
  }

  // ---------------------------------------------------------------------
  // Loops of reads

  /** One more read after i successful ones. */
  lemma {:induction false} RepeatSnoc<T>(i: nat, s: Bytes, item: Bytes -> Load<T>, xs: seq<T>, t: Bytes,
                                         x: T, u: Bytes)
    requires Repeat(i, s, item) == Ok(Parsed(xs, t)) && item(t) == Ok(Parsed(x, u))
    ensures Repeat(i + 1, s, item) == Ok(Parsed(xs + [x], u))
  {
    if i == 0 {
      assert Repeat(0, u, item) == Ok(Parsed([], u));
      assert xs + [x] == [x] + [];
    } else {
      var y := item(s).value;
      var ys := Repeat(i - 1, y.rest, item).value;
      assert xs == [y.value] + ys.value;
      assert xs[1..] == ys.value;
      RepeatSnoc(i - 1, y.rest, item, xs[1..], t, x, u);
      assert [y.value] + (xs[1..] + [x]) == xs + [x];
    }
  }

  /** A failed read after i successful ones fails the whole loop of n > i
      reads with the same error. */
  lemma {:induction false} RepeatFails<T>(i: nat, n: nat, s: Bytes, item: Bytes -> Load<T>, xs: seq<T>, t: Bytes)
    requires i < n && Repeat(i, s, item) == Ok(Parsed(xs, t)) && item(t).Err?
    ensures Repeat(n, s, item) == Err(item(t).error)
  {
    if i > 0 {
      RepeatFails(i - 1, n - 1, item(s).value.rest, item, xs[1..], t);
    }
  }

  /** The words of a big-endian host's vector after the swapping loop. */
  function SwappedWords(ws: seq<bv32>): seq<bv32> {
    seq(|ws|, i requires 0 <= i < |ws| => Bswap32(ws[i]))
  }

  /** load_byte4_vector in terms of its two reads. */
  lemma Byte4VectorSteps(h: Host, s: Bytes, n: int, t: Bytes, b: Bytes, rest: Bytes)
    requires (if h.littleEndian then LoadIntO(s) else LoadIntS(s)) == Ok(Parsed(n, t))
    requires n >= 0 && Read(t, n * 4) == Ok(Parsed(b, rest))
    ensures var ws := MemoryWords32(b, h.littleEndian);
      LoadByte4Vector(h, s) == Ok(Parsed(if h.littleEndian then ws else SwappedWords(ws), rest))
  {
  }

  /** The loop of load_byte4_vector_s: every word swapped in place. */
  method SwapWords(ds: array<bv32>)
    modifies ds
    ensures ds[..] == SwappedWords(old(ds[..]))
  {
    for i := 0 to ds.Length
      invariant forall j :: 0 <= j < i ==> ds[j] == Bswap32(old(ds[j]))
      invariant forall j :: i <= j < ds.Length ==> ds[j] == old(ds[j])
    {
      ds[i] := Bswap32(ds[i]);
    }
  }

  /** The instructions in the memory of a native code vector. */
  function NativeInstructions(h: Host, b: Bytes): seq<nat> {
    var cs := Chunks(b, h.instrSize);
    seq(|cs|, i requires 0 <= i < |cs| => NativeValue(cs[i], h.littleEndian))
  }

  /** The line numbers in the memory of a native int vector. */
  function NativeLines(h: Host, b: Bytes): seq<int> {
    var cs := Chunks(b, h.intSize);
    seq(|cs|, i requires 0 <= i < |cs| => Signed(NativeValue(cs[i], h.littleEndian), h.intSize))
  }

  /** The uint32 words of a portable code vector as instructions. */
  function Instructions(v: seq<bv32>): seq<nat> {
    seq(|v|, i requires 0 <= i < |v| => Uint32Value(v[i]))
  }

  /** The int32 words of a portable line vector as ints. */
  function Lines(v: seq<bv32>): seq<int> {
    seq(|v|, i requires 0 <= i < |v| => Int32Value(v[i]))
  }

  lemma NativeVectorSteps(h: Host, s: Bytes, n: int, t: Bytes, b: Bytes, rest: Bytes)
    requires LoadIntN(h, s) == Ok(Parsed(n, t))
    requires n >= 0 && Read(t, VectorSize(n, h.instrSize)) == Ok(Parsed(b, rest))
    ensures LoadSpec.LoadCode(NativeLoad(h), s) == Ok(Parsed(NativeInstructions(h, b), rest))
  {
  }

  lemma NativeLinesSteps(h: Host, s: Bytes, n: int, t: Bytes, b: Bytes, rest: Bytes)
    requires LoadIntN(h, s) == Ok(Parsed(n, t))
    requires n >= 0 && Read(t, VectorSize(n, h.intSize)) == Ok(Parsed(b, rest))
    ensures LoadSpec.LoadLineinfo(NativeLoad(h), s) == Ok(Parsed(NativeLines(h, b), rest))
  {
  }

  lemma PortableCodeSteps(h: Host, sp: bool, s: Bytes, v: seq<bv32>, rest: Bytes)
    requires LoadByte4Vector(h, s) == Ok(Parsed(v, rest))
    ensures LoadSpec.LoadCode(PortableLoad(h, sp), s) == Ok(Parsed(Instructions(v), rest))
  {
    var x := LoadSpec.LoadCode(PortableLoad(h, sp), s).value.value;
    assert x == Instructions(v) by {
      forall i | 0 <= i < |v|
        ensures x[i] == Instructions(v)[i]
      {
      }
    }
  }

  lemma PortableLinesSteps(h: Host, sp: bool, s: Bytes, v: seq<bv32>, rest: Bytes)
    requires LoadByte4Vector(h, s) == Ok(Parsed(v, rest))
    ensures LoadSpec.LoadLineinfo(PortableLoad(h, sp), s) == Ok(Parsed(Lines(v), rest))
  {
    var x := LoadSpec.LoadLineinfo(PortableLoad(h, sp), s).value.value;
    assert x == Lines(v) by {
      forall i | 0 <= i < |v|
        ensures x[i] == Lines(v)[i]
      {
      }
    }
  }

  /** The loop of load_code when Instruction is not 32 bits wide: each
      word copied into a new vector of instructions. */
  method WidenInstructions(v: seq<bv32>) returns (code: seq<nat>)
    ensures code == Instructions(v)
  {
    var pi := new nat[|v|];
    for i := 0 to |v|
      invariant forall j :: 0 <= j < i ==> pi[j] == Uint32Value(v[j])
    {
      pi[i] := Uint32Value(v[i]);
    }
    code := pi[..];
  }

  /** The loop of load_debug when int is not 32 bits wide. */
  method WidenLines(v: seq<bv32>) returns (lineinfo: seq<int>)
    ensures lineinfo == Lines(v)
  {
    var pi := new int[|v|];
    for i := 0 to |v|
      invariant forall j :: 0 <= j < i ==> pi[j] == Int32Value(v[j])
    {
      pi[i] := Int32Value(v[i]);
    }
    lineinfo := pi[..];
  }

  /** A vector filled up to i, and then at i. */
  lemma SliceSnoc<T>(a: seq<T>, i: nat)
    requires i < |a|
    ensures a[..i + 1] == a[..i] + [a[i]]
  {
  }

  /** One turn of a loop of n reads after i successful ones: a failed
      read is the loop's error, a successful one extends what was read. */
  lemma RepeatStep<T>(i: nat, n: nat, s: Bytes, item: Bytes -> Load<T>, xs: seq<T>, t: Bytes, res: Load<T>)
    requires i < n && Repeat(i, s, item) == Ok(Parsed(xs, t)) && item(t) == res
    ensures res.Err? ==> Repeat(n, s, item) == Err(res.error)
    ensures res.Ok? ==> Repeat(i + 1, s, item) == Ok(Parsed(xs + [res.value.value], res.value.rest))
  {
    if res.Err? {
      RepeatFails(i, n, s, item, xs, t);
    } else {
      RepeatSnoc(i, s, item, xs, t, res.value.value, res.value.rest);
    }
  }

  // ---------------------------------------------------------------------
  // The state

  /** LoadState together with the part of the Lua state the loader
      touches. `data` is everything the stream can deliver, `pos` how much
      of it has been read, `nCcalls` the C-call counter. `portable` records
      which header check_header found; `sourcePortable` how source names
      are read (false: as written; true: corrected). */
  class LoadState {
    const data: Bytes
    const host: Host
    const sourcePortable: bool
    const check: Proto -> bool
    var pos: nat
    var nCcalls: nat
    var portable: bool

    predicate Valid()
      reads this`pos
    {
      pos <= |data|
    }

    /** The bytes not yet read. */
    function Rest(): Bytes
      reads this`pos
      requires Valid()
    {
      data[pos..]
    }

    /** The primitives in use: the native ones, or those setup_load_funcs
        chose for the host. */
    function Funcs(): LoadFuncs
      reads this`portable
    {
      if portable then PortableLoad(host, sourcePortable) else NativeLoad(host)
    }

    constructor (data: Bytes, host: Host, sourcePortable: bool, check: Proto -> bool, nCcalls: nat)
      ensures this.data == data && this.host == host && this.sourcePortable == sourcePortable
      ensures this.check == check && this.nCcalls == nCcalls && pos == 0 && !portable
    {
      this.data := data;
      this.host := host;
      this.sourcePortable := sourcePortable;
      this.check := check;
      this.nCcalls := nCcalls;
      pos := 0;
      portable := false;
    }

    /** LoadBlock: luaZ_read of n bytes. */
    method LoadBlock(n: nat) returns (r: Result<Bytes, CodecError>)
      requires Valid()
      modifies this`pos
      ensures Valid() && AsLoad(r, Rest()) == Read(old(Rest()), n)
    {
      if n > |data| - pos {
        return Err(UnexpectedEnd);
      }
      assert data[pos..][..n] == data[pos..pos + n] && data[pos..][n..] == data[pos + n..];
      r := Ok(data[pos..pos + n]);
      pos := pos + n;
    }

    /** LoadChar / LoadByte. */
    method LoadChar() returns (r: Result<bv8, CodecError>)
      requires Valid()
      modifies this`pos
      ensures Valid() && AsLoad(r, Rest()) == LoadSpec.LoadChar(old(Rest()))
    {
      var b :- LoadBlock(1);
      return Ok(b[0]);
    }

    /** LoadInt: a host int copied from the stream. */
    method LoadIntN() returns (r: Result<int, CodecError>)
      requires Valid()
      modifies this`pos
      ensures Valid() && AsLoad(r, Rest()) == LoadSpec.LoadIntN(host, old(Rest()))
    {
      ghost var s := Rest();
      var b :- LoadBlock(host.intSize);
      assert Read(s, host.intSize) == Ok(Parsed(b, Rest()));
      var x := Signed(NativeValue(b, host.littleEndian), host.intSize);
      if x < 0 {
        return Err(BadInteger);
      }
      return Ok(x);
    }

    /** load_int_o. */
    method LoadIntO() returns (r: Result<int, CodecError>)
      requires Valid()
      modifies this`pos
      ensures Valid() && AsLoad(r, Rest()) == LoadSpec.LoadIntO(old(Rest()))
    {
      var b :- LoadBlock(4);
      var x := HostWord32(b, true);
      if Int32Value(x) < 0 {
        return Err(BadInteger);
      }
      return Ok(Int32Value(x));
    }

    /** load_int_s: the word is swapped before its sign is looked at. */
    method LoadIntS() returns (r: Result<int, CodecError>)
      requires Valid()
      modifies this`pos
      ensures Valid() && AsLoad(r, Rest()) == LoadSpec.LoadIntS(old(Rest()))
    {
      var b :- LoadBlock(4);
      var x := HostWord32(b, false);
      x := Bswap32(x);
      if Int32Value(x) < 0 {
        return Err(BadInteger);
      }
      return Ok(Int32Value(x));
    }

    /** load_int / LoadInt, whichever is in use. */
    method LoadInt() returns (r: Result<int, CodecError>)
      requires Valid()
      modifies this`pos
      ensures Valid() && AsLoad(r, Rest()) == LoadSpec.LoadInt(Funcs(), old(Rest()))
    {
      if !portable {
        r := LoadIntN();
      } else if host.littleEndian {
        r := LoadIntO();
      } else {
        r := LoadIntS();
      }
    }
  
    /** The size_t LoadVar of LoadString. */
    method LoadSizeN() returns (r: Result<nat, CodecError>)
      requires Valid()
      modifies this`pos
      ensures Valid() && AsLoad(r, Rest()) == LoadSpec.LoadSizeN(host, old(Rest()))
    {
      var b :- LoadBlock(host.sizeTSize);
      return Ok(NativeValue(b, host.littleEndian));
    }

    /** load_size_t_o: a uint64, cast to size_t. */
    method LoadSizeO() returns (r: Result<nat, CodecError>)
      requires Valid()
      modifies this`pos
      ensures Valid() && AsLoad(r, Rest()) == LoadSpec.LoadSizeO(host, old(Rest()))
    {
      var b :- LoadBlock(8);
      var x := HostWord64(b, true);
      return Ok(Uint64Value(x) % Pow256(host.sizeTSize));
    }

    /** load_size_t_s: a uint64, swapped, cast to size_t. */
    method LoadSizeS() returns (r: Result<nat, CodecError>)
      requires Valid()
      modifies this`pos
      ensures Valid() && AsLoad(r, Rest()) == LoadSpec.LoadSizeS(host, old(Rest()))
    {
      var b :- LoadBlock(8);
      var x := HostWord64(b, false);
      x := Bswap64(x);
      return Ok(Uint64Value(x) % Pow256(host.sizeTSize));
    }

    /** load_size_t / the native size_t, whichever is in use. */
    method LoadSize() returns (r: Result<nat, CodecError>)
      requires Valid()
      modifies this`pos
      ensures Valid() && AsLoad(r, Rest()) == LoadSpec.LoadSize(Funcs(), old(Rest()))
    {
      if !portable {
        r := LoadSizeN();
      } else if host.littleEndian {
        r := LoadSizeO();
      } else {
        r := LoadSizeS();
      }
    }

    /** LoadNumber and load_number_o: the double's bytes as they are. */
    method LoadNumberRaw() returns (r: Result<Image8, CodecError>)
      requires Valid()
      modifies this`pos
      ensures Valid() && AsLoad(r, Rest()) == LoadSpec.LoadNumberRaw(old(Rest()))
    {
      r := LoadBlock(8);
    }

    /** load_number_s: through a union of double and uint64, swapped. */
    method LoadNumberS() returns (r: Result<Image8, CodecError>)
      requires Valid()
      modifies this`pos
      ensures Valid() && AsLoad(r, Rest()) == LoadSpec.LoadNumberS(host, old(Rest()))
    {
      var b :- LoadBlock(8);
      var u := HostWord64(b, host.littleEndian);
      u := Bswap64(u);
      return Ok(HostBytes64(u, host.littleEndian));
    }

    /** load_number / LoadNumber, whichever is in use. */
    method LoadNumber() returns (r: Result<Image8, CodecError>)
      requires Valid()
      modifies this`pos
      ensures Valid() && AsLoad(r, Rest()) == LoadSpec.LoadNumber(Funcs(), old(Rest()))
    {
      if portable && host.float == IeeeBig {
        r := LoadNumberS();
      } else {
        r := LoadNumberRaw();
      }
    }

    /** The body of load_string / LoadString once `size` is read. */
    method LoadStringBody(size: nat) returns (r: Result<LuaString, CodecError>)
      requires Valid()
      modifies this`pos
      ensures Valid() && AsLoad(r, Rest()) == LoadSpec.LoadStringBody(Ok(Parsed(size, old(Rest()))))
    {
      if size == 0 {
        return Ok(None);
      }
      var b :- LoadBlock(size);
      return Ok(Some(b[..size - 1]));
    }

    /** load_string / LoadString, whichever is in use. */
    method LoadString() returns (r: Result<LuaString, CodecError>)
      requires Valid()
      modifies this`pos
      ensures Valid() && AsLoad(r, Rest()) == LoadSpec.LoadString(Funcs(), old(Rest()))
    {
      var size :- LoadSize();
      r := LoadStringBody(size);
    }

    /** LoadString of lundump.c, with the native size_t. */
    method NativeLoadString() returns (r: Result<LuaString, CodecError>)
      requires Valid()
      modifies this`pos
      ensures Valid() && AsLoad(r, Rest()) == LoadSpec.NativeLoadString(host, old(Rest()))
    {
      var size :- LoadSizeN();
      r := LoadStringBody(size);
    }

    /** The source name at the head of a prototype: load_function calls
        LoadString; the corrected loader calls load_string. */
    method LoadSource() returns (r: Result<LuaString, CodecError>)
      requires Valid()
      modifies this`pos
      ensures Valid() && AsLoad(r, Rest()) == LoadSpec.LoadSource(Funcs(), old(Rest()))
    {
      if portable && !sourcePortable {
        r := NativeLoadString();
      } else {
        r := LoadString();
      }
    }
  
    /** load_byte4_vector_o / load_byte4_vector_s: the count, then one
        LoadVector into a fresh uint32 array, whose words a big-endian host
        swaps in place. */
    method LoadByte4Vector() returns (r: Result<seq<bv32>, CodecError>)
      requires Valid()
      modifies this`pos
      ensures Valid() && AsLoad(r, Rest()) == LoadSpec.LoadByte4Vector(host, old(Rest()))
    {
      ghost var s0 := Rest();
      var count: Result<int, CodecError>;
      if host.littleEndian {
        count := LoadIntO();
      } else {
        count := LoadIntS();
      }
      ghost var s1 := Rest();
      var n :- count;
      var b :- LoadBlock(n * 4);
      Byte4VectorSteps(host, s0, n, s1, b, Rest());
      ChunksCount(b, 4, n);
      var ws := MemoryWords32(b, host.littleEndian);
      var ds := new bv32[n](i requires 0 <= i < n => ws[i]);
      assert ds[..] == ws;
      if !host.littleEndian {
        SwapWords(ds);
      }
      return Ok(ds[..]);
    }

    /** LoadCode / load_code: the native instructions are the memory of
        the vector; the portable words are used as they are when Instruction
        is 32 bits wide, and copied one by one into a new vector otherwise. */
    method LoadCode() returns (r: Result<seq<nat>, CodecError>)
      requires Valid()
      modifies this`pos
      ensures Valid() && AsLoad(r, Rest()) == LoadSpec.LoadCode(Funcs(), old(Rest()))
    {
      ghost var s0 := Rest();
      if !portable {
        var n :- LoadIntN();
        ghost var s1 := Rest();
        var b :- LoadBlock(VectorSize(n, host.instrSize));
        NativeVectorSteps(host, s0, n, s1, b, Rest());
        return Ok(NativeInstructions(host, b));
      }
      var v :- LoadByte4Vector();
      PortableCodeSteps(host, sourcePortable, s0, v, Rest());
      if host.instrSize == 4 {
        return Ok(Instructions(v));
      }
      var code := WidenInstructions(v);
      return Ok(code);
    }

    /** The line information of LoadDebug / load_debug, in the same way
        with int in place of Instruction. */
    method LoadLineinfo() returns (r: Result<seq<int>, CodecError>)
      requires Valid()
      modifies this`pos
      ensures Valid() && AsLoad(r, Rest()) == LoadSpec.LoadLineinfo(Funcs(), old(Rest()))
    {
      ghost var s0 := Rest();
      if !portable {
        var n :- LoadIntN();
        ghost var s1 := Rest();
        var b :- LoadBlock(VectorSize(n, host.intSize));
        NativeLinesSteps(host, s0, n, s1, b, Rest());
        return Ok(NativeLines(host, b));
      }
      var v :- LoadByte4Vector();
      PortableLinesSteps(host, sourcePortable, s0, v, Rest());
      if host.intSize == 4 {
        return Ok(Lines(v));
      }
      var lineinfo := WidenLines(v);
      return Ok(lineinfo);
    }

    /** One constant: the tag, then what the tag calls for. */
    method LoadConstant() returns (r: Result<Constant, CodecError>)
      requires Valid()
      modifies this`pos
      ensures Valid() && AsLoad(r, Rest()) == LoadSpec.LoadConstant(Funcs(), old(Rest()))
    {
      var t :- LoadChar();
      if t == TNil {
        return Ok(Nil);
      } else if t == TBoolean {
        var b :- LoadChar();
        return Ok(Boolean(b != 0));
      } else if t == TNumber {
        var x :- LoadNumber();
        return Ok(Number(x));
      } else if t == TString {
        var x :- LoadString();
        return Ok(Str(x));
      }
      return Err(BadConstant);
    }

    /** One local variable record of the debug part. */
    method LoadLocVar() returns (r: Result<LocVar, CodecError>)
      requires Valid()
      modifies this`pos
      ensures Valid() && AsLoad(r, Rest()) == LoadSpec.LoadLocVar(Funcs(), old(Rest()))
    {
      var varname :- LoadString();
      var startpc :- LoadInt();
      var endpc :- LoadInt();
      return Ok(LocVar(varname, startpc, endpc));
    }
  
    /** The first loop of LoadConstants / load_constants: n constants
        into a vector set to nil first. */
    method LoadConstantValues(n: nat) returns (r: Result<seq<Constant>, CodecError>)
      requires Valid()
      modifies this`pos
      ensures Valid()
      ensures var lf := Funcs(); AsLoad(r, Rest()) == Repeat(n, old(Rest()), t => LoadSpec.LoadConstant(lf, t))
    {
      ghost var t0 := Rest();
      ghost var lf := Funcs();
      ghost var item := t => LoadSpec.LoadConstant(lf, t);
      var k := new Constant[n](_ => Nil);
      for i := 0 to n
        invariant Valid()
        invariant Repeat(i, t0, item) == Ok(Parsed(k[..i], Rest()))
      {
        var e := LoadConstantAt(k, i, t0);
        if e.Some? {
          return Err(e.value);
        }
      }
      assert k[..n] == k[..];
      return Ok(k[..]);
    }

    /** One turn of the constant loop: constant i, or the error that ends
        the loop. */
    method LoadConstantAt(k: array<Constant>, i: nat, ghost t0: Bytes) returns (e: Option<CodecError>)
      requires Valid() && i < k.Length
      requires var lf := Funcs(); Repeat(i, t0, t => LoadSpec.LoadConstant(lf, t)) == Ok(Parsed(k[..i], Rest()))
      modifies this`pos, k
      ensures Valid()
      ensures var lf := Funcs(); e.Some? ==> Repeat(k.Length, t0, t => LoadSpec.LoadConstant(lf, t)) == Err(e.value)
      ensures var lf := Funcs(); e.None? ==>
        Repeat(i + 1, t0, t => LoadSpec.LoadConstant(lf, t)) == Ok(Parsed(k[..i + 1], Rest()))
    {
      ghost var lf := Funcs();
      ghost var u := Rest();
      var c := LoadConstant();
      RepeatStep(i, k.Length, t0, t => LoadSpec.LoadConstant(lf, t), k[..i], u, AsLoad(c, Rest()));
      if c.Err? {
        return Some(c.error);
      }
      k[i] := c.value;
      SliceSnoc(k[..], i);
      return None;
    }

    /** The second loop of LoadConstants / load_constants: m nested
        prototypes into a vector set to NULL first, each loaded at C-call
        depth `nCcalls`. */
    method LoadChildren(m: nat, source: LuaString) returns (r: Result<seq<Proto>, CodecError>)
      requires Valid() && nCcalls <= MaxCCalls
      modifies this`pos, this`nCcalls
      ensures Valid()
      ensures var lf, depth := Funcs(), old(nCcalls);
        AsLoad(r, Rest()) == Repeat(m, old(Rest()), t => LoadSpec.LoadFunction(lf, t, source, depth, check))
      ensures r.Ok? ==> nCcalls == old(nCcalls)
      decreases MaxCCalls - nCcalls, 2
    {
      ghost var t0 := Rest();
      ghost var lf := Funcs();
      ghost var depth := nCcalls;
      ghost var item := t => LoadSpec.LoadFunction(lf, t, source, depth, check);
      var p := new Proto[m];
      for i := 0 to m
        invariant Valid() && nCcalls == depth
        invariant Repeat(i, t0, item) == Ok(Parsed(p[..i], Rest()))
      {
        var e := LoadChildAt(p, i, t0, source);
        if e.Some? {
          return Err(e.value);
        }
      }
      assert p[..m] == p[..];
      return Ok(p[..]);
    }

    /** One turn of the nested prototype loop. */
    method LoadChildAt(p: array<Proto>, i: nat, ghost t0: Bytes, source: LuaString) returns (e: Option<CodecError>)
      requires Valid() && i < p.Length && nCcalls <= MaxCCalls
      requires var lf, depth := Funcs(), nCcalls;
        Repeat(i, t0, t => LoadSpec.LoadFunction(lf, t, source, depth, check)) == Ok(Parsed(p[..i], Rest()))
      modifies this`pos, this`nCcalls, p
      ensures Valid()
      ensures var lf, depth := Funcs(), old(nCcalls); e.Some? ==>
        Repeat(p.Length, t0, t => LoadSpec.LoadFunction(lf, t, source, depth, check)) == Err(e.value)
      ensures var lf, depth := Funcs(), old(nCcalls); e.None? ==>
        nCcalls == depth &&
        Repeat(i + 1, t0, t => LoadSpec.LoadFunction(lf, t, source, depth, check)) == Ok(Parsed(p[..i + 1], Rest()))
      decreases MaxCCalls - nCcalls, 1
    {
      ghost var lf := Funcs();
      ghost var depth := nCcalls;
      ghost var u := Rest();
      var g := LoadFunction(source);
      RepeatStep(i, p.Length, t0, t => LoadSpec.LoadFunction(lf, t, source, depth, check), p[..i], u, AsLoad(g, Rest()));
      if g.Err? {
        return Some(g.error);
      }
      p[i] := g.value;
      SliceSnoc(p[..], i);
      return None;
    }

    /** LoadConstants / load_constants: the constants, then the nested
        prototypes, which inherit this prototype's source name. */
    method LoadConstants(source: LuaString) returns (r: Result<(seq<Constant>, seq<Proto>), CodecError>)
      requires Valid() && nCcalls <= MaxCCalls
      modifies this`pos, this`nCcalls
      ensures Valid()
      ensures AsLoad(r, Rest()) == LoadSpec.LoadConstants(Funcs(), old(Rest()), source, old(nCcalls), check)
      ensures r.Ok? ==> nCcalls == old(nCcalls)
      decreases MaxCCalls - nCcalls, 3
    {
      var n :- LoadInt();
      var k :- LoadConstantValues(n);
      var m :- LoadInt();
      var ps :- LoadChildren(m, source);
      return Ok((k, ps));
    }

    /** The local variable loop of LoadDebug / load_debug, into a vector
        whose names are set to NULL first. */
    method LoadLocVars(n: nat) returns (r: Result<seq<LocVar>, CodecError>)
      requires Valid()
      modifies this`pos
      ensures Valid()
      ensures var lf := Funcs(); AsLoad(r, Rest()) == Repeat(n, old(Rest()), t => LoadSpec.LoadLocVar(lf, t))
    {
      ghost var t0 := Rest();
      ghost var lf := Funcs();
      ghost var item := t => LoadSpec.LoadLocVar(lf, t);
      var locvars := new LocVar[n](_ => LocVar(None, 0, 0));
      for i := 0 to n
        invariant Valid()
        invariant Repeat(i, t0, item) == Ok(Parsed(locvars[..i], Rest()))
      {
        var e := LoadLocVarAt(locvars, i, t0);
        if e.Some? {
          return Err(e.value);
        }
      }
      assert locvars[..n] == locvars[..];
      return Ok(locvars[..]);
    }

    /** One turn of the local variable loop: record i, or the error that
        ends the loop. */
    method LoadLocVarAt(locvars: array<LocVar>, i: nat, ghost t0: Bytes) returns (e: Option<CodecError>)
      requires Valid() && i < locvars.Length
      requires var lf := Funcs(); Repeat(i, t0, t => LoadSpec.LoadLocVar(lf, t)) == Ok(Parsed(locvars[..i], Rest()))
      modifies this`pos, locvars
      ensures Valid()
      ensures var lf := Funcs(); e.Some? ==> Repeat(locvars.Length, t0, t => LoadSpec.LoadLocVar(lf, t)) == Err(e.value)
      ensures var lf := Funcs(); e.None? ==>
        Repeat(i + 1, t0, t => LoadSpec.LoadLocVar(lf, t)) == Ok(Parsed(locvars[..i + 1], Rest()))
    {
      ghost var lf := Funcs();
      ghost var item := t => LoadSpec.LoadLocVar(lf, t);
      ghost var u := Rest();
      var v := LoadLocVar();
      RepeatStep(i, locvars.Length, t0, item, locvars[..i], u, AsLoad(v, Rest()));
      if v.Err? {
        return Some(v.error);
      }
      locvars[i] := v.value;
      SliceSnoc(locvars[..], i);
      return None;
    }

    /** The upvalue loop of LoadDebug / load_debug, into a vector set to
        NULL first. */
    method LoadUpvalues(m: nat) returns (r: Result<seq<LuaString>, CodecError>)
      requires Valid()
      modifies this`pos
      ensures Valid()
      ensures var lf := Funcs(); AsLoad(r, Rest()) == Repeat(m, old(Rest()), t => LoadSpec.LoadString(lf, t))
    {
      ghost var t0 := Rest();
      ghost var lf := Funcs();
      ghost var item := t => LoadSpec.LoadString(lf, t);
      var upvalues := new LuaString[m](_ => None);
      for i := 0 to m
        invariant Valid()
        invariant Repeat(i, t0, item) == Ok(Parsed(upvalues[..i], Rest()))
      {
        var e := LoadUpvalueAt(upvalues, i, t0);
        if e.Some? {
          return Err(e.value);
        }
      }
      assert upvalues[..m] == upvalues[..];
      return Ok(upvalues[..]);
    }

    /** One turn of the upvalue loop. */
    method LoadUpvalueAt(upvalues: array<LuaString>, i: nat, ghost t0: Bytes) returns (e: Option<CodecError>)
      requires Valid() && i < upvalues.Length
      requires var lf := Funcs(); Repeat(i, t0, t => LoadSpec.LoadString(lf, t)) == Ok(Parsed(upvalues[..i], Rest()))
      modifies this`pos, upvalues
      ensures Valid()
      ensures var lf := Funcs(); e.Some? ==> Repeat(upvalues.Length, t0, t => LoadSpec.LoadString(lf, t)) == Err(e.value)
      ensures var lf := Funcs(); e.None? ==>
        Repeat(i + 1, t0, t => LoadSpec.LoadString(lf, t)) == Ok(Parsed(upvalues[..i + 1], Rest()))
    {
      ghost var lf := Funcs();
      ghost var item := t => LoadSpec.LoadString(lf, t);
      ghost var u := Rest();
      var x := LoadString();
      RepeatStep(i, upvalues.Length, t0, item, upvalues[..i], u, AsLoad(x, Rest()));
      if x.Err? {
        return Some(x.error);
      }
      upvalues[i] := x.value;
      SliceSnoc(upvalues[..], i);
      return None;
    }

    /** LoadDebug / load_debug: the line information, the local variable
        records and the upvalue names. */
    method LoadDebug() returns (r: Result<DebugInfo, CodecError>)
      requires Valid()
      modifies this`pos
      ensures Valid() && AsLoad(r, Rest()) == LoadSpec.LoadDebug(Funcs(), old(Rest()))
    {
      var lineinfo :- LoadLineinfo();
      var n :- LoadInt();
      var locvars :- LoadLocVars(n);
      var m :- LoadInt();
      var upvalues :- LoadUpvalues(m);
      return Ok(DebugInfo(lineinfo, locvars, upvalues));
    }

    /** The four LoadByte of load_function / LoadFunction: nups,
        numparams, is_vararg and maxstacksize. */
    method LoadFourBytes() returns (r: Result<Bytes, CodecError>)
      requires Valid()
      modifies this`pos
      ensures Valid() && AsLoad(r, Rest()) == Read(old(Rest()), 4)
    {
      ghost var s0 := Rest();
      var nups :- LoadChar();
      var numparams :- LoadChar();
      var isVararg :- LoadChar();
      var maxstacksize :- LoadChar();
      assert [nups, numparams, isVararg, maxstacksize] == s0[..4] && Rest() == s0[4..];
      return Ok([nups, numparams, isVararg, maxstacksize]);
    }

    /** LoadFunction / load_function, with `q` the source name to inherit:
        the C-call count goes up on entry, "code too deep" past
        LUAI_MAXCCALLS, and back down once the prototype has passed the
        bytecode verifier. */
    method LoadFunction(q: LuaString) returns (r: Result<Proto, CodecError>)
      requires Valid()
      modifies this`pos, this`nCcalls
      ensures Valid()
      ensures AsLoad(r, Rest()) == LoadSpec.LoadFunction(Funcs(), old(Rest()), q, old(nCcalls), check)
      ensures r.Ok? ==> nCcalls == old(nCcalls)
      decreases MaxCCalls - nCcalls, 0
    {
      nCcalls := nCcalls + 1;
      if nCcalls > MaxCCalls {
        return Err(TooDeep);
      }
      var h :- LoadHead(q);
      r := LoadRest(h);
    }

    /** The head of a prototype: source name, line numbers, four bytes. */
    method LoadHead(q: LuaString) returns (r: Result<Head, CodecError>)
      requires Valid()
      modifies this`pos
      ensures Valid() && AsLoad(r, Rest()) == LoadFunctionHead(Funcs(), old(Rest()), q)
    {
      var src :- LoadSource();
      var linedefined :- LoadInt();
      var lastlinedefined :- LoadInt();
      var four :- LoadFourBytes();
      return Ok(Head(if src.None? then q else src, linedefined, lastlinedefined, four));
    }

    /** The rest of LoadFunction / load_function, once the C-call count is
        raised: code, constants, debug information, the bytecode check, and
        the count lowered again. */
    method LoadRest(h: Head) returns (r: Result<Proto, CodecError>)
      requires Valid() && 1 <= nCcalls <= MaxCCalls && |h.four| == 4
      modifies this`pos, this`nCcalls
      ensures Valid()
      ensures AsLoad(r, Rest())
        == LoadFunctionRest(Funcs(), old(Rest()), h, old(nCcalls), check)
      ensures r.Ok? ==> nCcalls == old(nCcalls) - 1
      decreases MaxCCalls - nCcalls, 5
    {
      var code :- LoadCode();
      var kp :- LoadConstants(h.source);
      var debug :- LoadDebug();
      var f := Proto(h.source, h.linedefined, h.lastlinedefined, h.four[0], h.four[1], h.four[2], h.four[3],
                     code, kp.0, kp.1, debug.lineinfo, debug.locvars, debug.upvalues);
      if !check(f) {
        return Err(BadCode);
      }
      nCcalls := nCcalls - 1;
      return Ok(f);
    }

    /** check_header: the portable header first, then the native one. */
    method CheckHeader() returns (r: Result<bool, CodecError>)
      requires Valid()
      modifies this`pos
      ensures Valid() && AsLoad(r, Rest()) == LoadSpec.CheckHeader(host, old(Rest()))
    {
      var s :- LoadBlock(LuacHeaderSize);
      var h := new bv8[LuacHeaderSize];
      MakeHeaderP(host, h);
      if h[..] == s {
        return Ok(true);
      }
      MakeHeader(host, h);
      if h[..] != s {
        return Err(BadHeader);
      }
      return Ok(false);
    }

    /** setup_load_funcs: switch to the portable primitives, or fail when
        the host's doubles are in neither IEEE-754 byte order. */
    method SetupLoadFuncs() returns (e: Option<CodecError>)
      modifies this`portable
      ensures e.None? <==> LoadSpec.SetupLoadFuncs(host, sourcePortable).Ok?
      ensures e.Some? ==> e.value == LoadSpec.SetupLoadFuncs(host, sourcePortable).error && portable == old(portable)
      ensures e.None? ==> portable && Funcs() == LoadSpec.SetupLoadFuncs(host, sourcePortable).value
    {
      if host.float == UnknownFloat {
        return Some(UnknownNumberFormat);
      }
      portable := true;
      return None;
    }
  }

  /** luaU_undump: the header decides between the portable primitives
      (load_function) and the native ones (LoadFunction); the root
      prototype inherits the source name "=?". */
  method Undump(h: Host, sourcePortable: bool, data: Bytes, calls: nat, check: Proto -> bool)
    returns (r: Result<Proto, CodecError>)
    ensures r == LoadSpec.UndumpWith(h, sourcePortable, data, calls, check)
  {
    var state := new LoadState(data, h, sourcePortable, check, calls);
    var portable :- state.CheckHeader();
    if portable {
      var e := state.SetupLoadFuncs();
      if e.Some? {
        return Err(e.value);
      }
    }
    r := state.LoadFunction(Some(RootSource));
  }
}
