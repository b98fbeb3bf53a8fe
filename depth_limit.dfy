/** LUAI_MAXCCALLS bounds the nesting the loader accepts: load_function
    counts the prototypes it is inside of, and a dumped tree comes back
    exactly when its height fits under the limit; a taller one is "code too
    deep". */
module DepthLimit {
  import opened Wrappers
  import opened ByteSeq
  import opened Chunk
  import opened DumpSpec
  import opened LoadSpec
  import opened RoundTrip
  import opened LundumpH
  import opened Header
  import opened ChunkRoundTrip
  import opened LoadErrors

  /** A dumped prototype tree taller than the counter allows is rejected
      with "code too deep": every read before the deepest entry succeeds,
      and that entry raises the error. */
  lemma {:induction false} DeepFunctionRejected(df: DumpFuncs, lf: LoadFuncs, strip: bool, f: Proto,
                                                parent: LuaString, q: LuaString, calls: nat,
                                                check: Proto -> bool, rest: Bytes)
    requires Compatible(df, lf, strip) && Fits(f)
    requires !strip && parent.Some? ==> q == parent
    requires calls + Height(f) > MaxCCalls
    requires Checked(check, Reloaded(f, strip, q, Flip(df, lf)))
    ensures LoadFunction(lf, Flatten(FunctionBlocks(df, strip, f, parent)) + rest, q, calls, check) == Err(TooDeep)
    decreases f, 3
  {
    if calls + 1 <= MaxCCalls {
      FitsParts(f);
      DeepInside(df, lf, strip, f, parent, q, calls, check, rest);
    }
  }

  /** The counter admits this prototype, so the excess is in its nested
      prototypes. */
  lemma {:induction false} DeepInside(df: DumpFuncs, lf: LoadFuncs, strip: bool, f: Proto,
                                      parent: LuaString, q: LuaString, calls: nat,
                                      check: Proto -> bool, rest: Bytes)
    requires Compatible(df, lf, strip) && FitsProto(f) && forall i :: 0 <= i < |f.p| ==> Fits(f.p[i])
    requires !strip && parent.Some? ==> q == parent
    requires calls + 1 <= MaxCCalls && calls + Height(f) > MaxCCalls
    requires Checked(check, Reloaded(f, strip, q, Flip(df, lf)))
    ensures LoadFunction(lf, Flatten(FunctionBlocks(df, strip, f, parent)) + rest, q, calls, check) == Err(TooDeep)
    decreases f, 2
  {
    CheckedChildren(check, f, strip, q, Flip(df, lf));
    var t5 := Flatten(DebugBlocks(df, strip, f)) + rest;
    CodeRoundTrip(df, lf, f.code, Flatten(ConstantsBlocks(df, strip, f)) + t5);
    DeepConstantsRejected(df, lf, strip, f, q, calls + 1, check, t5);
    DeepAssemble(df, lf, strip, f, parent, q, calls, check, rest);
  }

  /** Loading a dumped tree succeeds exactly when its height fits under
      LUAI_MAXCCALLS, given that the bytecode verifier accepts what comes
      back. */
  lemma {:induction false} DepthDecides(df: DumpFuncs, lf: LoadFuncs, strip: bool, f: Proto,
                                        parent: LuaString, q: LuaString, calls: nat,
                                        check: Proto -> bool, rest: Bytes)
    requires Compatible(df, lf, strip) && Fits(f)
    requires !strip && parent.Some? ==> q == parent
    requires Checked(check, Reloaded(f, strip, q, Flip(df, lf)))
    ensures var r := LoadFunction(lf, Flatten(FunctionBlocks(df, strip, f, parent)) + rest, q, calls, check);
      (r.Ok? <==> calls + Height(f) <= MaxCCalls) && (r.Err? ==> r.error == TooDeep)
  {
    if calls + Height(f) <= MaxCCalls {
      FitsParts(f);
      FunctionRoundTrip(df, lf, strip, f, parent, q, calls, check, rest);
    } else {
      DeepFunctionRejected(df, lf, strip, f, parent, q, calls, check, rest);
    }
  }

  /** luaU_undump on a native chunk whose root is nested too deep for the
      counter it starts from reports "code too deep". */
  lemma {:induction false} NativeChunkTooDeep(d: Host, l: Host, sourcePortable: bool, strip: bool, f: Proto,
                                              calls: nat, check: Proto -> bool, rest: Bytes)
    requires NativeHeader(d) == NativeHeader(l)
    requires Fits(f) && calls + Height(f) > MaxCCalls
    requires Checked(check, Reloaded(f, strip, Some(RootSource), false))
    ensures var run := DumpChunk(d, false, strip, f);
      && run.thrown.None?
      && UndumpWith(l, sourcePortable, Flatten(run.blocks) + rest, calls, check) == Err(TooDeep)
  {
    var body := FunctionBlocks(NativeDump(d), strip, f, None);
    var t := Flatten(body) + rest;
    var s := NativeHeader(l) + t;
    ChunkBytes(NativeHeader(d), body, rest);
    NativeHeaderInjective(d, l);
    assert s[..LuacHeaderSize] == NativeHeader(l) && s[LuacHeaderSize..] == t;
    NativeIgnoresFloat(l, sourcePortable, s, calls, check);
    DeepFunctionRejected(NativeDump(d), NativeLoad(l), strip, f, None, Some(RootSource), calls, check, rest);
  }

  /** The error of the nested prototypes is the error of load_constants. */
  lemma {:induction false} DeepConstantsRejected(df: DumpFuncs, lf: LoadFuncs, strip: bool, f: Proto,
                                                 q: LuaString, depth: nat, check: Proto -> bool, rest: Bytes)
    requires Compatible(df, lf, strip) && FitsConstants(f.k)
    requires FitsInt(|f.p|) && forall i :: 0 <= i < |f.p| ==> Fits(f.p[i])
    requires depth <= MaxCCalls && depth + ListHeight(f.p) > MaxCCalls
    requires forall i :: 0 <= i < |f.p| ==> Checked(check, Reloaded(f.p[i], strip, Resolved(f, strip, q), Flip(df, lf)))
    ensures LoadConstants(lf, Flatten(ConstantsBlocks(df, strip, f)) + rest, Resolved(f, strip, q), depth, check)
      == Err(TooDeep)
    decreases f, 1
  {
    var source := Resolved(f, strip, q);
    var bk := Blocks(f.k, c => ConstantBlocks(df, c));
    var ch := ChildrenBlocks(df, strip, f.p, f.source);
    var x := IntBytes(df, |f.k|);
    var y := IntBytes(df, |f.p|);
    var t2 := Flatten(ch) + rest;
    var t1 := y + t2;
    var t0 := Flatten(bk) + t1;
    var s := x + t0;
    assert Flatten(ConstantsBlocks(df, strip, f)) + rest == s by {
      ConstantsLayout(x, bk, y, ch, rest);
    }
    DeepChildrenRejected(df, lf, strip, f.p, f.source, source, depth, check, rest);
    ConstantsHead(df, lf, f.k, |f.p|, t2);
    var ks := Repeat(|f.k|, t0, t => LoadConstant(lf, t)).value.value;
    DeepConstantsRead(lf, s, source, depth, check, |f.k|, ks, |f.p|, t0, t1, t2);
  }

  /** The first nested prototype too tall for the counter stops the loop;
      the ones before it load. */
  lemma {:induction false} DeepChildrenRejected(df: DumpFuncs, lf: LoadFuncs, strip: bool, ps: seq<Proto>,
                                                parent: LuaString, source: LuaString, depth: nat,
                                                check: Proto -> bool, rest: Bytes)
    requires Compatible(df, lf, strip) && forall i :: 0 <= i < |ps| ==> Fits(ps[i])
    requires !strip && parent.Some? ==> source == parent
    requires depth <= MaxCCalls && depth + ListHeight(ps) > MaxCCalls
    requires forall i :: 0 <= i < |ps| ==> Checked(check, Reloaded(ps[i], strip, source, Flip(df, lf)))
    ensures Repeat(|ps|, Flatten(ChildrenBlocks(df, strip, ps, parent)) + rest,
                   t => LoadFunction(lf, t, source, depth, check)) == Err(TooDeep)
    decreases ps, 1
  {
    if depth + Height(ps[0]) > MaxCCalls {
      DeepFirstChild(df, lf, strip, ps, parent, source, depth, check, rest);
    } else {
      DeepLaterChild(df, lf, strip, ps, parent, source, depth, check, rest);
    }
  }

  /** The first nested prototype is itself too tall. */
  lemma {:induction false} DeepFirstChild(df: DumpFuncs, lf: LoadFuncs, strip: bool, ps: seq<Proto>,
                                          parent: LuaString, source: LuaString, depth: nat,
                                          check: Proto -> bool, rest: Bytes)
    requires Compatible(df, lf, strip) && forall i :: 0 <= i < |ps| ==> Fits(ps[i])
    requires !strip && parent.Some? ==> source == parent
    requires depth <= MaxCCalls && depth + ListHeight(ps) > MaxCCalls
    requires forall i :: 0 <= i < |ps| ==> Checked(check, Reloaded(ps[i], strip, source, Flip(df, lf)))
    requires ps != [] && depth + Height(ps[0]) > MaxCCalls
    ensures Repeat(|ps|, Flatten(ChildrenBlocks(df, strip, ps, parent)) + rest,
                   t => LoadFunction(lf, t, source, depth, check)) == Err(TooDeep)
    decreases ps, 0
  {
    var tail := Flatten(ChildrenBlocks(df, strip, ps[1..], parent)) + rest;
    var s := Flatten(FunctionBlocks(df, strip, ps[0], parent)) + tail;
    ChildrenFront(df, strip, ps, parent, rest);
    DeepFunctionRejected(df, lf, strip, ps[0], parent, source, depth, check, tail);
    ChildHeadFails(lf, source, depth, check, |ps|, s);
  }

  /** The first nested prototype fits, so it loads and the excess is further on. */
  lemma {:induction false} DeepLaterChild(df: DumpFuncs, lf: LoadFuncs, strip: bool, ps: seq<Proto>,
                                          parent: LuaString, source: LuaString, depth: nat,
                                          check: Proto -> bool, rest: Bytes)
    requires Compatible(df, lf, strip) && forall i :: 0 <= i < |ps| ==> Fits(ps[i])
    requires !strip && parent.Some? ==> source == parent
    requires depth <= MaxCCalls && depth + ListHeight(ps) > MaxCCalls
    requires forall i :: 0 <= i < |ps| ==> Checked(check, Reloaded(ps[i], strip, source, Flip(df, lf)))
    requires ps != [] && depth + Height(ps[0]) <= MaxCCalls
    ensures Repeat(|ps|, Flatten(ChildrenBlocks(df, strip, ps, parent)) + rest,
                   t => LoadFunction(lf, t, source, depth, check)) == Err(TooDeep)
    decreases ps, 0
  {
    var tail := Flatten(ChildrenBlocks(df, strip, ps[1..], parent)) + rest;
    var s := Flatten(FunctionBlocks(df, strip, ps[0], parent)) + tail;
    ChildrenFront(df, strip, ps, parent, rest);
    FitsParts(ps[0]);
    FunctionRoundTrip(df, lf, strip, ps[0], parent, source, depth, check, tail);
    TailFacts(df, lf, strip, ps, source, check);
    DeepChildrenRejected(df, lf, strip, ps[1..], parent, source, depth, check, rest);
    ChildTailFails(lf, source, depth, check, |ps|, s, tail);
  }

  /** What the rest of the list inherits from the whole. */
  lemma {:induction false} TailFacts(df: DumpFuncs, lf: LoadFuncs, strip: bool, ps: seq<Proto>, source: LuaString,
                                     check: Proto -> bool)
    requires ps != []
    requires forall i :: 0 <= i < |ps| ==> Fits(ps[i])
    requires forall i :: 0 <= i < |ps| ==> Checked(check, Reloaded(ps[i], strip, source, Flip(df, lf)))
    ensures forall i :: 0 <= i < |ps[1..]| ==> Fits(ps[1..][i])
    ensures forall i :: 0 <= i < |ps[1..]| ==> Checked(check, Reloaded(ps[1..][i], strip, source, Flip(df, lf)))
    ensures Height(ps[0]) < ListHeight(ps) ==> ListHeight(ps[1..]) == ListHeight(ps)
  {
    forall i | 0 <= i < |ps[1..]|
      ensures Fits(ps[1..][i]) && Checked(check, Reloaded(ps[1..][i], strip, source, Flip(df, lf)))
    {
      assert ps[1..][i] == ps[i + 1];
    }
  }

  lemma {:induction false} ChildrenFront(df: DumpFuncs, strip: bool, ps: seq<Proto>, parent: LuaString, rest: Bytes)
    requires ps != []
    ensures Flatten(ChildrenBlocks(df, strip, ps, parent)) + rest
      == Flatten(FunctionBlocks(df, strip, ps[0], parent)) + (Flatten(ChildrenBlocks(df, strip, ps[1..], parent)) + rest)
  {
    FlattenAppendRest(FunctionBlocks(df, strip, ps[0], parent), ChildrenBlocks(df, strip, ps[1..], parent), rest);
  }

  /** A nested prototype that fails stops the loop of load_constants. */
  lemma {:induction false} ChildHeadFails(lf: LoadFuncs, source: LuaString, depth: nat, check: Proto -> bool,
                                          n: nat, s: Bytes)
    requires n > 0 && LoadFunction(lf, s, source, depth, check) == Err(TooDeep)
    ensures Repeat(n, s, t => LoadFunction(lf, t, source, depth, check)) == Err(TooDeep)
  {
  }

  /** One that loads hands the rest of the stream to the next. */
  lemma {:induction false} ChildTailFails(lf: LoadFuncs, source: LuaString, depth: nat, check: Proto -> bool,
                                          n: nat, s: Bytes, tail: Bytes)
    requires n > 0
    requires var r := LoadFunction(lf, s, source, depth, check); r.Ok? && r.value.rest == tail
    requires Repeat(n - 1, tail, t => LoadFunction(lf, t, source, depth, check)) == Err(TooDeep)
    ensures Repeat(n, s, t => LoadFunction(lf, t, source, depth, check)) == Err(TooDeep)
  {
  }

  /** load_function up to load_constants, when load_constants fails. */
  lemma {:induction false} DeepAssemble(df: DumpFuncs, lf: LoadFuncs, strip: bool, f: Proto, parent: LuaString,
                                        q: LuaString, calls: nat, check: Proto -> bool, rest: Bytes)
    requires Compatible(df, lf, strip)
    requires FitsString(f.source) && FitsInt(f.linedefined) && FitsInt(f.lastlinedefined)
    requires !strip && parent.Some? ==> q == parent
    requires calls + 1 <= MaxCCalls
    requires var t5 := Flatten(DebugBlocks(df, strip, f)) + rest;
      var t4 := Flatten(ConstantsBlocks(df, strip, f)) + t5;
      && LoadCode(lf, Flatten(CodeBlocks(df, f.code)) + t4) == Ok(Parsed(f.code, t4))
      && LoadConstants(lf, t4, Resolved(f, strip, q), calls + 1, check) == Err(TooDeep)
    ensures LoadFunction(lf, Flatten(FunctionBlocks(df, strip, f, parent)) + rest, q, calls, check) == Err(TooDeep)
  {
    var t4 := Flatten(ConstantsBlocks(df, strip, f)) + (Flatten(DebugBlocks(df, strip, f)) + rest);
    var t3 := Flatten(CodeBlocks(df, f.code)) + t4;
    var h := Head(Resolved(f, strip, q), f.linedefined, f.lastlinedefined,
                  [f.nups, f.numparams, f.isVararg, f.maxstacksize]);
    DeepHead(df, lf, strip, f, parent, q, t3, rest);
    assert LoadFunctionRest(lf, t3, h, calls + 1, check) == Err(TooDeep);
  }

  /** The head of a dumped prototype comes back, with the source name
      resolved against `q`, and leaves the code and what follows it. */
  lemma {:induction false} DeepHead(df: DumpFuncs, lf: LoadFuncs, strip: bool, f: Proto, parent: LuaString,
                                    q: LuaString, t3: Bytes, rest: Bytes)
    requires Compatible(df, lf, strip)
    requires FitsString(f.source) && FitsInt(f.linedefined) && FitsInt(f.lastlinedefined)
    requires !strip && parent.Some? ==> q == parent
    requires t3 == Flatten(CodeBlocks(df, f.code)) + (Flatten(ConstantsBlocks(df, strip, f))
                   + (Flatten(DebugBlocks(df, strip, f)) + rest))
    ensures LoadFunctionHead(lf, Flatten(FunctionBlocks(df, strip, f, parent)) + rest, q)
      == Ok(Parsed(Head(Resolved(f, strip, q), f.linedefined, f.lastlinedefined,
                        [f.nups, f.numparams, f.isVararg, f.maxstacksize]), t3))
  {
    var written := if f.source == parent || strip then None else f.source;
    var four := [f.nups, f.numparams, f.isVararg, f.maxstacksize];
    var t2 := four + t3;
    var t1 := IntBytes(df, f.lastlinedefined) + t2;
    var t0 := IntBytes(df, f.linedefined) + t1;
    var s := Flatten(StringBlocks(df, written)) + t0;
    assert Flatten(FunctionBlocks(df, strip, f, parent)) + rest == s by {
      FunctionBytes(df, strip, f, parent, rest);
    }
    assert && LoadSource(lf, s) == Ok(Parsed(written, t0))
           && LoadInt(lf, t0) == Ok(Parsed(f.linedefined, t1))
           && LoadInt(lf, t1) == Ok(Parsed(f.lastlinedefined, t2)) by {
      HeadRoundTrip(df, lf, strip, written, f.linedefined, f.lastlinedefined, t2);
    }
    SourceResolved(f, strip, parent, q);
    HeadRead(lf, s, q, written, Resolved(f, strip, q), f.linedefined, f.lastlinedefined, four, t0, t1, t2, t3);
  }

  /** What load_function reads before the code. */
  lemma {:induction false} HeadRead(lf: LoadFuncs, s: Bytes, q: LuaString, written: LuaString, source: LuaString,
                                    x: int, y: int, four: Bytes, t0: Bytes, t1: Bytes, t2: Bytes, t3: Bytes)
    requires LoadSource(lf, s) == Ok(Parsed(written, t0))
    requires source == if written.None? then q else written
    requires LoadInt(lf, t0) == Ok(Parsed(x, t1))
    requires LoadInt(lf, t1) == Ok(Parsed(y, t2))
    requires |four| == 4 && t2 == four + t3
    ensures LoadFunctionHead(lf, s, q) == Ok(Parsed(Head(source, x, y, four), t3))
  {
    assert t2[..4] == four && t2[4..] == t3;
  }

  /** What load_constants reads before the nested prototypes fail. */
  lemma {:induction false} DeepConstantsRead(lf: LoadFuncs, s: Bytes, source: LuaString, depth: nat,
                                             check: Proto -> bool, n: nat, k: seq<Constant>, m: nat,
                                             t0: Bytes, t1: Bytes, t2: Bytes)
    requires depth <= MaxCCalls
    requires LoadInt(lf, s) == Ok(Parsed(n, t0))
    requires Repeat(n, t0, t => LoadConstant(lf, t)) == Ok(Parsed(k, t1))
    requires LoadInt(lf, t1) == Ok(Parsed(m, t2))
    requires Repeat(m, t2, t => LoadFunction(lf, t, source, depth, check)) == Err(TooDeep)
    ensures LoadConstants(lf, s, source, depth, check) == Err(TooDeep)
  {
  }
}
