/** The ways a load of src/lundump.c fails: a chunk shorter than its
    header, a header that is neither the portable nor the host's native
    one, a portable chunk on a host whose doubles the loader cannot
    convert, nesting beyond LUAI_MAXCCALLS, and an unknown constant tag. */
module LoadErrors {
  import opened Wrappers
  import opened ByteSeq
  import opened Chunk
  import opened LundumpH
  import opened Header
  import opened LoadSpec

  /** A stream shorter than a header stops at the header read. */
  lemma {:induction false} ShortChunkRejected(h: Host, sourcePortable: bool, s: Bytes, calls: nat,
                                              check: Proto -> bool)
    requires |s| < LuacHeaderSize
    ensures UndumpWith(h, sourcePortable, s, calls, check) == Err(UnexpectedEnd)
  {
  }

  /** Twelve bytes that are neither header are "bad header". */
  lemma {:induction false} ForeignHeaderRejected(h: Host, sourcePortable: bool, s: Bytes, calls: nat,
                                                 check: Proto -> bool)
    requires |s| >= LuacHeaderSize
    requires s[..LuacHeaderSize] != PortableHeader(h) && s[..LuacHeaderSize] != NativeHeader(h)
    ensures UndumpWith(h, sourcePortable, s, calls, check) == Err(BadHeader)
  {
  }

  /** A portable chunk on a host whose doubles are not IEEE-754 in either
      byte order fails in setup_load_funcs, before anything else is read. */
  lemma {:induction false} UnknownFormatRejected(h: Host, sourcePortable: bool, s: Bytes, calls: nat,
                                                 check: Proto -> bool)
    requires |s| >= LuacHeaderSize && s[..LuacHeaderSize] == PortableHeader(h)
    requires h.float == UnknownFloat
    ensures UndumpWith(h, sourcePortable, s, calls, check) == Err(UnknownNumberFormat)
  {
  }

  /** A native chunk loads whatever the host's doubles: the format is only
      probed for portable chunks. */
  lemma {:induction false} NativeIgnoresFloat(h: Host, sourcePortable: bool, s: Bytes, calls: nat,
                                              check: Proto -> bool)
    requires |s| >= LuacHeaderSize && s[..LuacHeaderSize] == NativeHeader(h)
    ensures UndumpWith(h, sourcePortable, s, calls, check)
      == match LoadFunction(NativeLoad(h), s[LuacHeaderSize..], Some(RootSource), calls, check)
         case Ok(f) => Ok(f.value)
         case Err(e) => Err(e)
  {
    HeadersDiffer(h, h);
  }

  /** Entering a prototype with the call counter at LUAI_MAXCCALLS is
      "code too deep", whatever follows. */
  lemma {:induction false} TooDeepRejected(lf: LoadFuncs, s: Bytes, q: LuaString, calls: nat,
                                           check: Proto -> bool)
    requires calls >= MaxCCalls
    ensures LoadFunction(lf, s, q, calls, check) == Err(TooDeep)
  {
  }

  /** A tag byte other than nil, boolean, number and string is "bad
      constant". */
  lemma {:induction false} BadConstantTag(lf: LoadFuncs, t: bv8, rest: Bytes)
    requires t != TNil && t != TBoolean && t != TNumber && t != TString
    ensures LoadConstant(lf, [t] + rest) == Err(BadConstant)
  {
    assert ([t] + rest)[0] == t && ([t] + rest)[1..] == rest;
  }

  /** A boolean constant is true for every non-zero payload byte. */
  lemma {:induction false} BooleanPayload(lf: LoadFuncs, b: bv8, rest: Bytes)
    ensures LoadConstant(lf, [TBoolean, b] + rest) == Ok(Parsed(Boolean(b != 0), rest))
  {
    var s := [TBoolean, b] + rest;
    assert s[0] == TBoolean && s[1..] == [b] + rest;
    assert ([b] + rest)[0] == b && ([b] + rest)[1..] == rest;
  }
}
