/** Whole chunks: what luaU_undump makes of the bytes luaU_dump hands to
    its writer, and the bound the C-call limit puts on what it builds. */
module ChunkRoundTrip {
  import opened Wrappers
  import opened ByteSeq
  import opened LundumpH
  import opened Chunk
  import opened Header
  import opened DumpSpec
  import opened LoadSpec
  import opened RoundTrip

  /** The bytes a dump run hands over: the header, then the root. */
  lemma {:induction false} ChunkBytes(header: Bytes, body: seq<Bytes>, rest: Bytes)
    ensures Flatten([header] + body) + rest == header + (Flatten(body) + rest)
  {
    FlattenAppendRest([header], body, rest);
    FlattenOne(header);
  }

  /** check_header accepts the loading host's own native header. */
  lemma {:induction false} NativeHeaderRead(l: Host, t: Bytes)
    ensures CheckHeader(l, NativeHeader(l) + t) == Ok(Parsed(false, t))
  {
    HeadersDiffer(l, l);
    assert (NativeHeader(l) + t)[..LuacHeaderSize] == NativeHeader(l);
    assert (NativeHeader(l) + t)[LuacHeaderSize..] == t;
  }

  /** check_header accepts the portable header with the host's integral
      flag. */
  lemma {:induction false} PortableHeaderRead(l: Host, t: Bytes)
    ensures CheckHeader(l, PortableHeader(l) + t) == Ok(Parsed(true, t))
  {
    assert (PortableHeader(l) + t)[..LuacHeaderSize] == PortableHeader(l);
    assert (PortableHeader(l) + t)[LuacHeaderSize..] == t;
  }

  /** luaU_undump from an accepted header and a root read back. */
  lemma {:induction false} UndumpOfParts(h: Host, sourcePortable: bool, s: Bytes, portable: bool, t: Bytes,
                                         calls: nat, check: Proto -> bool, g: Proto, rest: Bytes)
    requires CheckHeader(h, s) == Ok(Parsed(portable, t))
    requires portable ==> h.float != UnknownFloat
    requires LoadFunction(if portable then PortableLoad(h, sourcePortable) else NativeLoad(h), t,
                          Some(RootSource), calls, check) == Ok(Parsed(g, rest))
    ensures UndumpWith(h, sourcePortable, s, calls, check) == Ok(g)
  {
  }

  /** A native chunk loads back, with either way of reading source names,
      on any host whose native header is the dumping host's: the tree comes
      back with the root named "=?" when it has no source name, and without
      debug information when stripped. */
  lemma {:induction false} NativeChunkRoundTrip(d: Host, l: Host, sourcePortable: bool, strip: bool, f: Proto,
                                                calls: nat, check: Proto -> bool, rest: Bytes)
    requires NativeHeader(d) == NativeHeader(l)
    requires Fits(f) && calls + Height(f) <= MaxCCalls
    requires Checked(check, Reloaded(f, strip, Some(RootSource), false))
    ensures var run := DumpChunk(d, false, strip, f);
      && run.thrown.None?
      && UndumpWith(l, sourcePortable, Flatten(run.blocks) + rest, calls, check)
           == Ok(Reloaded(f, strip, Some(RootSource), false))
  {
    var body := FunctionBlocks(NativeDump(d), strip, f, None);
    var t := Flatten(body) + rest;
    var g := Reloaded(f, strip, Some(RootSource), false);
    ChunkBytes(NativeHeader(d), body, rest);
    NativeHeaderRead(l, t);
    NativeHeaderInjective(d, l);
    NativeRootRoundTrip(d, l, strip, f, calls, check, rest);
    UndumpOfParts(l, sourcePortable, NativeHeader(l) + t, false, t, calls, check, g, rest);
  }

  /** The root prototype of a native chunk read back. */
  lemma {:induction false} NativeRootRoundTrip(d: Host, l: Host, strip: bool, f: Proto,
                                               calls: nat, check: Proto -> bool, rest: Bytes)
    requires SameLayout(d, l)
    requires Fits(f) && calls + Height(f) <= MaxCCalls
    requires Checked(check, Reloaded(f, strip, Some(RootSource), false))
    ensures LoadFunction(NativeLoad(l), Flatten(FunctionBlocks(NativeDump(d), strip, f, None)) + rest,
                         Some(RootSource), calls, check)
      == Ok(Parsed(Reloaded(f, strip, Some(RootSource), false), rest))
  {
    FitsParts(f);
    FunctionRoundTrip(NativeDump(d), NativeLoad(l), strip, f, None, Some(RootSource), calls, check, rest);
  }

  /** A portable chunk loads back on any host with IEEE-754 doubles and the
      same integral flag, with each number's image reversed between hosts
      of opposite double byte order. The corrected loader always gives the
      tree back; the loader as written only on a host whose size_t is 8
      bytes, and on a big-endian one only for a stripped dump. */
  lemma {:induction false} PortableChunkRoundTrip(d: Host, l: Host, sourcePortable: bool, strip: bool, f: Proto,
                                                  calls: nat, check: Proto -> bool, rest: Bytes)
    requires d.float != UnknownFloat && l.float != UnknownFloat && d.integral == l.integral
    requires sourcePortable || (l.sizeTSize == 8 && (l.littleEndian || strip))
    requires Fits(f) && calls + Height(f) <= MaxCCalls
    requires Checked(check, Reloaded(f, strip, Some(RootSource), NumbersFlip(d, l)))
    ensures var run := DumpChunk(d, true, strip, f);
      && run.thrown.None?
      && UndumpWith(l, sourcePortable, Flatten(run.blocks) + rest, calls, check)
           == Ok(Reloaded(f, strip, Some(RootSource), NumbersFlip(d, l)))
  {
    var body := FunctionBlocks(PortableDump(d), strip, f, None);
    var t := Flatten(body) + rest;
    var g := Reloaded(f, strip, Some(RootSource), NumbersFlip(d, l));
    ChunkBytes(PortableHeader(d), body, rest);
    assert PortableHeader(d) == PortableHeader(l);
    PortableHeaderRead(l, t);
    PortableRootRoundTrip(d, l, sourcePortable, strip, f, calls, check, rest);
    UndumpOfParts(l, sourcePortable, PortableHeader(l) + t, true, t, calls, check, g, rest);
  }

  /** The root prototype of a portable chunk read back. */
  lemma {:induction false} PortableRootRoundTrip(d: Host, l: Host, sourcePortable: bool, strip: bool, f: Proto,
                                                 calls: nat, check: Proto -> bool, rest: Bytes)
    requires d.float != UnknownFloat && l.float != UnknownFloat
    requires sourcePortable || (l.sizeTSize == 8 && (l.littleEndian || strip))
    requires Fits(f) && calls + Height(f) <= MaxCCalls
    requires Checked(check, Reloaded(f, strip, Some(RootSource), NumbersFlip(d, l)))
    ensures LoadFunction(PortableLoad(l, sourcePortable), Flatten(FunctionBlocks(PortableDump(d), strip, f, None)) + rest,
                         Some(RootSource), calls, check)
      == Ok(Parsed(Reloaded(f, strip, Some(RootSource), NumbersFlip(d, l)), rest))
  {
    FitsParts(f);
    FunctionRoundTrip(PortableDump(d), PortableLoad(l, sourcePortable), strip, f, None, Some(RootSource),
                      calls, check, rest);
  }
}
