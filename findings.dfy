/** The portable loader as written reads a prototype's source name with
    the native LoadString (src/lundump.c, load_function) while the portable
    dumper writes it with dump_string, as an 8-byte little-endian size. On a
    big-endian host with an 8-byte size_t the size comes back byte-swapped,
    and the load of a chunk with a named source stops with "unexpected
    end". On a host with a 4-byte size_t only half of the size is read,
    and the stream is left four bytes off. The corrected loader
    (UndumpCorrected) reads the name back on every host:
    CorrectedChunkRoundTrip. */
module SourceFinding {
  import opened Wrappers
  import opened ByteSeq
  import opened Chunk
  import opened Header
  import opened DumpSpec
  import opened LoadSpec
  import opened RoundTrip
  import opened ChunkRoundTrip

  /** A portable size whose low byte is not zero, read as a big-endian
      size_t, asks for at least 256^7 bytes. */
  lemma {:induction false} SwappedSizeMisread(l: Host, n: nat, t: Bytes)
    requires !l.littleEndian && l.sizeTSize == 8
    requires n % 256 != 0 && 8 <= |t| < Pow256(7) + 8 && t[..8] == LE(n, 8)
    ensures NativeLoadString(l, t) == Err(UnexpectedEnd)
  {
    var image := LE(n, 8);
    assert image == [ByteOf(n)] + LE(n / 256, 7);
    assert image[1..] == LE(n / 256, 7);
    assert Reverse(image) == Reverse(LE(n / 256, 7)) + [ByteOf(n)];
    ValueOfByteOf(n);
    LEValueHighByte(Reverse(LE(n / 256, 7)), ByteOf(n));
  }

  /** The dump of a prototype with a source name, not stripped and not
      nested, starts with the name's 8-byte portable size. */
  lemma {:induction false} RootStartsWithSize(d: Host, f: Proto, rest: Bytes)
    requires f.source.Some?
    ensures var t := Flatten(FunctionBlocks(PortableDump(d), false, f, None)) + rest;
      |t| >= 8 && t[..8] == LE(|f.source.value| + 1, 8)
  {
    var df := PortableDump(d);
    var n := |f.source.value| + 1;
    FunctionBytes(df, false, f, None, rest);
    var tail := IntBytes(df, f.linedefined) + (IntBytes(df, f.lastlinedefined)
      + ([f.nups, f.numparams, f.isVararg, f.maxstacksize]
      + (Flatten(CodeBlocks(df, f.code)) + (Flatten(ConstantsBlocks(df, false, f))
      + (Flatten(DebugBlocks(df, false, f)) + rest)))));
    StringBytes(df, f.source, tail);
    PortableSizeWire(d, n);
    var t := LE(n, 8) + ((f.source.value + [0]) + tail);
    assert t[..8] == LE(n, 8);
  }

  /** luaU_undump stops with the error of the source name read. */
  lemma {:induction false} UndumpFailsAtSource(l: Host, s: Bytes, t: Bytes, calls: nat, check: Proto -> bool,
                                               e: CodecError)
    requires CheckHeader(l, s) == Ok(Parsed(true, t)) && l.float != UnknownFloat
    requires calls < MaxCCalls && NativeLoadString(l, t) == Err(e)
    ensures Undump(l, s, calls, check) == Err(e)
  {
  }

  /** The loader as written fails on every portable chunk whose root has a
      source name (of a length other than 255 modulo 256) when it runs on a
      big-endian host with an 8-byte size_t, although the corrected loader
      reads the same bytes back (PortableChunkRoundTrip). */
  lemma {:induction false} AsWrittenMisreadsSource(d: Host, l: Host, f: Proto, calls: nat, check: Proto -> bool,
                                                   rest: Bytes)
    requires d.float != UnknownFloat && l.float != UnknownFloat && d.integral == l.integral
    requires !l.littleEndian && l.sizeTSize == 8
    requires f.source.Some? && (|f.source.value| + 1) % 256 != 0 && calls < MaxCCalls
    requires |Flatten(DumpChunk(d, true, false, f).blocks) + rest| < Pow256(7)
    ensures Undump(l, Flatten(DumpChunk(d, true, false, f).blocks) + rest, calls, check) == Err(UnexpectedEnd)
  {
    var body := FunctionBlocks(PortableDump(d), false, f, None);
    var t := Flatten(body) + rest;
    ChunkBytes(PortableHeader(d), body, rest);
    assert PortableHeader(d) == PortableHeader(l);
    PortableHeaderRead(l, t);
    RootStartsWithSize(d, f, rest);
    SwappedSizeMisread(l, |f.source.value| + 1, t);
    UndumpFailsAtSource(l, PortableHeader(l) + t, t, calls, check, UnexpectedEnd);
  }

  /** On a host with a 4-byte size_t the loader as written reads only the
      first four bytes of an 8-byte portable size. For a name that was not
      written (size zero, as in every stripped dump) it reads no name and
      leaves the four high zero bytes of the size in the stream, where the
      corrected loader goes on right after the size. */
  lemma {:induction false} NarrowSizeMisaligns(d: Host, l: Host, rest: Bytes)
    requires l.sizeTSize == 4
    ensures var s := SizeBytes(PortableDump(d), 0) + rest;
      && |s| == 8 + |rest| && s[4..8] == [0, 0, 0, 0] && s[8..] == rest
      && LoadSource(PortableLoad(l, false), s) == Ok(Parsed(None, s[4..]))
      && LoadSource(PortableLoad(l, true), s) == Ok(Parsed(None, rest))
  {
    var s := SizeBytes(PortableDump(d), 0) + rest;
    PortableZeroSize(d);
    assert s[..4] == [0, 0, 0, 0] && s[4..8] == [0, 0, 0, 0];
    ZeroSizeRead(l, s);
    PortableSizeRoundTrip(d, l, true, 0, rest);
  }

  /** A portable size 0 is eight zero bytes. */
  lemma {:induction false} PortableZeroSize(d: Host)
    ensures SizeBytes(PortableDump(d), 0) == [0, 0, 0, 0] + [0, 0, 0, 0]
  {
    PortableSizeWire(d, 0);
    ZeroWords(8);
  }

  /** Four zero bytes are the size 0 in either byte order. */
  lemma {:induction false} ZeroSizeRead(l: Host, t: Bytes)
    requires l.sizeTSize == 4 && |t| >= 4 && t[..4] == [0, 0, 0, 0]
    ensures NativeLoadString(l, t) == Ok(Parsed(None, t[4..]))
  {
    var z: Bytes := [0, 0, 0, 0];
    assert InHostOrder(z, l.littleEndian) == z;
    ZeroWords(4);
  }

  /** The image of zero in 4 and in 8 bytes, as byte strings. */
  lemma {:induction false} ZeroWords(n: nat)
    requires n == 4 || n == 8
    ensures n == 4 ==> LE(0, n) == [0, 0, 0, 0]
    ensures n == 8 ==> LE(0, n) == [0, 0, 0, 0] + [0, 0, 0, 0]
  {
    LEValueOfZeros(n);
    var z: Bytes := seq(n, _ => 0 as bv8);
    forall i | 0 <= i < n ensures z[i] == 0 {
    }
  }

  /** luaU_undump with the corrected source read gives every portable
      chunk back, on every host with IEEE-754 doubles and the same
      integral flag, whatever its size_t. */
  lemma {:induction false} CorrectedChunkRoundTrip(d: Host, l: Host, strip: bool, f: Proto, calls: nat,
                                                   check: Proto -> bool, rest: Bytes)
    requires d.float != UnknownFloat && l.float != UnknownFloat && d.integral == l.integral
    requires Fits(f) && calls + Height(f) <= MaxCCalls
    requires Checked(check, Reloaded(f, strip, Some(RootSource), NumbersFlip(d, l)))
    ensures UndumpCorrected(l, Flatten(DumpChunk(d, true, strip, f).blocks) + rest, calls, check)
      == Ok(Reloaded(f, strip, Some(RootSource), NumbersFlip(d, l)))
  {
    PortableChunkRoundTrip(d, l, true, strip, f, calls, check, rest);
  }
}
