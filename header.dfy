/** The 12-byte header of a binary chunk (luaU_header and luaU_header_p of
    src/lundump.c). The native header records the host; the portable one
    the fixed widths of the portable format. */
module Header {
  import opened ByteSeq
  import opened LundumpH
  import opened Chunk

  /** MY_LUAC_FORMAT: the format byte of a portable chunk. */
  const PortableFormat: bv8 := 0x66

  function Flag(b: bool): bv8 {
    if b then 1 else 0
  }

  /** luaU_header: signature, version, official format, then the host's
      byte order, `sizeof` of int, size_t, Instruction and lua_Number, and
      whether lua_Number is integral. */
  function NativeHeader(h: Host): (r: Bytes)
    ensures |r| == LuacHeaderSize
    ensures r[..4] == Signature && r[4] == LuacVersion && r[5] == LuacFormat
  {
    Signature + [LuacVersion, LuacFormat, Flag(h.littleEndian),
                 ByteOf(h.intSize), ByteOf(h.sizeTSize), ByteOf(h.instrSize), 8,
                 Flag(h.integral)]
  }

  /** luaU_header_p: signature, version, portable format, then the fixed
      little-endian order and widths 4, 8, 4, 8; only the integral flag comes
      from the host. */
  function PortableHeader(h: Host): (r: Bytes)
    ensures |r| == LuacHeaderSize
    ensures r[..4] == Signature && r[4] == LuacVersion && r[5] == PortableFormat
    ensures r[6..] == [1, 4, 8, 4, 8, Flag(h.integral)]
  {
    Signature + [LuacVersion, PortableFormat, 1, 4, 8, 4, 8, Flag(h.integral)]
  }

  /** The two header kinds never coincide: their format bytes differ, so at
      most one of the loader's two comparisons can succeed. */
  lemma {:induction false} HeadersDiffer(h1: Host, h2: Host)
    ensures NativeHeader(h1) != PortableHeader(h2)
  {
    assert NativeHeader(h1)[5] != PortableHeader(h2)[5];
  }

  /** Two hosts write the same native header exactly when they agree
      on byte order, the three widths and the integral flag. */
  lemma {:induction false} NativeHeaderInjective(h1: Host, h2: Host)
    ensures NativeHeader(h1) == NativeHeader(h2) <==>
      h1.littleEndian == h2.littleEndian && h1.intSize == h2.intSize &&
      h1.sizeTSize == h2.sizeTSize && h1.instrSize == h2.instrSize && h1.integral == h2.integral
  {
    if NativeHeader(h1) == NativeHeader(h2) {
      NativeHeaderFields(h1);
      NativeHeaderFields(h2);
      ByteOfInjective(h1.intSize, h2.intSize);
      ByteOfInjective(h1.sizeTSize, h2.sizeTSize);
      ByteOfInjective(h1.instrSize, h2.instrSize);
    }
  }

  lemma {:induction false} NativeHeaderFields(h: Host)
    ensures var r := NativeHeader(h);
      r[6] == Flag(h.littleEndian) && r[7] == ByteOf(h.intSize) && r[8] == ByteOf(h.sizeTSize)
      && r[9] == ByteOf(h.instrSize) && r[10] == 8 && r[11] == Flag(h.integral)
  {
  }

  lemma {:induction false} ByteOfInjective(a: nat, b: nat)
    requires a < 256 && b < 256 && ByteOf(a) == ByteOf(b)
    ensures a == b
  {
    ValueOfByteOf(a);
    ValueOfByteOf(b);
  }

  /** Two hosts write the same portable header exactly when they agree on
      the integral flag. */
  lemma {:induction false} PortableHeaderAgreement(h1: Host, h2: Host)
    ensures PortableHeader(h1) == PortableHeader(h2) <==> h1.integral == h2.integral
  {
    if PortableHeader(h1) == PortableHeader(h2) {
      assert PortableHeader(h1)[11] == PortableHeader(h2)[11];
    }
  }

  /** luaU_header, writing through a cursor into a 12-byte buffer. */
  method MakeHeader(h: Host, buf: array<bv8>)
    requires buf.Length == LuacHeaderSize
    modifies buf
    ensures buf[..] == NativeHeader(h)
  {
    forall i | 0 <= i < 4 {
      buf[i] := Signature[i];
    }
    var j := 4;
    buf[j] := LuacVersion; j := j + 1;
    buf[j] := LuacFormat; j := j + 1;
    buf[j] := Flag(h.littleEndian); j := j + 1;
    buf[j] := ByteOf(h.intSize); j := j + 1;
    buf[j] := ByteOf(h.sizeTSize); j := j + 1;
    buf[j] := ByteOf(h.instrSize); j := j + 1;
    buf[j] := 8; j := j + 1;
    buf[j] := Flag(h.integral);
    assert buf[..] == NativeHeader(h);
  }

  /** luaU_header_p, writing through a cursor into a 12-byte buffer. */
  method MakeHeaderP(h: Host, buf: array<bv8>)
    requires buf.Length == LuacHeaderSize
    modifies buf
    ensures buf[..] == PortableHeader(h)
  {
    forall i | 0 <= i < 4 {
      buf[i] := Signature[i];
    }
    var j := 4;
    buf[j] := LuacVersion; j := j + 1;
    buf[j] := PortableFormat; j := j + 1;
    buf[j] := 1; j := j + 1;
    buf[j] := 4; j := j + 1;
    buf[j] := 8; j := j + 1;
    buf[j] := 4; j := j + 1;
    buf[j] := 8; j := j + 1;
    buf[j] := Flag(h.integral);
    assert buf[..] == PortableHeader(h);
  }
}
