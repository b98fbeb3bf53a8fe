# Lua 5.1 precompiled chunks: dump and undump

This project models the codec that writes and reads Lua 5.1 precompiled chunks. It covers the dumper of `src/ldump.c`, the loader of `src/lundump.c`, and the byte-swap macros and header constants of `src/lundump.h`. It proves properties about them.

A chunk is a 12-byte header followed by the dump of a function prototype tree. A prototype holds:

- its source name and line range;
- four byte-sized fields;
- its instructions;
- its constants (nil, boolean, number, string);
- its nested prototypes;
- its debug information (line numbers, local variable records, upvalue names).

The chunk comes in two formats:

- **Native.** Written by `luaU_dump`'s `DumpFunction` branch and read by `LoadFunction`. Every `int`, `size_t`, `Instruction` and `lua_Number` is copied from the writing host's memory. The header (`luaU_header`) records that host's byte order and type widths.
- **Portable.** Format byte `0x66` in the header (`luaU_header_p`). Written by `dump_function` and read by `load_function`:
  - ints and instructions are 4 bytes, little-endian;
  - sizes are 8 bytes, little-endian;
  - numbers are 8-byte IEEE-754 doubles in the writing host's double byte order, swapped on a big-endian host.

  Each primitive has an `_o` variant (little-endian host) and an `_s` variant (big-endian host, going through `BSWAP_32` / `BSWAP_64`). `setup_dump_funcs` and `setup_load_funcs` pick between them, and stop with "unknown number format" when the host's doubles are neither little- nor big-endian IEEE-754.

How each part is modelled:

- **The machine.** A host is a value (`Chunk.Host`) that gives:
  - byte order;
  - `sizeof(int)`, `sizeof(size_t)` and `sizeof(Instruction)`;
  - the double layout;
  - whether `lua_Number` is integral.
- **The dumper** (module `Dumper`) is a class, `DumpState`.
  - It holds the fields of the C `DumpState`: writer, strip flag, status. It also holds the sequence of blocks the writer has been handed.
  - Each C routine is a method, and every loop is a `for` loop with invariants.
  - Each method is proved against the block sequence that `DumpSpec` defines by plain functions. `Gate` runs that sequence through the status check of `DumpBlock`.
- **The loader** (module `Loader`) is a class, `LoadState`.
  - It holds a read position into the chunk's bytes and whether the portable primitives are in use.
  - Its loops fill `array`s, as the C code fills its vectors. The byte-swap loop of `load_byte4_vector_s` works in place on an array.
  - Each method is proved equal to the reader function of `LoadSpec` that specifies it. A read either yields a value and the unread bytes, or fails with the error the C code raises.
- **The properties** are proved about those functions:
  - `RoundTrip` and `ChunkRoundTrip`: what is dumped loads back, host to host;
  - `LoadErrors`: which inputs fail, and with which error;
  - `DepthLimit`: exactly which trees exceed `LUAI_MAXCCALLS`;
  - `DumpSpec` and `Header`: which bytes are independent of the host;
  - `SourceFinding`: a discrepancy in the portable loader.

The loader as written differs from the dumper in one place: the portable loader reads a prototype's source name with the native `LoadString`. `LoadFuncs.sourcePortable` selects between this behaviour and the corrected one, which uses `load_string` (see "## Findings").

## Model

| member | source | states |
|---|---|---|
| LundumpH.Bswap32Reverses | src/lundump.h:20-23 | the bytes of `BSWAP_32(x)` are those of `x` in reverse order |
| LundumpH.Bswap32Involutive | src/lundump.h:20-23 | `BSWAP_32` undoes itself |
| LundumpH.Bswap64Reverses | src/lundump.h:26-33 | the bytes of `BSWAP_64(x)` are those of `x` in reverse order |
| LundumpH.Bswap64Involutive | src/lundump.h:26-33 | `BSWAP_64` undoes itself |
| LundumpH.SwappedOnBigEndianIsLittleEndian32 | src/ldump.c:176-180 | a swapped 32-bit value stored by a big-endian host is the value's little-endian bytes |
| LundumpH.SwappedOnBigEndianIsLittleEndian64 | src/ldump.c:187-191 | a swapped 64-bit value stored by a big-endian host is the value's little-endian bytes |
| LundumpH.SwappedReadOnBigEndian32 | src/lundump.c:248-254 | 4 bytes read by a big-endian host and swapped denote the value they encode little-endian |
| LundumpH.SwappedReadOnBigEndian64 | src/lundump.c:262-267 | 8 bytes read by a big-endian host and swapped denote the value they encode little-endian |
| LundumpH.SwappedImage64 | src/ldump.c:198-207 | reading 8 bytes as a 64-bit word in either byte order, swapping it and storing it back in that order reverses the bytes |
| Header.NativeHeader | src/lundump.c:204-217 | the native header is 12 bytes and starts with the signature, version `0x51` and format 0 |
| Header.NativeHeaderFields | src/lundump.c:211-216 | bytes 6 to 11 of the native header record byte order, the `int`, `size_t` and `Instruction` widths, `sizeof(lua_Number)` = 8, and the integral flag |
| Header.NativeHeaderInjective | src/lundump.c:204-217 | two hosts write the same native header exactly when they agree on byte order, the three widths and the integral flag |
| Header.PortableHeader | src/lundump.c:221-234 | the portable header is 12 bytes: the signature, version `0x51`, format `0x66`, then little-endian order, widths 4, 8, 4, 8 and the host's integral flag |
| Header.PortableHeaderAgreement | src/lundump.c:221-234 | two hosts write the same portable header exactly when they agree on the integral flag |
| Header.HeadersDiffer | src/lundump.c:185-199 | no native header equals any portable header, so at most one of check_header's comparisons can succeed |
| Header.MakeHeader | src/lundump.c:204-217 | writing through a cursor fills the 12-byte buffer with the native header |
| Header.MakeHeaderP | src/lundump.c:221-234 | writing through a cursor fills the 12-byte buffer with the portable header |
| DumpSpec.SetupDumpFuncs | src/ldump.c:277-304 | succeeds exactly when the host's doubles are IEEE-754 in either byte order, and selects that host's portable primitives; otherwise fails with "unknown number format" |
| DumpSpec.DumpChunk | src/ldump.c:386-407 | the first block is the header of the chosen format; an error is thrown exactly for a portable dump on a host with an unknown double layout |
| DumpSpec.PortableIntWire | src/ldump.c:171-180 | on every host a portable int is its 4-byte little-endian two's complement |
| DumpSpec.PortableSizeWire | src/ldump.c:182-191 | on every host a portable size is 8 bytes little-endian |
| DumpSpec.PortableInstrWire | src/ldump.c:250-275 | on every host a portable instruction is its low 32 bits, little-endian |
| DumpSpec.PortableLineWire | src/ldump.c:220-248 | on every host a portable line number is its 4-byte little-endian two's complement |
| DumpSpec.PortableNumberWire | src/ldump.c:193-207 | a portable number is the double's image, reversed on a host whose doubles are big-endian |
| DumpSpec.PortablePrimitivesAgree | src/ldump.c:277-291 | every portable primitive except numbers writes the same bytes on any two hosts |
| DumpSpec.PortableDumpHostIndependent | src/ldump.c:359-372 | a portable dump is the same on any two hosts with the same double layout, whatever their widths and byte order |
| DumpSpec.PortableConstantsHostIndependent | src/ldump.c:308-338 | the same for the constants and nested prototypes |
| DumpSpec.PortableDebugHostIndependent | src/ldump.c:340-356 | the portable debug part is the same on every host |
| DumpSpec.StripErasesDebug | src/ldump.c:340-356 | with `strip`, the debug part is three zero counts and an empty line vector, whatever the prototype |
| DumpSpec.SourceOmitted | src/ldump.c:360 | a prototype whose source is its parent's, or any prototype when stripping, starts with a zero size |
| DumpSpec.SourceWritten | src/ldump.c:209-218 | otherwise the dump starts with the source's size counting the terminating zero, then its characters and the zero |
| DumpSpec.PortableCodeLength | src/ldump.c:266-275 | a portable code vector is 4 bytes of count plus exactly 4 per instruction |
| DumpSpec.PortableLineinfoLength | src/ldump.c:236-248 | a portable line vector is 4 bytes of count plus exactly 4 per line number |
| DumpSpec.GateAppend | src/ldump.c:36-44 | gating two runs of blocks one after the other is gating their concatenation |
| DumpSpec.GateStopped | src/ldump.c:38 | once the status is non-zero, no block reaches the writer and the status is kept |
| DumpSpec.GateOutcome | src/ldump.c:36-44 | the writer sees a prefix of the blocks; the status is 0 exactly when it saw all of them and accepted each; otherwise the last block it saw is the one it refused, and its status is the one kept |
| Dumper.PortableCodeVector | src/ldump.c:250-275 | the scratch array handed to `DumpBlock` holds each instruction's portable 4 bytes, in order |
| Dumper.PortableLineVector | src/ldump.c:220-248 | the scratch array handed to `DumpBlock` holds each line number's portable 4 bytes, in order |
| Dumper.CodeMemory | src/ldump.c:250-275 | a scratch array of converted (or byte-swapped) instructions, read as host memory, is the portable encoding of each instruction in turn |
| Dumper.LineMemory | src/ldump.c:220-248 | a scratch array of converted (or byte-swapped) line numbers, read as host memory, is the portable encoding of each line number in turn |
| Dumper.DumpState.constructor | src/ldump.c:388-393 | a fresh state has writer, host and strip flag set, status 0, nothing sent, and the native primitives |
| Dumper.DumpState.DumpBlock | src/ldump.c:36-44 | the block goes to the writer only while the status is 0, and the writer's answer becomes the status |
| Dumper.DumpState.DumpChar | src/ldump.c:46-50 | one one-byte block, gated |
| Dumper.DumpState.DumpInt | src/ldump.c:171-180 | one block with the int in the primitives in use, gated |
| Dumper.DumpState.DumpSize | src/ldump.c:182-191 | one block with the size in the primitives in use, gated |
| Dumper.DumpState.DumpNumber | src/ldump.c:193-207 | one block with the number in the primitives in use, gated |
| Dumper.DumpState.DumpString | src/ldump.c:209-218 | the blocks of `DumpSpec.StringBlocks`: a zero size for no string, otherwise size and characters |
| Dumper.DumpState.DumpCode | src/ldump.c:250-275 | the count, then all instructions in one block |
| Dumper.DumpState.DumpLineinfo | src/ldump.c:220-248 | the count, then all line numbers in one block |
| Dumper.DumpState.DumpConstant | src/ldump.c:314-331 | the tag, then the payload the tag calls for |
| Dumper.DumpState.DumpConstantValues | src/ldump.c:313-332 | the loop sends every constant's blocks in order |
| Dumper.DumpState.DumpConstantAt | src/ldump.c:314-331 | one turn of the loop extends what was sent by constant `i` |
| Dumper.DumpState.DumpConstants | src/ldump.c:308-338 | the constants, then the nested prototypes with this one's source as their parent's |
| Dumper.DumpState.DumpChildAt | src/ldump.c:335-337 | one turn of the loop extends what was sent by nested prototype `i` |
| Dumper.DumpState.DumpLocVar | src/ldump.c:347-349 | a local variable's name, startpc and endpc |
| Dumper.DumpState.DumpLocVars | src/ldump.c:344-350 | the loop sends every record's blocks in order |
| Dumper.DumpState.DumpLocVarAt | src/ldump.c:346-350 | one turn extends what was sent by record `i` |
| Dumper.DumpState.DumpUpvalues | src/ldump.c:351-355 | the loop sends every upvalue name in order |
| Dumper.DumpState.DumpUpvalueAt | src/ldump.c:353-355 | one turn extends what was sent by upvalue `i` |
| Dumper.DumpState.DumpDebug | src/ldump.c:340-356 | the line vector, local variables and upvalue names, all counts zero with `strip` |
| Dumper.DumpState.DumpHead | src/ldump.c:360-367 | the source name or none, the line range and the four byte fields |
| Dumper.DumpState.DumpFunction | src/ldump.c:359-372 | exactly the blocks of `DumpSpec.FunctionBlocks` for the prototype tree, gated |
| Dumper.DumpState.DumpHeader | src/ldump.c:374-379 | the native header (`Header.NativeHeader`) goes to the writer as one gated block |
| Dumper.DumpState.DumpHeaderP | src/ldump.c:395-398 | the portable header (`Header.PortableHeader`) goes to the writer as one gated block |
| Dumper.DumpState.SetupDumpFuncs | src/ldump.c:277-304 | switches to the portable primitives exactly when `DumpSpec.SetupDumpFuncs` succeeds; otherwise returns its error and keeps the primitives |
| Dumper.Dump | src/ldump.c:386-407 | the returned status and what the writer received are the gated blocks of `DumpSpec.DumpChunk`, and so is the thrown error |
| LoadSpec.SetupLoadFuncs | src/lundump.c:313-337 | succeeds exactly when the host's doubles are IEEE-754 in either byte order; otherwise fails with "unknown number format" |
| LoadSpec.Read | src/lundump.c:50-54 | succeeds exactly when `n` bytes remain, splitting them off the front; otherwise "unexpected end" |
| LoadSpec.LoadChar | src/lundump.c:56-61 | succeeds exactly when a byte remains, and takes it off the front |
| LoadSpec.LoadIntN | src/lundump.c:63-69 | a native int that loads is never negative: "bad integer" otherwise |
| LoadSpec.LoadIntO | src/lundump.c:241-246 | a portable int that loads is never negative |
| LoadSpec.LoadIntS | src/lundump.c:248-254 | the same after the swap |
| LoadSpec.LoadInt | src/lundump.c:236 | whichever int reader is in use, a loaded int is never negative |
| LoadSpec.LoadStringBody | src/lundump.c:78-90 | a failed size read is the error; a zero size is the null string, with nothing more read; a size n > 0 consumes exactly n bytes and the string is the first n-1 of them, and fewer than n bytes give "unexpected end" |
| LoadSpec.LoadFunctionHead | src/lundump.c:436-443 | a head that loads carries exactly four byte fields |
| LoadSpec.CheckHeader | src/lundump.c:185-199 | succeeds exactly when the first 12 bytes are the portable or the native header, reports which, and leaves the rest |
| LoadSpec.ChunkName | src/lundump.c:463-468 | a leading `@` or `=` is dropped; a leading escape character gives "binary string"; any other name is kept |
| LoadSpec.ErrorMessage | src/lundump.c:38-42 | the message starts with the chunk name and ends with " in precompiled chunk", except for the unknown number format |
| LoadSpec.ErrorMessagesDistinct | src/lundump.c:38-42 | different errors give different messages for the same chunk name |
| Loader.SwapWords | src/lundump.c:307-309 | swapping in place turns the array into each of its words swapped |
| Loader.WidenInstructions | src/lundump.c:349-355 | the copied vector holds each 32-bit word as an instruction |
| Loader.WidenLines | src/lundump.c:403-410 | the copied vector holds each 32-bit word as a signed int |
| Loader.LoadState.constructor | src/lundump.c:460-472 | a fresh state reads from the start of the chunk with the native primitives |
| Loader.LoadState.LoadBlock | src/lundump.c:50-54 | reads as `LoadSpec.Read` does, advancing the position |
| Loader.LoadState.LoadChar | src/lundump.c:56-61 | reads as `LoadSpec.LoadChar` does |
| Loader.LoadState.LoadIntN | src/lundump.c:63-69 | reads as `LoadSpec.LoadIntN` does |
| Loader.LoadState.LoadIntO | src/lundump.c:241-246 | reads as `LoadSpec.LoadIntO` does |
| Loader.LoadState.LoadIntS | src/lundump.c:248-254 | reads as `LoadSpec.LoadIntS` does |
| Loader.LoadState.LoadInt | src/lundump.c:236-254 | reads as `LoadSpec.LoadInt` does for the primitives in use |
| Loader.LoadState.LoadSizeN | src/lundump.c:80-81 | reads as `LoadSpec.LoadSizeN` does |
| Loader.LoadState.LoadSizeO | src/lundump.c:256-260 | reads as `LoadSpec.LoadSizeO` does, keeping the low bytes the host's `size_t` holds |
| Loader.LoadState.LoadSizeS | src/lundump.c:262-267 | reads as `LoadSpec.LoadSizeS` does |
| Loader.LoadState.LoadSize | src/lundump.c:256-267 | reads as `LoadSpec.LoadSize` does for the primitives in use |
| Loader.LoadState.LoadNumberRaw | src/lundump.c:71-76 | reads as `LoadSpec.LoadNumberRaw` does |
| Loader.LoadState.LoadNumberS | src/lundump.c:286-294 | reads as `LoadSpec.LoadNumberS` does |
| Loader.LoadState.LoadNumber | src/lundump.c:280-294 | reads as `LoadSpec.LoadNumber` does for the primitives in use |
| Loader.LoadState.LoadStringBody | src/lundump.c:82-89 | reads as `LoadSpec.LoadStringBody` does |
| Loader.LoadState.LoadString | src/lundump.c:269-278 | reads as `LoadSpec.LoadString` does for the primitives in use |
| Loader.LoadState.NativeLoadString | src/lundump.c:78-90 | reads as `LoadSpec.NativeLoadString` does |
| Loader.LoadState.LoadSource | src/lundump.c:436 | reads as `LoadSpec.LoadSource` does |
| Loader.LoadState.LoadByte4Vector | src/lundump.c:296-311 | reads as `LoadSpec.LoadByte4Vector` does, swapping in place on a big-endian host |
| Loader.LoadState.LoadCode | src/lundump.c:341-357 | reads as `LoadSpec.LoadCode` does |
| Loader.LoadState.LoadLineinfo | src/lundump.c:398-410 | reads as `LoadSpec.LoadLineinfo` does |
| Loader.LoadState.LoadConstant | src/lundump.c:368-386 | reads as `LoadSpec.LoadConstant` does |
| Loader.LoadState.LoadLocVar | src/lundump.c:417-421 | reads as `LoadSpec.LoadLocVar` does |
| Loader.LoadState.LoadConstantValues | src/lundump.c:363-387 | the loop reads as `LoadSpec.Repeat` of constant reads does, stopping at the first error |
| Loader.LoadState.LoadConstantAt | src/lundump.c:367-387 | one turn: a failure is the loop's error, a success extends what was read |
| Loader.LoadState.LoadChildren | src/lundump.c:388-392 | the loop reads as `LoadSpec.Repeat` of prototype reads does, each inheriting this prototype's source, and restores the call count |
| Loader.LoadState.LoadChildAt | src/lundump.c:392 | one turn: a failure is the loop's error, a success extends what was read |
| Loader.LoadState.LoadConstants | src/lundump.c:361-393 | reads as `LoadSpec.LoadConstants` does |
| Loader.LoadState.LoadLocVars | src/lundump.c:412-421 | the loop reads as `LoadSpec.Repeat` of record reads does |
| Loader.LoadState.LoadLocVarAt | src/lundump.c:417-421 | one turn: a failure is the loop's error, a success extends what was read |
| Loader.LoadState.LoadUpvalues | src/lundump.c:422-426 | the loop reads as `LoadSpec.Repeat` of string reads does |
| Loader.LoadState.LoadUpvalueAt | src/lundump.c:426 | one turn: a failure is the loop's error, a success extends what was read |
| Loader.LoadState.LoadDebug | src/lundump.c:395-427 | reads as `LoadSpec.LoadDebug` does |
| Loader.LoadState.LoadFourBytes | src/lundump.c:440-443 | reads the four byte fields as `LoadSpec.Read` of 4 does |
| Loader.LoadState.LoadHead | src/lundump.c:436-443 | reads as `LoadSpec.LoadFunctionHead` does |
| Loader.LoadState.LoadRest | src/lundump.c:445-453 | reads as `LoadSpec.LoadFunctionRest` does, and lowers the call count again on success |
| Loader.LoadState.LoadFunction | src/lundump.c:429-454 | reads as `LoadSpec.LoadFunction` does, call count included, and leaves the count as it found it on success |
| Loader.LoadState.CheckHeader | src/lundump.c:185-199 | reads as `LoadSpec.CheckHeader` does |
| Loader.LoadState.SetupLoadFuncs | src/lundump.c:313-337 | switches to the portable primitives exactly when `LoadSpec.SetupLoadFuncs` succeeds; otherwise returns its error |
| Loader.Undump | src/lundump.c:460-480 | the result is `LoadSpec.UndumpWith` of the chunk |
| RoundTrip.IntRoundTrip | src/lundump.c:241-254 | a 32-bit non-negative int written by matching primitives loads back unchanged |
| RoundTrip.NegativeIntRejected | src/lundump.c:244 | a negative int is written but loads as "bad integer" |
| RoundTrip.SizeRoundTrip | src/lundump.c:256-267 | a size below 2^32 loads back unchanged |
| RoundTrip.PortableSizeRoundTrip | src/lundump.c:256-267 | a portable size loads back on any host, whatever its `size_t` width |
| RoundTrip.NativeSizeRoundTrip | src/lundump.c:80-81 | every size the `size_t` of the host holds loads back on a host of the same layout |
| RoundTrip.StringRoundTrip | src/lundump.c:269-278 | a string, or no string, loads back unchanged |
| RoundTrip.SourceRoundTrip | src/lundump.c:436 | the source name loads back under matching primitives when the loader is compatible with the dump |
| RoundTrip.PortableSourceAsWritten | src/lundump.c:436 | the portable loader as written reads the source name back on a host with an 8-byte `size_t` that is little-endian, or when there is no name |
| RoundTrip.NumberRoundTrip | src/lundump.c:280-294 | a number loads back, its image reversed exactly across double layouts |
| RoundTrip.PortableNumberRoundTrip | src/lundump.c:286-294 | a portable number loads back on any host, reversed exactly when the two hosts' doubles differ in byte order |
| RoundTrip.CodeRoundTrip | src/lundump.c:341-357 | a code vector of 32-bit instructions loads back unchanged |
| RoundTrip.LineinfoRoundTrip | src/lundump.c:398-410 | a line vector of 32-bit ints loads back unchanged |
| RoundTrip.ConstantRoundTrip | src/lundump.c:367-387 | a constant loads back with its tag and payload, a number reversed across double layouts |
| RoundTrip.ConstantListRoundTrip | src/lundump.c:363-387 | the constant list loads back element by element |
| RoundTrip.LocVarRoundTrip | src/lundump.c:417-421 | a local variable record loads back unchanged |
| RoundTrip.LocVarsRoundTrip | src/lundump.c:412-421 | the local variable records load back unchanged |
| RoundTrip.UpvaluesRoundTrip | src/lundump.c:422-426 | the upvalue names load back unchanged |
| RoundTrip.DebugRoundTrip | src/lundump.c:395-427 | the debug information loads back, or comes back empty when stripped |
| RoundTrip.HeadRoundTrip | src/lundump.c:436-439 | the source name and the line range load back |
| RoundTrip.FunctionRoundTrip | src/lundump.c:429-454 | a prototype tree whose height fits under `LUAI_MAXCCALLS` loads back as `Reloaded`, with inherited source names, numbers reversed across double layouts, and debug information dropped when stripped |
| RoundTrip.ConstantsRoundTrip | src/lundump.c:361-393 | the constants and nested prototypes load back, the nested ones inheriting the resolved source name |
| RoundTrip.ChildrenRoundTrip | src/lundump.c:388-392 | the nested prototypes load back one after another |
| ChunkRoundTrip.NativeHeaderRead | src/lundump.c:185-199 | check_header accepts the host's own native header and reports it as native |
| ChunkRoundTrip.PortableHeaderRead | src/lundump.c:185-199 | check_header accepts the portable header and reports it as portable |
| ChunkRoundTrip.UndumpOfParts | src/lundump.c:470-479 | an accepted header and a root read back give the undumped tree |
| ChunkRoundTrip.NativeChunkRoundTrip | src/lundump.c:460-480 | a native chunk loads back on any host with the same native header |
| ChunkRoundTrip.NativeRootRoundTrip | src/lundump.c:163-183 | a native root prototype loads back on a host of the same layout |
| ChunkRoundTrip.PortableChunkRoundTrip | src/lundump.c:460-480 | a portable chunk loads back on any host with IEEE-754 doubles and the same integral flag; with the corrected source read this holds on every such host |
| ChunkRoundTrip.PortableRootRoundTrip | src/lundump.c:429-454 | a portable root prototype loads back |
| LoadErrors.ShortChunkRejected | src/lundump.c:189 | a chunk shorter than its header is "unexpected end" |
| LoadErrors.ForeignHeaderRejected | src/lundump.c:185-199 | a header that is neither the portable nor the host's native one is "bad header" |
| LoadErrors.UnknownFormatRejected | src/lundump.c:326-336 | a portable chunk on a host with an unknown double layout fails with "unknown number format" |
| LoadErrors.NativeIgnoresFloat | src/lundump.c:476-477 | a native chunk is read by the native loader whatever the host's double layout |
| LoadErrors.TooDeepRejected | src/lundump.c:431 | entering a prototype with the counter at `LUAI_MAXCCALLS` is "code too deep", whatever follows |
| LoadErrors.BadConstantTag | src/lundump.c:383-385 | a tag other than nil, boolean, number and string is "bad constant" |
| LoadErrors.BooleanPayload | src/lundump.c:374-376 | a boolean constant is true exactly for a non-zero payload byte |
| DepthLimit.DeepFunctionRejected | src/lundump.c:429-454 | a dumped tree taller than the counter allows loads as "code too deep" |
| DepthLimit.DepthDecides | src/lundump.c:431 | a dumped tree loads exactly when its height fits under `LUAI_MAXCCALLS`, and otherwise fails only with "code too deep" |
| DepthLimit.NativeChunkTooDeep | src/lundump.c:166 | a native chunk whose tree is too tall undumps as "code too deep" |
| DepthLimit.DeepConstantsRejected | src/lundump.c:388-392 | the error of a too-tall nested prototype is the error of load_constants |
| DepthLimit.DeepChildrenRejected | src/lundump.c:392 | the first nested prototype that is too tall stops the loop; the ones before it load |
| SourceFinding.SwappedSizeMisread | src/lundump.c:78-90 | a portable size whose low byte is not zero, read as a big-endian 8-byte `size_t`, asks for more bytes than the chunk has |
| SourceFinding.RootStartsWithSize | src/ldump.c:360 | the portable dump of a named, unstripped root starts with the name's 8-byte little-endian size |
| SourceFinding.UndumpFailsAtSource | src/lundump.c:474-475 | luaU_undump as written stops with the error of the source name read |
| SourceFinding.AsWrittenMisreadsSource | src/lundump.c:436 | on a big-endian host with an 8-byte `size_t`, the loader as written rejects a portable chunk whose root has a source name with "unexpected end" |
| SourceFinding.NarrowSizeMisaligns | src/lundump.c:436 | on a host with a 4-byte `size_t`, the loader as written reads a zero portable size from its first four bytes and leaves the other four in the stream; the corrected read goes on after all eight |
| SourceFinding.CorrectedChunkRoundTrip | src/lundump.c:460-480 | luaU_undump with the corrected source read gives back every portable chunk that fits, on every host with IEEE-754 doubles and the same integral flag, whatever its `size_t` |

## Left out

- The `lua_Writer` callback and `ZIO` stream are not modelled as code. The writer is a function of the blocks sent before and the block being sent, and it returns a status. The stream is the sequence of chunk bytes.
- The garbage-collector anchoring of prototypes on the Lua stack and `lua_lock`/`lua_unlock` are left out. They do not change what is written or read.
- Allocation is left out: `luaZ_openspace` (src/lundump.c:86, 274) and `luaM_newvector` run before the bytes are read. For a huge size or count the C loader can fail with a memory error at the allocation, where the model reads on and reports "unexpected end".
- `luaG_checkcode` (the bytecode verifier) is not part of this model. It is the parameter `check`; when `check` rejects a loaded prototype the load fails with "bad code".
- `luaD_throw` is left out: an error is the `Err` of a result, and a thrown dump error is the returned `thrown` value.
- `lua_Number` arithmetic is left out. A number is its 8-byte memory image, and the host's double layout is a parameter. The header byte for `sizeof(lua_Number)` is always 8. The integral flag is a host parameter, because the test `((lua_Number)0.5)==0` depends on the configuration.
- String interning is left out. The pointer comparison `f->source==p` is modelled as content equality, which interning makes equivalent.
- The caches of function pointers in static variables are not modelled. The primitives are selected once per call of `setup_dump_funcs` / `setup_load_funcs`, from the host they run on.
- `dump_portable_bytecode` is a static flag. It becomes the `portable` parameter of `Dumper.Dump`, so both branches of `luaU_dump` are modelled.
- `LUAI_MAXCCALLS` is taken as 200, its default in `luaconf.h`; `luaconf.h` is not part of this model. The loader's initial `nCcalls` is a parameter.
- A native vector is written in one block straight from its memory (`DumpVector` / `LoadVector`). Its bytes are the concatenation of the elements' memory images; addresses and alignment are not modelled.
- `char` signedness in `LoadChar` is not modelled. A tag byte of 128 or more is "bad constant" whether `char` is signed or unsigned.
- RoundTrip.FunctionRoundTrip: proved only for trees that fit the portable format (every int, line and count representable in 32 bits, instructions in 32 bits, sizes below 2^32, code and line vectors below 2^29 entries). `Fits` states this.
- ChunkRoundTrip.NativeChunkRoundTrip: requires `Fits`, the portable format's 32-bit bounds, because it is proved through RoundTrip.FunctionRoundTrip. Between hosts of the same layout the native format also carries wider values (a string of 4 GiB or more with an 8-byte `size_t`, say); those are not covered.
- ChunkRoundTrip.NativeRootRoundTrip: requires `Fits` for the same reason, and does not cover the wider native values either.
- DumpSpec.CodeBlocks, DumpSpec.LineinfoBlocks, Dumper.PortableCodeVector and Dumper.PortableLineVector: the portable dumpers compute the block size `n * 4` as a C `int` (src/ldump.c:224, 231, 246, 254, 261, 273). That overflows for n of 2^29 or more, and the overflow is not modelled: the model writes 4·n bytes for every n. The round-trip lemmas require fewer than 2^29 entries (`RoundTrip.FitsVector`).
- RoundTrip.PortableSourceAsWritten: covers only the hosts where the loader as written reads the name right: an 8-byte `size_t`, and either a little-endian host or no name. The two rows of "## Findings" show the failure on a big-endian host with an 8-byte `size_t` and the misreading on a host with a 4-byte `size_t`.

## Findings

| source | as written | input that shows it | evidently intended | confidence | as-written member | corrected member |
|---|---|---|---|---|---|---|
| src/lundump.c:436 | `load_function` reads the source name with the native `LoadString`, which reads a `size_t` in the host's own width and byte order | A portable, unstripped chunk whose root's source is `"@x.lua"` (size 7 in an 8-byte little-endian field). It is loaded on a big-endian host with an 8-byte `size_t`. The size is read as 7·2^56 bytes, and the load fails: with a memory error when `luaZ_openspace` cannot allocate that much, and otherwise with "unexpected end", which is what the model shows. | read it with `load_string`, as `dump_function` writes it with `dump_string` (src/ldump.c:360) | not executed | SourceFinding.AsWrittenMisreadsSource | SourceFinding.CorrectedChunkRoundTrip |
| src/lundump.c:436 | the same native `LoadString` on a host with a 4-byte `size_t` reads only the first 4 of the 8 size bytes | A stripped portable chunk, whose source-name size is 8 zero bytes, loaded on a host with a 4-byte `size_t` of either byte order. The size is read as 0 from the first four bytes, and the other four are left in the stream, so every later field is read four bytes early. | read all 8 size bytes with `load_string` (src/lundump.c:269-278), as `dump_function` writes them with `dump_string` (src/ldump.c:360) | not executed | SourceFinding.NarrowSizeMisaligns | SourceFinding.CorrectedChunkRoundTrip |
