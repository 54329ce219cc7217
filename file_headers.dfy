/** The fixed-size records of a Hermes bytecode file as hermes_dec/src/hermes_file_reader.rs
 *  declares them: the `#[bitfield]` words (the first field in the least significant
 *  bits), the `Prohibit` and `StringKind` conversions, and the two `#[repr(C)]`
 *  structs read by the `FromBytes` derive. */
module FileHeaders {
  import opened Wrappers
  import opened Bytes
  import StructReader

  const INVALID_PROHIBIT := "Invalid Prohibit value"

  /** `Prohibit`, a `#[repr(u8)]` enum: Call = 0, Construct = 1, None = 2. */
  datatype Prohibit = Call | Construct | NoneProhibited

  /** `From<u8> for Prohibit`, which panics on any other value. */
  function ProhibitFrom(v: nat): (r: Result<Prohibit>)
    ensures r.Ok? <==> v <= 2
  {
    if v == 0 then Ok(Call)
    else if v == 1 then Ok(Construct)
    else if v == 2 then Ok(NoneProhibited)
    else Err(INVALID_PROHIBIT)
  }

  /** `From<Prohibit> for u8`: the discriminant. */
  function ProhibitToU8(p: Prohibit): (v: nat)
  {
    match p
    case Call => 0
    case Construct => 1
    case NoneProhibited => 2
  }

  lemma ProhibitRoundTrip(p: Prohibit, v: nat)
    ensures ProhibitFrom(ProhibitToU8(p)) == Ok(p)
    ensures ProhibitFrom(v).Ok? ==> ProhibitToU8(ProhibitFrom(v).value) == v
  {
  }

  /** `FunctionHeaderFlags`, a `#[bitfield(u8)]` of widths 2, 1, 1, 1, 1, 2. The two
   *  `prohibit_invoke` bits are kept raw; the accessor converts them with `ProhibitFrom`. */
  datatype FunctionHeaderFlags = FunctionHeaderFlags(
    prohibitInvoke: nat, strictMode: bool, hasExceptionHandler: bool,
    hasDebugInfo: bool, overflowed: bool, padding: nat)

  function Bit(b: bool): nat
  {
    if b then 1 else 0
  }

  /** `From<u8> for FunctionHeaderFlags`. */
  function FlagsFrom(x: nat): FunctionHeaderFlags
  {
    var r1 := High(x, 2);
    var r2 := High(r1, 1);
    var r3 := High(r2, 1);
    var r4 := High(r3, 1);
    FunctionHeaderFlags(Low(x, 2), Low(r1, 1) == 1, Low(r2, 1) == 1, Low(r3, 1) == 1, Low(r4, 1) == 1,
      Low(High(r4, 1), 2))
  }

  /** `From<FunctionHeaderFlags> for u8`. */
  function FlagsBits(g: FunctionHeaderFlags): nat
  {
    Join(g.prohibitInvoke, 2, Join(Bit(g.strictMode), 1, Join(Bit(g.hasExceptionHandler), 1,
      Join(Bit(g.hasDebugInfo), 1, Join(Bit(g.overflowed), 1, g.padding)))))
  }

  predicate FlagsFit(g: FunctionHeaderFlags)
  {
    g.prohibitInvoke < Pow2(2) && g.padding < Pow2(2)
  }

  /** The six flag fields tile the byte: reading a byte and writing it back gives the
   *  byte. */
  lemma FlagsByteRoundTrip(x: nat)
    requires x < Pow2(8)
    ensures FlagsFit(FlagsFrom(x)) && FlagsBits(FlagsFrom(x)) == x
  {
    var r1 := High(x, 2);
    var r2 := High(r1, 1);
    var r3 := High(r2, 1);
    var r4 := High(r3, 1);
    HighBound(x, 2, 6);
    HighBound(r1, 1, 5);
    HighBound(r2, 1, 4);
    HighBound(r3, 1, 3);
    HighBound(r4, 1, 2);
    LowSmall(High(r4, 1), 2);
    assert Pow2(1) == 2;
    assert Bit(Low(r1, 1) == 1) == Low(r1, 1);
    assert Bit(Low(r2, 1) == 1) == Low(r2, 1);
    assert Bit(Low(r3, 1) == 1) == Low(r3, 1);
    assert Bit(Low(r4, 1) == 1) == Low(r4, 1);
    SplitJoin(r4, 1);
    SplitJoin(r3, 1);
    SplitJoin(r2, 1);
    SplitJoin(r1, 1);
    SplitJoin(x, 2);
  }

  /** Writing flags and reading them back gives the flags, and they fit in a byte. */
  lemma FlagsFieldsRoundTrip(g: FunctionHeaderFlags)
    requires FlagsFit(g)
    ensures FlagsFrom(FlagsBits(g)) == g && FlagsBits(g) < Pow2(8)
  {
    var j4 := Join(Bit(g.overflowed), 1, g.padding);
    var j3 := Join(Bit(g.hasDebugInfo), 1, j4);
    var j2 := Join(Bit(g.hasExceptionHandler), 1, j3);
    var j1 := Join(Bit(g.strictMode), 1, j2);
    var x := Join(g.prohibitInvoke, 2, j1);
    BitField(g.strictMode, j2);
    BitField(g.hasExceptionHandler, j3);
    BitField(g.hasDebugInfo, j4);
    BitField(g.overflowed, g.padding);
    JoinSplit(g.prohibitInvoke, 2, j1);
    LowSmall(g.padding, 2);
    assert High(x, 2) == j1 && High(j1, 1) == j2 && High(j2, 1) == j3 && High(j3, 1) == j4;
    FlagsBitsBound(g);
  }

  lemma FlagsBitsBound(g: FunctionHeaderFlags)
    requires FlagsFit(g)
    ensures FlagsBits(g) < Pow2(8)
  {
    var j1 := Join(Bit(g.strictMode), 1, Join(Bit(g.hasExceptionHandler), 1,
      Join(Bit(g.hasDebugInfo), 1, Join(Bit(g.overflowed), 1, g.padding))));
    LowFlagsBound(g);
    JoinBound(g.prohibitInvoke, 2, j1, 6);
  }

  /** The four one-bit flags and the padding above `prohibit_invoke` take six bits. */
  lemma LowFlagsBound(g: FunctionHeaderFlags)
    requires FlagsFit(g)
    ensures Join(Bit(g.strictMode), 1, Join(Bit(g.hasExceptionHandler), 1,
      Join(Bit(g.hasDebugInfo), 1, Join(Bit(g.overflowed), 1, g.padding)))) < Pow2(6)
  {
    var j4 := Join(Bit(g.overflowed), 1, g.padding);
    var j3 := Join(Bit(g.hasDebugInfo), 1, j4);
    var j2 := Join(Bit(g.hasExceptionHandler), 1, j3);
    assert Pow2(1) == 2;
    JoinBound(Bit(g.overflowed), 1, g.padding, 2);
    JoinBound(Bit(g.hasDebugInfo), 1, j4, 3);
    JoinBound(Bit(g.hasExceptionHandler), 1, j3, 4);
    JoinBound(Bit(g.strictMode), 1, j2, 5);
  }

  /** A one-bit boolean field joined below a word reads back as itself. */
  lemma BitField(b: bool, hi: nat)
    ensures Bit(b) < Pow2(1)
    ensures (Low(Join(Bit(b), 1, hi), 1) == 1) == b && High(Join(Bit(b), 1, hi), 1) == hi
  {
    assert Pow2(1) == 2;
    JoinSplit(Bit(b), 1, hi);
  }

  /** The `prohibit_invoke` accessor. */
  function ProhibitInvoke(g: FunctionHeaderFlags): Result<Prohibit>
  {
    ProhibitFrom(g.prohibitInvoke)
  }

  /** `BytecodeOptions`, a `#[bitfield(u8)]` of widths 1, 1, 1, 5. */
  datatype BytecodeOptions = BytecodeOptions(
    staticBuiltins: bool, cjsModulesStaticallyResolved: bool, hasAsync: bool, padding: nat)

  function OptionsFrom(x: nat): BytecodeOptions
  {
    var r1 := High(x, 1);
    var r2 := High(r1, 1);
    BytecodeOptions(Low(x, 1) == 1, Low(r1, 1) == 1, Low(r2, 1) == 1, Low(High(r2, 1), 5))
  }

  /** `cjs_modules_statically_resolved` is bit 1 of the options byte. */
  lemma CjsBit(x: nat)
    ensures OptionsFrom(x).cjsModulesStaticallyResolved <==> (x / 2) % 2 == 1
  {
    assert Pow2(1) == 2;
  }

  /** `SmallFuncHeader`, a `#[bitfield(u128)]` of widths 25, 7, 15, 17, 25, 7, 8, 8, 8, 8. */
  datatype SmallFuncHeader = SmallFuncHeader(
    offset: nat, paramCount: nat, bytecodeSizeInBytes: nat, functionName: nat,
    infoOffset: nat, frameSize: nat, environmentSize: nat,
    highestReadCacheIndex: nat, highestWriteCacheIndex: nat, flags: FunctionHeaderFlags)

  /** `From<u128> for SmallFuncHeader`: each accessor shifts and masks its bit range. */
  function SmallFuncHeaderFrom(x: nat): SmallFuncHeader
  {
    var r1 := High(x, 25);
    var r2 := High(r1, 7);
    var r3 := High(r2, 15);
    var r4 := High(r3, 17);
    var r5 := High(r4, 25);
    var r6 := High(r5, 7);
    var r7 := High(r6, 8);
    var r8 := High(r7, 8);
    var r9 := High(r8, 8);
    SmallFuncHeader(Low(x, 25), Low(r1, 7), Low(r2, 15), Low(r3, 17), Low(r4, 25), Low(r5, 7),
      Low(r6, 8), Low(r7, 8), Low(r8, 8), FlagsFrom(Low(r9, 8)))
  }

  /** `From<SmallFuncHeader> for u128`. */
  function SmallFuncHeaderBits(h: SmallFuncHeader): nat
  {
    Join(h.offset, 25, Join(h.paramCount, 7, Join(h.bytecodeSizeInBytes, 15, Join(h.functionName, 17,
      Join(h.infoOffset, 25, Join(h.frameSize, 7, Join(h.environmentSize, 8,
      Join(h.highestReadCacheIndex, 8, Join(h.highestWriteCacheIndex, 8, FlagsBits(h.flags))))))))))
  }

  predicate SmallFuncHeaderFits(h: SmallFuncHeader)
  {
    && h.offset < Pow2(25) && h.paramCount < Pow2(7) && h.bytecodeSizeInBytes < Pow2(15)
    && h.functionName < Pow2(17) && h.infoOffset < Pow2(25) && h.frameSize < Pow2(7)
    && h.environmentSize < Pow2(8) && h.highestReadCacheIndex < Pow2(8)
    && h.highestWriteCacheIndex < Pow2(8) && FlagsFit(h.flags)
  }

  /** The ten fields (25 + 7 + 15 + 17 + 25 + 7 + 8 + 8 + 8 + 8 bits) tile the `u128`
   *  exactly: every word is the packing of its fields. */
  lemma SmallFuncHeaderWordRoundTrip(x: nat)
    requires x < Pow2(128)
    ensures SmallFuncHeaderFits(SmallFuncHeaderFrom(x))
    ensures SmallFuncHeaderBits(SmallFuncHeaderFrom(x)) == x
  {
    var r1 := High(x, 25);
    var r2 := High(r1, 7);
    var r3 := High(r2, 15);
    var r4 := High(r3, 17);
    var r5 := High(r4, 25);
    var r6 := High(r5, 7);
    var r7 := High(r6, 8);
    var r8 := High(r7, 8);
    var r9 := High(r8, 8);
    HighBound(x, 25, 103);
    HighBound(r1, 7, 96);
    HighBound(r2, 15, 81);
    HighBound(r3, 17, 64);
    HighBound(r4, 25, 39);
    HighBound(r5, 7, 32);
    HighBound(r6, 8, 24);
    HighBound(r7, 8, 16);
    HighBound(r8, 8, 8);
    LowSmall(r9, 8);
    FlagsByteRoundTrip(r9);
    SplitJoin(r8, 8);
    SplitJoin(r7, 8);
    SplitJoin(r6, 8);
    SplitJoin(r5, 7);
    SplitJoin(r4, 25);
    SplitJoin(r3, 17);
    SplitJoin(r2, 15);
    SplitJoin(r1, 7);
    SplitJoin(x, 25);
  }

  /** And every header whose fields fit their widths is read back from its word. */
  lemma SmallFuncHeaderFieldsRoundTrip(h: SmallFuncHeader)
    requires SmallFuncHeaderFits(h)
    ensures SmallFuncHeaderFrom(SmallFuncHeaderBits(h)) == h
  {
    var f := FlagsBits(h.flags);
    FlagsFieldsRoundTrip(h.flags);
    var j9 := Join(h.highestWriteCacheIndex, 8, f);
    var j8 := Join(h.highestReadCacheIndex, 8, j9);
    var j7 := Join(h.environmentSize, 8, j8);
    var j6 := Join(h.frameSize, 7, j7);
    var j5 := Join(h.infoOffset, 25, j6);
    var j4 := Join(h.functionName, 17, j5);
    var j3 := Join(h.bytecodeSizeInBytes, 15, j4);
    var j2 := Join(h.paramCount, 7, j3);
    JoinSplit(h.offset, 25, j2);
    JoinSplit(h.paramCount, 7, j3);
    JoinSplit(h.bytecodeSizeInBytes, 15, j4);
    JoinSplit(h.functionName, 17, j5);
    JoinSplit(h.infoOffset, 25, j6);
    JoinSplit(h.frameSize, 7, j7);
    JoinSplit(h.environmentSize, 8, j8);
    JoinSplit(h.highestReadCacheIndex, 8, j9);
    JoinSplit(h.highestWriteCacheIndex, 8, f);
    LowSmall(f, 8);
  }

  /** `SmallStringTableEntry`, a `#[bitfield(u32)]`: `is_utf16` (1 bit), `offset`
   *  (23 bits), `length` (8 bits). */
  datatype SmallStringTableEntry = SmallStringTableEntry(isUtf16: nat, offset: nat, length: nat)

  function SmallStringTableEntryFrom(x: nat): SmallStringTableEntry
  {
    var r1 := High(x, 1);
    SmallStringTableEntry(Low(x, 1), Low(r1, 23), Low(High(r1, 23), 8))
  }

  function SmallStringTableEntryBits(e: SmallStringTableEntry): nat
  {
    Join(e.isUtf16, 1, Join(e.offset, 23, e.length))
  }

  /** The three fields tile the `u32` both ways. */
  lemma SmallStringTableEntryRoundTrip(x: nat, e: SmallStringTableEntry)
    ensures x < Pow2(32) ==> SmallStringTableEntryBits(SmallStringTableEntryFrom(x)) == x
    ensures e.isUtf16 < Pow2(1) && e.offset < Pow2(23) && e.length < Pow2(8) ==>
      SmallStringTableEntryFrom(SmallStringTableEntryBits(e)) == e
  {
    if x < Pow2(32) {
      var r1 := High(x, 1);
      HighBound(x, 1, 31);
      HighBound(r1, 23, 8);
      LowSmall(High(r1, 23), 8);
      SplitJoin(r1, 23);
      SplitJoin(x, 1);
    }
    if e.isUtf16 < Pow2(1) && e.offset < Pow2(23) && e.length < Pow2(8) {
      JoinSplit(e.isUtf16, 1, Join(e.offset, 23, e.length));
      JoinSplit(e.offset, 23, e.length);
      LowSmall(e.length, 8);
    }
  }

  /** `StringKind`: `From<u32>` keeps only bit 0. */
  datatype StringKind = StringKindString | Identifier

  function StringKindFrom(v: nat): (k: StringKind)
    ensures k == Identifier <==> v % 2 == 1
  {
    if v % 2 == 0 then StringKindString else Identifier
  }

  /** `From<StringKind> for u32`: the discriminant. */
  function StringKindBits(k: StringKind): nat
  {
    if k == StringKindString then 0 else 1
  }

  /** `StringKindEntry`, a `#[bitfield(u32)]`: a 31-bit count then the kind bit. */
  datatype StringKindEntry = StringKindEntry(count: nat, kind: StringKind)

  function StringKindEntryFrom(x: nat): StringKindEntry
  {
    StringKindEntry(Low(x, 31), StringKindFrom(Low(High(x, 31), 1)))
  }

  function StringKindEntryBits(e: StringKindEntry): nat
  {
    Join(e.count, 31, StringKindBits(e.kind))
  }

  /** The count and the kind bit tile the `u32` both ways. */
  lemma StringKindEntryRoundTrip(x: nat, e: StringKindEntry)
    ensures x < Pow2(32) ==> StringKindEntryBits(StringKindEntryFrom(x)) == x
    ensures e.count < Pow2(31) ==> StringKindEntryFrom(StringKindEntryBits(e)) == e
  {
    assert Pow2(1) == 2;
    if x < Pow2(32) {
      HighBound(x, 31, 1);
      LowSmall(High(x, 31), 1);
      SplitJoin(x, 31);
    }
    if e.count < Pow2(31) {
      JoinSplit(e.count, 31, StringKindBits(e.kind));
      LowSmall(StringKindBits(e.kind), 1);
    }
  }

  /** `OverflowStringTableEntry`, `BigIntTableEntry` and `RegExpTableEntry`: two
   *  32-bit halves of a `u64`, the offset in the low half. */
  datatype OffsetLength = OffsetLength(offset: nat, length: nat)

  function OffsetLengthFrom(x: nat): OffsetLength
  {
    OffsetLength(Low(x, 32), Low(High(x, 32), 32))
  }

  function OffsetLengthBits(e: OffsetLength): nat
  {
    Join(e.offset, 32, e.length)
  }

  lemma OffsetLengthWordRoundTrip(x: nat)
    requires x < Pow2(64)
    ensures OffsetLengthBits(OffsetLengthFrom(x)) == x
  {
    HighBound(x, 32, 32);
    LowSmall(High(x, 32), 32);
    SplitJoin(x, 32);
  }

  lemma OffsetLengthFieldsRoundTrip(e: OffsetLength)
    requires e.offset < Pow2(32) && e.length < Pow2(32)
    ensures OffsetLengthFrom(OffsetLengthBits(e)) == e
  {
    JoinSplit(e.offset, 32, e.length);
    LowSmall(e.length, 32);
  }

  /** The value of a raw integer field read by the `FromBytes` readers. */
  function RawValue(v: StructReader.Value): nat
  {
    if v.Raw? then LeValue(v.bytes) else 0
  }

  /** `BytecodeFileHeader`, `#[repr(C)]`: 128 bytes, read field by field. */
  datatype BytecodeFileHeader = BytecodeFileHeader(
    magic: nat, version: nat, sourceHash: seq<byte>,
    fileLength: nat, globalCodeIndex: nat, functionCount: nat, stringKindCount: nat,
    identifierCount: nat, stringCount: nat, overflowStringCount: nat, stringStorageSize: nat,
    bigIntCount: nat, bigIntStorageSize: nat, regExpCount: nat, regExpStorageSize: nat,
    arrayBufferSize: nat, objKeyBufferSize: nat, objValueBufferSize: nat, segmentId: nat,
    cjsModuleCount: nat, functionSourceCount: nat, debugInfoOffset: nat,
    options: BytecodeOptions)

  /** The header's fields and their sizes: `magic: u64`, `version: u32`,
   *  `source_hash: [u8; 20]`, nineteen `u32` counts and sizes, `options` (one byte)
   *  and `_padding: [u8; 19]`. */
  const HEADER_LAYOUT := StructReader.Layout(
    [StructReader.PlainField(8), StructReader.PlainField(4), StructReader.PlainField(20)]
    + StructReader.Repeat(19, 4)
    + [StructReader.PlainField(1), StructReader.PlainField(19)], 128)

  function HeaderOf(vs: seq<StructReader.Value>): BytecodeFileHeader
    requires |vs| == 24
  {
    BytecodeFileHeader(
      RawValue(vs[0]), RawValue(vs[1]), if vs[2].Raw? then vs[2].bytes else [],
      RawValue(vs[3]), RawValue(vs[4]), RawValue(vs[5]), RawValue(vs[6]),
      RawValue(vs[7]), RawValue(vs[8]), RawValue(vs[9]), RawValue(vs[10]),
      RawValue(vs[11]), RawValue(vs[12]), RawValue(vs[13]), RawValue(vs[14]),
      RawValue(vs[15]), RawValue(vs[16]), RawValue(vs[17]), RawValue(vs[18]),
      RawValue(vs[19]), RawValue(vs[20]), RawValue(vs[21]),
      OptionsFrom(RawValue(vs[22])))
  }

  /** `FunctionHeader`, `#[repr(C)]`: seven `u32`s, two `u8`s and the flags byte;
   *  31 bytes of fields, 32 with the alignment padding. */
  datatype FunctionHeader = FunctionHeader(
    offset: nat, paramCount: nat, bytecodeSizeInBytes: nat, functionName: nat,
    infoOffset: nat, frameSize: nat, environmentSize: nat,
    highestReadCacheIndex: nat, highestWriteCacheIndex: nat, flags: FunctionHeaderFlags)

  const FUNCTION_HEADER_LAYOUT := StructReader.Layout(
    StructReader.Repeat(7, 4)
    + [StructReader.PlainField(1), StructReader.PlainField(1), StructReader.PlainField(1)], 32)

  function FunctionHeaderOf(vs: seq<StructReader.Value>): FunctionHeader
    requires |vs| == 10
  {
    FunctionHeader(
      RawValue(vs[0]), RawValue(vs[1]), RawValue(vs[2]), RawValue(vs[3]), RawValue(vs[4]),
      RawValue(vs[5]), RawValue(vs[6]), RawValue(vs[7]), RawValue(vs[8]),
      FlagsFrom(RawValue(vs[9])))
  }

  /** The header's fields fill its 128 bytes. */
  lemma HeaderLayout()
    ensures |HEADER_LAYOUT.fields| == 24 && StructReader.TotalSize(HEADER_LAYOUT.fields) == HEADER_LAYOUT.size == 128
    ensures forall k :: 0 <= k < |HEADER_LAYOUT.fields| ==> HEADER_LAYOUT.fields[k].PlainField?
  {
    var front := [StructReader.PlainField(8), StructReader.PlainField(4), StructReader.PlainField(20)];
    var u32s := StructReader.Repeat(19, 4);
    var back := [StructReader.PlainField(1), StructReader.PlainField(19)];
    StructReader.TotalSizeRepeat(19, 4);
    StructReader.TotalSizeAppend(front, u32s);
    StructReader.TotalSizeAppend(front + u32s, back);
    HeaderFieldsPlain();
  }

  lemma HeaderFieldsPlain()
    ensures forall k :: 0 <= k < |HEADER_LAYOUT.fields| ==> HEADER_LAYOUT.fields[k].PlainField?
  {
    var front := [StructReader.PlainField(8), StructReader.PlainField(4), StructReader.PlainField(20)];
    var u32s := StructReader.Repeat(19, 4);
    var back := [StructReader.PlainField(1), StructReader.PlainField(19)];
    var fields := HEADER_LAYOUT.fields;
    assert fields == (front + u32s) + back;
    forall k | 0 <= k < |fields|
      ensures fields[k].PlainField?
    {
      if k < 3 {
        assert fields[k] == front[k];
      } else if k < 22 {
        assert fields[k] == u32s[k - 3];
      } else {
        assert fields[k] == back[k - 22];
      }
    }
  }

  /** A function header's fields take 31 of its 32 bytes. */
  lemma FunctionHeaderLayout()
    ensures |FUNCTION_HEADER_LAYOUT.fields| == 10 && StructReader.TotalSize(FUNCTION_HEADER_LAYOUT.fields) == 31
    ensures FUNCTION_HEADER_LAYOUT.size == 32
    ensures forall k :: 0 <= k < |FUNCTION_HEADER_LAYOUT.fields| ==> FUNCTION_HEADER_LAYOUT.fields[k].PlainField?
  {
    var bytes := [StructReader.PlainField(1), StructReader.PlainField(1), StructReader.PlainField(1)];
    StructReader.TotalSizeRepeat(7, 4);
    StructReader.TotalSizeAppend(StructReader.Repeat(7, 4), bytes);
  }
}
