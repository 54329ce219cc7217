/** `BytecodeFile::from_reader`, `get_string`, and the per-function bytecode readers
 *  and disassembly of `hermes_file_reader.rs`. Every `unwrap` of a failed read is an
 *  `Err` carrying the panic's message. */
module FileReader {
  import opened Wrappers
  import opened Bytes
  import Stream
  import StructReader
  import opened FileHeaders
  import opened V93
  import opened ByteCodeInstructions

  const INDEX_OUT_OF_BOUNDS := "index out of bounds"
  const U32_LIMIT := 0x1_0000_0000

  // ----- Tables of little-endian words -----

  /** `count` words of `width` bytes read one after the other from `pos` with
   *  `read_uN::<LittleEndian>().unwrap()`. */
  function Words(data: seq<byte>, pos: nat, count: nat, width: nat): (r: Result<seq<nat>>)
    requires width > 0
    ensures r.Ok? ==> |r.value| == count
    decreases count
  {
    if count == 0 then Ok([])
    else if pos + width > |data| then Err(Stream.EOF_MESSAGE)
    else
      var rest :- Words(data, pos + width, count - 1, width);
      Ok([LeValue(data[pos..pos + width])] + rest)
  }

  lemma MulSucc(a: nat, b: nat)
    ensures (a + 1) * b == a * b + b
  {
  }

  /** A table reads successfully exactly when all its words are in the buffer. */
  lemma {:induction false} WordsOk(data: seq<byte>, pos: nat, count: nat, width: nat)
    requires width > 0
    ensures Words(data, pos, count, width).Ok? <==> count == 0 || pos + count * width <= |data|
    decreases count
  {
    if count > 0 {
      MulSucc(count - 1, width);
      WordsOk(data, pos + width, count - 1, width);
    }
  }

  /** Word `k` of a table is the little-endian value of the `width` bytes at
   *  `pos + k * width`. */
  lemma {:induction false} WordAt(data: seq<byte>, pos: nat, count: nat, width: nat, k: nat)
    requires width > 0 && Words(data, pos, count, width).Ok? && k < count
    ensures pos + (k + 1) * width <= |data|
    ensures Words(data, pos, count, width).value[k] == LeValue(data[pos + k * width..pos + (k + 1) * width])
    decreases k
  {
    MulSucc(k, width);
    if k > 0 {
      WordAt(data, pos + width, count - 1, width, k - 1);
      MulSucc(k - 1, width);
    }
  }

  /** A table of words and the position right after it. */
  function WordTable(data: seq<byte>, pos: nat, count: nat, width: nat): (r: Result<(seq<nat>, nat)>)
    requires width > 0
    ensures r.Ok? <==> count == 0 || pos + count * width <= |data|
    ensures r.Ok? ==> |r.value.0| == count && r.value.1 == pos + count * width
  {
    WordsOk(data, pos, count, width);
    var words :- Words(data, pos, count, width);
    Ok((words, pos + count * width))
  }

  /** Entry `k` of a word table is the little-endian value of the `width` bytes at
   *  `pos + k * width`. */
  lemma WordTableAt(data: seq<byte>, pos: nat, count: nat, width: nat, k: nat)
    requires width > 0 && WordTable(data, pos, count, width).Ok? && k < count
    ensures pos + (k + 1) * width <= |data|
    ensures WordTable(data, pos, count, width).value.0[k] == LeValue(data[pos + k * width..pos + (k + 1) * width])
  {
    WordAt(data, pos, count, width, k);
  }

  /** The table loop: `count` reads of `width` bytes, stopping at the first that fails. */
  method ReadWords(r: Stream.Cursor, count: nat, width: nat) returns (res: Result<(seq<nat>, nat)>)
    requires width > 0
    modifies r
    ensures res == WordTable(r.data, old(r.pos), count, width)
    ensures res.Ok? ==> r.pos == res.value.1
  {
    var start := r.pos;
    var words: seq<nat> := [];
    StructReader.PrependNothing(Words(r.data, start, count, width));
    for k := 0 to count
      invariant r.pos == start + k * width
      invariant Words(r.data, start, count, width) == StructReader.Prepend(words, Words(r.data, r.pos, count - k, width))
    {
      var p := r.pos;
      var w := r.ReadUint(width);
      if w.Err? {
        return Err(w.msg);
      }
      StructReader.PrependTwice(words, w.value, Words(r.data, r.pos, count - k - 1, width));
      words := words + [w.value];
      MulSucc(k, width);
    }
    assert words + [] == words;
    res := Ok((words, r.pos));
  }

  /** `count` single bytes from `pos`, read with `read_u8().unwrap()`. */
  function ByteRun(data: seq<byte>, pos: nat, count: nat): (r: Result<seq<byte>>)
    ensures r.Ok? <==> count == 0 || pos + count <= |data|
    ensures r.Ok? ==> |r.value| == count
  {
    if count == 0 then Ok([])
    else if pos + count <= |data| then Ok(data[pos..pos + count])
    else Err(Stream.EOF_MESSAGE)
  }

  lemma LeValueOne(b: byte)
    ensures LeValue([b]) == b
  {
    assert [b][1..] == [];
  }

  /** A run of bytes and the position right after it. */
  function ByteTable(data: seq<byte>, pos: nat, count: nat): (r: Result<(seq<byte>, nat)>)
    ensures r.Ok? <==> count == 0 || pos + count <= |data|
    ensures r.Ok? ==> |r.value.0| == count && r.value.1 == pos + count
  {
    var bytes :- ByteRun(data, pos, count);
    Ok((bytes, pos + count))
  }

  method ReadBytes(r: Stream.Cursor, count: nat) returns (res: Result<(seq<byte>, nat)>)
    modifies r
    ensures res == ByteTable(r.data, old(r.pos), count)
    ensures res.Ok? ==> r.pos == res.value.1
  {
    var start := r.pos;
    var bytes: seq<byte> := [];
    for k := 0 to count
      invariant r.pos == start + k
      invariant k > 0 ==> start + k <= |r.data| && bytes == r.data[start..start + k]
      invariant k == 0 ==> bytes == []
    {
      var p := r.pos;
      var b := r.ReadUint(1);
      if b.Err? {
        return Err(b.msg);
      }
      assert r.data[p..p + 1] == [r.data[p]];
      LeValueOne(r.data[p]);
      bytes := bytes + [b.value];
    }
    if count == 0 {
      res := Ok(([], r.pos));
    } else {
      res := Ok((bytes, r.pos));
    }
  }

  /** `count` pairs of `u32`s from `pos`, as the CommonJS module and function source
   *  tables read them. */
  function Pairs(data: seq<byte>, pos: nat, count: nat): (r: Result<seq<(nat, nat)>>)
    ensures r.Ok? ==> |r.value| == count
    decreases count
  {
    if count == 0 then Ok([])
    else if pos + 8 > |data| then Err(Stream.EOF_MESSAGE)
    else
      var rest :- Pairs(data, pos + 8, count - 1);
      Ok([(LeValue(data[pos..pos + 4]), LeValue(data[pos + 4..pos + 8]))] + rest)
  }

  /** A pair table is the word table of twice as many `u32`s, taken two at a time. */
  lemma {:induction false} PairsAreWords(data: seq<byte>, pos: nat, count: nat)
    ensures Pairs(data, pos, count).Ok? <==> Words(data, pos, 2 * count, 4).Ok?
    ensures Pairs(data, pos, count).Ok? ==> forall k :: 0 <= k < count ==>
      Pairs(data, pos, count).value[k] == (Words(data, pos, 2 * count, 4).value[2 * k], Words(data, pos, 2 * count, 4).value[2 * k + 1])
    decreases count
  {
    if count > 0 {
      PairsAreWords(data, pos + 8, count - 1);
      assert 2 * count - 1 - 1 == 2 * (count - 1);
    }
  }

  /** A table of pairs and the position right after it. */
  function PairTable(data: seq<byte>, pos: nat, count: nat): (r: Result<(seq<(nat, nat)>, nat)>)
    ensures r.Ok? ==> |r.value.0| == count && r.value.1 == pos + 8 * count
  {
    var pairs :- Pairs(data, pos, count);
    Ok((pairs, pos + 8 * count))
  }

  method ReadPairs(r: Stream.Cursor, count: nat) returns (res: Result<(seq<(nat, nat)>, nat)>)
    modifies r
    ensures res == PairTable(r.data, old(r.pos), count)
    ensures res.Ok? ==> r.pos == res.value.1
  {
    var start := r.pos;
    var pairs: seq<(nat, nat)> := [];
    StructReader.PrependNothing(Pairs(r.data, start, count));
    for k := 0 to count
      invariant r.pos == start + 8 * k
      invariant Pairs(r.data, start, count) == StructReader.Prepend(pairs, Pairs(r.data, r.pos, count - k))
    {
      var first := r.ReadUint(4);
      if first.Err? {
        return Err(first.msg);
      }
      var second := r.ReadUint(4);
      if second.Err? {
        return Err(second.msg);
      }
      StructReader.PrependTwice(pairs, (first.value, second.value), Pairs(r.data, r.pos, count - k - 1));
      pairs := pairs + [(first.value, second.value)];
    }
    assert pairs + [] == pairs;
    res := Ok((pairs, r.pos));
  }

  // ----- The whole file -----

  /** `BytecodeFile`: the header and every table in file order. Exactly one of the
   *  two CommonJS module tables is present. A `#[bitfield]` struct is its integer
   *  word, so the bitfield tables hold the words read; `SmallFuncHeaderFrom`,
   *  `StringKindEntryFrom`, `SmallStringTableEntryFrom` and `OffsetLengthFrom` are
   *  their field accessors. */
  datatype BytecodeFile = BytecodeFile(
    header: BytecodeFileHeader,
    functionHeaders: seq<nat>,
    stringKinds: seq<nat>,
    identifierHashes: seq<nat>,
    stringTableEntries: seq<nat>,
    stringTableOverflowEntries: seq<nat>,
    stringStorage: seq<byte>,
    arrayBuffer: seq<byte>,
    objKeyBuffer: seq<byte>,
    objValueBuffer: seq<byte>,
    bigIntTable: seq<nat>,
    bigIntStorage: seq<byte>,
    regExpTable: seq<nat>,
    regExpStorage: seq<byte>,
    cjsModuleTable: Option<seq<(nat, nat)>>,
    cjsModuleTableStatic: Option<seq<(nat, nat)>>,
    functionSourceTable: seq<(nat, nat)>)

  /** `BytecodeFileHeader::from_reader` at `pos`. */
  function HeaderAt(data: seq<byte>, pos: nat): (r: Result<BytecodeFileHeader>)
    ensures r.Ok? <==> pos + 128 <= |data|
  {
    HeaderLayout();
    StructReader.ReadFieldsPlain(HEADER_LAYOUT.fields, StructReader.Rest(data, pos), Stream.EOF_MESSAGE);
    var vs :- StructReader.ReadFields(HEADER_LAYOUT.fields, StructReader.Rest(data, pos), Stream.EOF_MESSAGE);
    Ok(HeaderOf(vs))
  }

  /** The tables from the function headers to the string storage, and where they end. */
  datatype StringSection = StringSection(
    functionHeaders: seq<nat>, stringKinds: seq<nat>,
    identifierHashes: seq<nat>, stringTableEntries: seq<nat>,
    overflowEntries: seq<nat>, stringStorage: seq<byte>, end: nat)

  /** The literal buffers and the BigInt and RegExp tables, and where they end. */
  datatype LiteralSection = LiteralSection(
    arrayBuffer: seq<byte>, objKeyBuffer: seq<byte>, objValueBuffer: seq<byte>,
    bigIntTable: seq<nat>, bigIntStorage: seq<byte>,
    regExpTable: seq<nat>, regExpStorage: seq<byte>, end: nat)

  /** The bytes of the string section: function headers, string kinds, identifier
   *  hashes, string table, overflow table and string storage. */
  function StringSectionSize(h: BytecodeFileHeader): nat
  {
    h.functionCount * 16 + (h.stringKindCount + h.identifierCount + h.stringCount) * 4
    + h.overflowStringCount * 8 + h.stringStorageSize
  }

  /** The bytes of the literal section: three buffers, then the BigInt and RegExp
   *  tables, each followed by its storage. */
  function LiteralSectionSize(h: BytecodeFileHeader): nat
  {
    h.arrayBufferSize + h.objKeyBufferSize + h.objValueBufferSize
    + h.bigIntCount * 8 + h.bigIntStorageSize + h.regExpCount * 8 + h.regExpStorageSize
  }

  /** The bytes every table after the header takes. */
  function TablesSize(h: BytecodeFileHeader): nat
  {
    StringSectionSize(h) + LiteralSectionSize(h) + 8 * (h.cjsModuleCount + h.functionSourceCount)
  }

  function StringSectionAt(data: seq<byte>, h: BytecodeFileHeader, p: nat): (r: Result<StringSection>)
    ensures r.Ok? ==> var s := r.value;
      && |s.functionHeaders| == h.functionCount && |s.stringKinds| == h.stringKindCount
      && |s.identifierHashes| == h.identifierCount && |s.stringTableEntries| == h.stringCount
      && |s.overflowEntries| == h.overflowStringCount && |s.stringStorage| == h.stringStorageSize
      && s.end == p + StringSectionSize(h)
    ensures r.Ok? ==> WordTable(data, p, h.functionCount, 16) == Ok((r.value.functionHeaders, p + h.functionCount * 16))
  {
    var functionHeaders :- WordTable(data, p, h.functionCount, 16);
    var stringKinds :- WordTable(data, functionHeaders.1, h.stringKindCount, 4);
    var identifierHashes :- WordTable(data, stringKinds.1, h.identifierCount, 4);
    var stringEntries :- WordTable(data, identifierHashes.1, h.stringCount, 4);
    var overflow :- WordTable(data, stringEntries.1, h.overflowStringCount, 8);
    var stringStorage :- ByteTable(data, overflow.1, h.stringStorageSize);
    Ok(StringSection(
      functionHeaders.0, stringKinds.0,
      identifierHashes.0, stringEntries.0,
      overflow.0, stringStorage.0, stringStorage.1))
  }

  function LiteralSectionAt(data: seq<byte>, h: BytecodeFileHeader, p: nat): (r: Result<LiteralSection>)
    ensures r.Ok? ==> var l := r.value;
      && |l.arrayBuffer| == h.arrayBufferSize && |l.objKeyBuffer| == h.objKeyBufferSize
      && |l.objValueBuffer| == h.objValueBufferSize && |l.bigIntTable| == h.bigIntCount
      && |l.bigIntStorage| == h.bigIntStorageSize && |l.regExpTable| == h.regExpCount
      && |l.regExpStorage| == h.regExpStorageSize
      && l.end == p + LiteralSectionSize(h)
  {
    var arrayBuffer :- ByteTable(data, p, h.arrayBufferSize);
    var objKeyBuffer :- ByteTable(data, arrayBuffer.1, h.objKeyBufferSize);
    var objValueBuffer :- ByteTable(data, objKeyBuffer.1, h.objValueBufferSize);
    var bigInts :- WordTable(data, objValueBuffer.1, h.bigIntCount, 8);
    var bigIntStorage :- ByteTable(data, bigInts.1, h.bigIntStorageSize);
    var regExps :- WordTable(data, bigIntStorage.1, h.regExpCount, 8);
    var regExpStorage :- ByteTable(data, regExps.1, h.regExpStorageSize);
    Ok(LiteralSection(arrayBuffer.0, objKeyBuffer.0, objValueBuffer.0,
      bigInts.0, bigIntStorage.0,
      regExps.0, regExpStorage.0, regExpStorage.1))
  }

  /** The tables after a header `h`, from `p` on, in the order `from_reader` reads
   *  them. The CommonJS module pairs go to the static table when the header's option
   *  says the modules were resolved statically, to the other table otherwise. */
  function TablesAt(data: seq<byte>, h: BytecodeFileHeader, p: nat): (r: Result<BytecodeFile>)
    ensures r.Ok? ==> var f := r.value;
      && f.header == h
      && |f.functionHeaders| == h.functionCount && |f.stringKinds| == h.stringKindCount
      && |f.identifierHashes| == h.identifierCount && |f.stringTableEntries| == h.stringCount
      && |f.stringTableOverflowEntries| == h.overflowStringCount
      && |f.stringStorage| == h.stringStorageSize && |f.arrayBuffer| == h.arrayBufferSize
      && |f.objKeyBuffer| == h.objKeyBufferSize && |f.objValueBuffer| == h.objValueBufferSize
      && |f.bigIntTable| == h.bigIntCount && |f.bigIntStorage| == h.bigIntStorageSize
      && |f.regExpTable| == h.regExpCount && |f.regExpStorage| == h.regExpStorageSize
      && |f.functionSourceTable| == h.functionSourceCount
    ensures r.Ok? ==> var f := r.value;
      && (f.cjsModuleTableStatic.Some? <==> h.options.cjsModulesStaticallyResolved)
      && (f.cjsModuleTable.Some? <==> !h.options.cjsModulesStaticallyResolved)
      && (f.cjsModuleTable.Some? ==> |f.cjsModuleTable.value| == h.cjsModuleCount)
      && (f.cjsModuleTableStatic.Some? ==> |f.cjsModuleTableStatic.value| == h.cjsModuleCount)
    ensures r.Ok? ==> StringSectionAt(data, h, p).Ok? && r.value.functionHeaders == StringSectionAt(data, h, p).value.functionHeaders
  {
    var s :- StringSectionAt(data, h, p);
    var l :- LiteralSectionAt(data, h, s.end);
    var cjs :- PairTable(data, l.end, h.cjsModuleCount);
    var functionSources :- PairTable(data, cjs.1, h.functionSourceCount);
    var resolved := h.options.cjsModulesStaticallyResolved;
    Ok(BytecodeFile(h,
      s.functionHeaders, s.stringKinds, s.identifierHashes, s.stringTableEntries,
      s.overflowEntries, s.stringStorage,
      l.arrayBuffer, l.objKeyBuffer, l.objValueBuffer, l.bigIntTable, l.bigIntStorage,
      l.regExpTable, l.regExpStorage,
      if resolved then None else Some(cjs.0),
      if resolved then Some(cjs.0) else None,
      functionSources.0))
  }

  /** `BytecodeFile::from_reader` on a stream at `pos`: the 128-byte header, then the
   *  tables it describes. */
  function ParseFile(data: seq<byte>, pos: nat): Result<BytecodeFile>
  {
    var h :- HeaderAt(data, pos);
    TablesAt(data, h, pos + 128)
  }

  method ReadStringSection(r: Stream.Cursor, h: BytecodeFileHeader) returns (res: Result<StringSection>)
    modifies r
    ensures res == StringSectionAt(r.data, h, old(r.pos))
    ensures res.Ok? ==> r.pos == res.value.end
  {
    var functionHeaders :- ReadWords(r, h.functionCount, 16);
    var stringKinds :- ReadWords(r, h.stringKindCount, 4);
    var identifierHashes :- ReadWords(r, h.identifierCount, 4);
    var stringEntries :- ReadWords(r, h.stringCount, 4);
    var overflow :- ReadWords(r, h.overflowStringCount, 8);
    var stringStorage :- ReadBytes(r, h.stringStorageSize);
    res := Ok(StringSection(
      functionHeaders.0, stringKinds.0,
      identifierHashes.0, stringEntries.0,
      overflow.0, stringStorage.0, stringStorage.1));
  }

  method ReadLiteralSection(r: Stream.Cursor, h: BytecodeFileHeader) returns (res: Result<LiteralSection>)
    modifies r
    ensures res == LiteralSectionAt(r.data, h, old(r.pos))
    ensures res.Ok? ==> r.pos == res.value.end
  {
    var arrayBuffer :- ReadBytes(r, h.arrayBufferSize);
    var objKeyBuffer :- ReadBytes(r, h.objKeyBufferSize);
    var objValueBuffer :- ReadBytes(r, h.objValueBufferSize);
    var bigInts :- ReadWords(r, h.bigIntCount, 8);
    var bigIntStorage :- ReadBytes(r, h.bigIntStorageSize);
    var regExps :- ReadWords(r, h.regExpCount, 8);
    var regExpStorage :- ReadBytes(r, h.regExpStorageSize);
    res := Ok(LiteralSection(arrayBuffer.0, objKeyBuffer.0, objValueBuffer.0,
      bigInts.0, bigIntStorage.0,
      regExps.0, regExpStorage.0, regExpStorage.1));
  }

  /** `BytecodeFile::from_reader`: reads the header and every table from the stream's
   *  position. */
  method FromReader(r: Stream.Cursor) returns (res: Result<BytecodeFile>)
    modifies r
    ensures res == ParseFile(r.data, old(r.pos))
  {
    var start := r.pos;
    HeaderLayout();
    var vs :- StructReader.FromReader(HEADER_LAYOUT, r);
    var h := HeaderOf(vs);
    assert HeaderAt(r.data, start) == Ok(h);
    assert r.pos == start + 128;
    res := ReadTables(r, h);
  }

  /** The reads after the header, in file order. */
  method ReadTables(r: Stream.Cursor, h: BytecodeFileHeader) returns (res: Result<BytecodeFile>)
    modifies r
    ensures res == TablesAt(r.data, h, old(r.pos))
  {
    var s :- ReadStringSection(r, h);
    var l :- ReadLiteralSection(r, h);
    var cjs :- ReadPairs(r, h.cjsModuleCount);
    var cjsTable, cjsTableStatic;
    if h.options.cjsModulesStaticallyResolved {
      cjsTable, cjsTableStatic := None, Some(cjs.0);
    } else {
      cjsTable, cjsTableStatic := Some(cjs.0), None;
    }
    var functionSources :- ReadPairs(r, h.functionSourceCount);
    res := Ok(BytecodeFile(h,
      s.functionHeaders, s.stringKinds, s.identifierHashes, s.stringTableEntries,
      s.overflowEntries, s.stringStorage,
      l.arrayBuffer, l.objKeyBuffer, l.objValueBuffer, l.bigIntTable, l.bigIntStorage,
      l.regExpTable, l.regExpStorage,
      cjsTable, cjsTableStatic, functionSources.0));
  }

  lemma StringSectionOk(data: seq<byte>, h: BytecodeFileHeader, p: nat)
    requires p <= |data|
    ensures StringSectionAt(data, h, p).Ok? <==> p + StringSectionSize(h) <= |data|
  {
    var t1 := WordTable(data, p, h.functionCount, 16);
    if t1.Ok? {
      var t2 := WordTable(data, t1.value.1, h.stringKindCount, 4);
      if t2.Ok? {
        var t3 := WordTable(data, t2.value.1, h.identifierCount, 4);
        if t3.Ok? {
          var t4 := WordTable(data, t3.value.1, h.stringCount, 4);
          if t4.Ok? {
            var t5 := WordTable(data, t4.value.1, h.overflowStringCount, 8);
            if t5.Ok? {
              assert StringSectionAt(data, h, p).Ok? <==> ByteTable(data, t5.value.1, h.stringStorageSize).Ok?;
            }
          }
        }
      }
    }
  }

  lemma LiteralSectionOk(data: seq<byte>, h: BytecodeFileHeader, p: nat)
    requires p <= |data|
    ensures LiteralSectionAt(data, h, p).Ok? <==> p + LiteralSectionSize(h) <= |data|
  {
  }

  /** `from_reader` succeeds exactly when the stream holds the 128-byte header and,
   *  after it, every table the header's counts and sizes describe. */
  lemma ParseFileOk(data: seq<byte>, pos: nat)
    ensures ParseFile(data, pos).Ok? <==>
      pos + 128 <= |data| && pos + 128 + TablesSize(HeaderAt(data, pos).value) <= |data|
  {
    if pos + 128 <= |data| {
      TablesOk(data, HeaderAt(data, pos).value, pos + 128);
    }
  }

  lemma PairTableOk(data: seq<byte>, pos: nat, count: nat)
    ensures PairTable(data, pos, count).Ok? <==> count == 0 || pos + 8 * count <= |data|
  {
    PairsAreWords(data, pos, count);
    WordsOk(data, pos, 2 * count, 4);
  }

  lemma TablesOk(data: seq<byte>, h: BytecodeFileHeader, p: nat)
    requires p <= |data|
    ensures TablesAt(data, h, p).Ok? <==> p + TablesSize(h) <= |data|
  {
    StringSectionOk(data, h, p);
    var s := StringSectionAt(data, h, p);
    if s.Ok? {
      LiteralSectionOk(data, h, s.value.end);
      var l := LiteralSectionAt(data, h, s.value.end);
      if l.Ok? {
        var cjs := PairTable(data, l.value.end, h.cjsModuleCount);
        PairTableOk(data, l.value.end, h.cjsModuleCount);
        if cjs.Ok? {
          PairTableOk(data, cjs.value.1, h.functionSourceCount);
          assert TablesAt(data, h, p).Ok? <==> PairTable(data, cjs.value.1, h.functionSourceCount).Ok?;
        }
      }
    }
  }

  /** Function header `k` is the `k`-th 16-byte word of the string section. */
  lemma SectionFunctionHeaderAt(data: seq<byte>, h: BytecodeFileHeader, p: nat, k: nat)
    requires StringSectionAt(data, h, p).Ok? && k < h.functionCount
    ensures p + (k + 1) * 16 <= |data|
    ensures StringSectionAt(data, h, p).value.functionHeaders[k] == LeValue(data[p + k * 16..p + (k + 1) * 16])
  {
    WordTableAt(data, p, h.functionCount, 16, k);
  }

  /** In a parsed file, function header `k` is the `k`-th 16-byte word after the file header. */
  lemma FunctionHeaderAt(data: seq<byte>, h: BytecodeFileHeader, p: nat, k: nat)
    requires TablesAt(data, h, p).Ok? && k < h.functionCount
    ensures p + (k + 1) * 16 <= |data|
    ensures TablesAt(data, h, p).value.functionHeaders[k] == LeValue(data[p + k * 16..p + (k + 1) * 16])
  {
    SectionFunctionHeaderAt(data, h, p, k);
  }

  // ----- get_string -----

  const SLICE_END_OUT_OF_RANGE := "range end index out of range for slice"

  /** `*c as u8 as char` over a byte slice: each byte becomes the character with the
   *  same code point. */
  function Latin1(bs: seq<byte>): (s: string)
    ensures |s| == |bs| && forall i :: 0 <= i < |bs| ==> s[i] as int == bs[i]
  {
    if bs == [] then [] else [bs[0] as char] + Latin1(bs[1..])
  }

  /** The bytes of a string whose characters are all below 256. */
  function Latin1Bytes(s: string): (bs: seq<byte>)
    requires forall i :: 0 <= i < |s| ==> s[i] as int < 256
    ensures |bs| == |s|
  {
    if s == [] then [] else [s[0] as int] + Latin1Bytes(s[1..])
  }

  /** The byte-to-char mapping loses nothing: the bytes come back from the string. */
  lemma {:induction false} Latin1RoundTrip(bs: seq<byte>)
    ensures Latin1Bytes(Latin1(bs)) == bs
  {
    if bs != [] {
      Latin1RoundTrip(bs[1..]);
      assert Latin1(bs)[1..] == Latin1(bs[1..]);
    }
  }

  /** `get_string(index)`: the string table entry's slice of the string storage, one
   *  character per byte (the `is_utf16` bit is not looked at), or `None` for an empty
   *  entry. Indexing past the table and slicing past the storage are panics. */
  function GetString(f: BytecodeFile, index: nat): (r: Result<Option<string>>)
    ensures index >= |f.stringTableEntries| ==> r == Err(INDEX_OUT_OF_BOUNDS)
    ensures index < |f.stringTableEntries| ==>
      var e := SmallStringTableEntryFrom(f.stringTableEntries[index]);
      && (r == Ok(None) <==> e.length == 0)
      && (r.Err? <==> e.length > 0 && e.offset + e.length > |f.stringStorage|)
      && (r.Ok? && r.value.Some? ==>
            |r.value.value| == e.length
            && forall i :: 0 <= i < e.length ==> r.value.value[i] as int == f.stringStorage[e.offset + i])
  {
    if index >= |f.stringTableEntries| then Err(INDEX_OUT_OF_BOUNDS)
    else
      var e := SmallStringTableEntryFrom(f.stringTableEntries[index]);
      if e.length == 0 then Ok(None)
      else if e.offset + e.length > |f.stringStorage| then Err(SLICE_END_OUT_OF_RANGE)
      else Ok(Some(Latin1(f.stringStorage[e.offset..e.offset + e.length])))
  }

  /** A string `get_string` returns gives back its storage bytes. */
  lemma GetStringBytes(f: BytecodeFile, index: nat)
    requires GetString(f, index).Ok? && GetString(f, index).value.Some?
    ensures var e := SmallStringTableEntryFrom(f.stringTableEntries[index]);
      var s := GetString(f, index).value.value;
      && (forall i :: 0 <= i < |s| ==> s[i] as int < 256)
      && Latin1Bytes(s) == f.stringStorage[e.offset..e.offset + e.length]
  {
    var e := SmallStringTableEntryFrom(f.stringTableEntries[index]);
    assert e.offset + e.length <= |f.stringStorage|;
    var bs := f.stringStorage[e.offset..e.offset + e.length];
    assert GetString(f, index) == Ok(Some(Latin1(bs)));
    Latin1RoundTrip(bs);
  }
}
