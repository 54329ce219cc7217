/** The per-function readers of `hermes_file_reader.rs`: `read_bytecode` and
 *  `read_large_header` of both function header forms, and the `disassemble_function`
 *  loop that records each instruction with the position it was read at. */
module FunctionReader {
  import opened Wrappers
  import opened Bytes
  import Stream
  import StructReader
  import opened FileHeaders
  import opened V93
  import opened ByteCodeInstructions
  import opened FileReader

  // ----- Function bytecode -----

  /** `FunctionHeader::read_bytecode`: seek to `offset`, `read_exact` of
   *  `bytecode_size_in_bytes` bytes, seek back. The source wraps the bytes in a
   *  `Some` that is never `None`; here they are returned as they are. */
  method ReadBytecode(h: FunctionHeader, r: Stream.Cursor) returns (res: Result<seq<byte>>)
    modifies r
    ensures res == ByteRun(r.data, h.offset, h.bytecodeSizeInBytes)
    ensures res.Ok? ==> r.pos == old(r.pos)
  {
    var previous := r.pos;
    r.Seek(h.offset);
    res := r.ReadExact(h.bytecodeSizeInBytes);
    if res.Ok? {
      r.Seek(previous);
    }
  }

  /** `SmallFuncHeader::read_bytecode`: `None` when the header overflowed into a large
   *  one, otherwise the same seek, read and seek back as the large header's. */
  method SmallReadBytecode(h: SmallFuncHeader, r: Stream.Cursor) returns (res: Result<Option<seq<byte>>>)
    modifies r
    ensures h.flags.overflowed ==> res == Ok(None) && r.pos == old(r.pos)
    ensures !h.flags.overflowed ==>
      && (res.Ok? <==> ByteRun(r.data, h.offset, h.bytecodeSizeInBytes).Ok?)
      && (res.Err? ==> res.msg == ByteRun(r.data, h.offset, h.bytecodeSizeInBytes).msg)
      && (res.Ok? ==> res.value == Some(ByteRun(r.data, h.offset, h.bytecodeSizeInBytes).value) && r.pos == old(r.pos))
  {
    if h.flags.overflowed {
      return Ok(None);
    }
    var previous := r.pos;
    r.Seek(h.offset);
    var bytes := r.ReadExact(h.bytecodeSizeInBytes);
    if bytes.Err? {
      return Err(bytes.msg);
    }
    r.Seek(previous);
    res := Ok(Some(bytes.value));
  }

  /** Byte `i` of a function's bytecode is byte `offset + i` of the file. */
  lemma ByteRunAt(data: seq<byte>, pos: nat, count: nat, i: nat)
    requires ByteRun(data, pos, count).Ok? && i < count
    ensures pos + i < |data| && ByteRun(data, pos, count).value[i] == data[pos + i]
  {
  }

  /** Where `read_large_header` seeks: `(info_offset << 16) | offset` in `u32`
   *  arithmetic, so bits shifted past bit 31 are lost. */
  function LargeHeaderOffset(h: SmallFuncHeader): (p: nat)
    ensures p < U32_LIMIT
  {
    Pow2Values();
    OrBits((h.infoOffset * 0x1_0000) % U32_LIMIT, h.offset % U32_LIMIT, 32)
  }

  /** When both halves fit in 16 bits, the large header sits at
   *  `info_offset * 65536 + offset`. */
  lemma LargeHeaderOffsetSplit(h: SmallFuncHeader)
    requires h.infoOffset < 0x1_0000 && h.offset < 0x1_0000
    ensures LargeHeaderOffset(h) == h.infoOffset * 0x1_0000 + h.offset
  {
    Pow2Values();
    var shifted := h.infoOffset * 0x1_0000;
    DivMod(shifted, 0, U32_LIMIT);
    DivMod(h.offset, 0, U32_LIMIT);
    OrDisjoint(h.infoOffset, 16, h.offset, 32);
    assert h.infoOffset * Pow2(16) == shifted;
  }

  /** `FunctionHeader::from_reader` at `p`: its ten fields, 31 bytes. */
  function LargeHeaderAt(data: seq<byte>, p: nat): (r: Result<FunctionHeader>)
    ensures r.Ok? <==> p + 31 <= |data|
  {
    FunctionHeaderLayout();
    StructReader.ReadFieldsPlain(FUNCTION_HEADER_LAYOUT.fields, StructReader.Rest(data, p), Stream.EOF_MESSAGE);
    var vs :- StructReader.ReadFields(FUNCTION_HEADER_LAYOUT.fields, StructReader.Rest(data, p), Stream.EOF_MESSAGE);
    Ok(FunctionHeaderOf(vs))
  }

  /** `read_large_header`: seek to the large header, read it, seek back. */
  method ReadLargeHeader(h: SmallFuncHeader, r: Stream.Cursor) returns (res: Result<FunctionHeader>)
    modifies r
    ensures res == LargeHeaderAt(r.data, LargeHeaderOffset(h))
    ensures res.Ok? ==> r.pos == old(r.pos)
  {
    var previous := r.pos;
    r.Seek(LargeHeaderOffset(h));
    FunctionHeaderLayout();
    var vs :- StructReader.FromReader(FUNCTION_HEADER_LAYOUT, r);
    r.Seek(previous);
    res := Ok(FunctionHeaderOf(vs));
  }

  // ----- Disassembly -----

  /** `InstructionInfo`: an instruction and the cursor position, as a `u32`, it was
   *  read at. */
  datatype InstructionInfo = InstructionInfo(offset: nat, instruction: Instruction)

  /** The disassembly loop from `pos` on: while bytes remain, record the position and
   *  read one instruction. */
  function Disassemble(schema: Opcode -> seq<Field>, bc: seq<byte>, pos: nat): (r: Result<seq<InstructionInfo>>)
    decreases |bc| - pos
  {
    if pos >= |bc| then Ok([])
    else
      var d :- DecodeInstruction(schema, bc, pos);
      DecodeAdvances(schema, bc, pos);
      var rest :- Disassemble(schema, bc, d.1);
      Ok([InstructionInfo(pos % U32_LIMIT, d.0)] + rest)
  }

  /** The loop of `disassemble_function` over a fresh cursor on the bytecode. */
  method DisassembleBytes(schema: Opcode -> seq<Field>, bc: seq<byte>) returns (res: Result<seq<InstructionInfo>>)
    ensures res == Disassemble(schema, bc, 0)
  {
    var c := new Stream.Cursor(bc);
    var instructions: seq<InstructionInfo> := [];
    StructReader.PrependNothing(Disassemble(schema, bc, 0));
    while !c.IsEmpty()
      invariant c.data == bc
      invariant Disassemble(schema, bc, 0) == StructReader.Prepend(instructions, Disassemble(schema, bc, c.pos))
      decreases |bc| - c.pos
    {
      var offset := c.pos % U32_LIMIT;
      var p := c.pos;
      var i := ReadOpcode(schema, c);
      if i.Err? {
        return Err(i.msg);
      }
      StructReader.PrependTwice(instructions, InstructionInfo(offset, i.value), Disassemble(schema, bc, c.pos));
      instructions := instructions + [InstructionInfo(offset, i.value)];
    }
    assert instructions + [] == instructions;
    res := Ok(instructions);
  }

  /** One turn of the loop: an instruction decoded at `pos`, then the rest. */
  lemma DisassembleStep(schema: Opcode -> seq<Field>, bc: seq<byte>, pos: nat)
    requires pos < |bc| <= U32_LIMIT && DecodeInstruction(schema, bc, pos).Ok?
    ensures var (i, next) := DecodeInstruction(schema, bc, pos).value;
      && pos < next <= |bc|
      && Disassemble(schema, bc, pos).Ok? == Disassemble(schema, bc, next).Ok?
      && (Disassemble(schema, bc, pos).Ok? ==>
            Disassemble(schema, bc, pos).value == [InstructionInfo(pos, i)] + Disassemble(schema, bc, next).value)
  {
    DecodeAdvances(schema, bc, pos);
    DivMod(pos, 0, U32_LIMIT);
  }

  /** Where instruction `k` of a run ends: where the next one starts, or at `end`
   *  for the last. */
  function NextOffset(insts: seq<InstructionInfo>, k: nat, end: nat): nat
    requires k < |insts|
  {
    if k + 1 < |insts| then insts[k + 1].offset else end
  }

  /** A disassembly is empty exactly when it starts at the end, and otherwise starts
   *  with the position it starts at. */
  lemma DisassembleFirst(schema: Opcode -> seq<Field>, bc: seq<byte>, pos: nat)
    requires |bc| <= U32_LIMIT && Disassemble(schema, bc, pos).Ok?
    ensures Disassemble(schema, bc, pos).value == [] <==> pos >= |bc|
    ensures Disassemble(schema, bc, pos).value != [] ==> Disassemble(schema, bc, pos).value[0].offset == pos
  {
    if pos < |bc| {
      DisassembleStep(schema, bc, pos);
    }
  }

  /** Instruction `k` of a disassembly is what `read_opcode` decodes at its offset,
   *  and the decode ends where instruction `k + 1` starts, or at the end. */
  lemma {:induction false} DisassembleAt(schema: Opcode -> seq<Field>, bc: seq<byte>, pos: nat, k: nat)
    requires |bc| <= U32_LIMIT && Disassemble(schema, bc, pos).Ok? && k < |Disassemble(schema, bc, pos).value|
    ensures var insts := Disassemble(schema, bc, pos).value;
      DecodeInstruction(schema, bc, insts[k].offset)
        == Ok((insts[k].instruction, NextOffset(insts, k, |bc|)))
    decreases k
  {
    DisassembleFirst(schema, bc, pos);
    var d := DecodeInstruction(schema, bc, pos).value;
    DisassembleStep(schema, bc, pos);
    var insts := Disassemble(schema, bc, pos).value;
    var rest := Disassemble(schema, bc, d.1).value;
    DisassembleFirst(schema, bc, d.1);
    if k == 0 {
      assert DecodeInstruction(schema, bc, pos) == Ok(d);
      if rest != [] {
        assert insts[1] == rest[0];
      }
    } else {
      DisassembleAt(schema, bc, d.1, k - 1);
      assert insts[k] == rest[k - 1];
      if k + 1 < |insts| {
        assert insts[k + 1] == rest[k];
      }
    }
  }

  /** The offsets a disassembly records: the first is where it starts; each
   *  instruction is what `read_opcode` decodes at its offset and ends where the next
   *  one starts, the last at the end of the bytecode. So the offsets strictly
   *  increase. */
  lemma DisassembleOffsets(schema: Opcode -> seq<Field>, bc: seq<byte>, pos: nat)
    requires |bc| <= U32_LIMIT && Disassemble(schema, bc, pos).Ok?
    ensures var insts := Disassemble(schema, bc, pos).value;
      && (insts == [] <==> pos >= |bc|)
      && (insts != [] ==> insts[0].offset == pos)
      && (forall k :: 0 <= k < |insts| ==>
            DecodeInstruction(schema, bc, insts[k].offset) == Ok((insts[k].instruction, NextOffset(insts, k, |bc|))))
      && (forall k :: 0 <= k < |insts| - 1 ==> insts[k].offset < insts[k + 1].offset)
  {
    DisassembleFirst(schema, bc, pos);
    var insts := Disassemble(schema, bc, pos).value;
    forall k | 0 <= k < |insts|
      ensures DecodeInstruction(schema, bc, insts[k].offset) == Ok((insts[k].instruction, NextOffset(insts, k, |bc|)))
      ensures k + 1 < |insts| ==> insts[k].offset < insts[k + 1].offset
    {
      DisassembleAt(schema, bc, pos, k);
      DecodeAdvances(schema, bc, insts[k].offset);
    }
  }

  /** The bytes of a run of instructions, one encoding after the other. */
  function EncodeAll(schema: Opcode -> seq<Field>, insts: seq<Instruction>): (bs: seq<byte>)
    requires forall k :: 0 <= k < |insts| ==> WellFormed(schema, insts[k])
  {
    if insts == [] then [] else EncodeInstruction(schema, insts[0]) + EncodeAll(schema, insts[1..])
  }

  function InstructionsOf(infos: seq<InstructionInfo>): (insts: seq<Instruction>)
    ensures |insts| == |infos| && forall k :: 0 <= k < |infos| ==> insts[k] == infos[k].instruction
  {
    if infos == [] then [] else [infos[0].instruction] + InstructionsOf(infos[1..])
  }

  /** Disassembling the encodings of well-formed instructions gives the instructions
   *  back, whatever bytes precede them. */
  lemma {:induction false} DisassembleEncoded(schema: Opcode -> seq<Field>, before: seq<byte>, insts: seq<Instruction>)
    requires forall k :: 0 <= k < |insts| ==> WellFormed(schema, insts[k])
    requires |before + EncodeAll(schema, insts)| <= U32_LIMIT
    ensures Disassemble(schema, before + EncodeAll(schema, insts), |before|).Ok?
    ensures InstructionsOf(Disassemble(schema, before + EncodeAll(schema, insts), |before|).value) == insts
    decreases |insts|
  {
    var bc := before + EncodeAll(schema, insts);
    if insts == [] {
      assert bc == before;
    } else {
      var enc := EncodeInstruction(schema, insts[0]);
      var tail := EncodeAll(schema, insts[1..]);
      var before2 := before + enc;
      assert EncodeAll(schema, insts) == enc + tail;
      assert bc == before2 + tail;
      DecodeEncode(schema, insts[0], before, tail);
      assert DecodeInstruction(schema, bc, |before|).value == (insts[0], |before2|);
      DisassembleEncoded(schema, before2, insts[1..]);
      var rest := Disassemble(schema, bc, |before2|);
      assert rest.Ok? && InstructionsOf(rest.value) == insts[1..];
      DisassembleStep(schema, bc, |before|);
      assert Disassemble(schema, bc, |before|).value == [InstructionInfo(|before|, insts[0])] + rest.value;
      assert InstructionsOf([InstructionInfo(|before|, insts[0])] + rest.value)[1..] == InstructionsOf(rest.value);
    }
  }

  /** What `FunctionHeader::disassemble_function` returns for a header in `data`. */
  function FunctionInstructions(schema: Opcode -> seq<Field>, data: seq<byte>, h: FunctionHeader): Result<seq<InstructionInfo>>
  {
    var bc :- ByteRun(data, h.offset, h.bytecodeSizeInBytes);
    Disassemble(schema, bc, 0)
  }

  /** What `SmallFuncHeader::disassemble_function` returns: through the large header
   *  when the small one overflowed, otherwise from the small header's own fields. */
  function SmallFunctionInstructions(schema: Opcode -> seq<Field>, data: seq<byte>, h: SmallFuncHeader): Result<seq<InstructionInfo>>
  {
    if h.flags.overflowed then
      var large :- LargeHeaderAt(data, LargeHeaderOffset(h));
      FunctionInstructions(schema, data, large)
    else
      var bc :- ByteRun(data, h.offset, h.bytecodeSizeInBytes);
      Disassemble(schema, bc, 0)
  }

  /** `FunctionHeader::disassemble_function`. */
  method DisassembleFunction(schema: Opcode -> seq<Field>, h: FunctionHeader, r: Stream.Cursor) returns (res: Result<seq<InstructionInfo>>)
    modifies r
    ensures res == FunctionInstructions(schema, r.data, h)
    ensures res.Ok? ==> r.pos == old(r.pos)
  {
    var bc :- ReadBytecode(h, r);
    res := DisassembleBytes(schema, bc);
  }

  /** `SmallFuncHeader::disassemble_function`. */
  method SmallDisassembleFunction(schema: Opcode -> seq<Field>, h: SmallFuncHeader, r: Stream.Cursor) returns (res: Result<seq<InstructionInfo>>)
    modifies r
    ensures res == SmallFunctionInstructions(schema, r.data, h)
    ensures res.Ok? ==> r.pos == old(r.pos)
  {
    if h.flags.overflowed {
      var large :- ReadLargeHeader(h, r);
      res := DisassembleFunction(schema, large, r);
    } else {
      var bc :- SmallReadBytecode(h, r);
      res := DisassembleBytes(schema, bc.value);
    }
  }
}
