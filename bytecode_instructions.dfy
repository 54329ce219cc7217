/** What the `ByteCodeInstructions` derive of help_macros/src/lib.rs generates for an
 *  instruction enum: `get_bytecode_size`, the operand width sum of a variant, and
 *  `read_opcode`, which reads an opcode byte and then the operands in declaration
 *  order, little-endian. Also the derive's own acceptance of an enum declaration.
 *
 *  Like the `InstructionSet` trait the derive implements, the decoder is written
 *  against the enum's operand table, `schema`, which maps each opcode to its
 *  variant's fields; the decompiler uses `V93.Fields`. */
module ByteCodeInstructions {
  import opened Wrappers
  import opened Bytes
  import opened V93
  import Stream

  const UNHANDLED_OPCODE := "Unhandled opcode"
  const NOT_IMPLEMENTED := "not implemented"

  /** Bytes an operand occupies: u8/i8/bool 1, u16 2, i32/u32 4, f64 8. */
  function Width(t: OperandType): nat
  {
    match t
    case U8 => 1
    case I8 => 1
    case Bool => 1
    case U16 => 2
    case I32 => 4
    case U32 => 4
    case F64 => 8
  }

  /** Sum of the operand widths of a field list. */
  function SizeOf(fields: seq<Field>): nat
  {
    if fields == [] then 0 else Width(fields[0].ty) + SizeOf(fields[1..])
  }

  lemma {:induction false} SizeOfSplit(fields: seq<Field>, k: nat)
    requires k <= |fields|
    ensures SizeOf(fields) == SizeOf(fields[..k]) + SizeOf(fields[k..])
  {
    if k > 0 {
      SizeOfSplit(fields[1..], k - 1);
      assert fields[1..][..k - 1] == fields[..k][1..];
      assert fields[1..][k - 1..] == fields[k..];
    }
  }

  lemma SizeOfSnoc(fields: seq<Field>, k: nat)
    requires k < |fields|
    ensures SizeOf(fields[..k + 1]) == SizeOf(fields[..k]) + Width(fields[k].ty)
  {
    SizeOfSplit(fields[..k + 1], k);
    assert fields[..k + 1][..k] == fields[..k];
    assert fields[..k + 1][k..] == [fields[k]];
  }

  /** A field type as the derive sees it: the last path segment's identifier, or a
   *  type that is not a path. */
  datatype TypeDecl = PathType(ident: string) | OtherType

  /** The fields of one enum variant as declared. */
  datatype VariantDecl = Named(fields: seq<(string, TypeDecl)>) | Unnamed | Unit

  /** The item the derive is applied to. */
  datatype ItemDecl = EnumDecl(variants: seq<VariantDecl>) | OtherItem

  /** The operand type a declared field type names, if the derive supports it. */
  function OperandTypeOf(t: TypeDecl): (r: Option<OperandType>)
    ensures r.Some? <==> t.PathType? && t.ident in ["u8", "i8", "u16", "i32", "u32", "f64", "bool"]
  {
    if t.OtherType? then None
    else if t.ident == "u8" then Some(U8)
    else if t.ident == "i8" then Some(I8)
    else if t.ident == "u16" then Some(U16)
    else if t.ident == "i32" then Some(I32)
    else if t.ident == "u32" then Some(U32)
    else if t.ident == "f64" then Some(F64)
    else if t.ident == "bool" then Some(Bool)
    else None
  }

  predicate Supported(decls: seq<(string, TypeDecl)>)
  {
    forall k :: 0 <= k < |decls| ==> OperandTypeOf(decls[k].1).Some?
  }

  /** The fields of a variant whose field types are all supported. */
  function Typed(decls: seq<(string, TypeDecl)>): (fields: seq<Field>)
    requires Supported(decls)
    ensures |fields| == |decls|
    ensures forall k :: 0 <= k < |decls| ==>
      fields[k] == Field(decls[k].0, OperandTypeOf(decls[k].1).value)
  {
    if decls == [] then []
    else [Field(decls[0].0, OperandTypeOf(decls[0].1).value)] + Typed(decls[1..])
  }

  /** The derive's size computation for one variant with named fields: `size: u8`
   *  accumulated with `+=` field by field, where an unsupported type panics and a
   *  sum above 255 is an arithmetic-overflow panic. */
  method VariantSize(decls: seq<(string, TypeDecl)>) returns (r: Result<nat>)
    ensures r.Ok? <==> Supported(decls) && SizeOf(Typed(decls)) <= 255
    ensures r.Ok? ==> r.value == SizeOf(Typed(decls))
  {
    var size := 0;
    var k := 0;
    while k < |decls|
      invariant k <= |decls| && Supported(decls[..k])
      invariant size == SizeOf(Typed(decls[..k])) <= 255
    {
      var t := OperandTypeOf(decls[k].1);
      if t.None? {
        assert !Supported(decls);
        return Err("Field type is unsupported");
      }
      TypedSnoc(decls, k);
      size := size + Width(t.value);
      if size > 255 {
        if Supported(decls) {
          TypedPrefix(decls, k + 1);
          SizeOfSplit(Typed(decls), k + 1);
        }
        return Err("attempt to add with overflow");
      }
      k := k + 1;
    }
    assert decls[..k] == decls;
    r := Ok(size);
  }

  lemma TypedSnoc(decls: seq<(string, TypeDecl)>, k: nat)
    requires k < |decls| && Supported(decls[..k]) && OperandTypeOf(decls[k].1).Some?
    ensures Supported(decls[..k + 1])
    ensures SizeOf(Typed(decls[..k + 1])) == SizeOf(Typed(decls[..k])) + Width(OperandTypeOf(decls[k].1).value)
  {
    var t := Typed(decls[..k + 1]);
    assert t[..k] == Typed(decls[..k]);
    assert t[..k + 1] == t;
    SizeOfSnoc(t, k);
  }

  lemma TypedPrefix(decls: seq<(string, TypeDecl)>, k: nat)
    requires k <= |decls| && Supported(decls)
    ensures Supported(decls[..k]) && Typed(decls)[..k] == Typed(decls[..k])
  {
  }

  /** Whether the derive accepts a variant: unit, or named fields of supported types
   *  whose widths sum to at most 255. */
  predicate Accepted(v: VariantDecl)
  {
    v.Unit? || (v.Named? && Supported(v.fields) && SizeOf(Typed(v.fields)) <= 255)
  }

  /** The operand table of an accepted variant. */
  function VariantFields(v: VariantDecl): seq<Field>
    requires Accepted(v)
  {
    if v.Unit? then [] else Typed(v.fields)
  }

  /** The checks the derive makes on one variant, in its `match &variant.fields`:
   *  unnamed fields panic, named fields are sized, a unit variant passes. */
  method CheckVariant(v: VariantDecl) returns (r: Result<nat>)
    ensures r.Ok? <==> Accepted(v)
  {
    if v.Unnamed? {
      return Err("Unnamed fields are not supported");
    }
    if v.Named? {
      r := VariantSize(v.fields);
      return;
    }
    r := Ok(0);
  }

  /** The derive run on an item: it panics on anything but an enum and on a variant it
   *  cannot size (unnamed fields, an unsupported type, more than 255 operand bytes);
   *  otherwise the enum's operand table, one field list per variant in declaration
   *  order, so that opcode `i` is the `i`-th variant. */
  method Derive(item: ItemDecl) returns (r: Result<seq<seq<Field>>>)
    ensures r.Ok? <==> item.EnumDecl? && forall i :: 0 <= i < |item.variants| ==> Accepted(item.variants[i])
    ensures r.Ok? ==> |r.value| == |item.variants|
    ensures r.Ok? ==> forall i :: 0 <= i < |r.value| ==> r.value[i] == VariantFields(item.variants[i])
  {
    if item.OtherItem? {
      return Err("You can only derive this on enums!");
    }
    var table: seq<seq<Field>> := [];
    var i := 0;
    while i < |item.variants|
      invariant i <= |item.variants| && |table| == i
      invariant forall j :: 0 <= j < i ==> Accepted(item.variants[j]) && table[j] == VariantFields(item.variants[j])
    {
      var v := item.variants[i];
      var checked := CheckVariant(v);
      if checked.Err? {
        return Err(checked.msg);
      }
      var t0 := table;
      table := t0 + [VariantFields(v)];
      assert forall j :: 0 <= j < i ==> table[j] == t0[j];
      i := i + 1;
    }
    r := Ok(table);
  }

  /** `get_bytecode_size(opcode)`: the operand bytes after the opcode byte, or
   *  `unimplemented!()` for a byte that is no opcode. */
  function GetBytecodeSize(schema: Opcode -> seq<Field>, opcode: nat): (r: Result<nat>)
    ensures r.Ok? <==> opcode < VARIANT_COUNT
    ensures r.Ok? ==> r.value == SizeOf(schema(opcode as Opcode))
  {
    if opcode < VARIANT_COUNT then Ok(SizeOf(schema(opcode as Opcode))) else Err(NOT_IMPLEMENTED)
  }

  /** Whether an operand value is one that its type can hold. */
  predicate OperandFits(t: OperandType, o: Operand)
  {
    match t
    case Bool => o.Flag?
    case U8 => o.Int? && 0 <= o.v < 0x100
    case U16 => o.Int? && 0 <= o.v < 0x1_0000
    case U32 => o.Int? && 0 <= o.v < 0x1_0000_0000
    case F64 => o.Int? && 0 <= o.v < 0x1_0000_0000_0000_0000
    case I8 => o.Int? && -0x80 <= o.v < 0x80
    case I32 => o.Int? && -0x8000_0000 <= o.v < 0x8000_0000
  }

  /** Operands that match a field list, one by one. */
  predicate OperandsFit(fields: seq<Field>, ops: seq<Operand>)
  {
    |ops| == |fields| && forall k :: 0 <= k < |ops| ==> OperandFits(fields[k].ty, ops[k])
  }

  /** An instruction whose operands match its variant's fields. */
  predicate WellFormed(schema: Opcode -> seq<Field>, i: Instruction)
  {
    OperandsFit(schema(i.op), i.operands)
  }

  /** One operand from its bytes: `read_u8`, `read_i8`, `read_u16::<LittleEndian>`, …;
   *  a `bool` is `read_u8() == 0`. */
  function DecodeOperand(t: OperandType, bs: seq<byte>): Operand
    requires |bs| == Width(t)
  {
    match t
    case Bool => Flag(bs[0] == 0)
    case I8 => var v := LeValue(bs); Int(if v < 0x80 then v else v - 0x100)
    case I32 => var v := LeValue(bs); Int(if v < 0x8000_0000 then v else v - 0x1_0000_0000)
    case _ => Int(LeValue(bs))
  }

  /** The operands of a field list read one after the other from `bs`. */
  function DecodeOperands(fields: seq<Field>, bs: seq<byte>): (ops: seq<Operand>)
    requires |bs| == SizeOf(fields)
    ensures |ops| == |fields|
  {
    if fields == [] then []
    else
      var w := Width(fields[0].ty);
      [DecodeOperand(fields[0].ty, bs[..w])] + DecodeOperands(fields[1..], bs[w..])
  }

  /** `read_opcode` on the bytes from `pos`: the instruction and the position after it.
   *  Running out of bytes is the `unwrap` of an end-of-file error. */
  function DecodeInstruction(schema: Opcode -> seq<Field>, data: seq<byte>, pos: nat): (r: Result<(Instruction, nat)>)
  {
    if pos >= |data| then Err(Stream.EOF_MESSAGE)
    else if data[pos] >= VARIANT_COUNT then Err(UNHANDLED_OPCODE)
    else
      var op := data[pos] as Opcode;
      var fields := schema(op);
      var n := SizeOf(fields);
      if pos + 1 + n > |data| then Err(Stream.EOF_MESSAGE)
      else Ok((Instruction(op, DecodeOperands(fields, data[pos + 1..pos + 1 + n])), pos + 1 + n))
  }

  /** A successful decode consumes at least the opcode byte and stays in the buffer. */
  lemma DecodeAdvances(schema: Opcode -> seq<Field>, data: seq<byte>, pos: nat)
    requires DecodeInstruction(schema, data, pos).Ok?
    ensures pos < DecodeInstruction(schema, data, pos).value.1 <= |data|
  {
  }

  /** The bytes of one operand, the inverse of `DecodeOperand`; `false` is written as 1. */
  function EncodeOperand(t: OperandType, o: Operand): (bs: seq<byte>)
    requires OperandFits(t, o)
    ensures |bs| == Width(t)
  {
    match t
    case Bool => if o.b then [0] else [1]
    case I8 => LeBytes(if o.v >= 0 then o.v else o.v + 0x100, 1)
    case I32 => LeBytes(if o.v >= 0 then o.v else o.v + 0x1_0000_0000, 4)
    case _ => LeBytes(o.v, Width(t))
  }

  function EncodeOperands(fields: seq<Field>, ops: seq<Operand>): (bs: seq<byte>)
    requires OperandsFit(fields, ops)
    ensures |bs| == SizeOf(fields)
  {
    if fields == [] then []
    else EncodeOperand(fields[0].ty, ops[0]) + EncodeOperands(fields[1..], ops[1..])
  }

  /** The bytes of an instruction: its opcode byte, then its operands. */
  function EncodeInstruction(schema: Opcode -> seq<Field>, i: Instruction): (bs: seq<byte>)
    requires WellFormed(schema, i)
    ensures |bs| == 1 + SizeOf(schema(i.op))
  {
    [i.op as int] + EncodeOperands(schema(i.op), i.operands)
  }

  lemma DecodeEncodeOperand(t: OperandType, o: Operand)
    requires OperandFits(t, o)
    ensures DecodeOperand(t, EncodeOperand(t, o)) == o
  {
    Pow256Values();
    match t
    case Bool =>
    case I8 => LeValueOfLeBytes(if o.v >= 0 then o.v else o.v + 0x100, 1);
    case I32 => LeValueOfLeBytes(if o.v >= 0 then o.v else o.v + 0x1_0000_0000, 4);
    case U8 => LeValueOfLeBytes(o.v, 1);
    case U16 => LeValueOfLeBytes(o.v, 2);
    case U32 => LeValueOfLeBytes(o.v, 4);
    case F64 => LeValueOfLeBytes(o.v, 8);
  }

  lemma {:induction false} DecodeEncodeOperands(fields: seq<Field>, ops: seq<Operand>)
    requires OperandsFit(fields, ops)
    ensures DecodeOperands(fields, EncodeOperands(fields, ops)) == ops
  {
    if fields != [] {
      var bs := EncodeOperands(fields, ops);
      var w := Width(fields[0].ty);
      assert bs[..w] == EncodeOperand(fields[0].ty, ops[0]);
      assert bs[w..] == EncodeOperands(fields[1..], ops[1..]);
      DecodeEncodeOperand(fields[0].ty, ops[0]);
      DecodeEncodeOperands(fields[1..], ops[1..]);
    }
  }

  /** `read_opcode` reads back every well-formed instruction from its encoding,
   *  wherever it sits in the buffer, and stops right after it. */
  lemma DecodeEncode(schema: Opcode -> seq<Field>, i: Instruction, before: seq<byte>, after: seq<byte>)
    requires WellFormed(schema, i)
    ensures DecodeInstruction(schema, before + EncodeInstruction(schema, i) + after, |before|)
         == Ok((i, |before| + |EncodeInstruction(schema, i)|))
  {
    EncodedAt(schema, i, before, after);
    DecodeEncodeOperands(schema(i.op), i.operands);
  }

  /** Where an encoded instruction sits in a buffer: its opcode, then its operand bytes. */
  lemma EncodedAt(schema: Opcode -> seq<Field>, i: Instruction, before: seq<byte>, after: seq<byte>)
    requires WellFormed(schema, i)
    ensures var data := before + EncodeInstruction(schema, i) + after;
      var p := |before|;
      var n := SizeOf(schema(i.op));
      && p + 1 + n <= |data| && data[p] as Opcode == i.op
      && data[p + 1..p + 1 + n] == EncodeOperands(schema(i.op), i.operands)
  {
    var data := before + EncodeInstruction(schema, i) + after;
    var p := |before|;
    assert data[p] == i.op as int;
  }

  /** A decode reads nothing outside the bytes it consumes: the same bytes anywhere
   *  else decode to the same instruction. */
  lemma DecodeLocal(schema: Opcode -> seq<Field>, data: seq<byte>, pos: nat, before: seq<byte>, after: seq<byte>)
    requires DecodeInstruction(schema, data, pos).Ok?
    ensures var (i, next) := DecodeInstruction(schema, data, pos).value;
      && pos < next <= |data|
      && DecodeInstruction(schema, before + data[pos..next] + after, |before|) == Ok((i, |before| + next - pos))
  {
    var next := DecodeInstruction(schema, data, pos).value.1;
    var moved := before + data[pos..next] + after;
    var n := SizeOf(schema(data[pos] as Opcode));
    assert moved[|before|] == data[pos];
    assert moved[|before| + 1..|before| + 1 + n] == data[pos + 1..pos + 1 + n];
  }

  lemma DecodeOperandFits(t: OperandType, bs: seq<byte>)
    requires |bs| == Width(t)
    ensures OperandFits(t, DecodeOperand(t, bs))
  {
    Pow256Values();
  }

  lemma {:induction false} DecodeOperandsFit(fields: seq<Field>, bs: seq<byte>)
    requires |bs| == SizeOf(fields)
    ensures OperandsFit(fields, DecodeOperands(fields, bs))
  {
    if fields != [] {
      var w := Width(fields[0].ty);
      DecodeOperandFits(fields[0].ty, bs[..w]);
      DecodeOperandsFit(fields[1..], bs[w..]);
    }
  }

  /** Decoding fails exactly at the end of the buffer, at a byte that is no opcode, or
   *  when fewer operand bytes remain than `get_bytecode_size` of the opcode; a success
   *  consumes exactly the opcode byte and `get_bytecode_size` operand bytes. */
  lemma DecodeOutcome(schema: Opcode -> seq<Field>, data: seq<byte>, pos: nat)
    ensures DecodeInstruction(schema, data, pos).Err? <==>
      || pos >= |data|
      || GetBytecodeSize(schema, data[pos]).Err?
      || pos + 1 + GetBytecodeSize(schema, data[pos]).value > |data|
    ensures pos < |data| && data[pos] >= VARIANT_COUNT ==>
      DecodeInstruction(schema, data, pos) == Err(UNHANDLED_OPCODE)
    ensures DecodeInstruction(schema, data, pos).Ok? ==>
      var (i, next) := DecodeInstruction(schema, data, pos).value;
      i.op as int == data[pos] && next == pos + 1 + GetBytecodeSize(schema, data[pos]).value
  {
  }

  /** A `bool` operand is true exactly when its byte is zero. */
  lemma BoolOperandIsZeroTest(b: byte)
    ensures DecodeOperand(Bool, [b]) == Flag(b == 0)
  {
  }

  /** Multi-byte operands are little-endian: the first byte is the least significant. */
  lemma OperandsLittleEndian(b0: byte, b1: byte, b2: byte, b3: byte)
    ensures DecodeOperand(U16, [b0, b1]) == Int(b0 + 0x100 * b1)
    ensures DecodeOperand(U32, [b0, b1, b2, b3]) == Int(b0 + 0x100 * b1 + 0x1_0000 * b2 + 0x100_0000 * b3)
  {
    assert LeValue([b1]) == b1 by {
      assert [b1][1..] == [];
    }
    assert LeValue([b0, b1]) == b0 + 0x100 * b1 by {
      assert [b0, b1][1..] == [b1];
    }
    assert LeValue([b3]) == b3 by {
      assert [b3][1..] == [];
    }
    assert LeValue([b2, b3]) == b2 + 0x100 * b3 by {
      assert [b2, b3][1..] == [b3];
    }
    assert LeValue([b1, b2, b3]) == b1 + 0x100 * b2 + 0x1_0000 * b3 by {
      assert [b1, b2, b3][1..] == [b2, b3];
    }
    assert [b0, b1, b2, b3][1..] == [b1, b2, b3];
  }

  /** A signed operand's top bit is its sign: 0xFF is -1 as `i8`, 0x80 is -128. */
  lemma SignedOperands()
    ensures DecodeOperand(I8, [0xFF]) == Int(-1) && DecodeOperand(I8, [0x80]) == Int(-0x80)
    ensures DecodeOperand(I8, [0x7F]) == Int(0x7F)
    ensures DecodeOperand(I32, [0xFE, 0xFF, 0xFF, 0xFF]) == Int(-2)
  {
    assert LeValue([0xFF]) == 0xFF by { assert [0xFF][1..] == []; }
    assert LeValue([0x80]) == 0x80 by { assert [0x80][1..] == []; }
    assert LeValue([0x7F]) == 0x7F by { assert [0x7F][1..] == []; }
    OperandsLittleEndian(0xFE, 0xFF, 0xFF, 0xFF);
  }

  /** `read_opcode` on a cursor: reads the opcode byte, then the variant's operands. */
  method ReadOpcode(schema: Opcode -> seq<Field>, r: Stream.Cursor) returns (res: Result<Instruction>)
    modifies r
    ensures DecodeInstruction(schema, r.data, old(r.pos)).Ok? ==>
      res == Ok(DecodeInstruction(schema, r.data, old(r.pos)).value.0)
      && r.pos == DecodeInstruction(schema, r.data, old(r.pos)).value.1
    ensures DecodeInstruction(schema, r.data, old(r.pos)).Err? ==>
      res == Err(DecodeInstruction(schema, r.data, old(r.pos)).msg)
  {
    var start := r.pos;
    var opcode := r.ReadUint(1);
    if opcode.Err? {
      return Err(opcode.msg);
    }
    assert r.data[start..start + 1] == [r.data[start]];
    if opcode.value >= VARIANT_COUNT {
      return Err(UNHANDLED_OPCODE);
    }
    var op := opcode.value as Opcode;
    var ops := ReadOperands(schema(op), r);
    if ops.Err? {
      return Err(ops.msg);
    }
    res := Ok(Instruction(op, ops.value));
  }

  /** The operand reads of one variant, in declaration order; the first read that runs
   *  out of bytes fails the whole instruction. */
  method ReadOperands(fields: seq<Field>, r: Stream.Cursor) returns (res: Result<seq<Operand>>)
    requires r.pos <= |r.data|
    modifies r
    ensures old(r.pos) + SizeOf(fields) <= |r.data| ==>
      res == Ok(DecodeOperands(fields, r.data[old(r.pos)..old(r.pos) + SizeOf(fields)]))
      && r.pos == old(r.pos) + SizeOf(fields)
    ensures old(r.pos) + SizeOf(fields) > |r.data| ==> res == Err(Stream.EOF_MESSAGE)
  {
    var start := r.pos;
    var ops: seq<Operand> := [];
    var k := 0;
    while k < |fields|
      invariant k <= |fields| && r.pos == start + SizeOf(fields[..k]) <= |r.data|
      invariant ops == DecodeOperands(fields[..k], r.data[start..r.pos])
    {
      var w := Width(fields[k].ty);
      var p := r.pos;
      SizeOfSnoc(fields, k);
      var bytes := r.ReadExact(w);
      if bytes.Err? {
        SizeOfSplit(fields, k + 1);
        return Err(bytes.msg);
      }
      assert fields[..k + 1] == fields[..k] + [fields[k]];
      DecodeOperandsSnoc(fields[..k], fields[k], r.data[start..p], bytes.value);
      assert r.data[start..p] + bytes.value == r.data[start..r.pos];
      ops := ops + [DecodeOperand(fields[k].ty, bytes.value)];
      k := k + 1;
    }
    assert fields[..k] == fields;
    res := Ok(ops);
  }

  lemma {:induction false} SizeOfAppend(fields: seq<Field>, f: Field)
    ensures SizeOf(fields + [f]) == SizeOf(fields) + Width(f.ty)
  {
    SizeOfSnoc(fields + [f], |fields|);
    assert (fields + [f])[..|fields| + 1] == fields + [f];
    assert (fields + [f])[..|fields|] == fields;
  }

  lemma {:induction false} DecodeOperandsSnoc(fields: seq<Field>, f: Field, bs: seq<byte>, last: seq<byte>)
    requires |bs| == SizeOf(fields) && |last| == Width(f.ty)
    ensures SizeOf(fields + [f]) == |bs + last|
    ensures DecodeOperands(fields + [f], bs + last) == DecodeOperands(fields, bs) + [DecodeOperand(f.ty, last)]
  {
    SizeOfAppend(fields, f);
    if fields == [] {
      assert fields + [f] == [f];
      assert [f][1..] == [];
      assert (bs + last)[..Width(f.ty)] == last;
    } else {
      var w := Width(fields[0].ty);
      var all, bytes := fields + [f], bs + last;
      assert all[0] == fields[0] && all[1..] == fields[1..] + [f];
      assert bytes[..w] == bs[..w] && bytes[w..] == bs[w..] + last;
      var first := DecodeOperand(fields[0].ty, bs[..w]);
      assert DecodeOperands(fields, bs) == [first] + DecodeOperands(fields[1..], bs[w..]);
      assert DecodeOperands(all, bytes) == [first] + DecodeOperands(fields[1..] + [f], bs[w..] + last);
      DecodeOperandsSnoc(fields[1..], f, bs[w..], last);
    }
  }
}
