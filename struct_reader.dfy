/** What the `FromBytes` derive of c_struct_macro/src/lib.rs generates for a
 *  `#[repr(C)]` struct: `from_bytes`, which slices a buffer of exactly the struct's
 *  size field by field at a running offset, and `from_reader`, which reads each
 *  field's bytes from a stream in turn. A field is kept as the raw bytes its
 *  `transmute_field` sees (a little-endian host), except a `bool` field, which is
 *  the first element of `transmute_bool_pedantic` on its slice. */
module StructReader {
  import opened Wrappers
  import opened Bytes
  import Stream

  const NOT_A_STRUCT := "FromBytes can only be derived for structs"
  const NO_IDENTIFIER := "All fields must have an identifier"
  const SIZE_MISMATCH := "Input bytes must have the same size as the target struct"
  const OUT_OF_RANGE := "range end index out of range"
  const NOT_A_BOOL := "transmute_bool_pedantic: invalid value"

  /** A field type as written: a path type (its token text and `size_of`), or any other
   *  type such as an array (its `size_of`). */
  datatype TypeSyntax = PathType(text: string, size: nat) | OtherType(size: nat)

  datatype FieldDecl = FieldDecl(ident: Option<string>, ty: TypeSyntax)

  /** The item the derive is applied to; `size` is `size_of::<Self>()`, padding included. */
  datatype ItemDecl = StructDecl(fields: seq<FieldDecl>, size: nat) | OtherItem

  /** How the generated code reads a field: a `bool`, or `size` raw bytes. */
  datatype FieldKind = BoolField | PlainField(size: nat)

  /** The generated readers of one struct: its field kinds in declaration order and its size. */
  datatype Layout = Layout(fields: seq<FieldKind>, size: nat)

  /** A field value. */
  datatype Value = Raw(bytes: seq<byte>) | BoolValue(b: bool)

  /** A field whose type's tokens are exactly `bool` is read as a bool. */
  function KindOf(t: TypeSyntax): (k: FieldKind)
    ensures k == BoolField <==> t.PathType? && t.text == "bool"
    ensures k.PlainField? ==> k.size == t.size
  {
    if t.PathType? && t.text == "bool" then BoolField else PlainField(t.size)
  }

  function FieldSize(k: FieldKind): nat
  {
    match k
    case BoolField => 1
    case PlainField(n) => n
  }

  /** Bytes the generated readers consume: the sum of the field sizes. */
  function TotalSize(ks: seq<FieldKind>): nat
  {
    if ks == [] then 0 else FieldSize(ks[0]) + TotalSize(ks[1..])
  }

  /** The derive: refuses anything but a struct and any field without a name. */
  function Derive(item: ItemDecl): (r: Result<Layout>)
    ensures r.Ok? <==> item.StructDecl? && forall i :: 0 <= i < |item.fields| ==> item.fields[i].ident.Some?
    ensures r.Ok? ==> r.value.size == item.size && |r.value.fields| == |item.fields|
    ensures r.Ok? ==> forall i :: 0 <= i < |item.fields| ==> r.value.fields[i] == KindOf(item.fields[i].ty)
  {
    if item.OtherItem? then Err(NOT_A_STRUCT)
    else if exists i :: 0 <= i < |item.fields| && item.fields[i].ident.None? then Err(NO_IDENTIFIER)
    else Ok(Layout(seq(|item.fields|, i requires 0 <= i < |item.fields| => KindOf(item.fields[i].ty)), item.size))
  }

  /** One field from its bytes. A bool slice must hold only 0s and 1s. */
  function DecodeField(k: FieldKind, bs: seq<byte>): (r: Result<Value>)
    requires |bs| == FieldSize(k)
    ensures r.Err? <==> k == BoolField && bs[0] > 1
  {
    match k
    case BoolField => if bs[0] > 1 then Err(NOT_A_BOOL) else Ok(BoolValue(bs[0] == 1))
    case PlainField(_) => Ok(Raw(bs))
  }

  /** The fields read one after the other from `bs`; `short` is the panic when the
   *  bytes run out (a slice out of range, or a failed `read_exact`). */
  function ReadFields(ks: seq<FieldKind>, bs: seq<byte>, short: string): (r: Result<seq<Value>>)
    ensures r.Ok? ==> |r.value| == |ks|
  {
    if ks == [] then Ok([])
    else
      var n := FieldSize(ks[0]);
      if n > |bs| then Err(short)
      else
        var v :- DecodeField(ks[0], bs[..n]);
        var rest :- ReadFields(ks[1..], bs[n..], short);
        Ok([v] + rest)
  }

  /** The running offset of field `k`: the sizes of the fields before it. */
  function Offset(ks: seq<FieldKind>, k: nat): nat
    requires k <= |ks|
  {
    TotalSize(ks[..k])
  }

  lemma {:induction false} TotalSizeSplit(ks: seq<FieldKind>, k: nat)
    requires k <= |ks|
    ensures TotalSize(ks) == TotalSize(ks[..k]) + TotalSize(ks[k..])
  {
    if k > 0 {
      TotalSizeSplit(ks[1..], k - 1);
      assert ks[1..][..k - 1] == ks[..k][1..];
      assert ks[1..][k - 1..] == ks[k..];
    }
  }

  lemma TotalSizeAppend(a: seq<FieldKind>, b: seq<FieldKind>)
    ensures TotalSize(a + b) == TotalSize(a) + TotalSize(b)
  {
    TotalSizeSplit(a + b, |a|);
    assert (a + b)[..|a|] == a && (a + b)[|a|..] == b;
  }

  /** `n` plain fields of `w` bytes each, such as a run of `u32` counts. */
  function Repeat(n: nat, w: nat): (ks: seq<FieldKind>)
    ensures |ks| == n && forall k :: 0 <= k < n ==> ks[k] == PlainField(w)
  {
    if n == 0 then [] else [PlainField(w)] + Repeat(n - 1, w)
  }

  /** `n` fields of `w` bytes each take `n * w` bytes. */
  lemma {:induction false} TotalSizeRepeat(n: nat, w: nat)
    ensures TotalSize(Repeat(n, w)) == n * w
  {
    if n > 0 {
      TotalSizeRepeat(n - 1, w);
      assert Repeat(n, w)[1..] == Repeat(n - 1, w);
    }
  }

  lemma TotalSizeSnoc(ks: seq<FieldKind>, k: nat)
    requires k < |ks|
    ensures Offset(ks, k + 1) == Offset(ks, k) + FieldSize(ks[k])
  {
    TotalSizeSplit(ks[..k + 1], k);
    assert ks[..k + 1][..k] == ks[..k];
    assert ks[..k + 1][k..] == [ks[k]];
  }

  /** A successful read gives field `k` the decoding of the `FieldSize` bytes at its
   *  running offset. */
  lemma {:induction false} ReadFieldAt(ks: seq<FieldKind>, bs: seq<byte>, short: string, k: nat)
    requires ReadFields(ks, bs, short).Ok? && k < |ks|
    ensures Offset(ks, k) + FieldSize(ks[k]) <= |bs|
    ensures DecodeField(ks[k], bs[Offset(ks, k)..Offset(ks, k) + FieldSize(ks[k])])
         == Ok(ReadFields(ks, bs, short).value[k])
  {
    var n := FieldSize(ks[0]);
    if k == 0 {
      assert ks[..0] == [];
    } else {
      ReadFieldAt(ks[1..], bs[n..], short, k - 1);
      assert ks[..k][1..] == ks[1..][..k - 1];
      var o := Offset(ks[1..], k - 1);
      assert Offset(ks, k) == n + o;
      assert bs[n..][o..o + FieldSize(ks[k])] == bs[n + o..n + o + FieldSize(ks[k])];
    }
  }

  /** Every field of a successful read is the decoding of its slice, and the read lies
   *  within the buffer. */
  lemma ReadFieldsAtOffsets(ks: seq<FieldKind>, bs: seq<byte>, short: string)
    requires ReadFields(ks, bs, short).Ok?
    ensures TotalSize(ks) <= |bs|
    ensures forall k :: 0 <= k < |ks| ==>
      && Offset(ks, k) + FieldSize(ks[k]) <= |bs|
      && DecodeField(ks[k], bs[Offset(ks, k)..Offset(ks, k) + FieldSize(ks[k])]) == Ok(ReadFields(ks, bs, short).value[k])
  {
    forall k | 0 <= k < |ks|
      ensures Offset(ks, k) + FieldSize(ks[k]) <= |bs|
      ensures DecodeField(ks[k], bs[Offset(ks, k)..Offset(ks, k) + FieldSize(ks[k])]) == Ok(ReadFields(ks, bs, short).value[k])
    {
      ReadFieldAt(ks, bs, short, k);
    }
    if ks != [] {
      ReadFieldAt(ks, bs, short, |ks| - 1);
      TotalSizeSnoc(ks, |ks| - 1);
      assert ks[..|ks|] == ks;
    }
  }

  /** A read looks only at its first `TotalSize` bytes and fails only on a bad bool
   *  once enough bytes are there. */
  lemma {:induction false} ReadFieldsPrefix(ks: seq<FieldKind>, bs: seq<byte>, short: string, short2: string)
    requires TotalSize(ks) <= |bs|
    ensures ReadFields(ks, bs, short) == ReadFields(ks, bs[..TotalSize(ks)], short2)
  {
    if ks != [] {
      var n := FieldSize(ks[0]);
      assert bs[..TotalSize(ks)][..n] == bs[..n];
      assert bs[..TotalSize(ks)][n..] == bs[n..][..TotalSize(ks[1..])];
      ReadFieldsPrefix(ks[1..], bs[n..], short, short2);
    }
  }

  /** A struct without `bool` fields reads successfully exactly when its bytes are
   *  all there. */
  lemma {:induction false} ReadFieldsPlain(ks: seq<FieldKind>, bs: seq<byte>, short: string)
    requires forall k :: 0 <= k < |ks| ==> ks[k].PlainField?
    ensures ReadFields(ks, bs, short).Ok? <==> TotalSize(ks) <= |bs|
  {
    if ks != [] {
      var n := FieldSize(ks[0]);
      if n <= |bs| {
        ReadFieldsPlain(ks[1..], bs[n..], short);
      }
    }
  }

  /** `values` read so far, followed by the outcome of the rest of the reads. */
  function Prepend<T>(values: seq<T>, rest: Result<seq<T>>): Result<seq<T>>
  {
    if rest.Ok? then Ok(values + rest.value) else rest
  }

  lemma PrependNothing<T>(rest: Result<seq<T>>)
    ensures Prepend([], rest) == rest
  {
    if rest.Ok? {
      assert [] + rest.value == rest.value;
    }
  }

  lemma PrependTwice<T>(values: seq<T>, v: T, rest: Result<seq<T>>)
    ensures Prepend(values, Prepend([v], rest)) == Prepend(values + [v], rest)
  {
    if rest.Ok? {
      assert values + ([v] + rest.value) == values + [v] + rest.value;
    }
  }

  /** One step of a read: the first field, then the rest after it. */
  lemma ReadFieldsStep(ks: seq<FieldKind>, k: nat, bs: seq<byte>, short: string)
    requires k < |ks| && FieldSize(ks[k]) <= |bs|
    ensures var n := FieldSize(ks[k]);
      ReadFields(ks[k..], bs, short) ==
        (var v :- DecodeField(ks[k], bs[..n]); Prepend([v], ReadFields(ks[k + 1..], bs[n..], short)))
  {
    assert ks[k..][0] == ks[k] && ks[k..][1..] == ks[k + 1..];
  }

  /** The bytes of `data` from `pos` on, none when `pos` is past the end. */
  function Rest(data: seq<byte>, pos: nat): (rest: seq<byte>)
    ensures pos <= |data| ==> rest == data[pos..]
    ensures pos > |data| ==> rest == []
  {
    if pos <= |data| then data[pos..] else []
  }

  /** The generated `from_bytes`: asserts the length is the struct's size, then slices
   *  each field at the running offset. */
  method FromBytes(layout: Layout, bytes: seq<byte>) returns (r: Result<seq<Value>>)
    ensures |bytes| != layout.size ==> r == Err(SIZE_MISMATCH)
    ensures |bytes| == layout.size ==> r == ReadFields(layout.fields, bytes, OUT_OF_RANGE)
  {
    assert bytes[0..] == bytes && layout.fields[0..] == layout.fields;
    if |bytes| != layout.size {
      return Err(SIZE_MISMATCH);
    }
    var ks := layout.fields;
    PrependNothing(ReadFields(ks, bytes, OUT_OF_RANGE));
    var offset := 0;
    var values: seq<Value> := [];
    var k := 0;
    while k < |ks|
      invariant k <= |ks| && offset <= |bytes|
      invariant ReadFields(ks, bytes, OUT_OF_RANGE) == Prepend(values, ReadFields(ks[k..], bytes[offset..], OUT_OF_RANGE))
    {
      var size := FieldSize(ks[k]);
      if offset + size > |bytes| {
        assert ks[k..] != [];
        return Err(OUT_OF_RANGE);
      }
      var slice := bytes[offset..offset + size];
      ReadFieldsStep(ks, k, bytes[offset..], OUT_OF_RANGE);
      assert bytes[offset..][..size] == slice && bytes[offset..][size..] == bytes[offset + size..];
      offset := offset + size;
      var v := DecodeField(ks[k], slice);
      if v.Err? {
        return Err(v.msg);
      }
      PrependTwice(values, v.value, ReadFields(ks[k + 1..], bytes[offset..], OUT_OF_RANGE));
      values := values + [v.value];
      k := k + 1;
    }
    assert ks[k..] == [] && values + [] == values;
    r := Ok(values);
  }

  /** The generated `from_reader`: `read_exact` of each field's size, in declaration
   *  order, from the stream's position. */
  method FromReader(layout: Layout, r: Stream.Cursor) returns (res: Result<seq<Value>>)
    modifies r
    ensures res == ReadFields(layout.fields, Rest(r.data, old(r.pos)), Stream.EOF_MESSAGE)
    ensures res.Ok? ==> r.pos == old(r.pos) + TotalSize(layout.fields)
  {
    var ks := layout.fields;
    var start := r.pos;
    var values: seq<Value> := [];
    var k := 0;
    assert ks[0..] == ks;
    PrependNothing(ReadFields(ks, Rest(r.data, start), Stream.EOF_MESSAGE));
    while k < |ks|
      invariant k <= |ks| && r.pos == start + Offset(ks, k)
      invariant ReadFields(ks, Rest(r.data, start), Stream.EOF_MESSAGE)
        == Prepend(values, ReadFields(ks[k..], Rest(r.data, r.pos), Stream.EOF_MESSAGE))
    {
      var size := FieldSize(ks[k]);
      var p := r.pos;
      var bytes := r.ReadExact(size);
      if bytes.Err? {
        assert ks[k..] != [];
        return Err(bytes.msg);
      }
      TotalSizeSnoc(ks, k);
      var rest := Rest(r.data, p);
      ReadFieldsStep(ks, k, rest, Stream.EOF_MESSAGE);
      assert rest[..size] == bytes.value && rest[size..] == Rest(r.data, r.pos);
      var v := DecodeField(ks[k], bytes.value);
      if v.Err? {
        return Err(v.msg);
      }
      PrependTwice(values, v.value, ReadFields(ks[k + 1..], Rest(r.data, r.pos), Stream.EOF_MESSAGE));
      values := values + [v.value];
      k := k + 1;
    }
    assert ks[k..] == [] && values + [] == values;
    assert ks[..k] == ks;
    res := Ok(values);
  }

  /** `from_bytes` on a struct-sized buffer and `from_reader` on a stream holding the
   *  same bytes agree, whatever follows them in the stream. */
  lemma ReadersAgree(layout: Layout, bytes: seq<byte>, rest: seq<byte>)
    requires TotalSize(layout.fields) <= |bytes|
    ensures ReadFields(layout.fields, bytes, OUT_OF_RANGE) == ReadFields(layout.fields, bytes + rest, Stream.EOF_MESSAGE)
  {
    ReadFieldsPrefix(layout.fields, bytes, OUT_OF_RANGE, OUT_OF_RANGE);
    ReadFieldsPrefix(layout.fields, bytes + rest, Stream.EOF_MESSAGE, OUT_OF_RANGE);
    assert (bytes + rest)[..TotalSize(layout.fields)] == bytes[..TotalSize(layout.fields)];
  }
}
