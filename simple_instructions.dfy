/** `simple_instructions_to_ast` of hermes_dec/src/generate_ast.rs: the statements one
 *  CFG block's instructions stand for, one match arm per instruction, ignoring the
 *  jumps (control flow is rebuilt by the generator).
 *
 *  `Emit` is the match: the statements one instruction appends, given the statements
 *  the block has produced so far (`Call` and `Construct` take their arguments from
 *  them). `BlockStmts` folds it over a block; the method `SimpleInstructionsToAst` is
 *  the source's `for` loop, proved equal to the fold. */
module SimpleInstructions {
  import opened Wrappers
  import opened Ast
  import V93
  import FileReader
  import opened FunctionReader
  import Graphs

  /** The message of `todo!()`. */
  const TODO := "not yet implemented"
  /** `stmts.len() - arguments_len` when fewer statements than arguments precede a call. */
  const SUB_OVERFLOW := "attempt to subtract with overflow"
  /** `arguments[0]` of a `Call` that found no argument. */
  const NO_ARGUMENTS := "index out of bounds: the len is 0 but the index is 0"

  // ----- Operands -----

  /** Integer operand `k`; the `Instruction` type guarantees it exists, 0 stands in otherwise. */
  function Val(i: V93.Instruction, k: nat): int
  {
    if k < |i.operands| && i.operands[k].Int? then i.operands[k].v else 0
  }

  /** An unsigned operand used as an index. */
  function Index(i: V93.Instruction, k: nat): nat
  {
    if Val(i, k) >= 0 then Val(i, k) else 0
  }

  /** Boolean operand `k`. */
  function FlagAt(i: V93.Instruction, k: nat): bool
  {
    k < |i.operands| && i.operands[k].Flag? && i.operands[k].b
  }

  /** The register of operand `k`, as the identifier `r<n>`. */
  function Reg(i: V93.Instruction, k: nat): Expr
  {
    Ident(RegName(Val(i, k)))
  }

  /** `f.get_string(index).unwrap()`. */
  function StringAt(f: FileReader.BytecodeFile, index: nat): (r: Result<string>)
    ensures r.Ok? <==> FileReader.GetString(f, index).Ok? && FileReader.GetString(f, index).value.Some?
    ensures r.Ok? ==> r.value == FileReader.GetString(f, index).value.value && r.value != []
    ensures r.Err? ==> r.msg != TODO
  {
    var s :- FileReader.GetString(f, index);
    if s.None? then Err(Graphs.UNWRAP_NONE) else Ok(s.value)
  }

  /** `f.get_string(index).unwrap_or_default()`: an empty entry reads as "", but an
   *  index past the table still panics. */
  function StringOrEmpty(f: FileReader.BytecodeFile, index: nat): (r: Result<string>)
    ensures r.Ok? <==> FileReader.GetString(f, index).Ok?
    ensures r.Ok? ==> (r.value == [] <==> FileReader.GetString(f, index).value.None?)
    ensures r.Err? ==> r.msg != TODO
  {
    var s :- FileReader.GetString(f, index);
    Ok(if s.Some? then s.value else "")
  }

  // ----- Shapes of the emitted statements -----

  /** `Object.<name>` */
  function ObjectMethod(name: string): Expr
  {
    Member(Ident("Object"), name)
  }

  /** `rD = <closure>.bind(<this>)(<rest>)`, the shape of every call. */
  function BoundCall(i: V93.Instruction, thisArg: Expr, rest: seq<Expr>): Stmt
  {
    Set(Reg(i, 0), Call(Call(Member(Reg(i, 1), "bind"), [thisArg]), rest))
  }

  /** Everything before the first `.` of `s`. */
  function BeforeDot(s: string): (r: string)
    ensures |r| <= |s| && '.' !in r
    ensures r == s[..|r|]
  {
    if s == [] || s[0] == '.' then [] else [s[0]] + BeforeDot(s[1..])
  }

  /** Everything after the first `.` of `s`. */
  function AfterDot(s: string): (r: string)
    ensures |r| <= |s|
  {
    if s == [] then [] else if s[0] == '.' then s[1..] else AfterDot(s[1..])
  }

  /** A builtin's name as an expression: `a.b` becomes a member access (the first two
   *  `.`-separated pieces), anything else an identifier. */
  function Builtin(name: string): (r: Expr)
    ensures '.' !in name ==> r == Ident(name)
    ensures '.' in name ==> r.Member? && r.obj.Ident? && '.' !in r.obj.sym && '.' !in r.name
  {
    if '.' in name then Member(Ident(BeforeDot(name)), BeforeDot(AfterDot(name)))
    else Ident(name)
  }

  // ----- Call arguments -----

  /** The register identifiers that the statements `ss` assign to, in order: the
   *  arguments a `Call`/`Construct` collects. A compound or plain assignment must
   *  have an identifier on its left (`as_ident().unwrap()`); other statements are
   *  passed over. */
  function AssignTargets(ss: seq<Stmt>): (r: Result<seq<Expr>>)
    ensures r.Ok? ==> |r.value| <= |ss| && forall k :: 0 <= k < |r.value| ==> r.value[k].Ident?
    ensures r.Err? ==> r.msg == Graphs.UNWRAP_NONE
  {
    if ss == [] then Ok([])
    else
      var front :- AssignTargets(ss[..|ss| - 1]);
      var s := ss[|ss| - 1];
      if s.ExprStmt? && s.expr.AssignExpr? then
        if s.expr.target.Ident? then Ok(front + [s.expr.target]) else Err(Graphs.UNWRAP_NONE)
      else Ok(front)
  }

  /** The arguments of a call with `n` arguments: the targets of the last `n` statements. */
  function CallArgs(prior: seq<Stmt>, n: nat): (r: Result<seq<Expr>>)
    ensures n > |prior| ==> r == Err(SUB_OVERFLOW)
    ensures r.Ok? ==> |r.value| <= n
    ensures r.Err? ==> r.msg == SUB_OVERFLOW || r.msg == Graphs.UNWRAP_NONE
  {
    if n > |prior| then Err(SUB_OVERFLOW) else AssignTargets(prior[|prior| - n..])
  }

  /** The argument loop of the `Call` and `Construct` arms. */
  method GatherArguments(prior: seq<Stmt>, n: nat) returns (r: Result<seq<Expr>>)
    ensures r == CallArgs(prior, n)
  {
    if n > |prior| {
      return Err(SUB_OVERFLOW);
    }
    var window := prior[|prior| - n..];
    var arguments: seq<Expr> := [];
    for j := 0 to |window|
      invariant AssignTargets(window[..j]) == Ok(arguments)
    {
      assert window[..j + 1][..j] == window[..j];
      var s := window[j];
      if s.ExprStmt? && s.expr.AssignExpr? {
        if !s.expr.target.Ident? {
          TargetsErrPersists(window, j + 1);
          return Err(Graphs.UNWRAP_NONE);
        }
        arguments := arguments + [s.expr.target];
      }
    }
    assert window[..|window|] == window;
    r := Ok(arguments);
  }

  /** Once a prefix of the statements fails, so does the whole sequence, with the same panic. */
  lemma {:induction false} TargetsErrPersists(ss: seq<Stmt>, j: nat)
    requires j <= |ss| && AssignTargets(ss[..j]).Err?
    ensures AssignTargets(ss) == AssignTargets(ss[..j])
    decreases |ss| - j
  {
    if j < |ss| {
      assert ss[..j + 1][..j] == ss[..j];
      TargetsErrPersists(ss, j + 1);
    } else {
      assert ss[..j] == ss;
    }
  }

  /** `Call`: `rD = rC.bind(a0)(a1, …)` over the collected arguments; none is a panic. */
  function CallStmts(i: V93.Instruction, args: seq<Expr>): Result<seq<Stmt>>
  {
    if |args| == 0 then Err(NO_ARGUMENTS) else Ok([BoundCall(i, args[0], args[1..])])
  }

  /** `Construct`: `rD = new rC(a0, a1, …)`. */
  function ConstructStmts(i: V93.Instruction, args: seq<Expr>): Result<seq<Stmt>>
  {
    Ok([Set(Reg(i, 0), New(Reg(i, 1), args))])
  }

  // ----- Classification of the arms -----

  /** The arms that push nothing: `Unreachable`, `AsyncBreakCheck`, `ProfilePoint` and
   *  every jump. */
  predicate Silent(op: V93.Opcode)
  {
    op == V93.Unreachable || op == V93.AsyncBreakCheck || op == V93.ProfilePoint
    || (V93.Jmp <= op <= V93.JmpUndefinedLong) || (V93.JLess <= op <= V93.JStrictNotEqualLong)
  }

  /** The arms that are `todo!()`. */
  predicate Todo(op: V93.Opcode)
  {
    op == V93.GetNewTarget || op == V93.PutNewOwnNEById || op == V93.PutNewOwnNEByIdLong
    || op == V93.CallDirect || (V93.CallLong <= op <= V93.CallBuiltinLong)
    || op == V93.Catch || op == V93.ThrowIfEmpty
    || (V93.CreateClosureLongIndex <= op <= V93.CreateAsyncClosureLongIndex)
    || op == V93.LoadConstBigInt || op == V93.LoadConstBigIntLongIndex || op == V93.ToNumeric
    || (V93.CreateRegExp <= op <= V93.IteratorClose)
    || op == V93.SaveGenerator || op == V93.SaveGeneratorLong
    || op >= V93.Add32
  }

  /** What kind of statement an instruction may push: `Ret` the only `return`, `Throw`
   *  the only `throw`, `Debugger` the only `debugger`, everything else expression
   *  statements. No arm pushes a block, a loop or a `continue`. */
  predicate Fits(op: V93.Opcode, s: Stmt)
  {
    match s
    case Return(_) => op == V93.Ret
    case Throw(_) => op == V93.Throw
    case Debugger => op == V93.Debugger
    case ExprStmt(_) => op != V93.Ret && op != V93.Throw && op != V93.Debugger
    case _ => false
  }

  predicate AllFit(op: V93.Opcode, ss: seq<Stmt>)
  {
    forall k :: 0 <= k < |ss| ==> Fits(op, ss[k])
  }


  /** Every statement is an expression statement. */
  predicate AllExpr(ss: seq<Stmt>)
  {
    forall k :: 0 <= k < |ss| ==> ss[k].ExprStmt?
  }

  // ----- The match -----

  /** The statements instruction `i` appends to a block that has produced `prior`:
   *  nothing for the jumps, `todo!()` for the arms not written yet, one statement for
   *  most instructions, two or three for the property-name iteration. */
  function Emit(f: FileReader.BytecodeFile, prior: seq<Stmt>, i: V93.Instruction): (r: Result<seq<Stmt>>)
    ensures r.Ok? ==> |r.value| <= 3 && AllFit(i.op, r.value)
    ensures r == Ok([]) <==> Silent(i.op)
    ensures r == Err(TODO) <==> Todo(i.op)
  {
    if Todo(i.op) then Err(TODO)
    else if Silent(i.op) then Ok([])
    else if i.op == V93.Ret then Ok([Return(Reg(i, 0))])
    else if i.op == V93.Throw then Ok([Stmt.Throw(Reg(i, 0))])
    else if i.op == V93.Debugger then Ok([Debugger])
    else if i.op <= V93.IsIn then Ok([OperatorStmt(i)])
    else if i.op <= V93.PutNewOwnByIdLong then NamedStmts(f, i)
    else if i.op <= V93.GetNextPName then PropertyStmts(f, i)
    else if i.op <= V93.LoadParamLong then CallStmtsOf(prior, i)
    else LoadStmts(f, i)
  }

  /** `rD = <op> r1` */
  function UnaryTo(i: V93.Instruction, u: UnaryOp): Stmt
  {
    Set(Reg(i, 0), Unary(u, Reg(i, 1)))
  }

  /** `rD = r1 <op> r2` */
  function BinaryTo(i: V93.Instruction, b: BinaryOp): Stmt
  {
    Set(Reg(i, 0), Bin(b, Reg(i, 1), Reg(i, 2)))
  }

  /** `BitAnd`/`BitOr`: `rD op= r2` when the destination is the first operand,
   *  `rD = r1 op r2` otherwise. */
  function CompoundTo(i: V93.Instruction, b: BinaryOp, a: AssignOp): Stmt
  {
    if Val(i, 0) == Val(i, 1) then ExprStmt(AssignExpr(a, Reg(i, 0), Reg(i, 2)))
    else BinaryTo(i, b)
  }

  /** `NewObjectWithBuffer` to `IsIn`: object and array creation, moves and the operators. */
  function OperatorStmt(i: V93.Instruction): (s: Stmt)
    requires 1 <= i.op <= V93.IsIn
    ensures s.ExprStmt?
  {
    var d := Reg(i, 0);
    match i.op as int
    case 1 | 2 | 3 => Set(d, Object([]))
    case 4 => Set(d, Call(ObjectMethod("create"), [Reg(i, 1)]))
    case 5 | 6 | 7 => Set(d, Array([]))
    case 8 | 9 => Set(d, Reg(i, 1))
    case 10 => UnaryTo(i, Minus)
    case 11 => UnaryTo(i, Bang)
    case 12 => UnaryTo(i, Tilde)
    case 13 => UnaryTo(i, UnaryOp.TypeOf)
    case 14 => BinaryTo(i, EqEq)
    case 15 => BinaryTo(i, EqEqEq)
    case 16 => BinaryTo(i, NotEq)
    case 17 => BinaryTo(i, NotEqEq)
    case 18 => BinaryTo(i, Lt)
    case 19 => BinaryTo(i, LtEq)
    case 20 => BinaryTo(i, Gt)
    case 21 => BinaryTo(i, GtEq)
    case 22 | 23 => BinaryTo(i, BinaryOp.Add)
    case 24 | 25 => BinaryTo(i, BinaryOp.Mul)
    case 26 | 27 => BinaryTo(i, BinaryOp.Div)
    case 28 => BinaryTo(i, BinaryOp.Mod)
    case 29 | 30 => BinaryTo(i, BinaryOp.Sub)
    case 31 => BinaryTo(i, BinaryOp.LShift)
    case 32 => BinaryTo(i, BinaryOp.RShift)
    case 33 => BinaryTo(i, ZeroFillRShift)
    case 34 => CompoundTo(i, BinaryOp.BitAnd, BitAndAssign)
    case 35 => BinaryTo(i, BinaryOp.BitXor)
    case 36 => CompoundTo(i, BinaryOp.BitOr, BitOrAssign)
    // Inc: `r++` in place, or `rD = r + 1`
    case 37 =>
      if Val(i, 0) == Val(i, 1) then ExprStmt(Update(PlusPlus, Reg(i, 1)))
      else Set(d, Bin(BinaryOp.Add, Reg(i, 1), NumLit(1)))
    // Dec: `rD = r--`, whatever the registers
    case 38 => Set(d, Update(MinusMinus, Reg(i, 1)))
    case 39 => BinaryTo(i, BinaryOp.InstanceOf)
    case 40 => BinaryTo(i, In)
    case _ => assert false; Set(d, d)
  }

  /** `Object.defineProperty(<obj>, <key>, {<props>})` */
  function DefineProperty(obj: Expr, key: Expr, props: seq<Prop>): Stmt
  {
    ExprStmt(Call(ObjectMethod("defineProperty"), [obj, key, Object(props)]))
  }

  /** `GetEnvironment` to `PutNewOwnByIdLong`: environments, globals and the accesses by
   *  a name from the string table. */
  function NamedStmts(f: FileReader.BytecodeFile, i: V93.Instruction): (r: Result<seq<Stmt>>)
    requires V93.GetEnvironment <= i.op <= V93.PutNewOwnByIdLong && !Todo(i.op)
    ensures r.Ok? ==> |r.value| == 1 && AllExpr(r.value)
    ensures r.Err? ==> r.msg != TODO
  {
    var d := Reg(i, 0);
    match i.op as int
    case 41 => Ok([Set(d, Call(Ident("get_environment"), [Reg(i, 1)]))])
    case 42 | 43 | 44 | 45 => Ok([ExprStmt(Call(Member(Reg(i, 0), "store"), [NumLit(Val(i, 1)), Reg(i, 2)]))])
    case 46 | 47 => Ok([Set(d, Call(Member(Reg(i, 1), "get"), [NumLit(Val(i, 2))]))])
    case 48 => Ok([Set(d, Ident("globalThis"))])
    case 50 => Ok([Set(d, Call(Ident("create_environment"), []))])
    case 51 =>
      var name :- StringAt(f, Index(i, 0));
      Ok([Set(Member(Ident("globalThis"), name), Ident("undefined"))])
    case 52 | 53 | 54 | 55 | 56 =>
      var name :- StringAt(f, Index(i, 3));
      Ok([Set(d, Member(Reg(i, 1), name))])
    case 57 | 58 | 59 | 60 =>
      var name :- StringAt(f, Index(i, 3));
      Ok([Set(Member(Reg(i, 0), name), Reg(i, 1))])
    case 61 | 62 | 63 =>
      var name :- StringAt(f, Index(i, 2));
      Ok([Set(Member(Reg(i, 0), name), Reg(i, 1))])
    case _ => assert false; Ok([])
  }

  /** `PutOwnByIndex` to `GetNextPName`: accesses by index or by a key register, and the
   *  property-name iteration. */
  function PropertyStmts(f: FileReader.BytecodeFile, i: V93.Instruction): (r: Result<seq<Stmt>>)
    requires V93.PutOwnByIndex <= i.op <= V93.GetNextPName
    ensures r.Ok? ==> 1 <= |r.value| <= 3 && AllExpr(r.value)
    ensures r.Err? ==> r.msg != TODO
  {
    var d := Reg(i, 0);
    match i.op as int
    case 66 | 67 => Ok([Set(Computed(Reg(i, 0), NumLit(Val(i, 2))), Reg(i, 1))])
    // PutOwnByVal: a plain store when enumerable, `defineProperty` otherwise
    case 68 =>
      if FlagAt(i, 3) then Ok([Set(Computed(Reg(i, 0), Reg(i, 2)), Reg(i, 1))])
      else Ok([DefineProperty(Reg(i, 0), Reg(i, 2), [KeyValue("value", Reg(i, 1)), KeyValue("enumerable", BoolLit(false))])])
    case 69 | 70 =>
      var name :- StringAt(f, Index(i, 2));
      Ok([Set(d, Unary(Delete, Member(Reg(i, 1), name)))])
    case 71 => Ok([Set(d, Computed(Reg(i, 1), Reg(i, 2)))])
    case 72 => Ok([Set(Computed(Reg(i, 0), Reg(i, 1)), Reg(i, 2))])
    case 73 => Ok([Set(d, Unary(Delete, Computed(Reg(i, 1), Reg(i, 2))))])
    case 74 =>
      Ok([DefineProperty(Reg(i, 0), Reg(i, 1),
            [KeyValue("get", Reg(i, 2)), KeyValue("set", Reg(i, 3)), KeyValue("enumerable", BoolLit(FlagAt(i, 4)))])])
    // GetPNameList: reset the index, list the keys, record their count
    case 75 =>
      Ok([Set(Reg(i, 2), NumLit(0)),
          Set(d, Call(ObjectMethod("keys"), [Reg(i, 1)])),
          Set(Reg(i, 3), Member(d, "length"))])
    // GetNextPName: read the next key and advance the index
    case 76 => Ok([Set(d, Computed(Reg(i, 1), Reg(i, 3))), ExprStmt(Update(PlusPlus, Reg(i, 3)))])
    case _ => assert false; Ok([])
  }

  /** `Call` to `LoadParamLong`: calls, builtins, closures, `this`, parameters. */
  function CallStmtsOf(prior: seq<Stmt>, i: V93.Instruction): (r: Result<seq<Stmt>>)
    requires V93.Call <= i.op <= V93.LoadParamLong && !Todo(i.op) && !Silent(i.op)
    requires i.op != V93.Ret && i.op != V93.Throw && i.op != V93.Debugger
    ensures r.Ok? ==> |r.value| == 1 && AllExpr(r.value)
    ensures r.Err? ==> r.msg != TODO
  {
    var d := Reg(i, 0);
    match i.op as int
    case 77 =>
      var args :- CallArgs(prior, Index(i, 2));
      CallStmts(i, args)
    case 78 =>
      var args :- CallArgs(prior, Index(i, 2));
      ConstructStmts(i, args)
    case 79 => Ok([BoundCall(i, Reg(i, 2), [])])
    case 81 => Ok([BoundCall(i, Reg(i, 2), [Reg(i, 3)])])
    case 82 => Ok([BoundCall(i, Reg(i, 2), [Reg(i, 3), Reg(i, 4)])])
    case 83 => Ok([BoundCall(i, Reg(i, 2), [Reg(i, 3), Reg(i, 4), Reg(i, 5)])])
    // GetBuiltinClosure: `JS_BUILTINS.get(n).unwrap()`
    case 89 =>
      if Index(i, 1) >= |V93.JS_BUILTINS| then Err(Graphs.UNWRAP_NONE)
      else Ok([Set(d, Builtin(V93.JS_BUILTINS[Index(i, 1)]))])
    case 92 => Ok([Set(d, Call(Ident("eval"), [Reg(i, 1)]))])
    case 98 => Ok([Set(d, Ident("f" + Decimal(Val(i, 2))))])
    case 104 =>
      Ok([Set(d, Call(ObjectMethod("create"),
            [Reg(i, 1), Object([KeyValue("constructor", Object([KeyValue("value", Reg(i, 2))]))])]))])
    // SelectObject: the constructor's result if it is an object, else `this`
    case 105 => Ok([Set(d, Cond(Bin(BinaryOp.InstanceOf, Reg(i, 2), Ident("Object")), Reg(i, 2), Reg(i, 1)))])
    case 106 | 107 => Ok([Set(d, Computed(Ident("arguments"), Ident(Decimal(Val(i, 1)))))])
    case _ => assert false; Ok([])
  }

  /** `LoadConstUInt8` to `ReifyArguments`: constants, coercions and `arguments`. */
  function LoadStmts(f: FileReader.BytecodeFile, i: V93.Instruction): (r: Result<seq<Stmt>>)
    requires V93.LoadConstUInt8 <= i.op && !Todo(i.op) && !Silent(i.op)
    ensures r.Ok? ==> |r.value| == 1 && AllExpr(r.value)
    ensures r.Err? ==> r.msg != TODO
  {
    var d := Reg(i, 0);
    match i.op as int
    case 108 | 109 => Ok([Set(d, NumLit(Val(i, 1)))])
    case 110 => Ok([Set(d, DoubleLit(Val(i, 1)))])
    case 113 | 114 =>
      var s :- StringOrEmpty(f, Index(i, 1));
      Ok([Set(d, StrLit(s))])
    case 115 | 116 => Ok([Set(d, Ident("undefined"))])
    case 117 => Ok([Set(d, NullLit)])
    // LoadConstTrue: a `false` literal, as written
    case 118 => Ok([Set(d, BoolLit(false))])
    case 119 => Ok([Set(d, BoolLit(false))])
    case 120 => Ok([Set(d, NumLit(0))])
    case 121 => Ok([Set(d, Reg(i, 1))])
    case 122 => Ok([Set(d, Ident("this"))])
    case 123 => Ok([Set(d, Call(Ident("Number"), [Reg(i, 1)]))])
    case 125 => Ok([Set(d, Bin(BinaryOp.BitOr, Reg(i, 1), Ident("0")))])
    case 126 => Ok([Set(d, Bin(BinaryOp.Add, Ident("\"\""), Reg(i, 1)))])
    case 127 => Ok([Set(d, Computed(Ident("arguments"), Reg(i, 1)))])
    case 128 => Ok([Set(d, Member(Ident("arguments"), "length"))])
    case 129 => Ok([Set(d, Ident("arguments"))])
    case _ => assert false; Ok([])
  }

  /** `LoadConstTrue` loads the `false` literal, as the source has it. */
  lemma LoadConstTrueLoadsFalse(f: FileReader.BytecodeFile, prior: seq<Stmt>, i: V93.Instruction)
    requires i.op == V93.LoadConstTrue
    ensures Emit(f, prior, i) == Ok([Set(Reg(i, 0), BoolLit(false))])
  {
  }

  // ----- One block -----

  /** The statements of the instructions at `idxs`, in order, each arm seeing the
   *  statements before it; the first panic wins. */
  function BlockStmts(f: FileReader.BytecodeFile, insts: seq<InstructionInfo>, idxs: seq<nat>): (r: Result<seq<Stmt>>)
    ensures r.Ok? ==> |r.value| <= 3 * |idxs|
    decreases |idxs|
  {
    if idxs == [] then Ok([])
    else
      var prior :- BlockStmts(f, insts, idxs[..|idxs| - 1]);
      var k := idxs[|idxs| - 1];
      if k >= |insts| then Err(FileReader.INDEX_OUT_OF_BOUNDS)
      else
        var out :- Emit(f, prior, insts[k].instruction);
        Ok(prior + out)
  }

  /** Once the statements of a prefix of the block fail, the block fails the same way. */
  lemma {:induction false} BlockErrPersists(f: FileReader.BytecodeFile, insts: seq<InstructionInfo>, idxs: seq<nat>, j: nat)
    requires j <= |idxs| && BlockStmts(f, insts, idxs[..j]).Err?
    ensures BlockStmts(f, insts, idxs) == BlockStmts(f, insts, idxs[..j])
    decreases |idxs| - j
  {
    if j < |idxs| {
      assert idxs[..j + 1][..j] == idxs[..j];
      BlockErrPersists(f, insts, idxs, j + 1);
    } else {
      assert idxs[..j] == idxs;
    }
  }

  /** The statements of block `node` of the block graph; a node the graph does not
   *  have is the panic of `node_weight(node).unwrap()`. */
  function NodeStmts(f: FileReader.BytecodeFile, cfg: Graphs.Cfg, node: nat, insts: seq<InstructionInfo>)
    : Result<seq<Stmt>>
  {
    if node >= |cfg.blocks| then Err(Graphs.UNWRAP_NONE) else BlockStmts(f, insts, cfg.blocks[node])
  }

  /** `simple_instructions_to_ast`: the block's instructions in order, each pushing its
   *  statements; a node that is not in the CFG is an `unwrap` on `None`. */
  method SimpleInstructionsToAst(f: FileReader.BytecodeFile, cfg: Graphs.Cfg, node: nat, insts: seq<InstructionInfo>)
    returns (r: Result<seq<Stmt>>)
    ensures r == NodeStmts(f, cfg, node, insts)
  {
    if node >= |cfg.blocks| {
      return Err(Graphs.UNWRAP_NONE);
    }
    var idxs := cfg.blocks[node];
    var stmts: seq<Stmt> := [];
    for j := 0 to |idxs|
      invariant BlockStmts(f, insts, idxs[..j]) == Ok(stmts)
    {
      assert idxs[..j + 1][..j] == idxs[..j];
      var k := idxs[j];
      if k >= |insts| {
        BlockErrPersists(f, insts, idxs, j + 1);
        return Err(FileReader.INDEX_OUT_OF_BOUNDS);
      }
      var out := InstructionStmts(f, stmts, insts[k].instruction);
      if out.Err? {
        BlockErrPersists(f, insts, idxs, j + 1);
        return Err(out.msg);
      }
      stmts := stmts + out.value;
    }
    assert idxs[..|idxs|] == idxs;
    r := Ok(stmts);
  }

  /** One iteration of the loop: the match arm of instruction `i`, with the argument
   *  loop for `Call` and `Construct`. */
  method InstructionStmts(f: FileReader.BytecodeFile, stmts: seq<Stmt>, i: V93.Instruction) returns (out: Result<seq<Stmt>>)
    ensures out == Emit(f, stmts, i)
  {
    if i.op == V93.Call || i.op == V93.Construct {
      var args := GatherArguments(stmts, Index(i, 2));
      if args.Err? {
        out := Err(args.msg);
      } else if i.op == V93.Call {
        out := CallStmts(i, args.value);
      } else {
        out := ConstructStmts(i, args.value);
      }
    } else {
      out := Emit(f, stmts, i);
    }
  }

  // ----- What a block's statements are made of -----

  /** Statement `s` is of a kind some instruction of the block pushes. */
  predicate FromBlock(insts: seq<InstructionInfo>, idxs: seq<nat>, s: Stmt)
  {
    exists j :: 0 <= j < |idxs| && idxs[j] < |insts| && Fits(insts[idxs[j]].instruction.op, s)
  }

  /** Every statement of a block comes from one of its instructions: only expression
   *  statements, plus a `return` only where the block has a `Ret`, a `throw` only
   *  where it has a `Throw`; never a `continue`, a branch or a loop. */
  lemma {:induction false} BlockStmtsFromBlock(f: FileReader.BytecodeFile, insts: seq<InstructionInfo>, idxs: seq<nat>)
    requires BlockStmts(f, insts, idxs).Ok?
    ensures forall k :: 0 <= k < |BlockStmts(f, insts, idxs).value| ==>
      FromBlock(insts, idxs, BlockStmts(f, insts, idxs).value[k])
    decreases |idxs|
  {
    if idxs != [] {
      var front := idxs[..|idxs| - 1];
      var prior := BlockStmts(f, insts, front).value;
      var last := |idxs| - 1;
      var out := Emit(f, prior, insts[idxs[last]].instruction).value;
      BlockStmtsFromBlock(f, insts, front);
      forall k | 0 <= k < |prior + out|
        ensures FromBlock(insts, idxs, (prior + out)[k])
      {
        if k < |prior| {
          var j :| 0 <= j < |front| && front[j] < |insts| && Fits(insts[front[j]].instruction.op, prior[k]);
          assert front[j] == idxs[j];
        } else {
          assert Fits(insts[idxs[last]].instruction.op, out[k - |prior|]);
        }
      }
    }
  }

  /** The block's statements so far are a prefix of the block's statements: later
   *  instructions only append. */
  lemma {:induction false} BlockStmtsPrefix(f: FileReader.BytecodeFile, insts: seq<InstructionInfo>, idxs: seq<nat>, j: nat)
    requires j <= |idxs| && BlockStmts(f, insts, idxs).Ok?
    ensures BlockStmts(f, insts, idxs[..j]).Ok?
    ensures BlockStmts(f, insts, idxs[..j]).value <= BlockStmts(f, insts, idxs).value
    decreases |idxs| - j
  {
    if j == |idxs| {
      assert idxs[..j] == idxs;
    } else {
      var front := idxs[..|idxs| - 1];
      assert front[..j] == idxs[..j];
      BlockStmtsPrefix(f, insts, front, j);
    }
  }

  /** A block of jumps (and other silent instructions) produces no statement. */
  lemma {:induction false} SilentBlockEmpty(f: FileReader.BytecodeFile, insts: seq<InstructionInfo>, idxs: seq<nat>)
    requires forall j :: 0 <= j < |idxs| ==> idxs[j] < |insts| && Silent(insts[idxs[j]].instruction.op)
    ensures BlockStmts(f, insts, idxs) == Ok([])
    decreases |idxs|
  {
    if idxs != [] {
      SilentBlockEmpty(f, insts, idxs[..|idxs| - 1]);
    }
  }
}
