// The condition of a conditional jump, as `jump_inst_to_test` in generate_ast.rs
// writes it: the JavaScript test that holds when the jump is taken.

module JumpTest {
  import opened Wrappers
  import opened Ast
  import opened V93
  import Graphs
  import SimpleInstructions

  /** The panic of a jump test asked of an instruction that is not a conditional jump. */
  const NON_JUMP := "got a non-jump"

  /** The comparison of a two-register jump: four variants (`J<c>`, `J<c>Long`,
   *  `JNot<c>`, `JNot<c>Long`) per `Less`, `LessN`, `LessEqual`, ..., then two per
   *  `Equal`, `NotEqual`, `StrictEqual`, `StrictNotEqual`. */
  function Comparison(op: Opcode): BinaryOp
    requires JLess <= op <= JStrictNotEqualLong
  {
    if op < JLessEqual then Lt
    else if op < JGreater then LtEq
    else if op < JGreaterEqual then Gt
    else if op < JEqual then GtEq
    else if op < JNotEqual then EqEq
    else if op < JStrictEqual then NotEq
    else if op < JStrictNotEqual then EqEqEq
    else NotEqEq
  }

  /** The `JNot<c>` forms of the ordered comparisons, whose test is negated. */
  predicate Negated(op: Opcode)
  {
    JLess <= op < JEqual && (op - JLess) % 4 >= 2
  }

  /** The test of a conditional jump; operand 0 is the offset, operand 1 the checked
   *  register (or the left operand), operand 2 the right operand. */
  function Test(i: Instruction): (r: Result<Expr>)
    ensures r.Ok? <==> Graphs.IsConditionalJump(i.op)
    ensures r.Err? ==> r.msg == NON_JUMP
  {
    var a := SimpleInstructions.Reg(i, 1);
    var b := SimpleInstructions.Reg(i, 2);
    if JmpTrue <= i.op <= JmpTrueLong then Ok(a)
    else if JmpFalse <= i.op <= JmpFalseLong then Ok(Unary(Bang, a))
    else if JmpUndefined <= i.op <= JmpUndefinedLong then Ok(Bin(EqEqEq, a, Ident("undefined")))
    else if JLess <= i.op <= JStrictNotEqualLong then
      var cmp := Bin(Comparison(i.op), a, b);
      Ok(if Negated(i.op) then Unary(Bang, Paren(cmp)) else cmp)
    else Err(NON_JUMP)
  }

  /** A short conditional jump and its `Long` form have the same test. */
  lemma LongFormSameTest(s: Opcode, operands: seq<Operand>)
    requires IsShortJump(s) && Graphs.IsConditionalJump(s)
    ensures s as int + 1 < VARIANT_COUNT
    ensures Test(Instruction((s as int + 1) as Opcode, operands)) == Test(Instruction(s, operands))
  {
  }

  /** `JNot<c>` tests the negation, in parentheses, of what `J<c>` tests. */
  lemma NotFormNegates(op: Opcode, operands: seq<Operand>)
    requires Negated(op)
    ensures Test(Instruction(op - 2, operands)).Ok?
    ensures Test(Instruction(op, operands)) == Ok(Unary(Bang, Paren(Test(Instruction(op - 2, operands)).value)))
  {
  }

  /** The equality jumps are never negated: `JNotEqual` tests `!=` and
   *  `JStrictNotEqual` tests `!==`. */
  lemma EqualityJumpsNotNegated(op: Opcode, operands: seq<Operand>)
    requires JEqual <= op <= JStrictNotEqualLong
    ensures Test(Instruction(op, operands)).Ok? && Test(Instruction(op, operands)).value.Bin?
    ensures Test(Instruction(op, operands)).value.bop in {EqEq, NotEq, EqEqEq, NotEqEq}
  {
  }

  /** `JmpFalse` tests the negation of what `JmpTrue` tests (without parentheses). */
  lemma JmpFalseNegatesJmpTrue(operands: seq<Operand>)
    ensures Test(Instruction(JmpTrue, operands)).Ok?
    ensures Test(Instruction(JmpFalse, operands)) == Ok(Unary(Bang, Test(Instruction(JmpTrue, operands)).value))
  {
  }
}
