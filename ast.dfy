/** The JavaScript syntax tree that the statement generator builds: the few shapes of
 *  swc's `Expr` and `Stmt` that hermes_dec/src/generate_ast.rs constructs, without
 *  spans. Registers are identifiers `r<n>`, as the generator names them. */
module Ast {
  import opened Wrappers

  datatype UnaryOp = Bang | Minus | Tilde | TypeOf | Delete

  datatype BinaryOp =
    | EqEq | NotEq | EqEqEq | NotEqEq | Lt | LtEq | Gt | GtEq
    | Add | Sub | Mul | Div | Mod | LShift | RShift | ZeroFillRShift
    | BitAnd | BitOr | BitXor | InstanceOf | In

  datatype AssignOp = Assign | BitAndAssign | BitOrAssign

  /** Postfix `++` / `--`. */
  datatype UpdateOp = PlusPlus | MinusMinus

  datatype Prop = KeyValue(key: string, value: Expr)

  datatype Expr =
    | Ident(sym: string)
    | NullLit
    | BoolLit(b: bool)
    /** A number literal made with `f64::from` of an integer operand. */
    | NumLit(n: int)
    /** The `f64` operand of `LoadConstDouble`, by its bit pattern. */
    | DoubleLit(bits: int)
    | StrLit(s: string)
    | Unary(uop: UnaryOp, arg: Expr)
    | Bin(bop: BinaryOp, left: Expr, right: Expr)
    | Paren(inner: Expr)
    | AssignExpr(aop: AssignOp, target: Expr, value: Expr)
    | Update(upd: UpdateOp, operand: Expr)
    /** `obj.name` */
    | Member(obj: Expr, name: string)
    /** `obj[key]` */
    | Computed(obj: Expr, key: Expr)
    | Call(callee: Expr, args: seq<Expr>)
    | New(ctor: Expr, ctorArgs: seq<Expr>)
    | Object(props: seq<Prop>)
    | Array(elems: seq<Expr>)
    | Cond(test: Expr, cons: Expr, alt: Expr)

  datatype Stmt =
    | ExprStmt(expr: Expr)
    /** An `if` whose branches are blocks, as the generator always builds them. */
    | If(cond: Expr, thenBlock: seq<Stmt>, elseBlock: Else)
    | While(whileTest: Expr, whileBody: seq<Stmt>)
    | DoWhile(doTest: Expr, doBody: seq<Stmt>)
    | Return(value: Expr)
    | Throw(thrown: Expr)
    | Continue
    | Debugger

  /** The optional `else` block of an `if`. */
  datatype Else = NoElse | ElseBlock(stmts: seq<Stmt>)

  /** The decimal digits of `n`, as Rust's `Display` writes an integer. */
  function Decimal(n: int): (r: string)
    ensures r != []
    ensures n >= 0 ==> forall k :: 0 <= k < |r| ==> '0' <= r[k] <= '9'
    decreases if n < 0 then 1 - n else n
  {
    if n < 0 then "-" + Decimal(-n)
    else if n < 10 then [Digit(n)]
    else Decimal(n / 10) + [Digit(n % 10)]
  }

  function Digit(d: int): (c: char)
    requires 0 <= d < 10
    ensures '0' <= c <= '9' && c as int - '0' as int == d
  {
    (d + '0' as int) as char
  }

  /** The number the digits spell. */
  function DigitsValue(s: string): int
    requires forall k :: 0 <= k < |s| ==> '0' <= s[k] <= '9'
  {
    if s == [] then 0 else DigitsValue(s[..|s| - 1]) * 10 + (s[|s| - 1] as int - '0' as int)
  }

  /** Reading the decimal digits back gives the number: distinct registers get
   *  distinct names. */
  lemma {:induction false} DecimalRoundTrip(n: nat)
    ensures DigitsValue(Decimal(n)) == n
    decreases n
  {
    if n >= 10 {
      DecimalRoundTrip(n / 10);
      var s := Decimal(n);
      assert s[..|s| - 1] == Decimal(n / 10);
    }
  }

  /** The identifier `r<n>` of register `n`. */
  function RegName(n: int): string
  {
    "r" + Decimal(n)
  }

  lemma RegNameInjective(a: nat, b: nat)
    ensures RegName(a) == RegName(b) <==> a == b
  {
    if RegName(a) == RegName(b) {
      assert Decimal(a) == RegName(a)[1..];
      assert Decimal(b) == RegName(b)[1..];
      DecimalRoundTrip(a);
      DecimalRoundTrip(b);
    }
  }

  /** `target = value;` */
  function Set(target: Expr, value: Expr): Stmt
  {
    ExprStmt(AssignExpr(Assign, target, value))
  }

  /** `Return` and `Throw` end the code path; the generator remembers having produced one. */
  predicate IsReturnOrThrow(s: Stmt)
  {
    s.Return? || s.Throw?
  }
}
