// `add_inside_while` in generate_ast.rs: before every `continue` of a `while` body,
// at the top level and inside the blocks of its `if`s, the generator repeats the
// statements of the loop-header block, which a `continue` would otherwise skip.

module InsideWhile {
  import opened Wrappers
  import opened Ast

  /** The panic (`unimplemented!`) on a statement kind the function does not handle. */
  const UNIMPLEMENTED := "not implemented"

  /** Only `continue`, expression statements, `return` and `if`s whose blocks are
   *  themselves supported. */
  predicate Supported(body: seq<Stmt>)
    decreases body
  {
    forall k :: 0 <= k < |body| ==> SupportedStmt(body[k])
  }

  predicate SupportedStmt(s: Stmt)
    decreases s
  {
    match s
    case Continue => true
    case ExprStmt(_) => true
    case Return(_) => true
    case If(_, t, NoElse) => Supported(t)
    case If(_, t, ElseBlock(e)) => Supported(t) && Supported(e)
    case _ => false
  }

  /** No `continue` at any depth the function looks into. */
  predicate NoContinue(body: seq<Stmt>)
    decreases body
  {
    forall k :: 0 <= k < |body| ==> NoContinueStmt(body[k])
  }

  predicate NoContinueStmt(s: Stmt)
    decreases s
  {
    match s
    case Continue => false
    case If(_, t, NoElse) => NoContinue(t)
    case If(_, t, ElseBlock(e)) => NoContinue(t) && NoContinue(e)
    case _ => true
  }

  /** What the body becomes: each statement in turn, left to right, depth first; the
   *  first unsupported statement met is the panic. */
  function AddInside(body: seq<Stmt>, toAdd: seq<Stmt>): (r: Result<seq<Stmt>>)
    decreases body
  {
    if body == [] then Ok([])
    else
      var head :- AddInsideStmt(body[0], toAdd);
      var tail :- AddInside(body[1..], toAdd);
      Ok(head + tail)
  }

  /** What one statement becomes: `continue` is preceded by `toAdd`, an `if` has its
   *  blocks rewritten, an expression statement or `return` stays. */
  function AddInsideStmt(s: Stmt, toAdd: seq<Stmt>): (r: Result<seq<Stmt>>)
    decreases s
  {
    match s
    case Continue => Ok(toAdd + [Continue])
    case ExprStmt(_) => Ok([s])
    case Return(_) => Ok([s])
    case If(c, t, NoElse) =>
      var t' :- AddInside(t, toAdd);
      Ok([If(c, t', NoElse)])
    case If(c, t, ElseBlock(e)) =>
      var t' :- AddInside(t, toAdd);
      var e' :- AddInside(e, toAdd);
      Ok([If(c, t', ElseBlock(e'))])
    case _ => Err(UNIMPLEMENTED)
  }

  /** The rewrite of a concatenation is the concatenation of the rewrites, and the
   *  first part's panic comes first. */
  lemma {:induction false} AddInsideConcat(a: seq<Stmt>, b: seq<Stmt>, toAdd: seq<Stmt>)
    ensures AddInside(a + b, toAdd) ==
      (match AddInside(a, toAdd)
       case Err(m) => Err(m)
       case Ok(x) =>
         match AddInside(b, toAdd)
         case Err(m) => Err(m)
         case Ok(y) => Ok(x + y))
    decreases a
  {
    if a == [] {
      assert a + b == b;
      if AddInside(b, toAdd).Ok? {
        assert [] + AddInside(b, toAdd).value == AddInside(b, toAdd).value;
      }
    } else {
      assert (a + b)[0] == a[0];
      assert (a + b)[1..] == a[1..] + b;
      AddInsideConcat(a[1..], b, toAdd);
      var h := AddInsideStmt(a[0], toAdd);
      var x := AddInside(a[1..], toAdd);
      var y := AddInside(b, toAdd);
      if h.Ok? && x.Ok? && y.Ok? {
        assert h.value + (x.value + y.value) == (h.value + x.value) + y.value;
      }
    }
  }

  /** The function panics exactly when some statement it reaches is unsupported. */
  lemma {:induction false} AddInsideOk(body: seq<Stmt>, toAdd: seq<Stmt>)
    ensures AddInside(body, toAdd).Ok? <==> Supported(body)
    decreases body
  {
    if body != [] {
      AddInsideStmtOk(body[0], toAdd);
      AddInsideOk(body[1..], toAdd);
      if Supported(body) {
        assert forall k :: 0 <= k < |body[1..]| ==> body[1..][k] == body[k + 1];
      } else if SupportedStmt(body[0]) {
        var k :| 0 <= k < |body| && !SupportedStmt(body[k]);
        assert body[1..][k - 1] == body[k];
      }
    }
  }

  lemma {:induction false} AddInsideStmtOk(s: Stmt, toAdd: seq<Stmt>)
    ensures AddInsideStmt(s, toAdd).Ok? <==> SupportedStmt(s)
    decreases s
  {
    match s
    case If(c, t, NoElse) =>
      AddInsideOk(t, toAdd);
    case If(c, t, ElseBlock(e)) =>
      AddInsideOk(t, toAdd);
      AddInsideOk(e, toAdd);
    case _ =>
  }

  /** A supported body without `continue` comes back unchanged, whatever is added. */
  lemma {:induction false} AddInsideNoContinue(body: seq<Stmt>, toAdd: seq<Stmt>)
    requires Supported(body) && NoContinue(body)
    ensures AddInside(body, toAdd) == Ok(body)
    decreases body
  {
    if body != [] {
      AddInsideStmtNoContinue(body[0], toAdd);
      assert forall k :: 0 <= k < |body[1..]| ==> body[1..][k] == body[k + 1];
      AddInsideNoContinue(body[1..], toAdd);
      assert [body[0]] + body[1..] == body;
    }
  }

  lemma {:induction false} AddInsideStmtNoContinue(s: Stmt, toAdd: seq<Stmt>)
    requires SupportedStmt(s) && NoContinueStmt(s)
    ensures AddInsideStmt(s, toAdd) == Ok([s])
    decreases s
  {
    match s
    case If(c, t, NoElse) =>
      AddInsideNoContinue(t, toAdd);
    case If(c, t, ElseBlock(e)) =>
      AddInsideNoContinue(t, toAdd);
      AddInsideNoContinue(e, toAdd);
    case _ =>
  }

  /** Adding nothing leaves a supported body as it was. */
  lemma {:induction false} AddInsideNothing(body: seq<Stmt>)
    requires Supported(body)
    ensures AddInside(body, []) == Ok(body)
    decreases body
  {
    if body != [] {
      AddInsideStmtNothing(body[0]);
      assert forall k :: 0 <= k < |body[1..]| ==> body[1..][k] == body[k + 1];
      AddInsideNothing(body[1..]);
      assert [body[0]] + body[1..] == body;
    }
  }

  lemma {:induction false} AddInsideStmtNothing(s: Stmt)
    requires SupportedStmt(s)
    ensures AddInsideStmt(s, []) == Ok([s])
    decreases s
  {
    match s
    case Continue =>
      assert [] + [Continue] == [s];
    case If(c, t, NoElse) =>
      AddInsideNothing(t);
    case If(c, t, ElseBlock(e)) =>
      AddInsideNothing(t);
      AddInsideNothing(e);
    case _ =>
  }

  /** A top-level `continue` becomes `toAdd` followed by the `continue`. */
  lemma ContinueGetsPrefix(rest: seq<Stmt>, toAdd: seq<Stmt>)
    requires AddInside(rest, toAdd).Ok?
    ensures AddInside([Continue] + rest, toAdd) == Ok(toAdd + [Continue] + AddInside(rest, toAdd).value)
  {
    assert ([Continue] + rest)[1..] == rest;
  }

  /** The in-place rewrite: an index walks the growing body; before a `continue` the
   *  statements of `toAdd` are inserted one at a time and the index skips past them,
   *  an `if` has its blocks rewritten by the recursive calls. */
  method AddInsideWhile(body: seq<Stmt>, toAdd: seq<Stmt>) returns (r: Result<seq<Stmt>>)
    ensures r == AddInside(body, toAdd)
    decreases body, 1
  {
    var b := body;
    var i := 0;
    ghost var j := 0;
    while i < |b|
      invariant 0 <= j <= |body| && 0 <= i <= |b|
      invariant AddInside(body[..j], toAdd) == Ok(b[..i])
      invariant b[i..] == body[j..] && |b| - i == |body| - j
      decreases |b| - i
    {
      assert b[i] == body[j];
      ghost var b0, i0 := b, i;
      var s := b[i];
      match s {
        case Continue =>
          for k := 0 to |toAdd|
            invariant b == b0[..i] + toAdd[..k] + b0[i..]
          {
            assert toAdd[..k + 1] == toAdd[..k] + [toAdd[k]];
            b := b[..i + k] + [toAdd[k]] + b[i + k..];
          }
          assert toAdd[..|toAdd|] == toAdd;
          assert b0[i0..] == [Continue] + b0[i0 + 1..];
          assert b == b0[..i0] + (toAdd + [Continue]) + b0[i0 + 1..];
          i := i + |toAdd|;
        case If(_, _, _) =>
          var s' := AddInsideIf(s, toAdd);
          if s'.Err? {
            r := Err(s'.msg);
            AddInsideErr(body, j, toAdd);
            return;
          }
          b := b[..i] + [s'.value] + b[i + 1..];
        case ExprStmt(_) =>
          assert b == b0[..i0] + [s] + b0[i0 + 1..];
        case Return(_) =>
          assert b == b0[..i0] + [s] + b0[i0 + 1..];
        case _ =>
          r := Err(UNIMPLEMENTED);
          AddInsideErr(body, j, toAdd);
          return;
      }
      Advance(body, j, toAdd, b0, i0, b, i);
      i := i + 1;
      j := j + 1;
    }
    assert body[..j] == body;
    assert b[..i] == b;
    r := Ok(b);
  }

  /** The `if` arm of the rewrite: its `then` block, then its `else` block if any. */
  method AddInsideIf(s: Stmt, toAdd: seq<Stmt>) returns (r: Result<Stmt>)
    requires s.If?
    ensures r.Ok? ==> AddInsideStmt(s, toAdd) == Ok([r.value])
    ensures r.Err? ==> AddInsideStmt(s, toAdd) == Err(r.msg)
    decreases s, 0
  {
    var t' := AddInsideWhile(s.thenBlock, toAdd);
    if t'.Err? {
      return Err(t'.msg);
    }
    match s.elseBlock {
      case NoElse =>
        r := Ok(If(s.cond, t'.value, NoElse));
      case ElseBlock(e) =>
        var e' := AddInsideWhile(e, toAdd);
        if e'.Err? {
          return Err(e'.msg);
        }
        r := Ok(If(s.cond, t'.value, ElseBlock(e'.value)));
    }
  }

  /** One step of the walk: the statement at `i0`, rewritten into the positions up to
   *  `i`, extends the rewritten prefix by one source statement. */
  lemma Advance(body: seq<Stmt>, j: nat, toAdd: seq<Stmt>, b0: seq<Stmt>, i0: nat, b: seq<Stmt>, i: nat)
    requires j < |body| && i0 < |b0| && b0[i0..] == body[j..]
    requires AddInside(body[..j], toAdd) == Ok(b0[..i0])
    requires AddInsideStmt(body[j], toAdd).Ok?
    requires i0 <= i < |b|
    requires b == b0[..i0] + AddInsideStmt(body[j], toAdd).value + b0[i0 + 1..]
    requires i + 1 == i0 + |AddInsideStmt(body[j], toAdd).value|
    ensures AddInside(body[..j + 1], toAdd) == Ok(b[..i + 1])
    ensures b[i + 1..] == body[j + 1..]
  {
    var q := AddInsideStmt(body[j], toAdd).value;
    assert body[..j + 1] == body[..j] + [body[j]];
    AddInsideSingle(body[j], toAdd);
    AddInsideConcat(body[..j], [body[j]], toAdd);
    assert b[..i + 1] == b0[..i0] + q;
    assert b[i + 1..] == b0[i0 + 1..];
    assert b0[i0 + 1..] == b0[i0..][1..];
  }

  lemma AddInsideSingle(s: Stmt, toAdd: seq<Stmt>)
    ensures AddInside([s], toAdd) == AddInsideStmt(s, toAdd)
  {
    assert [s][1..] == [];
    if AddInsideStmt(s, toAdd).Ok? {
      assert AddInsideStmt(s, toAdd).value + [] == AddInsideStmt(s, toAdd).value;
    }
  }

  /** A panic on the statement after a rewritten prefix is the panic of the whole body. */
  lemma AddInsideErr(body: seq<Stmt>, j: nat, toAdd: seq<Stmt>)
    requires j < |body| && AddInside(body[..j], toAdd).Ok? && AddInsideStmt(body[j], toAdd).Err?
    ensures AddInside(body, toAdd) == Err(AddInsideStmt(body[j], toAdd).msg)
  {
    assert body == body[..j] + body[j..];
    AddInsideConcat(body[..j], body[j..], toAdd);
    assert body[j..][0] == body[j];
  }
}
