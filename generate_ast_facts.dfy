// What the statement generator of generate_ast.rs does, stated about the functions of
// module GenerateAst: the queue is yielded first and in order, the stages and their
// shapes, the chaining of generators, and what happens to statements queued by a
// stage that stops the generator.

module GenerateAstFacts {
  import opened Wrappers
  import opened Ast
  import opened Graphs
  import opened Traversals
  import opened GenerateAst

  // ----- next -----

  /** `next` yields the front of a non-empty queue, and sets the flag when the statement
   *  yielded is a `return` or a `throw`. */
  lemma NextPopsFront(ctx: Ctx, g: Gen, fuel: nat)
    requires ValidCtx(ctx) && g.queue != []
    ensures Next(ctx, g, fuel).Ok? && Next(ctx, g, fuel).value.item == Some(g.queue[0])
    ensures Next(ctx, g, fuel).value.gen.queue == g.queue[1..]
    ensures Next(ctx, g, fuel).value.gen.lastReturn <==> g.lastReturn || g.queue[0].Return? || g.queue[0].Throw?
  {
  }

  /** The queue comes out first and in order: whatever a generator yields starts with
   *  the statements it has queued. */
  lemma {:induction false} CollectYieldsQueueFirst(ctx: Ctx, g: Gen, fuel: nat)
    requires ValidCtx(ctx) && Collect(ctx, g, fuel).Ok?
    ensures g.queue <= Collect(ctx, g, fuel).value.stmts
    decreases |g.queue|
  {
    if g.queue != [] {
      var s := Next(ctx, g, fuel).value;
      assert s.item == Some(g.queue[0]) && s.gen.queue == g.queue[1..];
      assert fuel > 0;
      var rest := Collect(ctx, s.gen, fuel - 1);
      assert rest.Ok? && Collect(ctx, g, fuel).value.stmts == [g.queue[0]] + rest.value.stmts;
      CollectYieldsQueueFirst(ctx, s.gen, fuel - 1);
      assert g.queue == [g.queue[0]] + g.queue[1..];
    }
  }

  /** Once its stages are done, a generator with an empty queue is replaced by its
   *  chained generator (which starts afresh, the flag cleared) or yields nothing. */
  lemma NextWhenDone(ctx: Ctx, g: Gen, fuel: nat)
    requires ValidCtx(ctx) && g.queue == [] && g.stage == ProcessingDone && fuel > 0
    ensures g.chained.Some? ==> Next(ctx, g, fuel) == Next(ctx, Fresh(g.chained.value), fuel - 1)
    ensures g.chained.None? ==> Next(ctx, g, fuel) == Ok(Stepped(g, None))
  {
    assert Populate(ctx, g, fuel - 1) == Ok(Populated(g, false));
  }

  // ----- BeginProcessBlock -----

  /** A block reached by a jump back to the enclosing `while` header queues a single
   *  `continue` and stops the generator. */
  lemma WhileCondBlockQueuesContinue(ctx: Ctx, c: Config, fuel: nat)
    requires ValidCtx(ctx) && c.whileCondBlock == Some(c.node)
    ensures Populate(ctx, Fresh(c), fuel) == Ok(Populated(Fresh(c).(queue := [Continue], stage := ProcessingDone), false))
  {
    assert [] + [Continue] == [Continue];
  }

  /** As written, that `continue` is never yielded: `next` takes the stop for the end
   *  of the generator, and the generator yields nothing. */
  lemma WhileCondBlockYieldsNothing(ctx: Ctx, c: Config, fuel: nat)
    requires ValidCtx(ctx) && !ctx.drainOnStop && c.whileCondBlock == Some(c.node) && fuel > 0
    ensures Collect(ctx, Fresh(c), fuel) == Ok(Collected([], Fresh(c).(queue := [Continue], stage := ProcessingDone)))
  {
    WhileCondBlockQueuesContinue(ctx, c, fuel - 1);
  }

  /** With the corrected `next`, the generator yields exactly the `continue`. */
  lemma WhileCondBlockYieldsContinue(ctx: Ctx, c: Config, fuel: nat)
    requires ValidCtx(ctx) && ctx.drainOnStop && c.whileCondBlock == Some(c.node) && fuel > 1
    ensures Collect(ctx, Fresh(c), fuel) == Ok(Collected([Continue], Fresh(c).(stage := ProcessingDone)))
  {
    var g := Fresh(c).(queue := [Continue], stage := ProcessingDone);
    var h := Fresh(c).(stage := ProcessingDone);
    WhileCondBlockQueuesContinue(ctx, c, fuel - 1);
    assert g.queue[1..] == [] && !IsReturnOrThrow(Continue);
    assert g.(queue := g.queue[1..], lastReturn := g.lastReturn || IsReturnOrThrow(g.queue[0])) == h;
    assert Next(ctx, g, fuel - 1) == Ok(Stepped(h, Some(Continue)));
    assert Next(ctx, Fresh(c), fuel) == Ok(Stepped(h, Some(Continue)));
    NextWhenDone(ctx, h, fuel - 1);
    assert Collect(ctx, h, fuel - 1) == Ok(Collected([], h));
    assert [Continue] + [] == [Continue];
  }

  /** At the condition block of the enclosing `do..while` the block's statements are
   *  queued and the generator stops; as written, they are never yielded. */
  lemma DoWhileCondBlockYieldsNothing(ctx: Ctx, c: Config, fuel: nat)
    requires ValidCtx(ctx) && !ctx.drainOnStop && fuel > 0
    requires c.whileCondBlock != Some(c.node) && c.doWhileCondBlock == Some(c.node) && NodeStmts(ctx, c.node).Ok?
    ensures Collect(ctx, Fresh(c), fuel) ==
      Ok(Collected([], Fresh(c).(queue := NodeStmts(ctx, c.node).value, stage := ProcessingDone)))
  {
    assert [] + NodeStmts(ctx, c.node).value == NodeStmts(ctx, c.node).value;
    assert Populate(ctx, Fresh(c), fuel - 1) ==
      Ok(Populated(Fresh(c).(queue := NodeStmts(ctx, c.node).value, stage := ProcessingDone), false));
  }

  /** Any other block queues its statements and goes on to the loop check. */
  lemma BeginQueuesBlock(ctx: Ctx, c: Config, fuel: nat)
    requires ValidCtx(ctx) && c.whileCondBlock != Some(c.node) && c.doWhileCondBlock != Some(c.node)
    ensures NodeStmts(ctx, c.node).Err? ==> Populate(ctx, Fresh(c), fuel) == Err(NodeStmts(ctx, c.node).msg)
    ensures NodeStmts(ctx, c.node).Ok? ==>
      Populate(ctx, Fresh(c), fuel) == Ok(Populated(Fresh(c).(queue := NodeStmts(ctx, c.node).value, stage := LoopCheck), true))
  {
    if NodeStmts(ctx, c.node).Ok? {
      assert [] + NodeStmts(ctx, c.node).value == NodeStmts(ctx, c.node).value;
    }
  }

  // ----- LoopCheck -----

  /** The loop search runs only for a block entered by two edges or more that is not
   *  the first block of a `do..while` body. */
  lemma LoopCheckSkipped(ctx: Ctx, g: Gen, fuel: nat)
    requires ValidCtx(ctx) && g.stage == LoopCheck && LastIndex(ctx.cfg, g.config.node).Ok?
    requires g.config.isDoWhileFirstBlock || |Incoming(ctx.cfg.edges, g.config.node)| < 2
    ensures Populate(ctx, g, fuel) == Ok(Populated(g.(stage := IfCheck), true))
  {
  }

  /** A `do..while` tests the condition in parentheses and is followed by the false
   *  edge's target, outside any enclosing loop. */
  lemma DoWhileShape(ctx: Ctx, g: Gen, lc: nat, cond: Expr, br: Branches, fuel: nat)
    requires ValidCtx(ctx) && g.stage == LoopCheck && DoWhileLoop(ctx, g, lc, cond, br, fuel).Ok?
    ensures
      var p := DoWhileLoop(ctx, g, lc, cond, br, fuel).value;
      && p.gen.queue[|g.queue|] == DoWhile(Paren(cond), p.gen.queue[|g.queue|].doBody)
      && p.gen.chained == Some(Config(br.fals.target, false, None, None))
  {
  }

  /** A `while` tests the negated condition and is followed by the true edge's target. */
  lemma WhileShape(ctx: Ctx, g: Gen, cond: Expr, br: Branches, fuel: nat)
    requires ValidCtx(ctx) && g.stage == LoopCheck && g.config.node < |ctx.cfg.blocks|
    requires WhileLoop(ctx, g, cond, br, fuel).Ok?
    ensures
      var p := WhileLoop(ctx, g, cond, br, fuel).value;
      && p.gen.queue[|g.queue|] == While(Unary(Bang, Paren(cond)), p.gen.queue[|g.queue|].whileBody)
      && p.gen.chained == Some(Config(br.tru.target, false, None, g.config.doWhileCondBlock))
  {
  }

  /** A loop found becomes a `do..while` exactly when the true edge of its testing block
   *  leads back to the header; any other loop becomes `while (!(cond))`. */
  lemma LoopShape(ctx: Ctx, g: Gen, lc: nat, fuel: nat)
    requires ValidCtx(ctx) && g.stage == LoopCheck && lc < |ctx.cfg.blocks|
    requires g.config.node < |ctx.cfg.blocks| && ctx.cfg.blocks[g.config.node] != []
    requires Loop(ctx, g, lc, fuel).Ok?
    ensures LoopTest(ctx, g.config.node, lc).Ok?
    ensures
      var t := LoopTest(ctx, g.config.node, lc).value;
      var p := Loop(ctx, g, lc, fuel).value;
      && (p.gen.queue[|g.queue|].DoWhile? <==> t.br.tru.target == g.config.node)
      && (t.br.tru.target == g.config.node ==> DoWhileLoop(ctx, g, lc, t.cond, t.br, fuel) == Ok(p))
      && (t.br.tru.target != g.config.node ==> WhileLoop(ctx, g, t.cond, t.br, fuel) == Ok(p))
  {
    var t := LoopTest(ctx, g.config.node, lc).value;
    assert Loop(ctx, g, lc, fuel) == LoopOf(ctx, g, lc, t, fuel);
    if t.br.tru.target == g.config.node {
      DoWhileShape(ctx, g, lc, t.cond, t.br, fuel);
    } else {
      WhileShape(ctx, g, t.cond, t.br, fuel);
    }
  }

  // ----- IfCheck and AfterIf -----

  /** An `if` without `else` tests the jump's condition, negated or not, and records the
   *  block that follows it. */
  lemma IfThenShape(ctx: Ctx, g: Gen, flowIndex: nat, thenNode: nat, afterNode: nat, negate: bool, fuel: nat)
    requires ValidCtx(ctx) && g.stage == IfCheck && IfThen(ctx, g, flowIndex, thenNode, afterNode, negate, fuel).Ok?
    ensures TestAt(ctx.insts, flowIndex).Ok?
    ensures
      var p := IfThen(ctx, g, flowIndex, thenNode, afterNode, negate, fuel).value;
      p.gen.queue[|g.queue|] == If(Negation(TestAt(ctx.insts, flowIndex).value, negate), p.gen.queue[|g.queue|].thenBlock, NoElse)
  {
  }

  /** The three ways of an `if`: when the false target reaches the true target, the
   *  `if` tests the jump's condition and the false target follows it; when only the
   *  true target reaches the false one, the test is negated and the true target
   *  follows; otherwise `IfElse`. */
  lemma IfWays(ctx: Ctx, g: Gen, flowIndex: nat, out: seq<Edge>, fuel: nat)
    requires ValidCtx(ctx) && g.stage == IfCheck && (forall e :: e in out ==> e in ctx.cfg.edges)
    requires IfStmt(ctx, g, flowIndex, out, fuel).Ok?
    ensures BranchesOf(out).Ok?
    ensures
      var br := BranchesOf(out).value;
      var bg := BlockGraph(ctx.cfg);
      var r := IfStmt(ctx, g, flowIndex, out, fuel);
      && br.tru.target < bg.nodeCount && br.fals.target < bg.nodeCount
      && (Reaches(bg, br.fals.target, br.tru.target) ==>
            r == IfThen(ctx, g, flowIndex, br.tru.target, br.fals.target, false, fuel))
      && (!Reaches(bg, br.fals.target, br.tru.target) && Reaches(bg, br.tru.target, br.fals.target) ==>
            r == IfThen(ctx, g, flowIndex, br.fals.target, br.tru.target, true, fuel))
      && (!Reaches(bg, br.fals.target, br.tru.target) && !Reaches(bg, br.tru.target, br.fals.target) ==>
            r == IfElse(ctx, g, flowIndex, br, fuel))
  {
    var br := BranchesOf(out).value;
    EdgeInGraph(BlockGraph(ctx.cfg), br.tru);
    EdgeInGraph(BlockGraph(ctx.cfg), br.fals);
  }

  /** Without reachability either way, the false side follows the `if` exactly when
   *  the true side ended with `return` or `throw`, and is its `else` block otherwise. */
  lemma IfElseShape(ctx: Ctx, g: Gen, flowIndex: nat, br: Branches, fuel: nat)
    requires ValidCtx(ctx) && g.stage == IfCheck && IfElse(ctx, g, flowIndex, br, fuel).Ok?
    ensures fuel > 0 && TestAt(ctx.insts, flowIndex).Ok?
    ensures
      var c := g.config;
      var cons := Collect(ctx, Fresh(Config(br.tru.target, false, c.whileCondBlock, c.doWhileCondBlock)), fuel - 1);
      var p := IfElse(ctx, g, flowIndex, br, fuel).value;
      var s := p.gen.queue[|g.queue|];
      && cons.Ok? && s.cond == TestAt(ctx.insts, flowIndex).value && s.thenBlock == cons.value.stmts
      && (s.elseBlock.NoElse? <==> cons.value.last.lastReturn)
      && (cons.value.last.lastReturn ==> p.gen.chained == Some(Config(br.fals.target, false, c.whileCondBlock, c.doWhileCondBlock)))
      && (!cons.value.last.lastReturn ==> p.gen.chained == g.chained)
  {
  }

  /** After the `if`, the generator chains on to the block recorded as following it,
   *  keeping the enclosing loop blocks. */
  lemma AfterIfChains(ctx: Ctx, g: Gen, fuel: nat)
    requires ValidCtx(ctx) && g.stage == AfterIf && g.afterIfNode.Some?
    ensures Populate(ctx, g, fuel) == Ok(Populated(g.(
      chained := Some(Config(g.afterIfNode.value, false, g.config.whileCondBlock, g.config.doWhileCondBlock)),
      stage := ProcessingDone), true))
  {
  }

  /** A block with one out-edge chains on to its target; a block with none ends the
   *  generator. */
  lemma SingleSuccessorChains(ctx: Ctx, g: Gen, fuel: nat)
    requires ValidCtx(ctx) && g.stage == IfCheck && LastIndex(ctx.cfg, g.config.node).Ok?
    requires |Outgoing(ctx.cfg.edges, g.config.node)| < 2
    ensures |Outgoing(ctx.cfg.edges, g.config.node)| == 1 ==> Populate(ctx, g, fuel) == Ok(Populated(g.(
      chained := Some(Config(Outgoing(ctx.cfg.edges, g.config.node)[0].target, false, g.config.whileCondBlock, g.config.doWhileCondBlock)),
      stage := ProcessingDone), true))
    ensures Outgoing(ctx.cfg.edges, g.config.node) == [] ==>
      Populate(ctx, g, fuel) == Ok(Populated(g.(stage := ProcessingDone), true))
  {
  }
}
