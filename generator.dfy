// The `AstGenerator` of generate_ast.rs as the mutable object it is: a statement queue
// and a stage that `populate_next_stage` advances, a chained generator that `next`
// turns into, and nested generators for loop bodies and `if` branches. Every method
// is proved to do what the matching function of module GenerateAst says.

module Generator {
  import opened Wrappers
  import opened Ast
  import V93
  import FileReader
  import opened FunctionReader
  import opened Graphs
  import SimpleInstructions
  import InsideWhile
  import opened GenerateAst
  import opened Searches

  /** The context of a generator over `cfg` and `insts` of file `f`. */
  ghost function Context(f: FileReader.BytecodeFile, cfg: Cfg, insts: seq<InstructionInfo>, drainOnStop: bool): (ctx: Ctx)
    ensures ctx.cfg == cfg && ctx.insts == insts && ctx.drainOnStop == drainOnStop
  {
    Ctx(cfg, insts, seq(|cfg.blocks|, k requires 0 <= k < |cfg.blocks| => SimpleInstructions.NodeStmts(f, cfg, k, insts)), drainOnStop)
  }

  /** The context holds what `simple_instructions_to_ast` makes of every block. */
  lemma ContextTranslated(f: FileReader.BytecodeFile, cfg: Cfg, insts: seq<InstructionInfo>, drainOnStop: bool)
    ensures Translated(Context(f, cfg, insts, drainOnStop), f)
  {
  }

  /** A populate step's outcome as the method reports it, with the state it leaves. */
  function PopulateOutcome(r: Result<bool>, g: Gen): Result<Populated>
  {
    if r.Ok? then Ok(Populated(g, r.value)) else Err(r.msg)
  }

  function NextOutcome(r: Result<Option<Stmt>>, g: Gen): Result<Stepped>
  {
    if r.Ok? then Ok(Stepped(g, r.value)) else Err(r.msg)
  }

  function CollectOutcome(r: Result<seq<Stmt>>, g: Gen): Result<Collected>
  {
    if r.Ok? then Ok(Collected(r.value, g)) else Err(r.msg)
  }

  class AstGenerator {
    const f: FileReader.BytecodeFile
    const cfg: Cfg
    const insts: seq<InstructionInfo>
    /** Whether `next` yields what a stopping stage has queued (the corrected `next`). */
    const drainOnStop: bool
    ghost const ctx: Ctx

    var queue: seq<Stmt>
    var node: nat
    var isDoWhileFirstBlock: bool
    var whileCondBlock: Option<nat>
    var doWhileCondBlock: Option<nat>
    var afterIfNode: Option<nat>
    var stage: Stage
    var chained: Option<Config>
    var lastReturn: bool

    ghost predicate Valid()
    {
      ctx == Context(f, cfg, insts, drainOnStop) && ValidCtx(ctx)
    }

    function State(): Gen
      reads this
    {
      Gen(queue, Config(node, isDoWhileFirstBlock, whileCondBlock, doWhileCondBlock), afterIfNode, stage, chained, lastReturn)
    }

    /** `AstGenerator::new`. */
    constructor (f: FileReader.BytecodeFile, cfg: Cfg, insts: seq<InstructionInfo>, drainOnStop: bool, c: Config)
      requires ValidGraph(BlockGraph(cfg))
      ensures Valid() && State() == Fresh(c)
      ensures this.f == f && this.cfg == cfg && this.insts == insts && this.drainOnStop == drainOnStop
    {
      this.f := f;
      this.cfg := cfg;
      this.insts := insts;
      this.drainOnStop := drainOnStop;
      ctx := Context(f, cfg, insts, drainOnStop);
      queue := [];
      node := c.node;
      isDoWhileFirstBlock := c.isDoWhileFirstBlock;
      whileCondBlock := c.whileCondBlock;
      doWhileCondBlock := c.doWhileCondBlock;
      afterIfNode := None;
      stage := BeginProcessBlock;
      chained := None;
      lastReturn := false;
    }

    /** `Iterator::next`. */
    method Next(fuel: nat) returns (r: Result<Option<Stmt>>)
      requires Valid()
      modifies this
      ensures GenerateAst.Next(ctx, old(State()), fuel) == NextOutcome(r, State())
      decreases fuel, 4
    {
      if queue != [] {
        r := Pop();
        return;
      }
      if fuel == 0 {
        return Err(OUT_OF_FUEL);
      }
      var more := PopulateNextStage(fuel - 1);
      if more.Err? {
        return Err(more.msg);
      }
      if more.value || (drainOnStop && queue != []) {
        r := Next(fuel - 1);
      } else if chained.Some? {
        SwitchTo(chained.value);
        r := Next(fuel - 1);
      } else {
        r := Ok(None);
      }
    }

    /** The front of the queue, noting whether it is a `return` or a `throw`. */
    method Pop() returns (r: Result<Option<Stmt>>)
      requires queue != []
      modifies this
      ensures r == Ok(Some(old(queue)[0]))
      ensures State() == old(State()).(queue := old(queue)[1..], lastReturn := old(lastReturn) || IsReturnOrThrow(old(queue)[0]))
    {
      var item := queue[0];
      queue := queue[1..];
      if item.Return? || item.Throw? {
        lastReturn := true;
      }
      r := Ok(Some(item));
    }

    /** `*self = chained.new()`: the generator starts over on the chained configuration. */
    method SwitchTo(c: Config)
      modifies this
      ensures State() == Fresh(c)
    {
      queue, node, isDoWhileFirstBlock, whileCondBlock, doWhileCondBlock := [], c.node, c.isDoWhileFirstBlock, c.whileCondBlock, c.doWhileCondBlock;
      afterIfNode, stage, chained, lastReturn := None, BeginProcessBlock, None, false;
    }

    /** A nested `AstGenerator` on `c`, collected to the end: the statements it yields and
     *  whether it last yielded a `return` or a `throw`. */
    method CollectNested(c: Config, fuel: nat) returns (r: Result<seq<Stmt>>, endsInReturn: bool)
      requires Valid()
      ensures r == StmtsOf(GenerateAst.Collect(ctx, Fresh(c), fuel))
      ensures r.Ok? ==> endsInReturn == GenerateAst.Collect(ctx, Fresh(c), fuel).value.last.lastReturn
      decreases fuel, 6
    {
      var nested := new AstGenerator(f, cfg, insts, drainOnStop, c);
      r := nested.Collect(fuel);
      endsInReturn := nested.lastReturn;
    }

    /** `collect`: `next` until it yields nothing. */
    method Collect(fuel: nat) returns (r: Result<seq<Stmt>>)
      requires Valid()
      modifies this
      ensures GenerateAst.Collect(ctx, old(State()), fuel) == CollectOutcome(r, State())
      decreases fuel, 5
    {
      var stmts: seq<Stmt> := [];
      var k: nat := fuel;
      ghost var whole := GenerateAst.Collect(ctx, State(), fuel);
      if whole.Ok? {
        assert [] + whole.value.stmts == whole.value.stmts;
      }
      while true
        invariant k <= fuel
        invariant GenerateAst.Collect(ctx, old(State()), fuel) == Prefixed(stmts, GenerateAst.Collect(ctx, State(), k))
        decreases k
      {
        var item := Next(k);
        if item.Err? {
          return Err(item.msg);
        }
        if item.value.None? {
          assert stmts + [] == stmts;
          return Ok(stmts);
        }
        if k == 0 {
          return Err(OUT_OF_FUEL);
        }
        ghost var rest := GenerateAst.Collect(ctx, State(), k - 1);
        if rest.Ok? {
          assert stmts + ([item.value.value] + rest.value.stmts) == (stmts + [item.value.value]) + rest.value.stmts;
        }
        stmts := stmts + [item.value.value];
        k := k - 1;
      }
    }

    /** `populate_next_stage`. */
    method PopulateNextStage(fuel: nat) returns (r: Result<bool>)
      requires Valid()
      modifies this
      ensures Populate(ctx, old(State()), fuel) == PopulateOutcome(r, State())
      decreases fuel, 3
    {
      match stage {
        case BeginProcessBlock =>
          r := BeginStage();
        case LoopCheck =>
          r := LoopCheckStep(fuel);
        case IfCheck =>
          r := IfCheckStep(fuel);
        case AfterIf =>
          if afterIfNode.Some? {
            chained := Some(Config(afterIfNode.value, false, whileCondBlock, doWhileCondBlock));
          }
          stage := ProcessingDone;
          r := Ok(true);
        case ProcessingDone =>
          r := Ok(false);
      }
    }

    method BeginStage() returns (r: Result<bool>)
      requires Valid() && stage == BeginProcessBlock
      modifies this
      ensures Begin(ctx, old(State())) == PopulateOutcome(r, State())
    {
      if whileCondBlock == Some(node) {
        queue := queue + [Continue];
        stage := ProcessingDone;
        return Ok(false);
      }
      var stmts := SimpleInstructions.SimpleInstructionsToAst(f, cfg, node, insts);
      ContextTranslated(f, cfg, insts, drainOnStop);
      assert stmts == NodeStmts(ctx, node);
      if stmts.Err? {
        return Err(stmts.msg);
      }
      queue := queue + stmts.value;
      if doWhileCondBlock == Some(node) {
        stage := ProcessingDone;
        return Ok(false);
      }
      stage := LoopCheck;
      r := Ok(true);
    }

    method LoopCheckStep(fuel: nat) returns (r: Result<bool>)
      requires Valid() && stage == LoopCheck
      modifies this
      ensures LoopCheckStage(ctx, old(State()), fuel) == PopulateOutcome(r, State())
      decreases fuel, 2
    {
      if node >= |cfg.blocks| || cfg.blocks[node] == [] {
        return Err(UNWRAP_NONE);
      }
      var incoming := Incoming(cfg.edges, node);
      if !isDoWhileFirstBlock && |incoming| >= 2 {
        var lc := FindLoopCondition(BlockGraph(cfg), node, Sources(incoming));
        if lc.Some? {
          r := LoopAt(lc.value, fuel);
          return;
        }
      }
      stage := IfCheck;
      r := Ok(true);
    }

    /** The loop at this block, with condition block `lc`. */
    method LoopAt(lc: nat, fuel: nat) returns (r: Result<bool>)
      requires Valid() && stage == LoopCheck && lc < |cfg.blocks| && node < |cfg.blocks| && cfg.blocks[node] != []
      modifies this
      ensures Loop(ctx, old(State()), lc, fuel) == PopulateOutcome(r, State())
      decreases fuel, 1
    {
      if cfg.blocks[lc] == [] {
        return Err(UNWRAP_NONE);
      }
      var condIndex := Last(cfg.blocks[lc]);
      if condIndex >= |insts| {
        return Err(FileReader.INDEX_OUT_OF_BOUNDS);
      }
      var skip := insts[condIndex].instruction.op == V93.Jmp;
      var index := if skip then Last(cfg.blocks[node]) else condIndex;
      var loopCond := if skip then node else lc;
      var cond := TestAt(insts, index);
      if cond.Err? {
        return Err(cond.msg);
      }
      var br := SplitBranches(Outgoing(cfg.edges, loopCond));
      if br.Err? {
        return Err(br.msg);
      }
      assert LoopTest(ctx, node, lc) == Ok(LoopGuard(cond.value, br.value));
      if br.value.tru.target == node {
        r := DoWhileAt(lc, cond.value, br.value, fuel);
      } else {
        r := WhileAt(cond.value, br.value, fuel);
      }
    }

    method DoWhileAt(lc: nat, cond: Expr, br: Branches, fuel: nat) returns (r: Result<bool>)
      requires Valid() && stage == LoopCheck
      modifies this
      ensures DoWhileLoop(ctx, old(State()), lc, cond, br, fuel) == PopulateOutcome(r, State())
      decreases fuel, 0
    {
      if fuel == 0 {
        return Err(OUT_OF_FUEL);
      }
      var stmts, _ := CollectNested(Config(node, true, None, Some(lc)), fuel - 1);
      if stmts.Err? {
        return Err(stmts.msg);
      }
      queue := queue + [DoWhile(Paren(cond), stmts.value)];
      chained := Some(Config(br.fals.target, false, None, None));
      stage := ProcessingDone;
      r := Ok(true);
    }

    method WhileAt(cond: Expr, br: Branches, fuel: nat) returns (r: Result<bool>)
      requires Valid() && stage == LoopCheck && node < |cfg.blocks|
      modifies this
      ensures WhileLoop(ctx, old(State()), cond, br, fuel) == PopulateOutcome(r, State())
      decreases fuel, 0
    {
      if fuel == 0 {
        return Err(OUT_OF_FUEL);
      }
      var stmts, _ := CollectNested(Config(br.fals.target, false, Some(node), doWhileCondBlock), fuel - 1);
      if stmts.Err? {
        return Err(stmts.msg);
      }
      var inner := stmts.value;
      if |cfg.blocks[node]| > 1 {
        var added := InsideWhile.AddInsideWhile(inner, queue);
        if added.Err? {
          return Err(added.msg);
        }
        inner := added.value;
      }
      queue := queue + [While(Unary(Bang, Paren(cond)), inner)];
      chained := Some(Config(br.tru.target, false, None, doWhileCondBlock));
      stage := ProcessingDone;
      r := Ok(true);
    }

    method IfCheckStep(fuel: nat) returns (r: Result<bool>)
      requires Valid() && stage == IfCheck
      modifies this
      ensures IfCheckStage(ctx, old(State()), fuel) == PopulateOutcome(r, State())
      decreases fuel, 2
    {
      if node >= |cfg.blocks| || cfg.blocks[node] == [] {
        return Err(UNWRAP_NONE);
      }
      var flowIndex := Last(cfg.blocks[node]);
      var out := Outgoing(cfg.edges, node);
      if |out| == 2 {
        r := IfAt(flowIndex, out, fuel);
      } else if |out| == 1 {
        chained := Some(Config(out[0].target, false, whileCondBlock, doWhileCondBlock));
        stage := ProcessingDone;
        r := Ok(true);
      } else {
        stage := ProcessingDone;
        r := Ok(true);
      }
    }

    /** The `if` of a block with two out-edges. */
    method IfAt(flowIndex: nat, out: seq<Edge>, fuel: nat) returns (r: Result<bool>)
      requires Valid() && stage == IfCheck && forall e :: e in out ==> e in cfg.edges
      modifies this
      ensures IfStmt(ctx, old(State()), flowIndex, out, fuel) == PopulateOutcome(r, State())
      decreases fuel, 1
    {
      var br := SplitBranches(out);
      if br.Err? {
        return Err(br.msg);
      }
      var tru, fals := br.value.tru, br.value.fals;
      EdgeInGraph(BlockGraph(cfg), tru);
      EdgeInGraph(BlockGraph(cfg), fals);
      var skipElseFalse := SearchReaches(BlockGraph(cfg), fals.target, tru.target);
      var skipElseTrue := false;
      if !skipElseFalse {
        skipElseTrue := SearchReaches(BlockGraph(cfg), tru.target, fals.target);
      }
      if skipElseFalse {
        r := IfThenAt(flowIndex, tru.target, fals.target, false, fuel);
      } else if skipElseTrue {
        r := IfThenAt(flowIndex, fals.target, tru.target, true, fuel);
      } else {
        r := IfElseAt(flowIndex, br.value, fuel);
      }
    }

    method IfThenAt(flowIndex: nat, thenNode: nat, afterNode: nat, negate: bool, fuel: nat) returns (r: Result<bool>)
      requires Valid() && stage == IfCheck
      modifies this
      ensures IfThen(ctx, old(State()), flowIndex, thenNode, afterNode, negate, fuel) == PopulateOutcome(r, State())
      decreases fuel, 0
    {
      if fuel == 0 {
        return Err(OUT_OF_FUEL);
      }
      var test := TestAt(insts, flowIndex);
      if test.Err? {
        return Err(test.msg);
      }
      var stmts, _ := CollectNested(Config(thenNode, false, whileCondBlock, doWhileCondBlock), fuel - 1);
      if stmts.Err? {
        return Err(stmts.msg);
      }
      r := Defer(If(Negation(test.value, negate), stmts.value, NoElse), afterNode);
    }

    method IfElseAt(flowIndex: nat, br: Branches, fuel: nat) returns (r: Result<bool>)
      requires Valid() && stage == IfCheck
      modifies this
      ensures IfElse(ctx, old(State()), flowIndex, br, fuel) == PopulateOutcome(r, State())
      decreases fuel, 0
    {
      if fuel == 0 {
        return Err(OUT_OF_FUEL);
      }
      var cons, consReturns := CollectNested(Config(br.tru.target, false, whileCondBlock, doWhileCondBlock), fuel - 1);
      if cons.Err? {
        return Err(cons.msg);
      }
      var test := TestAt(insts, flowIndex);
      if test.Err? {
        return Err(test.msg);
      }
      if consReturns {
        r := Finish(If(test.value, cons.value, NoElse), Config(br.fals.target, false, whileCondBlock, doWhileCondBlock));
      } else {
        r := ElseAt(test.value, cons.value, br, fuel - 1);
      }
    }

    /** Queue the statement `st` and chain a generator on `next`: the stages are over. */
    method Finish(st: Stmt, next: Config) returns (r: Result<bool>)
      modifies this
      ensures r == Ok(true)
      ensures State() == old(State()).(queue := old(queue) + [st], chained := Some(next), stage := ProcessingDone)
    {
      queue := queue + [st];
      chained := Some(next);
      stage := ProcessingDone;
      r := Ok(true);
    }

    /** Queue the `if` statement `st` and remember the block `after` that follows it. */
    method Defer(st: Stmt, after: nat) returns (r: Result<bool>)
      modifies this
      ensures r == Ok(true)
      ensures State() == old(State()).(queue := old(queue) + [st], afterIfNode := Some(after), stage := AfterIf)
    {
      queue := queue + [st];
      afterIfNode := Some(after);
      stage := AfterIf;
      r := Ok(true);
    }

    /** The `else` branch of `IfElseAt`: collect the alternate and queue the full `if`. */
    method ElseAt(test: Expr, cons: seq<Stmt>, br: Branches, fuel: nat) returns (r: Result<bool>)
      requires Valid()
      modifies this
      ensures
        var alt := GenerateAst.Collect(ctx, Fresh(Config(br.fals.target, false, old(whileCondBlock), old(doWhileCondBlock))), fuel);
        && (alt.Err? ==> r == Err(alt.msg))
        && (alt.Ok? ==>
              r == Ok(true) && State() == old(State()).(queue := old(queue) + [If(test, cons, ElseBlock(alt.value.stmts))], stage := ProcessingDone))
      decreases fuel, 7
    {
      var alt, _ := CollectNested(Config(br.fals.target, false, whileCondBlock, doWhileCondBlock), fuel);
      if alt.Err? {
        return Err(alt.msg);
      }
      queue := queue + [If(test, cons, ElseBlock(alt.value))];
      stage := ProcessingDone;
      r := Ok(true);
    }
  }

  /** The statements of a finished `collect`. */
  function StmtsOf(c: Result<Collected>): Result<seq<Stmt>>
  {
    if c.Ok? then Ok(c.value.stmts) else Err(c.msg)
  }

  /** The statements already yielded ahead of what the rest of `collect` returns. */
  function Prefixed(stmts: seq<Stmt>, rest: Result<Collected>): Result<Collected>
  {
    if rest.Ok? then Ok(Collected(stmts + rest.value.stmts, rest.value.last)) else rest
  }
}
