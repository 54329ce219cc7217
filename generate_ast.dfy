// The statement generator of generate_ast.rs: `AstGenerator` walks the block graph
// from a block and yields JavaScript statements, turning a block that jumps back to
// the block being processed into a `while` or `do..while` loop and a block with two
// successors into an `if`, and chaining on to the block that follows.

module GenerateAst {
  import opened Wrappers
  import opened Ast
  import V93
  import FileReader
  import opened FunctionReader
  import opened Graphs
  import SimpleInstructions
  import JumpTest
  import InsideWhile
  import opened Traversals

  /** Running out of fuel stands for a generation that does not end (the recursion of
   *  the source would exhaust the stack); the source has no such error. */
  const OUT_OF_FUEL := "fuel exhausted"

  datatype Stage = BeginProcessBlock | LoopCheck | IfCheck | AfterIf | ProcessingDone

  /** The stages in the order `populate_next_stage` moves through them. */
  function Rank(s: Stage): nat
  {
    match s
    case BeginProcessBlock => 0
    case LoopCheck => 1
    case IfCheck => 2
    case AfterIf => 3
    case ProcessingDone => 4
  }

  /** The arguments of `AstGenerator::new` besides the shared file, graph and
   *  instructions. */
  datatype Config = Config(node: nat, isDoWhileFirstBlock: bool, whileCondBlock: Option<nat>, doWhileCondBlock: Option<nat>)

  /** The state of an `AstGenerator`. A chained iterator is always a fresh generator
   *  when it is stored, so it is kept as its configuration. */
  datatype Gen = Gen(
    queue: seq<Stmt>,
    config: Config,
    afterIfNode: Option<nat>,
    stage: Stage,
    chained: Option<Config>,
    lastReturn: bool)

  /** What every generator of one function shares: the block graph, the instructions
   *  and what `simple_instructions_to_ast` makes of each block, as `Translated` ties it
   *  to the file. `drainOnStop` chooses between `next` as written (false) and the
   *  corrected `next` (true), which yields what a stopping stage has queued. */
  datatype Ctx = Ctx(cfg: Cfg, insts: seq<InstructionInfo>, translated: seq<Result<seq<Stmt>>>, drainOnStop: bool)

  predicate Translated(ctx: Ctx, f: FileReader.BytecodeFile)
  {
    && |ctx.translated| == |ctx.cfg.blocks|
    && forall k :: 0 <= k < |ctx.translated| ==>
         ctx.translated[k] == SimpleInstructions.NodeStmts(f, ctx.cfg, k, ctx.insts)
  }

  /** `simple_instructions_to_ast(.., node, ..)`. */
  function NodeStmts(ctx: Ctx, node: nat): Result<seq<Stmt>>
  {
    if node < |ctx.translated| then ctx.translated[node] else Err(UNWRAP_NONE)
  }

  function BlockGraph(cfg: Cfg): Graph
  {
    Graph(|cfg.blocks|, cfg.edges)
  }

  /** The block graph is a petgraph `Graph`: every edge joins two of its nodes. */
  predicate ValidCtx(ctx: Ctx)
  {
    ValidGraph(BlockGraph(ctx.cfg))
  }

  /** `AstGenerator::new`. */
  function Fresh(c: Config): Gen
  {
    Gen([], c, None, BeginProcessBlock, None, false)
  }

  /** The result of `populate_next_stage`: the new state and whether to go on. */
  datatype Populated = Populated(gen: Gen, more: bool)

  /** The result of `next`: the new state and the statement yielded, if any. */
  datatype Stepped = Stepped(gen: Gen, item: Option<Stmt>)

  /** The result of `collect`: the statements and the generator's final state. */
  datatype Collected = Collected(stmts: seq<Stmt>, last: Gen)

  // ----- The graph queries -----

  /** `edges_directed(v, Outgoing)`: `v`'s out-edges, newest first. */
  function Outgoing(es: seq<Edge>, v: nat): (r: seq<Edge>)
    ensures forall e :: e in r ==> e.source == v && e in es
  {
    if es == [] then []
    else (if es[|es| - 1].source == v then [es[|es| - 1]] else []) + Outgoing(es[..|es| - 1], v)
  }

  function Targets(es: seq<Edge>): (r: seq<nat>)
    ensures |r| == |es| && forall k :: 0 <= k < |es| ==> r[k] == es[k].target
  {
    if es == [] then [] else [es[0].target] + Targets(es[1..])
  }

  function Sources(es: seq<Edge>): (r: seq<nat>)
    ensures |r| == |es| && forall k :: 0 <= k < |es| ==> r[k] == es[k].source
  {
    if es == [] then [] else [es[0].source] + Sources(es[1..])
  }

  /** The out-edges lead, in the same order, to the nodes `neighbors` lists. */
  lemma {:induction false} OutgoingTargets(es: seq<Edge>, v: nat)
    ensures Targets(Outgoing(es, v)) == Neighbors(es, v)
    decreases |es|
  {
    if es != [] {
      OutgoingTargets(es[..|es| - 1], v);
    }
  }

  lemma EdgeInGraph(g: Graph, e: Edge)
    requires ValidGraph(g) && e in g.edges
    ensures e.source < g.nodeCount && e.target < g.nodeCount
  {
    var k :| 0 <= k < |g.edges| && g.edges[k] == e;
  }

  /** The edge the `for edge in &outgoing_edges` loop keeps for weight `w`: the last
   *  one met with that weight. */
  function LastWeighted(out: seq<Edge>, w: bool): (r: Option<Edge>)
    ensures r.Some? ==> r.value in out && r.value.weight == w
    ensures r.None? <==> forall e :: e in out ==> e.weight != w
  {
    if out == [] then None
    else if out[|out| - 1].weight == w then Some(out[|out| - 1])
    else
      var r := LastWeighted(out[..|out| - 1], w);
      assert forall e :: e in out ==> e in out[..|out| - 1] || e == out[|out| - 1];
      r
  }

  datatype Branches = Branches(tru: Edge, fals: Edge)

  /** The `(tru.unwrap(), fals.unwrap())` of a block's out-edges. */
  function BranchesOf(out: seq<Edge>): (r: Result<Branches>)
    ensures r.Ok? <==> (exists e :: e in out && e.weight) && (exists e :: e in out && !e.weight)
    ensures r.Ok? ==> r.value.tru in out && r.value.tru.weight && r.value.fals in out && !r.value.fals.weight
    ensures r.Err? ==> r.msg == UNWRAP_NONE
  {
    match LastWeighted(out, true)
    case None => Err(UNWRAP_NONE)
    case Some(t) =>
      match LastWeighted(out, false)
      case None => Err(UNWRAP_NONE)
      case Some(f) => Ok(Branches(t, f))
  }

  /** The nodes the depth-first walk from node 0 reaches without passing `node`; the
   *  loop search marks them discovered and finished before it starts. */
  function Premarked(g: Graph, node: nat): set<nat>
    requires ValidGraph(g) && node < g.nodeCount
  {
    Elems(DfsFrom(g, [0], {node}))
  }

  /** The loop search of the `LoopCheck` stage: the first node of the post-order walk
   *  from `node` that is the source of an edge into `node`. */
  function LoopCondition(g: Graph, node: nat, sources: seq<nat>): (r: Option<nat>)
    requires ValidGraph(g) && node < g.nodeCount
    ensures r.Some? ==> r.value in sources && r.value < g.nodeCount && r.value !in Premarked(g, node)
  {
    var pre := Premarked(g, node);
    FirstOf(g, PostState([node], pre, pre), sources)
  }

  /** The block found closes a cycle through `node`: it is a source of an edge into
   *  `node` and lies in every closed set holding `node`, so `node` reaches it. */
  lemma LoopConditionOnCycle(g: Graph, node: nat, sources: seq<nat>, c: set<nat>)
    requires ValidGraph(g) && node < g.nodeCount && node in c && Closed(g, c)
    ensures LoopCondition(g, node, sources).Some? ==> LoopCondition(g, node, sources).value in c
  {
    var pre := Premarked(g, node);
    FirstOfStaysIn(g, PostState([node], pre, pre), sources, c);
  }

  // ----- The pieces of a block -----

  /** `node_weight(node).unwrap().last().unwrap()`: the index of the block's last
   *  instruction. */
  function LastIndex(cfg: Cfg, node: nat): (r: Result<nat>)
    ensures r.Ok? <==> node < |cfg.blocks| && cfg.blocks[node] != []
    ensures r.Ok? ==> r.value == Last(cfg.blocks[node])
    ensures r.Err? ==> r.msg == UNWRAP_NONE
  {
    if node >= |cfg.blocks| || cfg.blocks[node] == [] then Err(UNWRAP_NONE)
    else Ok(Last(cfg.blocks[node]))
  }

  /** `jump_inst_to_test(&self.instructions[index].instruction)`. */
  function TestAt(insts: seq<InstructionInfo>, index: nat): (r: Result<Expr>)
    ensures r.Ok? <==> index < |insts| && IsConditionalJump(insts[index].instruction.op)
  {
    if index >= |insts| then Err(FileReader.INDEX_OUT_OF_BOUNDS)
    else JumpTest.Test(insts[index].instruction)
  }

  // ----- What populate_next_stage and next do -----

  /** What every step of `populate_next_stage` keeps: the configuration and the flag,
   *  the queue only grows at its end, and a stage other than the last one moves on. */
  predicate Advances(g: Gen, p: Populated)
  {
    && p.gen.config == g.config
    && p.gen.lastReturn == g.lastReturn
    && g.queue <= p.gen.queue
    && (g.stage != ProcessingDone ==> Rank(p.gen.stage) > Rank(g.stage))
    && (!p.more ==> p.gen.stage == ProcessingDone)
  }

  /** A stage that queues exactly one statement behind the queue it was given, keeping
   *  the configuration and the flag, and lets the generator go on. */
  predicate PushesOne(g: Gen, p: Populated)
  {
    && p.more
    && p.gen.config == g.config
    && p.gen.lastReturn == g.lastReturn
    && |p.gen.queue| == |g.queue| + 1
    && g.queue <= p.gen.queue
  }

  /** What both kinds of loop leave: one statement queued, a generator chained for the
   *  code after the loop, the stages ended and the pending `if` end kept. */
  predicate LoopDone(g: Gen, p: Populated)
  {
    && PushesOne(g, p)
    && p.gen.stage == ProcessingDone
    && p.gen.chained.Some?
    && p.gen.afterIfNode == g.afterIfNode
  }

  /** The statement a loop queues is either a `while` or a `do..while`. */
  predicate OneLoop(g: Gen, p: Populated)
  {
    |g.queue| < |p.gen.queue| && p.gen.queue[|g.queue|].While? != p.gen.queue[|g.queue|].DoWhile?
  }

  /** The `BeginProcessBlock` stage: a jump back to the enclosing `while` header
   *  queues a `continue`; otherwise the block's statements are queued, and at the
   *  condition block of the enclosing `do..while` the generator stops there. */
  function Begin(ctx: Ctx, g: Gen): (r: Result<Populated>)
    requires g.stage == BeginProcessBlock
    ensures r.Ok? ==> Advances(g, r.value)
  {
    var c := g.config;
    if c.whileCondBlock == Some(c.node) then
      Ok(Populated(g.(queue := g.queue + [Continue], stage := ProcessingDone), false))
    else
      var stmts :- NodeStmts(ctx, c.node);
      if c.doWhileCondBlock == Some(c.node) then
        Ok(Populated(g.(queue := g.queue + stmts, stage := ProcessingDone), false))
      else
        Ok(Populated(g.(queue := g.queue + stmts, stage := LoopCheck), true))
  }

  /** The `LoopCheck` stage: a block entered by at least two edges (and not the first
   *  block of a `do..while` body) is a loop header when the post-order walk from it
   *  meets one of its predecessors. */
  function LoopCheckStage(ctx: Ctx, g: Gen, fuel: nat): (r: Result<Populated>)
    requires ValidCtx(ctx) && g.stage == LoopCheck
    ensures r.Ok? ==> Advances(g, r.value) && r.value.more
    decreases fuel, 3
  {
    var header :- LoopHeader(ctx, g.config);
    if header.None? then Ok(Populated(g.(stage := IfCheck), true))
    else Loop(ctx, g, header.value, fuel)
  }

  /** The test of the `LoopCheck` stage: `None` when the block is not a loop header,
   *  otherwise the loop-condition block the search found. */
  function LoopHeader(ctx: Ctx, c: Config): (r: Result<Option<nat>>)
    requires ValidCtx(ctx)
    ensures r.Ok? <==> c.node < |ctx.cfg.blocks| && ctx.cfg.blocks[c.node] != []
    ensures r.Ok? && (c.isDoWhileFirstBlock || |Incoming(ctx.cfg.edges, c.node)| < 2) ==> r.value.None?
    ensures r.Ok? && r.value.Some? ==>
      r.value.value < |ctx.cfg.blocks| && r.value.value in Sources(Incoming(ctx.cfg.edges, c.node))
  {
    var flowIndex :- LastIndex(ctx.cfg, c.node);
    var incoming := Incoming(ctx.cfg.edges, c.node);
    if c.isDoWhileFirstBlock || |incoming| < 2 then Ok(None)
    else Ok(LoopCondition(BlockGraph(ctx.cfg), c.node, Sources(incoming)))
  }

  /** Queuing one statement and moving to a later stage is a step that advances. */
  lemma PushesOneAdvances(g: Gen, r: Result<Populated>)
    requires r.Ok? ==> PushesOne(g, r.value) && Rank(r.value.gen.stage) > Rank(g.stage)
    ensures r.Ok? ==> Advances(g, r.value) && r.value.more
  {
  }

  /** A loop found at the header `g.config.node` with loop-condition block `lc`. If the
   *  condition block ends with `Jmp`, the header's own jump is the test; if the true
   *  edge of the testing block goes back to the header the loop is a `do..while`,
   *  otherwise a `while` whose body starts at the false edge. */
  function Loop(ctx: Ctx, g: Gen, lc: nat, fuel: nat): (r: Result<Populated>)
    requires ValidCtx(ctx) && g.stage == LoopCheck && lc < |ctx.cfg.blocks|
    requires g.config.node < |ctx.cfg.blocks| && ctx.cfg.blocks[g.config.node] != []
    ensures r.Ok? ==> Advances(g, r.value) && r.value.more && LoopDone(g, r.value) && OneLoop(g, r.value)
    decreases fuel, 2
  {
    var t :- LoopTest(ctx, g.config.node, lc);
    LoopOf(ctx, g, lc, t, fuel)
  }

  /** The statement of the loop once its test is known. */
  function LoopOf(ctx: Ctx, g: Gen, lc: nat, t: LoopGuard, fuel: nat): (r: Result<Populated>)
    requires ValidCtx(ctx) && g.stage == LoopCheck && g.config.node < |ctx.cfg.blocks|
    ensures r.Ok? ==> Advances(g, r.value) && r.value.more && LoopDone(g, r.value) && OneLoop(g, r.value)
    decreases fuel, 1
  {
    var r := if t.br.tru.target == g.config.node then DoWhileLoop(ctx, g, lc, t.cond, t.br, fuel)
      else WhileLoop(ctx, g, t.cond, t.br, fuel);
    PushesOneAdvances(g, r);
    r
  }

  datatype LoopGuard = LoopGuard(cond: Expr, br: Branches)

  /** The test of the loop at `node` with condition block `lc` and the branches of the
   *  block that tests it: the condition block, unless it ends with `Jmp` (then the
   *  header itself). */
  function LoopTest(ctx: Ctx, node: nat, lc: nat): (r: Result<LoopGuard>)
    requires node < |ctx.cfg.blocks| && ctx.cfg.blocks[node] != []
    ensures r.Ok? ==> lc < |ctx.cfg.blocks| && ctx.cfg.blocks[lc] != []
    ensures r.Ok? ==>
      || (TestAt(ctx.insts, Last(ctx.cfg.blocks[node])) == Ok(r.value.cond) && BranchesOf(Outgoing(ctx.cfg.edges, node)) == Ok(r.value.br))
      || (TestAt(ctx.insts, Last(ctx.cfg.blocks[lc])) == Ok(r.value.cond) && BranchesOf(Outgoing(ctx.cfg.edges, lc)) == Ok(r.value.br))
  {
    var condIndex :- LastIndex(ctx.cfg, lc);
    if condIndex >= |ctx.insts| then Err(FileReader.INDEX_OUT_OF_BOUNDS)
    else
      var skip := ctx.insts[condIndex].instruction.op == V93.Jmp;
      var index := if skip then Last(ctx.cfg.blocks[node]) else condIndex;
      var loopCond := if skip then node else lc;
      var cond :- TestAt(ctx.insts, index);
      var br :- BranchesOf(Outgoing(ctx.cfg.edges, loopCond));
      Ok(LoopGuard(cond, br))
  }

  /** The `do..while` of a loop whose testing block jumps back to the header when the
   *  test holds: the body runs from the header (as a first block, so that the loop is
   *  not found again) to the condition block `lc`, and the false edge follows it. */
  function DoWhileLoop(ctx: Ctx, g: Gen, lc: nat, cond: Expr, br: Branches, fuel: nat): (r: Result<Populated>)
    requires ValidCtx(ctx) && g.stage == LoopCheck
    ensures r.Ok? ==> LoopDone(g, r.value)
    ensures r.Ok? ==> r.value.gen.queue[|g.queue|].DoWhile?
    decreases fuel, 0
  {
    if fuel == 0 then Err(OUT_OF_FUEL)
    else
      var body :- Collect(ctx, Fresh(Config(g.config.node, true, None, Some(lc))), fuel - 1);
      Ok(Populated(g.(queue := g.queue + [DoWhile(Paren(cond), body.stmts)],
                      chained := Some(Config(br.fals.target, false, None, None)), stage := ProcessingDone), true))
  }

  /** The `while (!(cond))` of any other loop: the body runs from the false target with
   *  the header as the block a jump back to which is a `continue`, and the true target
   *  follows. When the header holds more than one instruction, the statements queued
   *  for it go before every `continue` of the body. */
  function WhileLoop(ctx: Ctx, g: Gen, cond: Expr, br: Branches, fuel: nat): (r: Result<Populated>)
    requires ValidCtx(ctx) && g.stage == LoopCheck
    requires g.config.node < |ctx.cfg.blocks|
    ensures r.Ok? ==> LoopDone(g, r.value)
    ensures r.Ok? ==> r.value.gen.queue[|g.queue|].While?
    decreases fuel, 0
  {
    var c := g.config;
    if fuel == 0 then Err(OUT_OF_FUEL)
    else
      var body :- Collect(ctx, Fresh(Config(br.fals.target, false, Some(c.node), c.doWhileCondBlock)), fuel - 1);
      var stmts :- if |ctx.cfg.blocks[c.node]| > 1 then InsideWhile.AddInside(body.stmts, g.queue) else Ok(body.stmts);
      Ok(Populated(g.(queue := g.queue + [While(Unary(Bang, Paren(cond)), stmts)],
                      chained := Some(Config(br.tru.target, false, None, c.doWhileCondBlock)), stage := ProcessingDone), true))
  }

  /** The `IfCheck` stage: two out-edges make an `if`, one out-edge chains on to its
   *  target, none ends the generator. */
  function IfCheckStage(ctx: Ctx, g: Gen, fuel: nat): (r: Result<Populated>)
    requires ValidCtx(ctx) && g.stage == IfCheck
    ensures r.Ok? ==> Advances(g, r.value) && r.value.more
    decreases fuel, 2
  {
    var c := g.config;
    var flowIndex :- LastIndex(ctx.cfg, c.node);
    var out := Outgoing(ctx.cfg.edges, c.node);
    if |out| == 2 then IfStmt(ctx, g, flowIndex, out, fuel)
    else if |out| == 1 then
      Ok(Populated(g.(chained := Some(Config(out[0].target, false, c.whileCondBlock, c.doWhileCondBlock)),
                      stage := ProcessingDone), true))
    else Ok(Populated(g.(stage := ProcessingDone), true))
  }

  /** The `if` of a block with two out-edges. When the false target reaches the true
   *  target, the `if` holds the true side and the false target follows it; when the
   *  true target reaches the false one, the test is negated and the sides swap;
   *  otherwise `IfElse` decides. */
  function IfStmt(ctx: Ctx, g: Gen, flowIndex: nat, out: seq<Edge>, fuel: nat): (r: Result<Populated>)
    requires ValidCtx(ctx) && g.stage == IfCheck
    requires forall e :: e in out ==> e in ctx.cfg.edges
    ensures r.Ok? ==> Advances(g, r.value) && r.value.more
    ensures r.Ok? ==> |r.value.gen.queue| == |g.queue| + 1 && r.value.gen.queue[|g.queue|].If?
    decreases fuel, 1
  {
    var br :- BranchesOf(out);
    var bg := BlockGraph(ctx.cfg);
    EdgeInGraph(bg, br.tru);
    EdgeInGraph(bg, br.fals);
    if Reaches(bg, br.fals.target, br.tru.target) then IfThen(ctx, g, flowIndex, br.tru.target, br.fals.target, false, fuel)
    else if Reaches(bg, br.tru.target, br.fals.target) then IfThen(ctx, g, flowIndex, br.fals.target, br.tru.target, true, fuel)
    else IfElse(ctx, g, flowIndex, br, fuel)
  }

  /** The test `!(test)` when `negate`, else `test` itself. */
  function Negation(test: Expr, negate: bool): Expr
  {
    if negate then Unary(Bang, Paren(test)) else test
  }

  /** An `if` without `else` whose `then` block runs from `thenNode`, its test negated
   *  when `negate`; the generator goes on at `afterNode` once the `if` is yielded. */
  function IfThen(ctx: Ctx, g: Gen, flowIndex: nat, thenNode: nat, afterNode: nat, negate: bool, fuel: nat): (r: Result<Populated>)
    requires ValidCtx(ctx) && g.stage == IfCheck
    ensures r.Ok? ==> PushesOne(g, r.value) && r.value.gen.stage == AfterIf && r.value.gen.afterIfNode == Some(afterNode)
    ensures r.Ok? ==> r.value.gen.chained == g.chained && r.value.gen.queue[|g.queue|].If?
    decreases fuel, 0
  {
    var c := g.config;
    if fuel == 0 then Err(OUT_OF_FUEL)
    else
      var test :- TestAt(ctx.insts, flowIndex);
      var cons :- Collect(ctx, Fresh(Config(thenNode, false, c.whileCondBlock, c.doWhileCondBlock)), fuel - 1);
      Ok(Populated(g.(queue := g.queue + [If(Negation(test, negate), cons.stmts, NoElse)], afterIfNode := Some(afterNode), stage := AfterIf), true))
  }

  /** Neither side reaches the other: the true side is the `then` block, and the false
   *  side follows the `if` when the true side ended with `return` or `throw`, or else
   *  becomes its `else` block. */
  function IfElse(ctx: Ctx, g: Gen, flowIndex: nat, br: Branches, fuel: nat): (r: Result<Populated>)
    requires ValidCtx(ctx) && g.stage == IfCheck
    ensures r.Ok? ==> PushesOne(g, r.value) && r.value.gen.stage == ProcessingDone && r.value.gen.afterIfNode == g.afterIfNode
    ensures r.Ok? ==> r.value.gen.queue[|g.queue|].If?
    decreases fuel, 0
  {
    var c := g.config;
    if fuel == 0 then Err(OUT_OF_FUEL)
    else
      var cons :- Collect(ctx, Fresh(Config(br.tru.target, false, c.whileCondBlock, c.doWhileCondBlock)), fuel - 1);
      var test :- TestAt(ctx.insts, flowIndex);
      if cons.last.lastReturn then
        Ok(Populated(g.(queue := g.queue + [If(test, cons.stmts, NoElse)],
                        chained := Some(Config(br.fals.target, false, c.whileCondBlock, c.doWhileCondBlock)), stage := ProcessingDone), true))
      else
        var alt :- Collect(ctx, Fresh(Config(br.fals.target, false, c.whileCondBlock, c.doWhileCondBlock)), fuel - 1);
        Ok(Populated(g.(queue := g.queue + [If(test, cons.stmts, ElseBlock(alt.stmts))], stage := ProcessingDone), true))
  }

  /** The `AfterIf` stage: chain on to the block after the `if`. */
  function AfterIfStage(g: Gen): (r: Populated)
    requires g.stage == AfterIf
    ensures Advances(g, r) && r.more
  {
    var c := g.config;
    var chained := if g.afterIfNode.Some? then Some(Config(g.afterIfNode.value, false, c.whileCondBlock, c.doWhileCondBlock))
                   else g.chained;
    Populated(g.(chained := chained, stage := ProcessingDone), true)
  }

  /** `populate_next_stage`. */
  function Populate(ctx: Ctx, g: Gen, fuel: nat): (r: Result<Populated>)
    requires ValidCtx(ctx)
    ensures r.Ok? ==> Advances(g, r.value)
    ensures g.stage == ProcessingDone ==> r == Ok(Populated(g, false))
    decreases fuel, 4
  {
    match g.stage
    case BeginProcessBlock => Begin(ctx, g)
    case LoopCheck => LoopCheckStage(ctx, g, fuel)
    case IfCheck => IfCheckStage(ctx, g, fuel)
    case AfterIf => Ok(AfterIfStage(g))
    case ProcessingDone => Ok(Populated(g, false))
  }

  /** `next`: the front of the queue; on an empty queue the next stage, and once the
   *  stages are done the chained generator, which replaces this one entirely. */
  function Next(ctx: Ctx, g: Gen, fuel: nat): (r: Result<Stepped>)
    requires ValidCtx(ctx)
    ensures r.Ok? && r.value.item.None? ==> r.value.gen.stage == ProcessingDone && r.value.gen.chained.None?
    ensures r.Ok? && r.value.gen.lastReturn ==> g.lastReturn || (r.value.item.Some? && IsReturnOrThrow(r.value.item.value))
    decreases fuel, 5
  {
    if g.queue != [] then
      Ok(Stepped(g.(queue := g.queue[1..], lastReturn := g.lastReturn || IsReturnOrThrow(g.queue[0])), Some(g.queue[0])))
    else if fuel == 0 then Err(OUT_OF_FUEL)
    else
      var p :- Populate(ctx, g, fuel - 1);
      if p.more || (ctx.drainOnStop && p.gen.queue != []) then Next(ctx, p.gen, fuel - 1)
      else if p.gen.chained.Some? then Next(ctx, Fresh(p.gen.chained.value), fuel - 1)
      else Ok(Stepped(p.gen, None))
  }

  /** `collect`: `next` until it yields nothing. */
  function Collect(ctx: Ctx, g: Gen, fuel: nat): (r: Result<Collected>)
    requires ValidCtx(ctx)
    ensures r.Ok? ==> r.value.last.stage == ProcessingDone && r.value.last.chained.None?
    ensures r.Ok? && r.value.last.lastReturn ==>
      g.lastReturn || exists k :: 0 <= k < |r.value.stmts| && IsReturnOrThrow(r.value.stmts[k])
    decreases fuel, 6
  {
    var s :- Next(ctx, g, fuel);
    match s.item
    case None => Ok(Collected([], s.gen))
    case Some(x) =>
      if fuel == 0 then Err(OUT_OF_FUEL)
      else
        var rest :- Collect(ctx, s.gen, fuel - 1);
        var all := [x] + rest.stmts;
        assert all[0] == x;
        assert forall k :: 0 <= k < |rest.stmts| ==> all[k + 1] == rest.stmts[k];
        Ok(Collected(all, rest.last))
  }
}
