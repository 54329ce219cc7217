/** `graphs.rs`: the instruction-level flow graph, the jump target search, and the
 *  basic-block graph built by a depth-first walk of the flow graph.
 *
 *  A petgraph `Graph<N, bool>` is modelled by its node count and its edges in
 *  insertion order; petgraph lists a node's outgoing and incoming edges newest
 *  first, and so do `Neighbors` and `Incoming` here. */
module Graphs {
  import opened Wrappers
  import opened V93
  import FileReader
  import opened FunctionReader

  const UNWRAP_NONE := "called `Option::unwrap()` on a `None` value"

  /** An edge of a petgraph graph: its endpoints and its weight. */
  datatype Edge = Edge(source: nat, target: nat, weight: bool)

  /** A petgraph `Graph` with unit node weights: the nodes are `0 .. nodeCount`. */
  datatype Graph = Graph(nodeCount: nat, edges: seq<Edge>)

  /** petgraph refuses an edge whose endpoints are not nodes. */
  predicate ValidGraph(g: Graph)
  {
    forall k :: 0 <= k < |g.edges| ==> g.edges[k].source < g.nodeCount && g.edges[k].target < g.nodeCount
  }

  // ----- Jump targets -----

  predicate IsUnconditionalJump(op: Opcode)
  {
    op == Jmp || op == JmpLong
  }

  /** The jumps `construct_flow_graph` gives a `true` edge: `JmpTrue` to
   *  `JmpUndefinedLong` and `JLess` to `JStrictNotEqualLong`. `SaveGenerator`, declared
   *  between them, is not one of them. */
  predicate IsConditionalJump(op: Opcode)
  {
    (JmpTrue <= op <= JmpUndefinedLong) || (JLess <= op <= JStrictNotEqualLong)
  }

  predicate IsI32(v: int)
  {
    -0x8000_0000 <= v < 0x8000_0000
  }

  /** What the `Instruction` type guarantees of a decoded instruction: every jump's
   *  first operand is its `i8` or `i32` relative offset. */
  predicate HasRelativeOffset(i: Instruction)
  {
    (IsUnconditionalJump(i.op) || IsConditionalJump(i.op)) ==>
      |i.operands| >= 1 && i.operands[0].Int? && IsI32(i.operands[0].v)
  }

  /** A disassembled function: `u32` offsets and typed jumps. */
  predicate Typed(insts: seq<InstructionInfo>)
  {
    forall k :: 0 <= k < |insts| ==> insts[k].offset < FileReader.U32_LIMIT && HasRelativeOffset(insts[k].instruction)
  }

  /** `relative_offset`, widened to `i32` for the short forms. */
  function RelativeOffset(i: Instruction): int
    requires HasRelativeOffset(i) && (IsUnconditionalJump(i.op) || IsConditionalJump(i.op))
  {
    i.operands[0].v
  }

  /** `offset.wrapping_add_signed(relative_offset)` on the `u32` offset. */
  function EndOffset(insts: seq<InstructionInfo>, cur: nat, rel: int): nat
    requires cur < |insts|
  {
    (insts[cur].offset + rel) % FileReader.U32_LIMIT
  }

  /** The first instruction at or after `j` whose offset is `end`. */
  function ScanUp(insts: seq<InstructionInfo>, j: nat, end: nat): (r: Option<nat>)
    ensures r.Some? ==> (j <= r.value < |insts| && insts[r.value].offset == end
      && forall k :: j <= k < r.value ==> insts[k].offset != end)
    ensures r.None? ==> forall k :: j <= k < |insts| ==> insts[k].offset != end
    decreases |insts| - j
  {
    if j >= |insts| then None
    else if insts[j].offset == end then Some(j)
    else ScanUp(insts, j + 1, end)
  }

  /** The last instruction at or before `j` whose offset is `end`. */
  function ScanDown(insts: seq<InstructionInfo>, j: nat, end: nat): (r: Option<nat>)
    requires j < |insts|
    ensures r.Some? ==> (r.value <= j && insts[r.value].offset == end
      && forall k :: r.value < k <= j ==> insts[k].offset != end)
    ensures r.None? ==> forall k :: 0 <= k <= j ==> insts[k].offset != end
    decreases j
  {
    if insts[j].offset == end then Some(j)
    else if j == 0 then None
    else ScanDown(insts, j - 1, end)
  }

  /** `get_instruction_by_offset` as written: it checks the current index, stops at
   *  index 0 whatever the direction, and otherwise steps by the sign of the offset. */
  function TargetAsWritten(insts: seq<InstructionInfo>, cur: nat, rel: int): (r: Option<nat>)
    requires cur < |insts|
    ensures r.Some? ==> r.value < |insts| && insts[r.value].offset == EndOffset(insts, cur, rel)
    ensures r.None? && cur > 0 && rel < 0 ==> forall k :: 0 <= k <= cur ==> insts[k].offset != EndOffset(insts, cur, rel)
    ensures r.None? && cur > 0 && rel >= 0 ==> forall k :: cur <= k < |insts| ==> insts[k].offset != EndOffset(insts, cur, rel)
  {
    var end := EndOffset(insts, cur, rel);
    if insts[cur].offset == end then Some(cur)
    else if cur == 0 then None
    else if rel < 0 then ScanDown(insts, cur - 1, end)
    else ScanUp(insts, cur + 1, end)
  }

  /** The jump target search as intended: the nearest instruction at the target
   *  offset in the direction of the jump, the current one included. */
  function Target(insts: seq<InstructionInfo>, cur: nat, rel: int): (r: Option<nat>)
    requires cur < |insts|
    ensures var end := EndOffset(insts, cur, rel);
      && (r.Some? ==> r.value < |insts| && insts[r.value].offset == end)
      && (rel >= 0 && r.Some? ==> cur <= r.value && forall k :: cur <= k < r.value ==> insts[k].offset != end)
      && (rel < 0 && r.Some? ==> r.value <= cur && forall k :: r.value < k <= cur ==> insts[k].offset != end)
      && (rel >= 0 && r.None? ==> forall k :: cur <= k < |insts| ==> insts[k].offset != end)
      && (rel < 0 && r.None? ==> forall k :: 0 <= k <= cur ==> insts[k].offset != end)
  {
    var end := EndOffset(insts, cur, rel);
    if rel < 0 then ScanDown(insts, cur, end) else ScanUp(insts, cur, end)
  }

  /** The code as written agrees with the intended search except for a forward jump
   *  from the first instruction, which it never resolves. */
  lemma TargetAsWrittenDiffers(insts: seq<InstructionInfo>, cur: nat, rel: int)
    requires cur < |insts| && insts[cur].offset < FileReader.U32_LIMIT && IsI32(rel)
    ensures !(cur == 0 && rel > 0) ==> TargetAsWritten(insts, cur, rel) == Target(insts, cur, rel)
    ensures cur == 0 && rel > 0 ==> TargetAsWritten(insts, cur, rel) == None
  {
    var o := insts[cur].offset;
    if rel >= 0 {
      assert o + rel < 2 * FileReader.U32_LIMIT;
      if o + rel >= FileReader.U32_LIMIT {
        assert EndOffset(insts, cur, rel) == o + rel - FileReader.U32_LIMIT;
      } else {
        assert EndOffset(insts, cur, rel) == o + rel;
      }
    }
  }

  /** Three instructions at offsets 0, 2 and 4, the first a `Jmp` of 4 bytes: the
   *  code as written finds no target, the intended search finds the third one. */
  lemma ForwardJumpFromFirstInstruction()
    ensures var insts := [
        InstructionInfo(0, Instruction(Jmp, [Int(4)])),
        InstructionInfo(2, Instruction(Jmp, [Int(2)])),
        InstructionInfo(4, Instruction(Ret, [Int(0)]))];
      TargetAsWritten(insts, 0, 4) == None && Target(insts, 0, 4) == Some(2)
  {
    var insts := [
        InstructionInfo(0, Instruction(Jmp, [Int(4)])),
        InstructionInfo(2, Instruction(Jmp, [Int(2)])),
        InstructionInfo(4, Instruction(Ret, [Int(0)]))];
    assert EndOffset(insts, 0, 4) == 4;
    assert ScanUp(insts, 2, 4) == Some(2);
    assert ScanUp(insts, 1, 4) == Some(2);
  }

  /** `get_instruction_by_offset`, as written. */
  method GetInstructionByOffset(insts: seq<InstructionInfo>, cur: nat, rel: int) returns (r: Option<nat>)
    requires cur < |insts| && insts[cur].offset < FileReader.U32_LIMIT
    ensures r == TargetAsWritten(insts, cur, rel)
  {
    var end := EndOffset(insts, cur, rel);
    var idx: nat := cur;
    while idx < |insts|
      invariant idx != cur ==> 0 < cur && insts[cur].offset != end && rel != 0
      invariant rel < 0 && idx != cur ==> idx < cur && ScanDown(insts, cur - 1, end) == ScanDown(insts, idx, end)
      invariant rel > 0 && idx != cur ==> cur < idx && ScanUp(insts, cur + 1, end) == ScanUp(insts, idx, end)
      decreases if rel < 0 then idx else |insts| - idx
    {
      if insts[idx].offset == end {
        return Some(idx);
      }
      if idx == 0 {
        break;
      }
      idx := if rel < 0 then idx - 1 else idx + 1;
    }
    r := None;
  }

  /** The search with the stop at index 0 applied only when moving backwards. */
  method FindInstructionByOffset(insts: seq<InstructionInfo>, cur: nat, rel: int) returns (r: Option<nat>)
    requires cur < |insts|
    ensures r == Target(insts, cur, rel)
  {
    var end := EndOffset(insts, cur, rel);
    var idx: nat := cur;
    while idx < |insts|
      invariant rel < 0 ==> idx <= cur && ScanDown(insts, cur, end) == ScanDown(insts, idx, end)
      invariant rel >= 0 ==> cur <= idx && ScanUp(insts, cur, end) == ScanUp(insts, idx, end)
      decreases if rel < 0 then idx else |insts| - idx
    {
      if insts[idx].offset == end {
        return Some(idx);
      }
      if rel < 0 {
        if idx == 0 {
          break;
        }
        idx := idx - 1;
      } else {
        idx := idx + 1;
      }
    }
    r := None;
  }

  /** Which jump target search the flow graph is built with: `get_instruction_by_offset`
   *  as written, or the intended search. */
  datatype Search = AsWritten | Intended

  /** The target the chosen search finds: an instruction at the jump's end offset. */
  function Resolve(s: Search, insts: seq<InstructionInfo>, cur: nat, rel: int): (r: Option<nat>)
    requires cur < |insts|
    ensures r.Some? ==> r.value < |insts| && insts[r.value].offset == EndOffset(insts, cur, rel)
  {
    if s.AsWritten? then TargetAsWritten(insts, cur, rel) else Target(insts, cur, rel)
  }

  /** The call to the search loop that `s` names. */
  method ResolveTarget(s: Search, insts: seq<InstructionInfo>, cur: nat, rel: int) returns (r: Option<nat>)
    requires cur < |insts| && insts[cur].offset < FileReader.U32_LIMIT
    ensures r == Resolve(s, insts, cur, rel)
  {
    if s.AsWritten? {
      r := GetInstructionByOffset(insts, cur, rel);
    } else {
      r := FindInstructionByOffset(insts, cur, rel);
    }
  }

  // ----- Flow graph -----

  /** The `false` edge to the next instruction, when there is one. */
  function FallThrough(insts: seq<InstructionInfo>, i: nat): (r: seq<Edge>)
    ensures |r| <= 1 && (|r| == 1 <==> i + 1 < |insts|)
    ensures forall e :: e in r ==> e == Edge(i, i + 1, false)
  {
    if i + 1 < |insts| then [Edge(i, i + 1, false)] else []
  }

  /** Instruction `i` is no jump, or the search finds its target. */
  predicate Resolves(s: Search, insts: seq<InstructionInfo>, i: nat)
    requires Typed(insts) && i < |insts|
  {
    var inst := insts[i].instruction;
    (IsUnconditionalJump(inst.op) || IsConditionalJump(inst.op)) ==> Resolve(s, insts, i, RelativeOffset(inst)).Some?
  }

  /** The edges `construct_flow_graph` adds for instruction `i`, in order; a jump whose
   *  target is not found is the failed `unwrap`. */
  function InstructionEdges(insts: seq<InstructionInfo>, i: nat, s: Search): (r: Result<seq<Edge>>)
    requires Typed(insts) && i < |insts|
    ensures var inst := insts[i].instruction;
      && (r.Ok? <==> Resolves(s, insts, i))
      && (r.Ok? ==> forall e :: e in r.value ==> e.source == i && e.target < |insts|)
      && (r.Ok? && (inst.op == Ret || inst.op == Throw) ==> r.value == [])
      && (r.Ok? && IsUnconditionalJump(inst.op) ==>
            |r.value| == 1 && !r.value[0].weight
            && insts[r.value[0].target].offset == EndOffset(insts, i, RelativeOffset(inst)))
      && (r.Ok? && IsConditionalJump(inst.op) ==>
            |r.value| >= 1 && r.value[0].weight
            && insts[r.value[0].target].offset == EndOffset(insts, i, RelativeOffset(inst))
            && r.value[1..] == FallThrough(insts, i))
      && ((r.Ok? && !IsUnconditionalJump(inst.op) && !IsConditionalJump(inst.op) && inst.op != Ret && inst.op != Throw) ==>
            r.value == FallThrough(insts, i))
  {
    var inst := insts[i].instruction;
    if IsUnconditionalJump(inst.op) then
      var t := Resolve(s, insts, i, RelativeOffset(inst));
      if t.None? then Err(UNWRAP_NONE) else Ok([Edge(i, t.value, false)])
    else if IsConditionalJump(inst.op) then
      var t := Resolve(s, insts, i, RelativeOffset(inst));
      if t.None? then Err(UNWRAP_NONE) else Ok([Edge(i, t.value, true)] + FallThrough(insts, i))
    else if inst.op == Ret || inst.op == Throw then Ok([])
    else Ok(FallThrough(insts, i))
  }

  /** The edges added for the first `n` instructions. */
  function FlowEdges(insts: seq<InstructionInfo>, n: nat, s: Search): Result<seq<Edge>>
    requires Typed(insts) && n <= |insts|
  {
    if n == 0 then Ok([])
    else
      var es :- FlowEdges(insts, n - 1, s);
      var e :- InstructionEdges(insts, n - 1, s);
      Ok(es + e)
  }

  /** One more instruction adds its own edges behind those of the ones before it. */
  lemma FlowEdgesNext(insts: seq<InstructionInfo>, s: Search, i: nat, edges: seq<Edge>)
    requires Typed(insts) && i < |insts| && FlowEdges(insts, i, s) == Ok(edges)
    ensures FlowEdges(insts, i + 1, s) == (var e :- InstructionEdges(insts, i, s); Ok(edges + e))
  {
  }

  /** `construct_flow_graph`: one node per instruction. */
  function FlowGraph(insts: seq<InstructionInfo>, s: Search): Result<Graph>
    requires Typed(insts)
  {
    var es :- FlowEdges(insts, |insts|, s);
    Ok(Graph(|insts|, es))
  }

  /** Once an instruction's jump fails to resolve, so does the whole graph. */
  lemma {:induction false} FlowEdgesErr(insts: seq<InstructionInfo>, s: Search, k: nat, n: nat)
    requires Typed(insts) && k <= n <= |insts| && FlowEdges(insts, k, s).Err?
    ensures FlowEdges(insts, n, s) == Err(FlowEdges(insts, k, s).msg)
    decreases n
  {
    if n > k {
      FlowEdgesErr(insts, s, k, n - 1);
    }
  }

  /** `construct_flow_graph`, loop for loop. */
  method ConstructFlowGraph(insts: seq<InstructionInfo>, s: Search) returns (r: Result<Graph>)
    requires Typed(insts)
    ensures r == FlowGraph(insts, s)
  {
    var edges: seq<Edge> := [];
    var i := 0;
    while i < |insts|
      invariant i <= |insts| && FlowEdges(insts, i, s) == Ok(edges)
    {
      var added := AddInstructionEdges(insts, s, i, edges);
      FlowEdgesNext(insts, s, i, edges);
      if added.Err? {
        FlowEdgesErr(insts, s, i + 1, |insts|);
        return Err(added.msg);
      }
      edges := added.value;
      i := i + 1;
    }
    r := Ok(Graph(|insts|, edges));
  }

  /** One arm of the `match` in `construct_flow_graph`: the edges of instruction `i`
   *  pushed after `edges`. */
  method AddInstructionEdges(insts: seq<InstructionInfo>, s: Search, i: nat, edges: seq<Edge>) returns (r: Result<seq<Edge>>)
    requires Typed(insts) && i < |insts|
    ensures r == (var e :- InstructionEdges(insts, i, s); Ok(edges + e))
  {
    var inst := insts[i].instruction;
    r := Ok(edges);
    if IsUnconditionalJump(inst.op) || IsConditionalJump(inst.op) {
      var t := ResolveTarget(s, insts, i, RelativeOffset(inst));
      if t.None? {
        return Err(UNWRAP_NONE);
      }
      var jump := Edge(i, t.value, IsConditionalJump(inst.op));
      r := Ok(r.value + [jump]);
      if IsConditionalJump(inst.op) && i < |insts| - 1 {
        r := Ok(r.value + [Edge(i, i + 1, false)]);
      }
      assert IsConditionalJump(inst.op) ==> InstructionEdges(insts, i, s) == Ok([jump] + FallThrough(insts, i));
      assert r.value == edges + (if IsConditionalJump(inst.op) then [jump] + FallThrough(insts, i) else [jump]);
    } else if inst.op == Ret || inst.op == Throw {
      assert edges + [] == edges;
    } else if i < |insts| - 1 {
      r := Ok(r.value + [Edge(i, i + 1, false)]);
    } else {
      assert edges + FallThrough(insts, i) == edges;
    }
  }

  /** The edges leaving `v`, oldest first. */
  function EdgesFrom(es: seq<Edge>, v: nat): (r: seq<Edge>)
    ensures |r| <= |es| && forall e :: e in r ==> e.source == v
  {
    if es == [] then []
    else EdgesFrom(es[..|es| - 1], v) + (if es[|es| - 1].source == v then [es[|es| - 1]] else [])
  }

  lemma {:induction false} EdgesFromAppend(a: seq<Edge>, b: seq<Edge>, v: nat)
    ensures EdgesFrom(a + b, v) == EdgesFrom(a, v) + EdgesFrom(b, v)
    decreases |b|
  {
    if b == [] {
      assert a + b == a;
    } else {
      var b' := b[..|b| - 1];
      assert (a + b)[..|a + b| - 1] == a + b';
      EdgesFromAppend(a, b', v);
    }
  }

  lemma {:induction false} EdgesFromNone(es: seq<Edge>, v: nat)
    requires forall e :: e in es ==> e.source != v
    ensures EdgesFrom(es, v) == []
    decreases |es|
  {
    if es != [] {
      EdgesFromNone(es[..|es| - 1], v);
    }
  }

  /** Every flow edge leaves one of the first `n` instructions and enters a node. */
  lemma {:induction false} FlowEdgesBound(insts: seq<InstructionInfo>, n: nat, s: Search)
    requires Typed(insts) && n <= |insts| && FlowEdges(insts, n, s).Ok?
    ensures forall e :: e in FlowEdges(insts, n, s).value ==> e.source < n && e.target < |insts|
    decreases n
  {
    if n > 0 {
      FlowEdgesBound(insts, n - 1, s);
      var es := FlowEdges(insts, n - 1, s).value;
      var e := InstructionEdges(insts, n - 1, s).value;
      assert FlowEdges(insts, n, s).value == es + e;
    }
  }

  /** The flow edges leaving instruction `i` are exactly the ones its own arm adds. */
  lemma {:induction false} FlowEdgesFrom(insts: seq<InstructionInfo>, s: Search, n: nat, i: nat)
    requires Typed(insts) && n <= |insts| && FlowEdges(insts, n, s).Ok?
    ensures forall e :: e in FlowEdges(insts, n, s).value ==> e.source < n && e.target < |insts|
    ensures i < n ==> InstructionEdges(insts, i, s).Ok? && EdgesFrom(FlowEdges(insts, n, s).value, i) == InstructionEdges(insts, i, s).value
    ensures i >= n ==> EdgesFrom(FlowEdges(insts, n, s).value, i) == []
    decreases n
  {
    FlowEdgesBound(insts, n, s);
    if n > 0 {
      FlowEdgesFrom(insts, s, n - 1, i);
      var es := FlowEdges(insts, n - 1, s).value;
      var e := InstructionEdges(insts, n - 1, s).value;
      assert FlowEdges(insts, n, s).value == es + e;
      EdgesFromSplit(es, e, i, n - 1);
    }
  }

  /** Behind edges that all leave nodes below `m`, the edges of node `m` are the only
   *  ones leaving `m` and leave the rest unchanged. */
  lemma EdgesFromSplit(es: seq<Edge>, e: seq<Edge>, i: nat, m: nat)
    requires forall x :: x in es ==> x.source < m
    requires forall x :: x in e ==> x.source == m
    ensures EdgesFrom(es + e, i) == if i == m then e else EdgesFrom(es, i)
  {
    EdgesFromAppend(es, e, i);
    if i == m {
      EdgesFromNone(es, i);
      EdgesFromAll(e, i);
    } else {
      EdgesFromNone(e, i);
    }
  }

  lemma {:induction false} EdgesFromAll(es: seq<Edge>, v: nat)
    requires forall e :: e in es ==> e.source == v
    ensures EdgesFrom(es, v) == es
    decreases |es|
  {
    if es != [] {
      EdgesFromAll(es[..|es| - 1], v);
    }
  }

  /** The flow graph exists exactly when every jump resolves; it has a node per
   *  instruction, its edges join nodes, and each node's out-edges are its own arm's. */
  lemma FlowGraphShape(insts: seq<InstructionInfo>, s: Search)
    requires Typed(insts)
    ensures FlowGraph(insts, s).Ok? <==> forall i :: 0 <= i < |insts| ==> Resolves(s, insts, i)
    ensures FlowGraph(insts, s).Err? ==> FlowGraph(insts, s) == Err(UNWRAP_NONE)
    ensures FlowGraph(insts, s).Ok? ==> var g := FlowGraph(insts, s).value;
      && g.nodeCount == |insts| && ValidGraph(g)
      && forall i :: 0 <= i < |insts| ==> EdgesFrom(g.edges, i) == InstructionEdges(insts, i, s).value
  {
    FlowEdgesOk(insts, |insts|, s);
    FlowEdgesErrMsg(insts, |insts|, s);
    if FlowGraph(insts, s).Ok? {
      var g := FlowGraph(insts, s).value;
      forall i | 0 <= i < |insts|
        ensures EdgesFrom(g.edges, i) == InstructionEdges(insts, i, s).value
      {
        FlowEdgesFrom(insts, s, |insts|, i);
      }
      FlowEdgesFrom(insts, s, |insts|, 0);
      forall k | 0 <= k < |g.edges|
        ensures g.edges[k].source < g.nodeCount && g.edges[k].target < g.nodeCount
      {
        assert g.edges[k] in g.edges;
      }
    }
  }

  lemma {:induction false} FlowEdgesOk(insts: seq<InstructionInfo>, n: nat, s: Search)
    requires Typed(insts) && n <= |insts|
    ensures FlowEdges(insts, n, s).Ok? <==> forall i :: 0 <= i < n ==> Resolves(s, insts, i)
    decreases n
  {
    if n > 0 {
      FlowEdgesOk(insts, n - 1, s);
    }
  }

  /** The only failure while adding edges is the unresolved jump's `unwrap`. */
  lemma {:induction false} FlowEdgesErrMsg(insts: seq<InstructionInfo>, n: nat, s: Search)
    requires Typed(insts) && n <= |insts|
    ensures FlowEdges(insts, n, s).Err? ==> FlowEdges(insts, n, s) == Err(UNWRAP_NONE)
    decreases n
  {
    if n > 0 {
      FlowEdgesErrMsg(insts, n - 1, s);
    }
  }

  /** The forward jump out of instruction 0 above: the graph as written fails on it,
   *  while the intended search joins both jumps to the return. */
  lemma ForwardJumpFlowGraph()
    ensures var insts := [
        InstructionInfo(0, Instruction(Jmp, [Int(4)])),
        InstructionInfo(2, Instruction(Jmp, [Int(2)])),
        InstructionInfo(4, Instruction(Ret, [Int(0)]))];
      && Typed(insts)
      && FlowGraph(insts, AsWritten) == Err(UNWRAP_NONE)
      && FlowGraph(insts, Intended) == Ok(Graph(3, [Edge(0, 2, false), Edge(1, 2, false)]))
  {
    var insts := [
        InstructionInfo(0, Instruction(Jmp, [Int(4)])),
        InstructionInfo(2, Instruction(Jmp, [Int(2)])),
        InstructionInfo(4, Instruction(Ret, [Int(0)]))];
    ForwardJumpFromFirstInstruction();
    assert Typed(insts);
    assert InstructionEdges(insts, 0, AsWritten) == Err(UNWRAP_NONE);
    assert FlowEdges(insts, 1, AsWritten) == Err(UNWRAP_NONE);
    FlowEdgesErr(insts, AsWritten, 1, 3);
    assert InstructionEdges(insts, 0, Intended) == Ok([Edge(0, 2, false)]);
    assert ScanUp(insts, 1, 4) == Some(2);
    assert InstructionEdges(insts, 1, Intended) == Ok([Edge(1, 2, false)]);
    assert InstructionEdges(insts, 2, Intended) == Ok([]);
    FlowEdgesNext(insts, Intended, 0, []);
    assert FlowEdges(insts, 1, Intended) == Ok([] + [Edge(0, 2, false)]);
    assert [] + [Edge(0, 2, false)] == [Edge(0, 2, false)];
    FlowEdgesNext(insts, Intended, 1, [Edge(0, 2, false)]);
    assert [Edge(0, 2, false)] + [Edge(1, 2, false)] == [Edge(0, 2, false), Edge(1, 2, false)];
    FlowEdgesNext(insts, Intended, 2, [Edge(0, 2, false), Edge(1, 2, false)]);
    assert [Edge(0, 2, false), Edge(1, 2, false)] + [] == [Edge(0, 2, false), Edge(1, 2, false)];
  }

  // ----- petgraph adjacency and depth-first search -----

  /** `neighbors(v)`: the targets of `v`'s out-edges, newest edge first. */
  function Neighbors(es: seq<Edge>, v: nat): (r: seq<nat>)
  {
    if es == [] then []
    else (if es[|es| - 1].source == v then [es[|es| - 1].target] else []) + Neighbors(es[..|es| - 1], v)
  }

  /** `edges_directed(v, Incoming)`: `v`'s in-edges, newest first. */
  function Incoming(es: seq<Edge>, v: nat): (r: seq<Edge>)
    ensures forall e :: e in r ==> e.target == v
  {
    if es == [] then []
    else (if es[|es| - 1].target == v then [es[|es| - 1]] else []) + Incoming(es[..|es| - 1], v)
  }

  function OutCount(g: Graph, v: nat): nat
  {
    |Neighbors(g.edges, v)|
  }

  function InCount(g: Graph, v: nat): nat
  {
    |Incoming(g.edges, v)|
  }

  lemma {:induction false} NeighborsBound(es: seq<Edge>, n: nat, v: nat)
    requires forall k :: 0 <= k < |es| ==> es[k].target < n
    ensures forall x :: x in Neighbors(es, v) ==> x < n
    decreases |es|
  {
    if es != [] {
      NeighborsBound(es[..|es| - 1], n, v);
    }
  }

  predicate InRange(stack: seq<nat>, n: nat)
  {
    forall k :: 0 <= k < |stack| ==> stack[k] < n
  }

  function Range(n: nat): (r: set<nat>)
    ensures forall k: nat :: k in r <==> k < n
  {
    if n == 0 then {} else Range(n - 1) + {n - 1}
  }

  function Elems(s: seq<nat>): set<nat>
  {
    set x | x in s
  }

  /** The stack once discovered nodes are popped off its top. */
  function Pop(stack: seq<nat>, discovered: set<nat>): (r: seq<nat>)
    ensures |r| <= |stack| && r == stack[..|r|]
    ensures r != [] ==> r[|r| - 1] !in discovered
    ensures forall k :: |r| <= k < |stack| ==> stack[k] in discovered
  {
    if stack == [] then []
    else if stack[|stack| - 1] !in discovered then stack
    else Pop(stack[..|stack| - 1], discovered)
  }

  /** What is left after popping is a part of the stack, so still nodes of the graph. */
  lemma PopInRange(stack: seq<nat>, discovered: set<nat>, n: nat)
    requires InRange(stack, n)
    ensures var s := Pop(stack, discovered);
      && (s == [] <==> forall k :: 0 <= k < |stack| ==> stack[k] in discovered)
      && (s != [] ==> s[|s| - 1] < n && InRange(s[..|s| - 1], n))
  {
    var s := Pop(stack, discovered);
    if s != [] {
      assert s[|s| - 1] == stack[|s| - 1];
      var t := s[..|s| - 1];
      forall k | 0 <= k < |t|
        ensures t[k] < n
      {
        assert t[k] == stack[k];
      }
    }
  }

  /** The stack once the undiscovered nodes of `ns` are pushed, in order. */
  function Pushed(stack: seq<nat>, ns: seq<nat>, discovered: set<nat>): (r: seq<nat>)
    ensures |stack| <= |r| && r[..|stack|] == stack
    ensures forall k :: |stack| <= k < |r| ==> r[k] in ns && r[k] !in discovered
    ensures forall x :: x in ns ==> x in discovered || x in r
  {
    if ns == [] then stack
    else
      var s := Pushed(stack, ns[..|ns| - 1], discovered);
      assert forall x :: x in ns[..|ns| - 1] ==> x in ns;
      if ns[|ns| - 1] !in discovered then s + [ns[|ns| - 1]] else s
  }

  /** Pushing nodes of the graph keeps every stack entry a node of the graph. */
  lemma PushedInRange(stack: seq<nat>, ns: seq<nat>, discovered: set<nat>, n: nat)
    requires InRange(stack, n) && forall x :: x in ns ==> x < n
    ensures InRange(Pushed(stack, ns, discovered), n)
  {
    var r := Pushed(stack, ns, discovered);
    forall k | 0 <= k < |r|
      ensures r[k] < n
    {
      if k < |stack| {
        assert r[k] == r[..|stack|][k];
      }
    }
  }

  /** The state of a `Dfs` after `next` returns `node`. */
  datatype Visit = Visit(node: nat, stack: seq<nat>, discovered: set<nat>)

  /** petgraph's `Dfs::next`: pop until an undiscovered node, mark it, and push its
   *  undiscovered neighbours. */
  function Step(g: Graph, stack: seq<nat>, discovered: set<nat>): (r: Option<Visit>)
    requires ValidGraph(g) && InRange(stack, g.nodeCount)
    ensures r.None? <==> forall k :: 0 <= k < |stack| ==> stack[k] in discovered
    ensures r.Some? ==>
      r.value.node !in discovered && r.value.node < g.nodeCount
      && r.value.discovered == discovered + {r.value.node} && InRange(r.value.stack, g.nodeCount)
  {
    var s := Pop(stack, discovered);
    PopInRange(stack, discovered, g.nodeCount);
    if s == [] then None
    else
      var v := s[|s| - 1];
      var d := discovered + {v};
      NeighborsBound(g.edges, g.nodeCount, v);
      PushedInRange(s[..|s| - 1], Neighbors(g.edges, v), d, g.nodeCount);
      Some(Visit(v, Pushed(s[..|s| - 1], Neighbors(g.edges, v), d), d))
  }

  /** The nodes `next` returns, in order, from a given state. */
  function DfsFrom(g: Graph, stack: seq<nat>, discovered: set<nat>): seq<nat>
    requires ValidGraph(g) && InRange(stack, g.nodeCount)
    decreases Range(g.nodeCount) - discovered
  {
    match Step(g, stack, discovered)
    case None => []
    case Some(s) =>
      assert s.node in Range(g.nodeCount) - discovered;
      [s.node] + DfsFrom(g, s.stack, s.discovered)
  }

  lemma DfsFromStep(g: Graph, stack: seq<nat>, discovered: set<nat>)
    requires ValidGraph(g) && InRange(stack, g.nodeCount)
    ensures var s := Step(g, stack, discovered);
      && (s.None? ==> DfsFrom(g, stack, discovered) == [])
      && (s.Some? ==> DfsFrom(g, stack, discovered) == [s.value.node] + DfsFrom(g, s.value.stack, s.value.discovered))
  {
  }

  /** The visiting order of `Dfs::new(graph, 0)`. */
  function DfsOrder(g: Graph): seq<nat>
    requires ValidGraph(g) && g.nodeCount > 0
  {
    DfsFrom(g, [0], {})
  }

  /** petgraph's `Dfs`: its stack and its discovered set. */
  class Dfs {
    var stack: seq<nat>
    var discovered: set<nat>

    /** `Dfs::new(graph, start)`. */
    constructor (start: nat)
      ensures stack == [start] && discovered == {}
    {
      stack := [start];
      discovered := {};
    }

    /** `Dfs::next`. */
    method Next(g: Graph) returns (v: Option<nat>)
      requires ValidGraph(g) && InRange(stack, g.nodeCount)
      modifies this
      ensures var s := Step(g, old(stack), old(discovered));
        && (s.None? ==> v.None? && stack == [] && discovered == old(discovered))
        && (s.Some? ==> v == Some(s.value.node) && stack == s.value.stack && discovered == s.value.discovered)
    {
      while stack != []
        invariant InRange(stack, g.nodeCount) && discovered == old(discovered)
        invariant Pop(stack, discovered) == Pop(old(stack), old(discovered))
        decreases |stack|
      {
        var node := stack[|stack| - 1];
        ghost var popped := stack;
        stack := stack[..|stack| - 1];
        if node !in discovered {
          assert Pop(popped, discovered) == popped;
          discovered := discovered + {node};
          PushUndiscovered(Neighbors(g.edges, node));
          return Some(node);
        }
      }
      v := None;
    }

    /** The `for succ in graph.neighbors(node)` loop of `Dfs::next`. */
    method PushUndiscovered(ns: seq<nat>)
      modifies this
      ensures stack == Pushed(old(stack), ns, discovered) && discovered == old(discovered)
    {
      var j := 0;
      while j < |ns|
        invariant j <= |ns| && stack == Pushed(old(stack), ns[..j], discovered) && discovered == old(discovered)
      {
        assert ns[..j + 1][..j] == ns[..j];
        if ns[j] !in discovered {
          stack := stack + [ns[j]];
        }
        j := j + 1;
      }
      assert ns[..|ns|] == ns;
    }
  }

  // ----- Basic blocks -----

  function Last(s: seq<nat>): nat
    requires s != []
  {
    s[|s| - 1]
  }

  function Flatten(blocks: seq<seq<nat>>): seq<nat>
  {
    if blocks == [] then [] else Flatten(blocks[..|blocks| - 1]) + blocks[|blocks| - 1]
  }

  /** The closed blocks (`cfg`'s nodes so far) and `current_block`. */
  datatype Partial = Partial(blocks: seq<seq<nat>>, current: seq<nat>)

  lemma FlattenAppend(blocks: seq<seq<nat>>, b: seq<nat>)
    ensures Flatten(blocks + [b]) == Flatten(blocks) + b
  {
    assert (blocks + [b])[..|blocks|] == blocks;
  }

  predicate NonEmptyBlocks(blocks: seq<seq<nat>>)
  {
    forall k :: 0 <= k < |blocks| ==> blocks[k] != []
  }

  /** A vertex with two or more in-edges closes a non-empty current block. */
  function Enter(g: Graph, p: Partial, vertex: nat): (r: Partial)
    ensures Flatten(r.blocks) + r.current == Flatten(p.blocks) + p.current
    ensures NonEmptyBlocks(p.blocks) ==> NonEmptyBlocks(r.blocks)
  {
    if InCount(g, vertex) >= 2 && p.current != [] then
      FlattenAppend(p.blocks, p.current);
      Partial(p.blocks + [p.current], [])
    else p
  }

  /** A vertex joins the current block, which it closes unless it has exactly one
   *  out-edge, to a node not yet visited. */
  function Leave(g: Graph, p: Partial, vertex: nat, visited: set<nat>): (r: Partial)
    ensures Flatten(r.blocks) + r.current == Flatten(p.blocks) + p.current + [vertex]
    ensures NonEmptyBlocks(p.blocks) ==> NonEmptyBlocks(r.blocks)
  {
    var current := p.current + [vertex];
    var out := OutCount(g, vertex);
    if out >= 2 || out == 0 || Neighbors(g.edges, vertex)[0] in visited then
      FlattenAppend(p.blocks, current);
      Partial(p.blocks + [current], [])
    else Partial(p.blocks, current)
  }

  /** One iteration of the `while let` in `construct_cfg`, for `vertex` with
   *  `visited` already holding it. */
  function BlockStep(g: Graph, p: Partial, vertex: nat, visited: set<nat>): Partial
  {
    Leave(g, Enter(g, p, vertex), vertex, visited)
  }

  /** The blocks built from the visiting order `order`; the blocks and the current
   *  block together hold every visited node once, in visiting order. */
  function BlocksFold(g: Graph, order: seq<nat>): (r: Partial)
    ensures Flatten(r.blocks) + r.current == order
    ensures NonEmptyBlocks(r.blocks)
  {
    if order == [] then Partial([], [])
    else
      var front := order[..|order| - 1];
      assert order == front + [order[|order| - 1]];
      BlockStep(g, BlocksFold(g, front), order[|order| - 1], Elems(order))
  }

  lemma ConsAssoc(a: seq<nat>, x: nat, b: seq<nat>)
    ensures a + ([x] + b) == (a + [x]) + b
  {
  }

  lemma ElemsAppend(s: seq<nat>, x: nat)
    ensures Elems(s + [x]) == Elems(s) + {x}
  {
  }

  /** Moving the next node of a walk from the nodes to come to the nodes seen. */
  lemma ShiftSeen(all: seq<nat>, seen: seq<nat>, x: nat, tail: seq<nat>)
    requires all == seen + ([x] + tail)
    ensures all == (seen + [x]) + tail && Elems(seen + [x]) == Elems(seen) + {x}
  {
    assert seen + ([x] + tail) == (seen + [x]) + tail;
    ElemsAppend(seen, x);
  }

  lemma BlocksFoldAppend(g: Graph, order: seq<nat>, v: nat)
    ensures BlocksFold(g, order + [v]) == BlockStep(g, BlocksFold(g, order), v, Elems(order + [v]))
  {
    assert (order + [v])[..|order|] == order;
  }

  /** The `while let Some(vertex) = dfs.next(flow_graph)` loop of `construct_cfg`;
   *  the current block left over at the end is dropped. */
  method BuildBlocks(g: Graph) returns (blocks: seq<seq<nat>>)
    requires ValidGraph(g) && g.nodeCount > 0
    ensures blocks == BlocksFold(g, DfsOrder(g)).blocks
  {
    var current: seq<nat> := [];
    blocks := [];
    var dfs := new Dfs(0);
    var visited: set<nat> := {};
    ghost var order: seq<nat> := [];
    while true
      invariant InRange(dfs.stack, g.nodeCount)
      invariant DfsOrder(g) == order + DfsFrom(g, dfs.stack, dfs.discovered)
      invariant visited == dfs.discovered == Elems(order)
      invariant BlocksFold(g, order) == Partial(blocks, current)
      decreases Range(g.nodeCount) - dfs.discovered
    {
      DfsFromStep(g, dfs.stack, dfs.discovered);
      ghost var d0 := dfs.discovered;
      ghost var rest := DfsFrom(g, dfs.stack, dfs.discovered);
      var next := dfs.Next(g);
      if next.None? {
        assert rest == [];
        assert order + rest == order;
        break;
      }
      var vertex := next.value;
      ghost var tail := DfsFrom(g, dfs.stack, dfs.discovered);
      assert rest == [vertex] + tail;
      assert vertex in Range(g.nodeCount) - d0;
      ShiftSeen(DfsOrder(g), order, vertex, tail);
      BlocksFoldAppend(g, order, vertex);
      order := order + [vertex];
      visited := visited + {vertex};

      blocks, current := AddVertex(g, blocks, current, vertex, visited);
    }
  }

  /** The body of the `while let` loop in `construct_cfg` once `vertex` is visited. */
  method AddVertex(g: Graph, blocks0: seq<seq<nat>>, current0: seq<nat>, vertex: nat, visited: set<nat>)
    returns (blocks: seq<seq<nat>>, current: seq<nat>)
    ensures Partial(blocks, current) == BlockStep(g, Partial(blocks0, current0), vertex, visited)
  {
    blocks, current := blocks0, current0;
    var numIncoming := |Incoming(g.edges, vertex)|;
    var numOutgoing := |Neighbors(g.edges, vertex)|;
    if numIncoming >= 2 && current != [] {
      blocks := blocks + [current];
      current := [];
    }
    current := current + [vertex];
    if numOutgoing >= 2 {
      blocks := blocks + [current];
      current := [];
    } else if numOutgoing == 0 {
      blocks := blocks + [current];
      current := [];
    } else if Neighbors(g.edges, vertex)[0] in visited {
      blocks := blocks + [current];
      current := [];
    }
  }

  // ----- What the depth-first walk guarantees -----

  predicate NoDup(s: seq<nat>)
  {
    forall i, j :: 0 <= i < j < |s| ==> s[i] != s[j]
  }

  /** `next` returns each node at most once, never one already discovered. */
  lemma {:induction false} DfsFromFacts(g: Graph, stack: seq<nat>, discovered: set<nat>)
    requires ValidGraph(g) && InRange(stack, g.nodeCount)
    ensures var r := DfsFrom(g, stack, discovered);
      NoDup(r) && forall k :: 0 <= k < |r| ==> r[k] !in discovered && r[k] < g.nodeCount
    decreases Range(g.nodeCount) - discovered
  {
    DfsFromStep(g, stack, discovered);
    var st := Step(g, stack, discovered);
    if st.Some? {
      var s := st.value;
      assert s.node in Range(g.nodeCount) - discovered;
      DfsFromFacts(g, s.stack, s.discovered);
      var rest := DfsFrom(g, s.stack, s.discovered);
      assert forall k :: 0 <= k < |rest| ==> rest[k] != s.node;
      ConsNoDup(s.node, rest);
    }
  }

  /** A node in front of a sequence without repeats that does not hold it. */
  lemma ConsNoDup(x: nat, rest: seq<nat>)
    requires NoDup(rest) && forall k :: 0 <= k < |rest| ==> rest[k] != x
    ensures NoDup([x] + rest)
  {
    var r := [x] + rest;
    forall i, j | 0 <= i < j < |r|
      ensures r[i] != r[j]
    {
      assert r[j] == rest[j - 1];
      if i > 0 {
        assert r[i] == rest[i - 1];
      }
    }
  }

  /** Every neighbour of a discovered node is discovered or still on the stack. */
  predicate ClosedUnder(g: Graph, discovered: set<nat>, stack: seq<nat>)
  {
    forall v, w :: v in discovered && w in Neighbors(g.edges, v) ==> w in discovered || w in stack
  }

  lemma StepClosed(g: Graph, stack: seq<nat>, discovered: set<nat>)
    requires ValidGraph(g) && InRange(stack, g.nodeCount) && ClosedUnder(g, discovered, stack)
    ensures var st := Step(g, stack, discovered);
      && (st.None? ==> ClosedUnder(g, discovered, []))
      && (st.Some? ==> ClosedUnder(g, st.value.discovered, st.value.stack))
  {
    var p := Pop(stack, discovered);
    assert forall w :: w in stack ==> w in discovered || w in p by {
      forall w | w in stack
        ensures w in discovered || w in p
      {
        var k :| 0 <= k < |stack| && stack[k] == w;
        if k < |p| {
          assert p[k] == w;
        }
      }
    }
    if p != [] {
      var v := Last(p);
      var d := discovered + {v};
      var base := p[..|p| - 1];
      var next := Pushed(base, Neighbors(g.edges, v), d);
      forall x, w | x in d && w in Neighbors(g.edges, x)
        ensures w in d || w in next
      {
        if x != v && w !in d {
          assert w in p;
          var k :| 0 <= k < |p| && p[k] == w;
          assert k < |base| && base[k] == w;
          assert next[k] == w;
        }
      }
    }
  }

  lemma {:induction false} DfsFromClosed(g: Graph, stack: seq<nat>, discovered: set<nat>)
    requires ValidGraph(g) && InRange(stack, g.nodeCount) && ClosedUnder(g, discovered, stack)
    ensures ClosedUnder(g, discovered + Elems(DfsFrom(g, stack, discovered)), [])
    decreases Range(g.nodeCount) - discovered
  {
    DfsFromStep(g, stack, discovered);
    StepClosed(g, stack, discovered);
    var st := Step(g, stack, discovered);
    if st.None? {
      assert Elems([]) == {};
    } else {
      var s := st.value;
      assert s.node in Range(g.nodeCount) - discovered;
      DfsFromClosed(g, s.stack, s.discovered);
      var rest := DfsFrom(g, s.stack, s.discovered);
      assert Elems([s.node] + rest) == {s.node} + Elems(rest);
      assert s.discovered + Elems(rest) == discovered + Elems([s.node] + rest);
    }
  }

  /** The walk from node 0 visits node 0 first, each node at most once, and every
   *  successor of a visited node, hence every node reachable from node 0. */
  lemma DfsOrderFacts(g: Graph)
    requires ValidGraph(g) && g.nodeCount > 0
    ensures var order := DfsOrder(g);
      && |order| > 0 && order[0] == 0 && NoDup(order) && InRange(order, g.nodeCount)
      && forall v, w :: v in order && w in Neighbors(g.edges, v) ==> w in order
  {
    DfsFromStep(g, [0], {});
    DfsFromFacts(g, [0], {});
    DfsFromClosed(g, [0], {});
    var order := DfsOrder(g);
    assert {} + Elems(order) == Elems(order);
  }

  // ----- What the blocks are -----

  /** Inside a block each node has one out-edge, to the next node, and the next node
   *  has fewer than two in-edges. */
  predicate Link(g: Graph, x: nat, y: nat)
  {
    OutCount(g, x) == 1 && Neighbors(g.edges, x)[0] == y && InCount(g, y) < 2
  }

  predicate LinkedAt(g: Graph, b: seq<nat>, k: nat)
  {
    0 < k < |b| && Link(g, b[k - 1], b[k])
  }

  predicate Chained(g: Graph, b: seq<nat>)
  {
    forall k: nat :: 0 < k < |b| ==> LinkedAt(g, b, k)
  }

  predicate AllChained(g: Graph, blocks: seq<seq<nat>>)
  {
    forall k :: 0 <= k < |blocks| ==> Chained(g, blocks[k])
  }

  /** What holds of the block loop and the walk between two calls to `next`: a
   *  non-empty current block continues into the node on top of the stack. */
  predicate RunInv(g: Graph, stack: seq<nat>, discovered: set<nat>, order: seq<nat>)
  {
    discovered == Elems(order)
    && var p := BlocksFold(g, order);
    AllChained(g, p.blocks) && Chained(g, p.current)
    && (p.current != [] ==>
          |stack| > 0 && OutCount(g, Last(p.current)) == 1
          && stack[|stack| - 1] == Neighbors(g.edges, Last(p.current))[0] && stack[|stack| - 1] !in discovered)
  }

  lemma ChainedAppend(g: Graph, b: seq<nat>, v: nat)
    requires Chained(g, b) && b != [] && Link(g, Last(b), v)
    ensures Chained(g, b + [v])
  {
    var c := b + [v];
    forall k: nat | 0 < k < |c|
      ensures LinkedAt(g, c, k)
    {
      if k < |b| {
        assert LinkedAt(g, b, k);
        assert c[k - 1] == b[k - 1] && c[k] == b[k];
      } else {
        assert c[k - 1] == Last(b) && c[k] == v;
      }
    }
  }

  lemma AllChainedAppend(g: Graph, blocks: seq<seq<nat>>, b: seq<nat>)
    requires AllChained(g, blocks) && Chained(g, b)
    ensures AllChained(g, blocks + [b])
  {
    assert forall k :: 0 <= k < |blocks| ==> (blocks + [b])[k] == blocks[k];
  }

  /** A node left undiscovered on top of the stack is the next one visited. */
  lemma StepTop(g: Graph, stack: seq<nat>, discovered: set<nat>)
    requires ValidGraph(g) && InRange(stack, g.nodeCount)
    requires |stack| > 0 && stack[|stack| - 1] !in discovered
    ensures Step(g, stack, discovered).Some? && Step(g, stack, discovered).value.node == stack[|stack| - 1]
  {
    assert Pop(stack, discovered) == stack;
  }

  /** A visited node with one out-edge, to an undiscovered node, leaves that node on
   *  top of the stack. */
  lemma StepPushesSuccessor(g: Graph, stack: seq<nat>, discovered: set<nat>)
    requires ValidGraph(g) && InRange(stack, g.nodeCount) && Step(g, stack, discovered).Some?
    requires var s := Step(g, stack, discovered).value;
      OutCount(g, s.node) == 1 && Neighbors(g.edges, s.node)[0] !in s.discovered
    ensures var s := Step(g, stack, discovered).value;
      |s.stack| > 0 && s.stack[|s.stack| - 1] == Neighbors(g.edges, s.node)[0]
  {
    var s := Step(g, stack, discovered).value;
    var p := Pop(stack, discovered);
    PushOne(p[..|p| - 1], Neighbors(g.edges, s.node), s.discovered);
  }

  lemma PushOne(base: seq<nat>, ns: seq<nat>, discovered: set<nat>)
    requires |ns| == 1 && ns[0] !in discovered
    ensures Pushed(base, ns, discovered) == base + [ns[0]]
  {
    assert ns[..0] == [];
  }

  /** A block step keeps blocks chained, provided a vertex with fewer than two
   *  in-edges continues the current block; a block it leaves open ends in the
   *  vertex, which has one out-edge, to a node not yet visited. */
  lemma BlockStepChained(g: Graph, p: Partial, v: nat, visited: set<nat>)
    requires AllChained(g, p.blocks) && Chained(g, p.current)
    requires p.current != [] && InCount(g, v) < 2 ==> Link(g, Last(p.current), v)
    ensures var r := BlockStep(g, p, v, visited);
      && AllChained(g, r.blocks) && Chained(g, r.current)
      && (r.current != [] ==>
            Last(r.current) == v && OutCount(g, v) == 1 && Neighbors(g.edges, v)[0] !in visited)
  {
    var e := Enter(g, p, v);
    if InCount(g, v) >= 2 && p.current != [] {
      AllChainedAppend(g, p.blocks, p.current);
    } else if p.current != [] {
      ChainedAppend(g, p.current, v);
    }
    var current := e.current + [v];
    assert Chained(g, current);
    var out := OutCount(g, v);
    if out >= 2 || out == 0 || Neighbors(g.edges, v)[0] in visited {
      AllChainedAppend(g, e.blocks, current);
    }
  }

  lemma StepRunInv(g: Graph, stack: seq<nat>, discovered: set<nat>, order: seq<nat>)
    requires ValidGraph(g) && InRange(stack, g.nodeCount) && RunInv(g, stack, discovered, order)
    requires Step(g, stack, discovered).Some?
    ensures var s := Step(g, stack, discovered).value;
      RunInv(g, s.stack, s.discovered, order + [s.node])
  {
    var s := Step(g, stack, discovered).value;
    var v := s.node;
    var P := BlocksFold(g, order);
    if P.current != [] {
      StepTop(g, stack, discovered);
    }
    ElemsAppend(order, v);
    BlocksFoldAppend(g, order, v);
    BlockStepChained(g, P, v, s.discovered);
    var r := BlockStep(g, P, v, s.discovered);
    if r.current != [] {
      StepPushesSuccessor(g, stack, discovered);
    }
  }

  lemma {:induction false} BlocksRun(g: Graph, stack: seq<nat>, discovered: set<nat>, order: seq<nat>)
    requires ValidGraph(g) && InRange(stack, g.nodeCount) && RunInv(g, stack, discovered, order)
    ensures var p := BlocksFold(g, order + DfsFrom(g, stack, discovered));
      p.current == [] && AllChained(g, p.blocks)
    decreases Range(g.nodeCount) - discovered
  {
    DfsFromStep(g, stack, discovered);
    var st := Step(g, stack, discovered);
    if st.None? {
      assert order + DfsFrom(g, stack, discovered) == order;
    } else {
      var s := st.value;
      StepRunInv(g, stack, discovered, order);
      assert s.node in Range(g.nodeCount) - discovered;
      BlocksRun(g, s.stack, s.discovered, order + [s.node]);
      ConsAssoc(order, s.node, DfsFrom(g, s.stack, s.discovered));
    }
  }

  /** The blocks `construct_cfg` builds partition the visited nodes in visiting order
   *  (no current block is left over), and each is a chain of single edges. */
  lemma BlocksPartition(g: Graph)
    requires ValidGraph(g) && g.nodeCount > 0
    ensures var blocks := BlocksFold(g, DfsOrder(g)).blocks;
      && Flatten(blocks) == DfsOrder(g) && NonEmptyBlocks(blocks) && AllChained(g, blocks)
  {
    assert Elems([]) == {};
    assert RunInv(g, [0], {}, []);
    BlocksRun(g, [0], {}, []);
    assert [] + DfsFrom(g, [0], {}) == DfsOrder(g);
  }

  // ----- Edges between blocks -----

  /** `set.insert(edge.source(), *edge.weight())` for each edge of `es` in turn: a
   *  later insert overwrites an earlier one. */
  function WeightMap(es: seq<Edge>): map<nat, bool>
  {
    if es == [] then map[] else WeightMap(es[..|es| - 1])[es[|es| - 1].source := es[|es| - 1].weight]
  }

  predicate Joins(e: Edge, s: nat, t: nat)
  {
    e.source == s && e.target == t
  }

  /** The weight of the oldest edge from `s` to `t`, if any. */
  function OldestWeight(es: seq<Edge>, s: nat, t: nat): Option<bool>
  {
    if es == [] then None
    else
      var o := OldestWeight(es[..|es| - 1], s, t);
      if o.Some? then o
      else if Joins(es[|es| - 1], s, t) then Some(es[|es| - 1].weight)
      else None
  }

  /** `OldestWeight` is the weight of the first edge from `s` to `t`. */
  lemma {:induction false} OldestWeightFirst(es: seq<Edge>, s: nat, t: nat)
    ensures OldestWeight(es, s, t).None? <==> forall k :: 0 <= k < |es| ==> !Joins(es[k], s, t)
    ensures OldestWeight(es, s, t).Some? ==>
      exists k :: 0 <= k < |es| && Joins(es[k], s, t) && es[k].weight == OldestWeight(es, s, t).value
        && forall j :: 0 <= j < k ==> !Joins(es[j], s, t)
    decreases |es|
  {
    if es != [] {
      var front := es[..|es| - 1];
      OldestWeightFirst(front, s, t);
      assert forall k :: 0 <= k < |front| ==> front[k] == es[k];
      if OldestWeight(front, s, t).Some? {
        var k :| 0 <= k < |front| && Joins(front[k], s, t) && front[k].weight == OldestWeight(front, s, t).value
          && forall j :: 0 <= j < k ==> !Joins(front[j], s, t);
        assert Joins(es[k], s, t);
      }
    }
  }

  lemma {:induction false} WeightMapAppend(a: seq<Edge>, b: seq<Edge>)
    ensures WeightMap(a + b) == WeightMap(a) + WeightMap(b)
    decreases |b|
  {
    if b == [] {
      assert a + b == a;
    } else {
      var b' := b[..|b| - 1];
      assert (a + b)[..|a + b| - 1] == a + b';
      WeightMapAppend(a, b');
    }
  }

  /** The map built over `v`'s in-edges, newest first, holds for each source the
   *  weight of its oldest edge to `v`. */
  lemma {:induction false} IncomingWeights(es: seq<Edge>, t: nat)
    ensures forall s :: s in WeightMap(Incoming(es, t)) <==> OldestWeight(es, s, t).Some?
    ensures forall s :: s in WeightMap(Incoming(es, t)) ==> WeightMap(Incoming(es, t))[s] == OldestWeight(es, s, t).value
    decreases |es|
  {
    if es != [] {
      var front := es[..|es| - 1];
      var e := es[|es| - 1];
      IncomingWeights(front, t);
      var x := if e.target == t then [e] else [];
      WeightMapAppend(x, Incoming(front, t));
      assert WeightMap(x) == if e.target == t then map[e.source := e.weight] else map[] by {
        assert x == [] || x[..0] == [];
      }
    }
  }

  /** For each block, the map from source node to edge weight built over the
   *  in-edges of the block's first node. */
  function InWeights(g: Graph, blocks: seq<seq<nat>>): (r: seq<map<nat, bool>>)
    requires NonEmptyBlocks(blocks)
    ensures |r| == |blocks|
    ensures forall k :: 0 <= k < |r| ==> r[k] == WeightMap(Incoming(g.edges, blocks[k][0]))
  {
    if blocks == [] then []
    else InWeights(g, blocks[..|blocks| - 1]) + [WeightMap(Incoming(g.edges, blocks[|blocks| - 1][0]))]
  }

  /** The last node of each block. */
  function Lasts(blocks: seq<seq<nat>>): (r: seq<nat>)
    requires NonEmptyBlocks(blocks)
    ensures |r| == |blocks|
    ensures forall k :: 0 <= k < |r| ==> r[k] == Last(blocks[k])
  {
    if blocks == [] then [] else Lasts(blocks[..|blocks| - 1]) + [Last(blocks[|blocks| - 1])]
  }

  /** The edges `construct_cfg` adds into block `i`, whose map is `w`, from blocks
   *  `0 .. m`: one from each block whose last node is in `w`. */
  function EdgesInto(w: map<nat, bool>, lasts: seq<nat>, i: nat, m: nat): seq<Edge>
    requires m <= |lasts|
  {
    if m == 0 then []
    else
      EdgesInto(w, lasts, i, m - 1)
      + (if lasts[m - 1] in w then [Edge(m - 1, i, w[lasts[m - 1]])] else [])
  }

  /** The edges into blocks `0 .. n`, block by block. */
  function CfgEdges(ws: seq<map<nat, bool>>, lasts: seq<nat>, n: nat): seq<Edge>
    requires n <= |ws|
  {
    if n == 0 then [] else CfgEdges(ws, lasts, n - 1) + EdgesInto(ws[n - 1], lasts, n - 1, |lasts|)
  }

  /** `e` is found by looking up the last node of its source block in its target
   *  block's map. */
  predicate MapEdge(ws: seq<map<nat, bool>>, lasts: seq<nat>, e: Edge)
  {
    e.source < |lasts| && e.target < |ws| && lasts[e.source] in ws[e.target]
    && ws[e.target][lasts[e.source]] == e.weight
  }

  /** A block edge, with the weight of the oldest flow edge it stands for. */
  predicate BlockEdge(g: Graph, blocks: seq<seq<nat>>, e: Edge)
    requires NonEmptyBlocks(blocks)
  {
    e.source < |blocks| && e.target < |blocks|
    && OldestWeight(g.edges, Last(blocks[e.source]), blocks[e.target][0]) == Some(e.weight)
  }

  lemma InConcat(a: seq<Edge>, b: seq<Edge>, e: Edge)
    ensures (e in a + b) == (e in a || e in b)
  {
  }

  /** Block `i`'s map `w` holds the last node of `e`'s source block, with `e`'s weight. */
  predicate LinkIn(w: map<nat, bool>, lasts: seq<nat>, e: Edge)
  {
    e.source < |lasts| && lasts[e.source] in w && w[lasts[e.source]] == e.weight
  }

  lemma {:induction false} EdgesIntoIff(w: map<nat, bool>, lasts: seq<nat>, i: nat, m: nat, e: Edge)
    requires m <= |lasts|
    ensures (e in EdgesInto(w, lasts, i, m)) == (e.target == i && e.source < m && LinkIn(w, lasts, e))
    decreases m
  {
    if m > 0 {
      EdgesIntoIff(w, lasts, i, m - 1, e);
      var l := lasts[m - 1];
      InConcat(EdgesInto(w, lasts, i, m - 1), if l in w then [Edge(m - 1, i, w[l])] else [], e);
    }
  }

  lemma {:induction false} CfgEdgesIff(ws: seq<map<nat, bool>>, lasts: seq<nat>, n: nat, e: Edge)
    requires n <= |ws|
    ensures (e in CfgEdges(ws, lasts, n)) == (e.target < n && MapEdge(ws, lasts, e))
    decreases n
  {
    if n > 0 {
      var front := CfgEdges(ws, lasts, n - 1);
      var into := EdgesInto(ws[n - 1], lasts, n - 1, |lasts|);
      assert CfgEdges(ws, lasts, n) == front + into;
      CfgEdgesIff(ws, lasts, n - 1, e);
      EdgesIntoIff(ws[n - 1], lasts, n - 1, |lasts|, e);
      InConcat(front, into, e);
      CfgEdgesStep(ws, lasts, n, e, e in front, e in into);
    }
  }

  /** The step of `CfgEdgesIff`: an edge into blocks `0 .. n` goes into the first
   *  `n - 1` of them or into block `n - 1`. */
  lemma CfgEdgesStep(ws: seq<map<nat, bool>>, lasts: seq<nat>, n: nat, e: Edge, inFront: bool, inInto: bool)
    requires 0 < n <= |ws|
    requires inFront == (e.target < n - 1 && MapEdge(ws, lasts, e))
    requires inInto == (e.target == n - 1 && e.source < |lasts| && LinkIn(ws[n - 1], lasts, e))
    ensures (inFront || inInto) == (e.target < n && MapEdge(ws, lasts, e))
  {
  }

  /** Looking the last node up in the map finds exactly the oldest flow edge. */
  lemma MapEdgeIff(g: Graph, blocks: seq<seq<nat>>, e: Edge)
    requires NonEmptyBlocks(blocks)
    ensures MapEdge(InWeights(g, blocks), Lasts(blocks), e) == BlockEdge(g, blocks, e)
  {
    if e.source < |blocks| && e.target < |blocks| {
      IncomingWeights(g.edges, blocks[e.target][0]);
    }
  }

  /** `construct_cfg`'s result: the blocks as node weights, and the block edges. */
  datatype Cfg = Cfg(blocks: seq<seq<nat>>, edges: seq<Edge>)

  /** The panic of `Dfs::next` marking node 0 of a graph without nodes. */
  const EMPTY_GRAPH := "put at index 0 exceeds fixbitset size 0"

  function CfgOf(g: Graph): Result<Cfg>
    requires ValidGraph(g)
  {
    if g.nodeCount == 0 then Err(EMPTY_GRAPH)
    else
      var blocks := BlocksFold(g, DfsOrder(g)).blocks;
      Ok(Cfg(blocks, CfgEdges(InWeights(g, blocks), Lasts(blocks), |blocks|)))
  }

  /** The block graph of a flow graph: its blocks partition the nodes reachable from
   *  node 0 in visiting order, each block is a chain of single edges, and there is an
   *  edge from one block to another exactly when the first one's last node has a flow
   *  edge to the other's first node, weighted as the oldest such flow edge. */
  lemma CfgShape(g: Graph)
    requires ValidGraph(g)
    ensures CfgOf(g).Err? <==> g.nodeCount == 0
    ensures CfgOf(g).Ok? ==> var c := CfgOf(g).value;
      && Flatten(c.blocks) == DfsOrder(g) && NonEmptyBlocks(c.blocks) && AllChained(g, c.blocks)
      && ValidGraph(Graph(|c.blocks|, c.edges))
      && forall e :: e in c.edges <==> BlockEdge(g, c.blocks, e)
  {
    if g.nodeCount > 0 {
      BlocksPartition(g);
      var c := CfgOf(g).value;
      forall e
        ensures e in c.edges <==> BlockEdge(g, c.blocks, e)
      {
        CfgEdgesIff(InWeights(g, c.blocks), Lasts(c.blocks), |c.blocks|, e);
        MapEdgeIff(g, c.blocks, e);
      }
      forall k | 0 <= k < |c.edges|
        ensures c.edges[k].source < |c.blocks| && c.edges[k].target < |c.blocks|
      {
        assert c.edges[k] in c.edges;
      }
    }
  }

  /** `construct_cfg`. */
  method ConstructCfg(g: Graph) returns (r: Result<Cfg>)
    requires ValidGraph(g)
    ensures r == CfgOf(g)
  {
    if g.nodeCount == 0 {
      return Err(EMPTY_GRAPH);
    }
    var blocks := BuildBlocks(g);
    ghost var ws := InWeights(g, blocks);
    ghost var lasts := Lasts(blocks);
    var edges: seq<Edge> := [];
    var i := 0;
    while i < |blocks|
      invariant i <= |blocks| && edges == CfgEdges(ws, lasts, i)
    {
      var into := EdgesIntoBlock(g, blocks, i);
      edges := edges + into;
      i := i + 1;
    }
    r := Ok(Cfg(blocks, edges));
  }

  /** The `set` of in-edges of `v` by source. */
  method IncomingMap(g: Graph, v: nat) returns (m: map<nat, bool>)
    ensures m == WeightMap(Incoming(g.edges, v))
  {
    var incoming := Incoming(g.edges, v);
    m := map[];
    var j := 0;
    while j < |incoming|
      invariant j <= |incoming| && m == WeightMap(incoming[..j])
    {
      assert incoming[..j + 1][..j] == incoming[..j];
      m := m[incoming[j].source := incoming[j].weight];
      j := j + 1;
    }
    assert incoming[..|incoming|] == incoming;
  }

  /** One turn of the outer loop over `cfg.raw_nodes()`: the edges into block `i`. */
  method EdgesIntoBlock(g: Graph, blocks: seq<seq<nat>>, i: nat) returns (es: seq<Edge>)
    requires NonEmptyBlocks(blocks) && i < |blocks|
    ensures es == EdgesInto(WeightMap(Incoming(g.edges, blocks[i][0])), Lasts(blocks), i, |blocks|)
  {
    ghost var lasts := Lasts(blocks);
    var set_ := IncomingMap(g, blocks[i][0]);
    es := [];
    var i2 := 0;
    while i2 < |blocks|
      invariant i2 <= |blocks| && es == EdgesInto(set_, lasts, i, i2)
    {
      var last := blocks[i2][|blocks[i2]| - 1];
      assert last == lasts[i2];
      if last in set_ {
        es := es + [Edge(i2, i, set_[last])];
      }
      i2 := i2 + 1;
    }
  }
}
