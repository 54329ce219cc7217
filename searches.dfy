// The searches the statement generator of generate_ast.rs runs over the block graph,
// written as the source writes them: loops over petgraph's walkers and over a
// block's out-edges, each proved to compute the function module GenerateAst uses.

module Searches {
  import opened Wrappers
  import opened Graphs
  import opened Traversals
  import opened GenerateAst

  /** The `for edge in &outgoing_edges` loop that keeps, per weight, the last edge met,
   *  followed by `(tru.unwrap(), fals.unwrap())`. */
  method SplitBranches(out: seq<Edge>) returns (r: Result<Branches>)
    ensures r == BranchesOf(out)
  {
    var tru: Option<Edge> := None;
    var fals: Option<Edge> := None;
    for j := 0 to |out|
      invariant tru == LastWeighted(out[..j], true) && fals == LastWeighted(out[..j], false)
    {
      assert out[..j + 1][..j] == out[..j];
      if out[j].weight {
        tru := Some(out[j]);
      } else {
        fals := Some(out[j]);
      }
    }
    assert out[..|out|] == out;
    if tru.None? || fals.None? {
      return Err(UNWRAP_NONE);
    }
    r := Ok(Branches(tru.value, fals.value));
  }

  /** The search of the `LoopCheck` stage. A `Dfs` from node 0 with `node` already
   *  discovered marks every node it returns as discovered and finished in a
   *  `DfsPostOrder` from `node`; the post-order walk then stops at the first node that
   *  is one of `sources`. */
  method FindLoopCondition(g: Graph, node: nat, sources: seq<nat>) returns (r: Option<nat>)
    requires ValidGraph(g) && node < g.nodeCount
    ensures r == LoopCondition(g, node, sources)
  {
    var walk := new PostOrder(node);
    PreMark(g, node, walk);
    assert walk.State() == PostState([node], Premarked(g, node), Premarked(g, node));
    while true
      invariant InRange(walk.stack, g.nodeCount)
      invariant FirstOf(g, walk.State(), sources) == LoopCondition(g, node, sources)
      decreases Range(g.nodeCount) - walk.finished
    {
      var v := walk.Next(g);
      if v.None? {
        return None;
      }
      if v.value in sources {
        return v;
      }
    }
  }

  /** The pre-marking loop: `dfs_a.next` until the end, each node returned marked. */
  method PreMark(g: Graph, node: nat, walk: PostOrder)
    requires ValidGraph(g) && node < g.nodeCount
    requires walk.stack == [node] && walk.discovered == {} && walk.finished == {}
    modifies walk
    ensures walk.stack == [node] && walk.discovered == Premarked(g, node) && walk.finished == Premarked(g, node)
  {
    var dfs := new Dfs(0);
    dfs.discovered := dfs.discovered + {node};
    ghost var seen: seq<nat> := [];
    ghost var all := DfsFrom(g, dfs.stack, dfs.discovered);
    assert Elems(all) == Premarked(g, node) by {
      assert dfs.stack == [0] && dfs.discovered == {node};
    }
    assert [] + all == all;
    while true
      invariant InRange(dfs.stack, g.nodeCount)
      invariant all == seen + DfsFrom(g, dfs.stack, dfs.discovered)
      invariant walk.stack == [node] && walk.discovered == Elems(seen) && walk.finished == Elems(seen)
      decreases Range(g.nodeCount) - dfs.discovered
    {
      DfsFromStep(g, dfs.stack, dfs.discovered);
      ghost var d0 := dfs.discovered;
      ghost var rest := DfsFrom(g, dfs.stack, dfs.discovered);
      var v := dfs.Next(g);
      if v.None? {
        assert rest == [];
        assert seen + rest == seen;
        break;
      }
      ghost var tail := DfsFrom(g, dfs.stack, dfs.discovered);
      assert rest == [v.value] + tail;
      assert v.value in Range(g.nodeCount) - d0;
      ShiftSeen(all, seen, v.value, tail);
      seen := seen + [v.value];
      walk.Mark(v.value);
    }
  }

  /** The `Bfs` loop of the `IfCheck` stage: search from `start`, stopping when
   *  `target` comes out. */
  method SearchReaches(g: Graph, start: nat, target: nat) returns (found: bool)
    requires ValidGraph(g) && start < g.nodeCount
    ensures found == Reaches(g, start, target)
  {
    var bfs := new Bfs(start);
    ghost var seen: seq<nat> := [];
    while true
      invariant InRange(bfs.queue, g.nodeCount)
      invariant Reachable(g, start) == seen + BfsFrom(g, bfs.State()) && target !in seen
      decreases Range(g.nodeCount) - bfs.discovered, |bfs.queue|
    {
      ghost var s0 := bfs.State();
      if bfs.queue != [] {
        BfsProgress(g, s0);
      }
      var v := bfs.Next(g);
      if v.None? {
        assert BfsFrom(g, s0) == [];
        return false;
      }
      ghost var tail := BfsFrom(g, bfs.State());
      assert BfsFrom(g, s0) == [v.value] + tail;
      ShiftSeen(Reachable(g, start), seen, v.value, tail);
      seen := seen + [v.value];
      if v.value == target {
        return true;
      }
    }
  }
}
