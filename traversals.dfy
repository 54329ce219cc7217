// The two petgraph walks the statement generator of generate_ast.rs runs over the
// block graph: `DfsPostOrder`, to find the block that jumps back to a loop header,
// and `Bfs`, to ask whether one branch target reaches the other.

module Traversals {
  import opened Wrappers
  import opened Graphs

  /** Every successor of a member is a member: a set no walk leaves. */
  predicate Closed(g: Graph, c: set<nat>)
  {
    forall v, w :: v in c && w in Neighbors(g.edges, v) ==> w in c
  }

  predicate AllIn(s: seq<nat>, c: set<nat>)
  {
    forall k :: 0 <= k < |s| ==> s[k] in c
  }

  // ----- DfsPostOrder -----

  datatype PostState = PostState(stack: seq<nat>, discovered: set<nat>, finished: set<nat>)

  /** A node `DfsPostOrder::next` returns, and the walk's state afterwards. */
  datatype PostVisit = PostVisit(node: nat, state: PostState)

  /** `DfsPostOrder::next`: the top of the stack, when first discovered, stays and has
   *  its undiscovered successors pushed above it; when met again it is popped, and
   *  returned if it was not finished yet. */
  function PostNext(g: Graph, s: PostState): (r: Option<PostVisit>)
    requires ValidGraph(g) && InRange(s.stack, g.nodeCount)
    ensures r.Some? ==>
      && r.value.node < g.nodeCount && r.value.node !in s.finished
      && r.value.state.finished == s.finished + {r.value.node}
      && s.discovered <= r.value.state.discovered
      && InRange(r.value.state.stack, g.nodeCount)
    decreases Range(g.nodeCount) - s.discovered, |s.stack|
  {
    if s.stack == [] then None
    else
      var nx := s.stack[|s.stack| - 1];
      if nx !in s.discovered then
        var d := s.discovered + {nx};
        NeighborsBound(g.edges, g.nodeCount, nx);
        PushedInRange(s.stack, Neighbors(g.edges, nx), d, g.nodeCount);
        assert nx in Range(g.nodeCount) - s.discovered;
        PostNext(g, PostState(Pushed(s.stack, Neighbors(g.edges, nx), d), d, s.finished))
      else if nx !in s.finished then
        Some(PostVisit(nx, PostState(s.stack[..|s.stack| - 1], s.discovered, s.finished + {nx})))
      else
        PostNext(g, PostState(s.stack[..|s.stack| - 1], s.discovered, s.finished))
  }

  /** One step of `PostNext` on a non-empty stack. */
  lemma PostNextUnfold(g: Graph, s: PostState)
    requires ValidGraph(g) && InRange(s.stack, g.nodeCount) && s.stack != []
    ensures var nx := s.stack[|s.stack| - 1];
      var d := s.discovered + {nx};
      && nx < g.nodeCount
      && (nx !in s.discovered ==> InRange(Pushed(s.stack, Neighbors(g.edges, nx), d), g.nodeCount))
      && (nx !in s.discovered ==> nx in Range(g.nodeCount) - s.discovered && PostNext(g, s) == PostNext(g, PostState(Pushed(s.stack, Neighbors(g.edges, nx), d), d, s.finished)))
      && (nx in s.discovered && nx !in s.finished ==> PostNext(g, s) == Some(PostVisit(nx, PostState(s.stack[..|s.stack| - 1], s.discovered, s.finished + {nx}))))
      && (nx in s.discovered && nx in s.finished ==> PostNext(g, s) == PostNext(g, PostState(s.stack[..|s.stack| - 1], s.discovered, s.finished)))
  {
    var nx := s.stack[|s.stack| - 1];
    NeighborsBound(g.edges, g.nodeCount, nx);
    PushedInRange(s.stack, Neighbors(g.edges, nx), s.discovered + {nx}, g.nodeCount);
  }

  /** The walk only returns nodes of a closed set that holds its stack. */
  lemma {:induction false} PostNextStaysIn(g: Graph, s: PostState, c: set<nat>)
    requires ValidGraph(g) && InRange(s.stack, g.nodeCount) && Closed(g, c) && AllIn(s.stack, c)
    ensures var r := PostNext(g, s);
      r.Some? ==> r.value.node in c && AllIn(r.value.state.stack, c)
    decreases Range(g.nodeCount) - s.discovered, |s.stack|
  {
    if s.stack != [] {
      var nx := s.stack[|s.stack| - 1];
      if nx !in s.discovered {
        var d := s.discovered + {nx};
        NeighborsBound(g.edges, g.nodeCount, nx);
        assert nx in Range(g.nodeCount) - s.discovered;
        var st := Pushed(s.stack, Neighbors(g.edges, nx), d);
        assert AllIn(st, c) by {
          forall k | 0 <= k < |st|
            ensures st[k] in c
          {
            if k < |s.stack| {
              assert st[k] == s.stack[k];
            }
          }
        }
        PostNextStaysIn(g, PostState(st, d, s.finished), c);
      } else if nx in s.finished {
        PostNextStaysIn(g, PostState(s.stack[..|s.stack| - 1], s.discovered, s.finished), c);
      }
    }
  }

  /** The `while let Some(node) = dfs.next(..)` loop that stops at the first node of
   *  `sources`. */
  function FirstOf(g: Graph, s: PostState, sources: seq<nat>): (r: Option<nat>)
    requires ValidGraph(g) && InRange(s.stack, g.nodeCount)
    ensures r.Some? ==> r.value in sources && r.value !in s.finished && r.value < g.nodeCount
    decreases Range(g.nodeCount) - s.finished
  {
    match PostNext(g, s)
    case None => None
    case Some(v) =>
      if v.node in sources then Some(v.node)
      else
        assert v.node in Range(g.nodeCount) - s.finished;
        FirstOf(g, v.state, sources)
  }

  lemma {:induction false} FirstOfStaysIn(g: Graph, s: PostState, sources: seq<nat>, c: set<nat>)
    requires ValidGraph(g) && InRange(s.stack, g.nodeCount) && Closed(g, c) && AllIn(s.stack, c)
    ensures FirstOf(g, s, sources).Some? ==> FirstOf(g, s, sources).value in c
    decreases Range(g.nodeCount) - s.finished
  {
    PostNextStaysIn(g, s, c);
    match PostNext(g, s)
    case None =>
    case Some(v) =>
      if v.node !in sources {
        assert v.node in Range(g.nodeCount) - s.finished;
        FirstOfStaysIn(g, v.state, sources, c);
      }
  }

  /** petgraph's `DfsPostOrder`. */
  class PostOrder {
    var stack: seq<nat>
    var discovered: set<nat>
    var finished: set<nat>

    function State(): PostState
      reads this
    {
      PostState(stack, discovered, finished)
    }

    /** `DfsPostOrder::new(graph, start)`. */
    constructor (start: nat)
      ensures State() == PostState([start], {}, {})
    {
      stack := [start];
      discovered := {};
      finished := {};
    }

    /** `DfsPostOrder::next`. */
    method Next(g: Graph) returns (v: Option<nat>)
      requires ValidGraph(g) && InRange(stack, g.nodeCount)
      modifies this
      ensures var r := PostNext(g, old(State()));
        && (r.None? ==> v.None?)
        && (r.Some? ==> v == Some(r.value.node) && State() == r.value.state)
    {
      while stack != []
        invariant InRange(stack, g.nodeCount)
        invariant PostNext(g, State()) == PostNext(g, old(State()))
        decreases Range(g.nodeCount) - discovered, |stack|
      {
        var done;
        v, done := Step(g);
        if done {
          return;
        }
      }
      v := None;
    }

    /** One turn of the `while let Some(&nx) = self.stack.last()` loop of
     *  `DfsPostOrder::next`. */
    method Step(g: Graph) returns (v: Option<nat>, done: bool)
      requires ValidGraph(g) && InRange(stack, g.nodeCount) && stack != []
      modifies this
      ensures InRange(stack, g.nodeCount)
      ensures done ==> v.Some? && PostNext(g, old(State())) == Some(PostVisit(v.value, State()))
      ensures !done ==> PostNext(g, State()) == PostNext(g, old(State()))
      ensures !done ==>
        || Range(g.nodeCount) - discovered < Range(g.nodeCount) - old(discovered)
        || (discovered == old(discovered) && |stack| < old(|stack|))
    {
      var nx := stack[|stack| - 1];
      PostNextUnfold(g, State());
      done := false;
      v := None;
      if nx !in discovered {
        discovered := discovered + {nx};
        PushUndiscovered(Neighbors(g.edges, nx));
      } else {
        stack := stack[..|stack| - 1];
        if nx !in finished {
          finished := finished + {nx};
          v, done := Some(nx), true;
        }
      }
    }

    /** `discovered.visit(v)` and `finished.visit(v)`. */
    method Mark(v: nat)
      modifies this
      ensures stack == old(stack) && discovered == old(discovered) + {v} && finished == old(finished) + {v}
    {
      discovered := discovered + {v};
      finished := finished + {v};
    }

    /** The `for succ in graph.neighbors(nx)` loop of `DfsPostOrder::next`. */
    method PushUndiscovered(ns: seq<nat>)
      modifies this
      ensures stack == Pushed(old(stack), ns, discovered)
      ensures discovered == old(discovered) && finished == old(finished)
    {
      var j := 0;
      while j < |ns|
        invariant j <= |ns| && stack == Pushed(old(stack), ns[..j], discovered)
        invariant discovered == old(discovered) && finished == old(finished)
      {
        assert ns[..j + 1][..j] == ns[..j];
        if ns[j] !in discovered {
          stack := stack + [ns[j]];
        }
        j := j + 1;
      }
      assert ns[..|ns|] == ns;
    }
  }

  // ----- Bfs -----

  datatype BfsState = BfsState(queue: seq<nat>, discovered: set<nat>)

  datatype BfsVisit = BfsVisit(node: nat, state: BfsState)

  /** The successors that `Bfs::next` marks and queues, in order: each one not yet
   *  discovered, marking it as it goes. */
  function Enqueue(ns: seq<nat>, discovered: set<nat>): (r: seq<nat>)
    ensures NoDup(r)
    ensures forall k :: 0 <= k < |r| ==> r[k] in ns && r[k] !in discovered
    ensures forall x :: x in ns ==> x in discovered || x in r
    decreases |ns|
  {
    if ns == [] then []
    else if ns[0] in discovered then Enqueue(ns[1..], discovered)
    else
      var rest := Enqueue(ns[1..], discovered + {ns[0]});
      assert forall k :: 0 <= k < |rest| ==> rest[k] != ns[0];
      [ns[0]] + rest
  }

  /** `Bfs::next`: the front of the queue, with its new successors queued behind. */
  function BfsNext(g: Graph, s: BfsState): (r: Option<BfsVisit>)
  {
    if s.queue == [] then None
    else
      var v := s.queue[0];
      var added := Enqueue(Neighbors(g.edges, v), s.discovered);
      Some(BfsVisit(v, BfsState(s.queue[1..] + added, s.discovered + Elems(added))))
  }

  /** The nodes the search returns, in order. */
  function BfsFrom(g: Graph, s: BfsState): seq<nat>
    requires ValidGraph(g) && InRange(s.queue, g.nodeCount)
    decreases Range(g.nodeCount) - s.discovered, |s.queue|
  {
    match BfsNext(g, s)
    case None => []
    case Some(v) =>
      BfsProgress(g, s);
      [v.node] + BfsFrom(g, v.state)
  }

  /** A step either discovers a node or shortens the queue. */
  lemma BfsProgress(g: Graph, s: BfsState)
    requires ValidGraph(g) && InRange(s.queue, g.nodeCount) && s.queue != []
    ensures var t := BfsNext(g, s).value.state;
      && InRange(t.queue, g.nodeCount) && s.discovered <= t.discovered
      && (Range(g.nodeCount) - t.discovered < Range(g.nodeCount) - s.discovered
          || (t.discovered == s.discovered && |t.queue| < |s.queue|))
  {
    var v := s.queue[0];
    NeighborsBound(g.edges, g.nodeCount, v);
    var added := Enqueue(Neighbors(g.edges, v), s.discovered);
    if added != [] {
      assert added[0] in Range(g.nodeCount) - s.discovered;
      assert added[0] in Elems(added);
    } else {
      assert Elems(added) == {};
    }
  }

  /** `Bfs::new(graph, start)` followed by `next` until the end. */
  function Reachable(g: Graph, start: nat): seq<nat>
    requires ValidGraph(g) && start < g.nodeCount
  {
    BfsFrom(g, BfsState([start], {start}))
  }

  /** The `while let Some(node) = bfs.next(..)` loop that stops at `target`. */
  predicate Reaches(g: Graph, start: nat, target: nat)
    requires ValidGraph(g) && start < g.nodeCount
  {
    target in Reachable(g, start)
  }

  /** The discovered set once the search has ended. */
  function FinalDiscovered(g: Graph, s: BfsState): (r: set<nat>)
    requires ValidGraph(g) && InRange(s.queue, g.nodeCount)
    ensures s.discovered <= r
    decreases Range(g.nodeCount) - s.discovered, |s.queue|
  {
    match BfsNext(g, s)
    case None => s.discovered
    case Some(v) =>
      BfsProgress(g, s);
      FinalDiscovered(g, v.state)
  }

  /** Queued nodes are discovered, and every successor of a discovered node that has
   *  left the queue is discovered. */
  predicate BfsInv(g: Graph, s: BfsState)
  {
    && (forall k :: 0 <= k < |s.queue| ==> s.queue[k] in s.discovered)
    && (forall v, w :: v in s.discovered && v !in s.queue && w in Neighbors(g.edges, v) ==> w in s.discovered)
  }

  lemma BfsInvStep(g: Graph, s: BfsState)
    requires BfsInv(g, s) && s.queue != []
    ensures BfsInv(g, BfsNext(g, s).value.state)
  {
    var v := s.queue[0];
    var t := BfsNext(g, s).value.state;
    var added := Enqueue(Neighbors(g.edges, v), s.discovered);
    assert t.queue == s.queue[1..] + added;
    forall x, w | x in t.discovered && x !in t.queue && w in Neighbors(g.edges, x)
      ensures w in t.discovered
    {
      if x == v {
        assert w in s.discovered || w in added;
      } else {
        assert x !in added;
      }
    }
    forall k | 0 <= k < |t.queue|
      ensures t.queue[k] in t.discovered
    {
      if k < |s.queue| - 1 {
        assert t.queue[k] == s.queue[k + 1];
      } else {
        assert t.queue[k] == added[k - |s.queue| + 1];
      }
    }
  }

  /** From a consistent state the search returns the queued nodes and the nodes it
   *  goes on to discover, and it ends with a closed discovered set. */
  lemma {:induction false} BfsFromCovers(g: Graph, s: BfsState)
    requires ValidGraph(g) && InRange(s.queue, g.nodeCount) && BfsInv(g, s)
    ensures Closed(g, FinalDiscovered(g, s))
    ensures Elems(BfsFrom(g, s)) == Elems(s.queue) + (FinalDiscovered(g, s) - s.discovered)
    decreases Range(g.nodeCount) - s.discovered, |s.queue|
  {
    match BfsNext(g, s)
    case None =>
    case Some(v) =>
      BfsProgress(g, s);
      BfsInvStep(g, s);
      var t := v.state;
      var added := Enqueue(Neighbors(g.edges, v.node), s.discovered);
      BfsFromCovers(g, t);
      assert FinalDiscovered(g, s) == FinalDiscovered(g, t);
      assert BfsFrom(g, s) == [v.node] + BfsFrom(g, t);
      CoversStep(s.queue, added, BfsFrom(g, t), s.discovered, FinalDiscovered(g, t));
  }

  /** The set algebra of one step of `BfsFromCovers`. */
  lemma CoversStep(q: seq<nat>, added: seq<nat>, rest: seq<nat>, d: set<nat>, f: set<nat>)
    requires q != [] && (forall k :: 0 <= k < |added| ==> added[k] !in d) && d + Elems(added) <= f
    requires Elems(rest) == Elems(q[1..] + added) + (f - (d + Elems(added)))
    ensures Elems([q[0]] + rest) == Elems(q) + (f - d)
  {
    ElemsConcat([q[0]], rest);
    ElemsConcat([q[0]], q[1..]);
    assert q == [q[0]] + q[1..];
    ElemsConcat(q[1..], added);
  }

  lemma ElemsConcat(a: seq<nat>, b: seq<nat>)
    ensures Elems(a + b) == Elems(a) + Elems(b)
  {
  }

  lemma EnqueueUnfold(ns: seq<nat>, j: nat, d: set<nat>)
    requires j < |ns|
    ensures Enqueue(ns[j..], d) ==
      if ns[j] in d then Enqueue(ns[j + 1..], d) else [ns[j]] + Enqueue(ns[j + 1..], d + {ns[j]})
  {
    assert ns[j..][0] == ns[j] && ns[j..][1..] == ns[j + 1..];
  }

  /** One turn of the queuing loop, for a successor already discovered or not. */
  lemma EnqueueStep(ns: seq<nat>, j: nat, d0: set<nat>, added: seq<nat>, d: set<nat>)
    requires j < |ns| && d == d0 + Elems(added) && Enqueue(ns, d0) == added + Enqueue(ns[j..], d)
    ensures ns[j] in d ==> Enqueue(ns, d0) == added + Enqueue(ns[j + 1..], d)
    ensures ns[j] !in d ==>
      && Enqueue(ns, d0) == (added + [ns[j]]) + Enqueue(ns[j + 1..], d + {ns[j]})
      && d + {ns[j]} == d0 + Elems(added + [ns[j]])
  {
    EnqueueUnfold(ns, j, d);
    if ns[j] !in d {
      var rest := Enqueue(ns[j + 1..], d + {ns[j]});
      ElemsConcat(added, [ns[j]]);
      assert Elems([ns[j]]) == {ns[j]};
      ConcatAssoc(added, [ns[j]], rest);
    }
  }

  lemma ConcatAssoc(a: seq<nat>, b: seq<nat>, c: seq<nat>)
    ensures (a + b) + c == a + (b + c)
  {
  }

  /** The walk returns only nodes of every closed set that holds its queue. */
  lemma {:induction false} BfsFromStaysIn(g: Graph, s: BfsState, c: set<nat>)
    requires ValidGraph(g) && InRange(s.queue, g.nodeCount) && Closed(g, c) && AllIn(s.queue, c)
    ensures AllIn(BfsFrom(g, s), c)
    decreases Range(g.nodeCount) - s.discovered, |s.queue|
  {
    match BfsNext(g, s)
    case None =>
    case Some(v) =>
      BfsProgress(g, s);
      var added := Enqueue(Neighbors(g.edges, v.node), s.discovered);
      assert AllIn(v.state.queue, c) by {
        forall k | 0 <= k < |v.state.queue|
          ensures v.state.queue[k] in c
        {
          if k < |s.queue| - 1 {
            assert v.state.queue[k] == s.queue[k + 1];
          } else {
            assert v.state.queue[k] == added[k - |s.queue| + 1];
          }
        }
      }
      BfsFromStaysIn(g, v.state, c);
      var r := BfsFrom(g, s);
      assert r == [v.node] + BfsFrom(g, v.state);
      assert forall k :: 1 <= k < |r| ==> r[k] == BfsFrom(g, v.state)[k - 1];
  }

  /** `target` is reached from `start` exactly when it lies in every closed set that
   *  holds `start`: the search finds what is reachable and nothing else. */
  lemma ReachesMeansReachable(g: Graph, start: nat, target: nat)
    requires ValidGraph(g) && start < g.nodeCount
    ensures Reaches(g, start, target) <==>
      forall c :: start in c && Closed(g, c) ==> target in c
  {
    var s := BfsState([start], {start});
    if Reaches(g, start, target) {
      forall c | start in c && Closed(g, c)
        ensures target in c
      {
        BfsFromStaysIn(g, s, c);
      }
    } else {
      BfsFromCovers(g, s);
      var f := FinalDiscovered(g, s);
      assert Elems(s.queue) == {start};
      assert target !in Elems(Reachable(g, start));
      assert start in f && target !in f;
    }
  }

  /** petgraph's `Bfs`. */
  class Bfs {
    var queue: seq<nat>
    var discovered: set<nat>

    function State(): BfsState
      reads this
    {
      BfsState(queue, discovered)
    }

    /** `Bfs::new(graph, start)`: `start` is queued and discovered. */
    constructor (start: nat)
      ensures State() == BfsState([start], {start})
    {
      queue := [start];
      discovered := {start};
    }

    /** `Bfs::next`. */
    method Next(g: Graph) returns (v: Option<nat>)
      modifies this
      ensures var r := BfsNext(g, old(State()));
        && (r.None? ==> v.None? && State() == old(State()))
        && (r.Some? ==> v == Some(r.value.node) && State() == r.value.state)
    {
      if queue == [] {
        return None;
      }
      var node := queue[0];
      queue := queue[1..];
      EnqueueAll(Neighbors(g.edges, node));
      v := Some(node);
    }

    /** The `for succ in graph.neighbors(node)` loop of `Bfs::next`. */
    method EnqueueAll(ns: seq<nat>)
      modifies this
      ensures queue == old(queue) + Enqueue(ns, old(discovered))
      ensures discovered == old(discovered) + Elems(Enqueue(ns, old(discovered)))
    {
      ghost var added: seq<nat> := [];
      var j := 0;
      while j < |ns|
        invariant j <= |ns|
        invariant queue == old(queue) + added && discovered == old(discovered) + Elems(added)
        invariant Enqueue(ns, old(discovered)) == added + Enqueue(ns[j..], discovered)
      {
        EnqueueStep(ns, j, old(discovered), added, discovered);
        if ns[j] !in discovered {
          discovered := discovered + {ns[j]};
          queue := queue + [ns[j]];
          added := added + [ns[j]];
        }
        j := j + 1;
      }
      assert Enqueue(ns[j..], discovered) == [];
    }
  }
}
