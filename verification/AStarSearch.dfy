// A* search over a plan tree and the best-leaf search it falls back on
// (internal/agent/plan_search.go, lines 84 to 137 and 393 to 523).

module AStarSpec {
  import opened Wrappers
  import opened PlanTrees

  datatype Goal = Goal(maxDepth: int)

  function EdgeCost(n: Node): real {
    var c := 1.0 - n.score;
    if c < 0.1 then 0.1 else c
  }

  function Heuristic(n: Node, goal: Option<Goal>): (h: real)
    ensures h >= 0.0
  {
    var base := 1.0 - n.successProb;
    var left := if goal.Some? && goal.value.maxDepth > 0 then goal.value.maxDepth - n.depth else 0;
    var h := (if left > 0 then base + 0.1 * left as real else base) - n.progress * 0.5;
    if h < 0.0 then 0.0 else h
  }

  predicate IsGoal(n: Node, goal: Option<Goal>) {
    && goal.Some?
    && if n.action.Some? && n.action.value.kind.Verify? then n.status.Succeeded?
       else n.progress >= 1.0 || (n.children == [] && n.status.Succeeded? && n.progress >= 0.9)
  }

  // Cost of the way from the root, and its sum with the heuristic.
  ghost function Cost(t: Tree, id: string): real
    requires WellFormed(t) && id in t.nodes
    decreases t.level[id]
  {
    if id == t.root then 0.0 else assert ParentOk(t, id); Cost(t, t.nodes[id].parent) + EdgeCost(t.nodes[id])
  }

  ghost function Estimate(t: Tree, goal: Option<Goal>, id: string): real
    requires WellFormed(t) && id in t.nodes
  {
    Cost(t, id) + Heuristic(t.nodes[id], goal)
  }

  // The greatest estimate met on the way from the root.
  ghost function Bottleneck(t: Tree, goal: Option<Goal>, id: string): real
    requires WellFormed(t) && id in t.nodes
    decreases t.level[id]
  {
    var e := Estimate(t, goal, id);
    if id == t.root then e
    else
      assert ParentOk(t, id);
      var b := Bottleneck(t, goal, t.nodes[id].parent);
      if e > b then e else b
  }

  // No node on the way below the root is pruned.
  ghost predicate Reach(t: Tree, id: string)
    requires WellFormed(t) && id in t.nodes
    decreases t.level[id]
  {
    id == t.root || (!t.nodes[id].status.Pruned? && (assert ParentOk(t, id); Reach(t, t.nodes[id].parent)))
  }

  ghost predicate ReachableGoal(t: Tree, goal: Option<Goal>, y: string)
    requires WellFormed(t)
  {
    y in t.nodes && Reach(t, y) && IsGoal(t.nodes[y], goal)
  }

  function LiveAmong(t: Tree, cs: seq<string>): seq<string> {
    if cs == [] then []
    else LiveAmong(t, cs[..|cs| - 1]) +
         if cs[|cs| - 1] in t.nodes && !t.nodes[cs[|cs| - 1]].status.Pruned? then [cs[|cs| - 1]] else []
  }

  // The search under way: open is the frontier of closed.
  ghost predicate Searching(t: Tree, goal: Option<Goal>, open: seq<string>, closed: set<string>) {
    && WellFormed(t)
    && (forall i :: 0 <= i < |open| ==> open[i] !in closed && Frontier(t, open[i], closed))
    && (forall i, j :: 0 <= i < j < |open| ==> open[i] != open[j])
    && (t.root in closed || t.root in open)
    && (forall x :: x in closed ==> Frontier(t, x, closed) && !IsGoal(t.nodes[x], goal) && Surrounded(t, x, open, closed))
    && (forall x, y :: x in closed && ReachableGoal(t, goal, y) ==> Bounded(t, goal, x, y))
  }

  // Reached through closed nodes only.
  ghost predicate Frontier(t: Tree, x: string, closed: set<string>)
    requires WellFormed(t)
  {
    x in t.nodes && Reach(t, x) && (x == t.root || t.nodes[x].parent in closed)
  }

  ghost predicate Surrounded(t: Tree, x: string, open: seq<string>, closed: set<string>)
    requires x in t.nodes
  {
    var cs := t.nodes[x].children;
    forall i :: 0 <= i < |cs| && cs[i] in t.nodes && !t.nodes[cs[i]].status.Pruned? ==> cs[i] in closed || cs[i] in open
  }

  ghost predicate Bounded(t: Tree, goal: Option<Goal>, x: string, y: string)
    requires WellFormed(t)
  {
    x in t.nodes && y in t.nodes && Estimate(t, goal, x) <= Bottleneck(t, goal, y)
  }

  lemma {:induction false} BottleneckAbove(t: Tree, goal: Option<Goal>, m: string, y: string)
    requires WellFormed(t) && y in t.nodes && Above(t, m, y)
    ensures m in t.nodes && Estimate(t, goal, m) <= Bottleneck(t, goal, y)
    decreases t.level[y]
  {
    if m != y {
      assert ParentOk(t, y);
      BottleneckAbove(t, goal, m, t.nodes[y].parent);
    }
  }

  // On the way to any reachable node that is not closed, there is an open one.
  lemma {:induction false} SomeOpen(t: Tree, goal: Option<Goal>, open: seq<string>, closed: set<string>, y: string) returns (i: nat)
    requires Searching(t, goal, open, closed) && y in t.nodes && Reach(t, y) && y !in closed
    ensures i < |open| && Above(t, open[i], y)
    decreases t.level[y]
  {
    if y == t.root || t.nodes[y].parent in closed {
      if y != t.root {
        var p := t.nodes[y].parent;
        assert ParentOk(t, y) && Surrounded(t, p, open, closed);
        var k :| 0 <= k < |t.nodes[p].children| && t.nodes[p].children[k] == y;
      }
      i :| 0 <= i < |open| && open[i] == y;
    } else {
      assert ParentOk(t, y);
      i := SomeOpen(t, goal, open, closed, t.nodes[y].parent);
    }
  }

  // With the frontier empty, no goal can be reached.
  lemma NoGoal(t: Tree, goal: Option<Goal>, closed: set<string>)
    requires Searching(t, goal, [], closed)
    ensures forall y :: !ReachableGoal(t, goal, y)
  {
    forall y
      ensures !ReachableGoal(t, goal, y)
    {
      if ReachableGoal(t, goal, y) {
        if y !in closed { var i := SomeOpen(t, goal, [], closed, y); }
      }
    }
  }

  // An open node of least estimate lies below every goal's bottleneck.
  lemma LeastIsBelow(t: Tree, goal: Option<Goal>, open: seq<string>, closed: set<string>, k: nat, y: string)
    requires Searching(t, goal, open, closed) && k < |open| && ReachableGoal(t, goal, y)
    requires forall i :: 0 <= i < |open| ==> open[i] in t.nodes && Estimate(t, goal, open[k]) <= Estimate(t, goal, open[i])
    ensures Bounded(t, goal, open[k], y)
  {
    assert y !in closed;
    var i := SomeOpen(t, goal, open, closed, y);
    BottleneckAbove(t, goal, open[i], y);
  }

  // So the first goal popped has the least bottleneck of all reachable goals.
  lemma {:induction false} PathBelow(t: Tree, goal: Option<Goal>, open: seq<string>, closed: set<string>, x: string, y: string)
    requires Searching(t, goal, open, closed) && ReachableGoal(t, goal, y)
    requires Frontier(t, x, closed) && Bounded(t, goal, x, y)
    ensures Bottleneck(t, goal, x) <= Bottleneck(t, goal, y)
    decreases t.level[x]
  {
    if x != t.root {
      assert ParentOk(t, x);
      var p := t.nodes[x].parent;
      assert Frontier(t, p, closed) && Bounded(t, goal, p, y);
      PathBelow(t, goal, open, closed, p, y);
    }
  }

  lemma {:induction false} LiveMembers(t: Tree, cs: seq<string>)
    ensures forall x :: x in LiveAmong(t, cs) <==> x in cs && x in t.nodes && !t.nodes[x].status.Pruned?
  {
    if cs != [] {
      LiveMembers(t, cs[..|cs| - 1]);
      assert cs == cs[..|cs| - 1] + [cs[|cs| - 1]];
    }
  }

  lemma {:induction false} LiveDistinct(t: Tree, cs: seq<string>)
    requires forall i, j :: 0 <= i < j < |cs| ==> cs[i] != cs[j]
    ensures forall i, j :: 0 <= i < j < |LiveAmong(t, cs)| ==> LiveAmong(t, cs)[i] != LiveAmong(t, cs)[j]
  {
    if cs != [] {
      LiveDistinct(t, cs[..|cs| - 1]);
      LiveMembers(t, cs[..|cs| - 1]);
      assert cs[|cs| - 1] !in cs[..|cs| - 1];
    }
  }

  lemma NextOpen(t: Tree, cur: string, closed: set<string>, c: string)
    requires WellFormed(t) && Frontier(t, cur, closed) && cur !in closed && c in LiveAmong(t, t.nodes[cur].children)
    requires forall x :: x in closed ==> Frontier(t, x, closed)
    ensures c in t.nodes && t.nodes[c].parent == cur && c != t.root && c != cur
    ensures Reach(t, c) && c !in closed && Frontier(t, c, closed + {cur})
  {
    LiveMembers(t, t.nodes[cur].children);
    assert ChildrenOk(t, cur);
    assert ParentOk(t, c);
    assert c in closed ==> Frontier(t, c, closed);
  }

  function Popped(open: seq<string>, k: nat): seq<string>
    requires k < |open|
  {
    open[..k] + open[k + 1..]
  }

  lemma PoppedMembers(open: seq<string>, k: nat)
    requires k < |open| && forall i, j :: 0 <= i < j < |open| ==> open[i] != open[j]
    ensures forall x :: x in Popped(open, k) <==> x in open && x != open[k]
    ensures forall i, j :: 0 <= i < j < |Popped(open, k)| ==> Popped(open, k)[i] != Popped(open, k)[j]
  {
    var rest := Popped(open, k);
    forall x | x in open && x != open[k]
      ensures x in rest
    {
      var i :| 0 <= i < |open| && open[i] == x;
      assert rest[if i < k then i else i - 1] == x;
    }
  }

  // Closing a least non-goal and opening its live children keeps the search going; no node is ever
  // opened twice, so popping a closed one never happens.
  lemma Expands(t: Tree, goal: Option<Goal>, open: seq<string>, closed: set<string>, k: nat)
    requires Searching(t, goal, open, closed) && k < |open| && !IsGoal(t.nodes[open[k]], goal)
    requires forall i :: 0 <= i < |open| ==> open[i] in t.nodes && Estimate(t, goal, open[k]) <= Estimate(t, goal, open[i])
    ensures Searching(t, goal, Popped(open, k) + LiveAmong(t, t.nodes[open[k]].children), closed + {open[k]})
  {
    var cur := open[k];
    var rest, more := Popped(open, k), LiveAmong(t, t.nodes[cur].children);
    var next, done := rest + more, closed + {cur};
    PoppedMembers(open, k);
    assert ChildrenOk(t, cur);
    LiveDistinct(t, t.nodes[cur].children);
    LiveMembers(t, t.nodes[cur].children);
    forall i | 0 <= i < |next|
      ensures next[i] !in done && Frontier(t, next[i], done)
    {
      if i < |rest| {
        assert next[i] in rest;
        var j :| 0 <= j < |open| && open[j] == next[i];
        assert Frontier(t, open[j], closed);
      } else {
        assert next[i] in more;
        NextOpen(t, cur, closed, next[i]);
      }
    }
    NextDistinct(t, open, closed, cur, rest, more);
    forall x | x in done
      ensures Frontier(t, x, done) && Surrounded(t, x, next, done)
    {
      if x in closed { assert Frontier(t, x, closed) && Surrounded(t, x, open, closed); }
    }
    forall x, y | x in done && ReachableGoal(t, goal, y)
      ensures Bounded(t, goal, x, y)
    {
      if x == cur { LeastIsBelow(t, goal, open, closed, k, y); }
    }
  }

  lemma NextDistinct(t: Tree, open: seq<string>, closed: set<string>, cur: string, rest: seq<string>, more: seq<string>)
    requires WellFormed(t) && cur in t.nodes && Frontier(t, cur, closed) && cur !in closed
    requires more == LiveAmong(t, t.nodes[cur].children)
    requires forall x :: x in closed ==> Frontier(t, x, closed)
    requires forall x :: x in rest ==> Frontier(t, x, closed)
    requires forall i, j :: 0 <= i < j < |rest| ==> rest[i] != rest[j]
    requires forall i, j :: 0 <= i < j < |more| ==> more[i] != more[j]
    ensures forall i, j :: 0 <= i < j < |rest + more| ==> (rest + more)[i] != (rest + more)[j]
  {
    forall c | c in more
      ensures c !in rest
    {
      NextOpen(t, cur, closed, c);
    }
    forall i, j | 0 <= i < j < |rest + more|
      ensures (rest + more)[i] != (rest + more)[j]
    {
      if i < |rest| <= j { assert rest[i] in rest && more[j - |rest|] in more; }
    }
  }

  lemma Starts(t: Tree, goal: Option<Goal>)
    requires WellFormed(t)
    ensures Searching(t, goal, [t.root], {})
  {
  }

  // What the search returns when it finds a goal.
  ghost predicate LeastBottleneck(t: Tree, goal: Option<Goal>, g: string)
    requires WellFormed(t)
  {
    ReachableGoal(t, goal, g) &&
    forall y :: ReachableGoal(t, goal, y) ==> y in t.nodes && Bottleneck(t, goal, g) <= Bottleneck(t, goal, y)
  }

  lemma FirstGoal(t: Tree, goal: Option<Goal>, open: seq<string>, closed: set<string>, k: nat)
    requires Searching(t, goal, open, closed) && k < |open| && IsGoal(t.nodes[open[k]], goal)
    requires forall i :: 0 <= i < |open| ==> open[i] in t.nodes && Estimate(t, goal, open[k]) <= Estimate(t, goal, open[i])
    ensures LeastBottleneck(t, goal, open[k])
  {
    forall y | ReachableGoal(t, goal, y)
      ensures Bottleneck(t, goal, open[k]) <= Bottleneck(t, goal, y)
    {
      LeastIsBelow(t, goal, open, closed, k, y);
      PathBelow(t, goal, open, closed, open[k], y);
    }
  }

  // What the search finds when a node is popped: it cannot have been closed before.
  lemma NeverClosed(t: Tree, goal: Option<Goal>, open: seq<string>, closed: set<string>, k: nat)
    requires Searching(t, goal, open, closed) && k < |open|
    ensures open[k] in t.nodes && open[k] !in closed
    ensures forall i :: 0 <= i < |t.nodes[open[k]].children| ==> t.nodes[open[k]].children[i] !in closed + {open[k]}
  {
    var cur := open[k];
    assert Frontier(t, cur, closed) && ChildrenOk(t, cur);
    forall i | 0 <= i < |t.nodes[cur].children|
      ensures t.nodes[cur].children[i] !in closed + {cur}
    {
      var c := t.nodes[cur].children[i];
      assert ParentOk(t, c);
      assert c in closed ==> Frontier(t, c, closed);
    }
  }

  // ----- the best leaf -----

  ghost function Total(t: Tree, id: string): real
    requires WellFormed(t) && id in t.nodes
    decreases t.level[id]
  {
    (if id == t.root then 0.0 else (assert ParentOk(t, id); Total(t, t.nodes[id].parent))) + t.nodes[id].score
  }

  ghost predicate LiveLeaf(t: Tree, x: string)
    requires WellFormed(t)
  {
    x in t.nodes && Reach(t, x) && t.nodes[x].children == []
  }

  ghost predicate BestLeaf(t: Tree, x: string)
    requires WellFormed(t)
  {
    LiveLeaf(t, x) && Total(t, x) > -1.0 && forall y :: LiveLeaf(t, y) ==> y in t.nodes && Total(t, y) <= Total(t, x)
  }

  // The path to a reachable leaf of greatest total score, or the root alone when there is none.
  ghost predicate BestLeafPath(t: Tree, p: seq<string>)
    requires WellFormed(t)
  {
    || (exists x :: BestLeaf(t, x) && x in t.nodes && p == PathTo(t, x))
    || (p == [t.root] && forall y :: LiveLeaf(t, y) ==> y in t.nodes && Total(t, y) <= -1.0)
  }

  lemma {:induction false} ReachUp(t: Tree, m: string, y: string)
    requires WellFormed(t) && y in t.nodes && Above(t, m, y) && Reach(t, y)
    ensures m in t.nodes && Reach(t, m)
    decreases t.level[y]
  {
    if m != y {
      assert ParentOk(t, y);
      ReachUp(t, m, t.nodes[y].parent);
    }
  }

  lemma {:induction false} TotalPositive(t: Tree, x: string)
    requires WellFormed(t) && x in t.nodes && forall id :: id in t.nodes ==> 0.0 <= t.nodes[id].score
    ensures Total(t, x) >= 0.0
    decreases t.level[x]
  {
    if x != t.root {
      assert ParentOk(t, x);
      TotalPositive(t, t.nodes[x].parent);
    }
  }

  // With scores in range, the root alone is returned only when no leaf can be reached.
  lemma FallbackIsLeaf(t: Tree, p: seq<string>, y: string)
    requires WellFormed(t) && BestLeafPath(t, p) && LiveLeaf(t, y)
    requires forall id :: id in t.nodes ==> 0.0 <= t.nodes[id].score <= 1.0
    ensures exists x :: BestLeaf(t, x) && x in t.nodes && p == PathTo(t, x)
  {
    TotalPositive(t, y);
  }

  // The leaves below a node that the first n children lead to.
  ghost predicate Covered(t: Tree, id: string, n: nat, y: string)
    requires WellFormed(t) && id in t.nodes && n <= |t.nodes[id].children|
  {
    LiveLeaf(t, y) && exists i :: 0 <= i < n && Above(t, t.nodes[id].children[i], y)
  }

  lemma CoversAll(t: Tree, id: string, y: string)
    requires WellFormed(t) && id in t.nodes && t.nodes[id].children != [] && LiveLeaf(t, y) && Above(t, id, y)
    ensures Covered(t, id, |t.nodes[id].children|, y)
  {
    var c := Toward(t, id, y);
    assert ParentOk(t, c);
    var i :| 0 <= i < |t.nodes[id].children| && t.nodes[id].children[i] == c;
  }

  // A pruned child covers nothing.
  lemma PrunedCoversNone(t: Tree, id: string, n: nat, y: string)
    requires WellFormed(t) && id in t.nodes && n < |t.nodes[id].children|
    requires t.nodes[id].children[n] in t.nodes && t.nodes[t.nodes[id].children[n]].status.Pruned?
    ensures Covered(t, id, n + 1, y) ==> Covered(t, id, n, y)
  {
    if Covered(t, id, n + 1, y) {
      var i :| 0 <= i < n + 1 && Above(t, t.nodes[id].children[i], y);
      ReachUp(t, t.nodes[id].children[i], y);
      assert ChildrenOk(t, id);
    }
  }

  lemma ChildReached(t: Tree, id: string, i: nat)
    requires WellFormed(t) && id in t.nodes && Reach(t, id) && i < |t.nodes[id].children|
    ensures var c := t.nodes[id].children[i];
      && c in t.nodes && Total(t, c) == Total(t, id) + t.nodes[c].score
      && (!t.nodes[c].status.Pruned? ==> Reach(t, c))
      && PlanTrees.Below(t, c) <= PlanTrees.Below(t, id) && |PlanTrees.Below(t, c)| < |PlanTrees.Below(t, id)|
  {
    assert ChildrenOk(t, id);
    ChildIsBelow(t, id, i);
  }

  // ----- when the result is a cheapest path -----

  // The heuristic never overestimates the cost from a node to a goal below it.
  ghost predicate Admissible(t: Tree, goal: Option<Goal>)
    requires WellFormed(t)
  {
    forall y, m :: ReachableGoal(t, goal, y) && Above(t, m, y) ==> m in t.nodes && Estimate(t, goal, m) <= Cost(t, y)
  }

  lemma {:induction false} BottleneckIsEstimate(t: Tree, goal: Option<Goal>, y: string, x: string)
    requires WellFormed(t) && Admissible(t, goal) && ReachableGoal(t, goal, y) && Above(t, x, y) && x in t.nodes
    ensures Bottleneck(t, goal, x) <= Cost(t, y)
    decreases t.level[x]
  {
    if x != t.root {
      assert ParentOk(t, x);
      AboveParent(t, x, y);
      BottleneckIsEstimate(t, goal, y, t.nodes[x].parent);
    }
  }

  lemma {:induction false} AboveParent(t: Tree, x: string, y: string)
    requires WellFormed(t) && y in t.nodes && x in t.nodes && x != t.root && Above(t, x, y)
    ensures t.nodes[x].parent in t.nodes && Above(t, t.nodes[x].parent, y)
    decreases t.level[y]
  {
    assert ParentOk(t, x);
    if x == y {
      assert Above(t, t.nodes[x].parent, t.nodes[x].parent);
    } else {
      assert ParentOk(t, y);
      AboveParent(t, x, t.nodes[y].parent);
    }
  }

  // Under an admissible heuristic a goal of least bottleneck is a goal of least cost.
  lemma AdmissibleIsOptimal(t: Tree, goal: Option<Goal>, g: string, y: string)
    requires WellFormed(t) && Admissible(t, goal) && LeastBottleneck(t, goal, g) && ReachableGoal(t, goal, y)
    ensures Cost(t, g) <= Cost(t, y)
  {
    BottleneckIsEstimate(t, goal, y, y);
    BottleneckAbove(t, goal, g, g);
  }

  // The heuristic is not admissible in general: of two goals below the root, the dearer is returned.
  function Biased(): Tree {
    var leaf := Node("r", [], None, 0.9, 0.0, 1.0, NodePending, None, 1, 0, 0.0);
    Tree("r", map["r" := leaf.(parent := "", children := ["a", "b"], successProb := 1.0, progress := 0.0, depth := 0),
                  "a" := leaf,
                  "b" := leaf.(score := 0.5, successProb := 1.0)],
         map["r" := 0, "a" := 1, "b" := 1])
  }

  lemma NotOptimal()
    ensures WellFormed(Biased())
    ensures ReachableGoal(Biased(), Some(Goal(0)), "a") && ReachableGoal(Biased(), Some(Goal(0)), "b")
    ensures forall g :: LeastBottleneck(Biased(), Some(Goal(0)), g) ==> g == "b"
    ensures Cost(Biased(), "a") < Cost(Biased(), "b")
  {
    var t, goal := Biased(), Some(Goal(0));
    BiasedWellFormed();
    assert ParentOk(t, "a") && ParentOk(t, "b");
    assert Cost(t, "r") == 0.0 && Reach(t, "r");
    assert Bottleneck(t, goal, "a") == 0.6 && Bottleneck(t, goal, "b") == 0.5 by {
      assert Cost(t, "a") == 0.1 && Cost(t, "b") == 0.5;
      assert Bottleneck(t, goal, "r") == 0.0;
    }
    assert Cost(t, "a") == 0.1 && Cost(t, "b") == 0.5;
    assert Estimate(t, goal, "a") == 0.6 && Estimate(t, goal, "b") == 0.5 && Estimate(t, goal, "r") == 0.0;
  }

  lemma BiasedWellFormed()
    ensures WellFormed(Biased())
  {
    var t := Biased();
    assert ChildrenOk(t, "r") && ChildrenOk(t, "a") && ChildrenOk(t, "b") && ParentOk(t, "a") && ParentOk(t, "b");
  }
}

module AStar {
  import opened Wrappers
  import opened PlanTrees
  import opened AStarSpec
  import opened AStarOutcomes

  // An open-set entry; way holds the chain of cameFrom links, from the root to the node.
  datatype Entry = Entry(node: PlanNode, g: real, f: real, way: seq<PlanNode>)

  function EntryIds(es: seq<Entry>): (r: seq<string>)
    ensures |r| == |es| && forall i :: 0 <= i < |es| ==> r[i] == es[i].node.id
  {
    seq(|es|, i requires 0 <= i < |es| => es[i].node.id)
  }

  class Planner {

    ghost predicate EntryOk(pt: PlanTree, goal: Option<Goal>, e: Entry)
      reads pt`nodeIndex, pt`tree
    {
      && WellFormed(pt.tree) && pt.Owns(e.node) && e.node.id in pt.tree.nodes
      && e.g == Cost(pt.tree, e.node.id) && e.f == Estimate(pt.tree, goal, e.node.id)
      && Names(e.way) == PathTo(pt.tree, e.node.id) && forall i :: 0 <= i < |e.way| ==> pt.Owns(e.way[i])
    }

    method NodeHeuristic(node: PlanNode, goal: Option<Goal>) returns (h: real)
      ensures h == Heuristic(node.AsNode(), goal)
      // What success is missing, a tenth for each level left, less half the progress; not below zero.
      ensures var left := if goal.None? || goal.value.maxDepth <= node.depth || goal.value.maxDepth <= 0 then 0 else goal.value.maxDepth - node.depth;
        var sum := 1.0 - node.successProb + 0.1 * left as real - 0.5 * node.goalProgress;
        h >= 0.0 && h >= sum && (h == 0.0 || h == sum)
    {
      h := 1.0 - node.successProb;
      if goal.Some? && goal.value.maxDepth > 0 {
        var remaining := goal.value.maxDepth - node.depth;
        if remaining > 0 { h := h + 0.1 * remaining as real; }
      }
      h := h - node.goalProgress * 0.5;
      if h < 0.0 { h := 0.0; }
    }

    method IsGoalNode(node: PlanNode, goal: Option<Goal>) returns (b: bool)
      ensures b == IsGoal(node.AsNode(), goal)
      // A verification step is a goal just when it has succeeded, whatever its progress; any other node
      // when its progress is complete, or nearly so in a leaf that has succeeded.
      ensures goal.None? ==> !b
      ensures goal.Some? && node.action.Some? && node.action.value.kind == Verify ==> (b <==> node.status == Succeeded)
      ensures goal.Some? && (node.action.Some? ==> node.action.value.kind != Verify) ==>
                (b <==> node.goalProgress >= 1.0 || (node.children == [] && node.status == Succeeded && node.goalProgress >= 0.9))
    {
      if goal.None? { return false; }
      if node.action.Some? && node.action.value.kind == Verify { return node.status == Succeeded; }
      if node.goalProgress >= 1.0 { return true; }
      b := node.children == [] && node.status == Succeeded && node.goalProgress >= 0.9;
    }

    // The entry of least fScore; the sort is not stable, so any such entry may come first.
    method Least(es: seq<Entry>) returns (k: nat)
      requires es != []
      ensures k < |es| && forall i :: 0 <= i < |es| ==> es[k].f <= es[i].f
    {
      k := 0;
      for i := 0 to |es|
        invariant k < |es| && forall j :: 0 <= j < i ==> es[k].f <= es[j].f
      {
        if es[i].f < es[k].f { k := i; }
      }
    }

    method ChildEntry(pt: PlanTree, goal: Option<Goal>, cur: Entry, child: PlanNode) returns (e: Entry)
      requires pt.Valid() && EntryOk(pt, goal, cur) && pt.Owns(child) && child.parentId == cur.node.id
      ensures e.node == child && EntryOk(pt, goal, e)
    {
      hide PlanTree.Valid, EdgeCost, Heuristic;
      pt.Climb(child);
      pt.Data(child);
      ChildCost(pt.tree, child.id);
      NotAParent(pt, cur.node);
      var cost := 1.0 - child.score;
      if cost < 0.1 { cost := 0.1; }
      CostIs(child.AsNode());
      var h := NodeHeuristic(child, goal);
      assert Names(cur.way + [child]) == Names(cur.way) + [child.id];
      e := Entry(child, cur.g + cost, cur.g + cost + h, cur.way + [child]);
    }

    lemma NotAParent(pt: PlanTree, n: PlanNode)
      requires pt.Valid() && pt.Owns(n)
      ensures n.id != ""
    {
    }

    lemma ChildCost(t: Tree, c: string)
      requires WellFormed(t) && c in t.nodes && c != t.root
      ensures t.nodes[c].parent in t.nodes && Cost(t, c) == Cost(t, t.nodes[c].parent) + EdgeCost(t.nodes[c])
    {
      assert ParentOk(t, c);
    }

    lemma CostIs(n: Node)
      ensures EdgeCost(n) == if 1.0 - n.score < 0.1 then 0.1 else 1.0 - n.score
    {
    }

    // The live children of a node just closed join the open set.
    method Open(pt: PlanTree, goal: Option<Goal>, cur: Entry, rest: seq<Entry>, closed: set<string>) returns (es: seq<Entry>)
      requires pt.Valid() && EntryOk(pt, goal, cur) && forall i :: 0 <= i < |rest| ==> EntryOk(pt, goal, rest[i])
      requires forall i :: 0 <= i < |cur.node.children| ==> cur.node.children[i] !in closed
      ensures forall i :: 0 <= i < |es| ==> EntryOk(pt, goal, es[i])
      ensures EntryIds(es) == EntryIds(rest) + LiveAmong(pt.tree, cur.node.children)
    {
      hide PlanTree.Valid, EntryOk;
      es := rest;
      var children := cur.node.children;
      Owned(pt, goal, cur);
      for n := 0 to |children|
        invariant forall i :: 0 <= i < |es| ==> EntryOk(pt, goal, es[i])
        invariant EntryIds(es) == EntryIds(rest) + LiveAmong(pt.tree, children[..n])
      {
        assert children[..n + 1][..n] == children[..n];
        var child := ChildOf(pt, cur.node, n);
        if children[n] !in closed && child.status != Pruned {
          var e := ChildEntry(pt, goal, cur, child);
          assert EntryIds(es + [e]) == EntryIds(es) + [child.id];
          es := es + [e];
        }
      }
      assert children[..|children|] == children;
    }

    lemma Owned(pt: PlanTree, goal: Option<Goal>, e: Entry)
      requires EntryOk(pt, goal, e)
      ensures pt.Owns(e.node) && WellFormed(pt.tree) && e.node.id in pt.tree.nodes
      ensures e.f == Estimate(pt.tree, goal, e.node.id)
      ensures Names(e.way) == PathTo(pt.tree, e.node.id) && forall i :: 0 <= i < |e.way| ==> pt.Owns(e.way[i])
    {
    }

    method ChildOf(pt: PlanTree, n: PlanNode, i: nat) returns (child: PlanNode)
      requires pt.Valid() && pt.Owns(n) && i < |n.children|
      ensures pt.Owns(child) && child.id == n.children[i] && child.id in pt.tree.nodes && child.parentId == n.id
      ensures pt.tree.nodes[child.id].status == child.status
    {
      pt.Seen(n);
      assert ChildrenOk(pt.tree, n.id);
      child := pt.nodeIndex[n.children[i]];
      pt.Seen(child);
    }

    method InitialOpen(pt: PlanTree, goal: Option<Goal>) returns (open: seq<Entry>)
      requires pt.Valid() && WellFormed(pt.tree)
      ensures |open| == 1 && EntryOk(pt, goal, open[0]) && EntryIds(open) == [pt.tree.root]
    {
      hide Heuristic;
      pt.Found(pt.tree.root);
      pt.Data(pt.root);
      var h := NodeHeuristic(pt.root, goal);
      assert Names([pt.root]) == [pt.tree.root];
      open := [Entry(pt.root, 0.0, h, [pt.root])];
      assert EntryIds(open) == [pt.tree.root];
    }

    lemma LeastEstimate(pt: PlanTree, goal: Option<Goal>, open: seq<Entry>, k: nat)
      requires k < |open| && WellFormed(pt.tree) && forall i :: 0 <= i < |open| ==> EntryOk(pt, goal, open[i]) && open[k].f <= open[i].f
      ensures var ids := EntryIds(open);
        forall i :: 0 <= i < |ids| ==> ids[k] in pt.tree.nodes && ids[i] in pt.tree.nodes
                                       && Estimate(pt.tree, goal, ids[k]) <= Estimate(pt.tree, goal, ids[i])
    {
      assert EntryOk(pt, goal, open[k]);
    }

    // The nodes in the open set are the ones that may be popped.
    lemma PoppedNext(t: Tree, goal: Option<Goal>, open: seq<string>, closed: set<string>, k: nat)
      requires Searching(t, goal, open, closed) && k < |open|
      requires forall i :: 0 <= i < |open| ==> open[i] in t.nodes && Estimate(t, goal, open[k]) <= Estimate(t, goal, open[i])
      ensures AStarOutcomes.Next(t, goal, closed, open[k])
    {
      forall z | Waiting(t, closed, z)
        ensures z in t.nodes && Estimate(t, goal, open[k]) <= Estimate(t, goal, z)
      {
        if z != t.root {
          var p := t.nodes[z].parent;
          assert ParentOk(t, z) && Surrounded(t, p, open, closed);
          var i :| 0 <= i < |t.nodes[p].children| && t.nodes[p].children[i] == z;
        }
        var j :| 0 <= j < |open| && open[j] == z;
      }
    }

    lemma CourseGoesOn(t: Tree, goal: Option<Goal>, closed: set<string>, x: string)
      requires WellFormed(t) && AStarOutcomes.Next(t, goal, closed, x) && x in t.nodes
      ensures IsGoal(t.nodes[x], goal) ==> CanReturn(t, goal, closed, x)
      ensures !IsGoal(t.nodes[x], goal) ==> forall g :: CanReturn(t, goal, closed + {x}, g) ==> CanReturn(t, goal, closed, g)
    {
    }

    // astarSearch
    method Search(pt: PlanTree, goal: Option<Goal>) returns (path: seq<PlanNode>, ghost found: Option<string>)
      requires pt.Valid() && WellFormed(pt.tree)
      ensures forall i :: 0 <= i < |path| ==> pt.Owns(path[i])
      ensures found.Some? ==>
                && CanReturn(pt.tree, goal, {}, found.value) && Returnable(pt.tree, goal, found.value)
                && LeastBottleneck(pt.tree, goal, found.value)
                && found.value in pt.tree.nodes && Names(path) == PathTo(pt.tree, found.value)
      ensures found.None? ==> (forall y :: !ReachableGoal(pt.tree, goal, y)) && BestLeafPath(pt.tree, Names(path))
    {
      hide PlanTree.Valid, EntryOk, WellFormed, Searching, Estimate, LeastBottleneck, BestLeafPath, CanReturn, Returnable, AStarOutcomes.Next;
      ghost var t := pt.tree;
      var open := InitialOpen(pt, goal);
      var closed: set<string> := {};
      Starts(t, goal);
      while open != []
        invariant forall i :: 0 <= i < |open| ==> EntryOk(pt, goal, open[i])
        invariant Searching(t, goal, EntryIds(open), closed)
        invariant forall g :: CanReturn(t, goal, closed, g) ==> CanReturn(t, goal, {}, g)
        decreases t.nodes.Keys - closed
      {
        var k := Least(open);
        var cur := open[k];
        Owned(pt, goal, cur);
        ghost var ids := EntryIds(open);
        LeastEstimate(pt, goal, open, k);
        // The source skips a node already closed here; that never happens.
        NeverClosed(t, goal, ids, closed, k);
        pt.Data(cur.node);
        var reached := IsGoalNode(cur.node, goal);
        PoppedNext(t, goal, ids, closed, k);
        CourseGoesOn(t, goal, closed, cur.node.id);
        if reached {
          FirstGoal(t, goal, ids, closed, k);
          WhatReturns(t, goal, cur.node.id);
          return cur.way, Some(cur.node.id);
        }
        Expands(t, goal, ids, closed, k);
        var rest := open[..k] + open[k + 1..];
        assert EntryIds(rest) == AStarSpec.Popped(ids, k);
        open := Open(pt, goal, cur, rest, closed + {cur.node.id});
        closed := closed + {cur.node.id};
      }
      assert EntryIds(open) == [];
      NoGoal(t, goal, closed);
      path := HighestScoringPath(pt);
      found := None;
    }

    // findHighestScoringPath; findParent's search is the lookup of the parent by ID.
    method HighestScoringPath(pt: PlanTree) returns (path: seq<PlanNode>)
      requires pt.Valid() && WellFormed(pt.tree)
      ensures BestLeafPath(pt.tree, Names(path)) && forall i :: 0 <= i < |path| ==> pt.Owns(path[i])
    {
      hide PlanTree.Valid, WellFormed, LiveLeaf, Total;
      pt.Found(pt.tree.root);
      pt.Data(pt.root);
      RootTotal(pt.tree);
      var leaf, score := FindBest(pt, pt.root, 0.0, null, -1.0);
      forall y | LiveLeaf(pt.tree, y)
        ensures y in pt.tree.nodes && Total(pt.tree, y) <= score
      {
        LeafIn(pt.tree, y);
      }
      if leaf == null {
        assert Names([pt.root]) == [pt.tree.root];
        return [pt.root];
      }
      assert BestLeaf(pt.tree, leaf.id);
      path := pt.ReconstructPath(leaf.id);
    }

    lemma RootTotal(t: Tree)
      requires WellFormed(t)
      ensures t.root in t.nodes && Total(t, t.root) == 0.0 + t.nodes[t.root].score && Reach(t, t.root)
    {
    }

    lemma LeafIn(t: Tree, y: string)
      requires WellFormed(t) && LiveLeaf(t, y)
      ensures y in t.nodes && Above(t, t.root, y)
    {
      RootIsAbove(t, y);
    }

    // The recursive closure: the best leaf so far, updated with those below n.
    method FindBest(pt: PlanTree, n: PlanNode, cumulative: real, leaf: PlanNode?, score: real) returns (best: PlanNode?, most: real)
      requires pt.Valid() && WellFormed(pt.tree) && pt.Owns(n) && n.id in pt.tree.nodes && Reach(pt.tree, n.id)
      requires Total(pt.tree, n.id) == cumulative + n.score
      ensures forall y :: y in pt.tree.nodes && LiveLeaf(pt.tree, y) && Above(pt.tree, n.id, y) ==> Total(pt.tree, y) <= most
      ensures Improved(pt, leaf, score, best, most)
      decreases |PlanTrees.Below(pt.tree, n.id)|
    {
      hide PlanTree.Valid, WellFormed, Total, Reach, PlanTrees.Below, Covered, Above, PlanNode.AsNode;
      ghost var t := pt.tree;
      best, most := leaf, score;
      var newScore := cumulative + n.score;
      pt.Mine(n);
      if n.children == [] {
        LoneLeaf(t, n.id);
        if newScore > score { best, most := n, newScore; }
        return;
      }
      CoveredNone(t, n.id);
      for i := 0 to |n.children|
        invariant forall y :: y in t.nodes && Covered(t, n.id, i, y) ==> Total(t, y) <= most
        invariant Improved(pt, leaf, score, best, most)
      {
        ghost var b0, m0 := best, most;
        var child := ChildOf(pt, n, i);
        ChildReached(t, n.id, i);
        if child.status != Pruned {
          pt.Scored(child);
          best, most := FindBest(pt, child, newScore, best, most);
          CoveredNext(t, n.id, i);
        } else {
          forall y | y in t.nodes && Covered(t, n.id, i + 1, y)
            ensures Covered(t, n.id, i, y)
          {
            PrunedCoversNone(t, n.id, i, y);
          }
        }
      }
      forall y | y in t.nodes && LiveLeaf(t, y) && Above(t, n.id, y)
        ensures Total(t, y) <= most
      {
        CoversAll(t, n.id, y);
      }
    }

    ghost predicate Improved(pt: PlanTree, leaf: PlanNode?, score: real, best: PlanNode?, most: real)
      requires WellFormed(pt.tree)
      reads pt`tree, pt`nodeIndex
    {
      && most >= score
      && ((best == leaf && most == score) ||
          (best != null && most > score && pt.Owns(best) && LiveLeaf(pt.tree, best.id) && Total(pt.tree, best.id) == most))
    }

    lemma HasChild(t: Tree, id: string, y: string)
      requires WellFormed(t) && id in t.nodes && y in t.nodes && Above(t, id, y) && y != id
      ensures t.nodes[id].children != []
    {
      assert ParentOk(t, Toward(t, id, y));
    }

    lemma CoveredNone(t: Tree, id: string)
      requires WellFormed(t) && id in t.nodes
      ensures forall y :: !Covered(t, id, 0, y)
    {
    }

    lemma LoneLeaf(t: Tree, id: string)
      requires WellFormed(t) && id in t.nodes && t.nodes[id].children == [] && Reach(t, id)
      ensures LiveLeaf(t, id)
      ensures forall y :: y in t.nodes && Above(t, id, y) ==> y == id
    {
      forall y | y in t.nodes && Above(t, id, y)
        ensures y == id
      {
        if y != id { HasChild(t, id, y); }
      }
    }

    lemma CoveredNext(t: Tree, id: string, n: nat)
      requires WellFormed(t) && id in t.nodes && n < |t.nodes[id].children|
      ensures forall y :: y in t.nodes && Covered(t, id, n + 1, y) ==>
                Covered(t, id, n, y) || (LiveLeaf(t, y) && Above(t, t.nodes[id].children[n], y))
    {
    }
  }
}
