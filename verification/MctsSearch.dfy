// Monte Carlo tree search over a plan tree (internal/agent/plan_search.go, lines 146 to 390).

module MctsSpec {
  import opened Wrappers
  import opened PlanTrees

  function VisitSum(t: Tree, cs: seq<string>): nat {
    if cs == [] then 0 else (if cs[0] in t.nodes then t.nodes[cs[0]].visits else 0) + VisitSum(t, cs[1..])
  }

  // No node has been visited less often than its children together; rewards average within [0, 1].
  ghost predicate Conserved(t: Tree) {
    && WellFormed(t)
    && (forall id :: id in t.nodes ==> VisitSum(t, t.nodes[id].children) <= t.nodes[id].visits)
    && (forall id :: id in t.nodes ==> 0.0 <= t.nodes[id].reward <= t.nodes[id].visits as real)
  }

  function Visited(n: Node, reward: real): Node {
    n.(visits := n.visits + 1, reward := n.reward + reward)
  }

  // mctsBackpropagate as a whole: every node from x up to the root is visited once more.
  ghost function Bumped(t: Tree, x: string, reward: real): (u: Tree)
    requires WellFormed(t) && x in t.nodes
    ensures SameShape(t, u) && WellFormed(u)
  {
    var u := t.(nodes := map id | id in t.nodes :: if Above(t, id, x) then Visited(t.nodes[id], reward) else t.nodes[id]);
    SameShapeWellFormed(t, u);
    u
  }

  // The nodes on the way to the root count the visit and its reward, and no others.
  lemma BumpedNodes(t: Tree, x: string, reward: real)
    requires WellFormed(t) && x in t.nodes
    ensures forall id :: id in t.nodes ==>
              && id in Bumped(t, x, reward).nodes
              && var n, m := t.nodes[id], Bumped(t, x, reward).nodes[id];
                m == if Above(t, id, x) then n.(visits := n.visits + 1, reward := n.reward + reward) else n
  {
  }

  function ClampedSum(raw: seq<real>): real {
    if raw == [] then 0.0 else ClampedSum(raw[..|raw| - 1]) + Clamp(raw[|raw| - 1])
  }

  // Only counts and rewards differ, and counts have not gone down.
  ghost predicate Recounted(t: Tree, u: Tree) {
    && u.root == t.root && u.level == t.level && u.nodes.Keys == t.nodes.Keys
    && forall id :: id in t.nodes ==>
         && u.nodes[id] == t.nodes[id].(visits := u.nodes[id].visits, reward := u.nodes[id].reward)
         && t.nodes[id].visits <= u.nodes[id].visits
  }

  lemma BumpedRecounts(t: Tree, u: Tree, x: string, reward: real)
    requires Recounted(t, u) && WellFormed(u) && x in u.nodes
    ensures Recounted(t, Bumped(u, x, reward))
  {
    hide WellFormed, Above;
    forall id | id in t.nodes
      ensures var n := Bumped(u, x, reward).nodes[id];
        && n == t.nodes[id].(visits := n.visits, reward := n.reward) && t.nodes[id].visits <= n.visits
    {
      assert id in u.nodes;
    }
  }

  lemma ItselfRecounted(t: Tree)
    ensures Recounted(t, t)
  {
  }

  // Of the children of one node, at most one has gained a visit.
  lemma {:induction false} SumBumped(t: Tree, x: string, reward: real, id: string, k: nat)
    requires WellFormed(t) && x in t.nodes && id in t.nodes && k <= |t.nodes[id].children|
    ensures var cs := t.nodes[id].children;
      VisitSum(Bumped(t, x, reward), cs[k..]) == VisitSum(t, cs[k..]) +
        if exists i :: k <= i < |cs| && cs[i] in t.nodes && Above(t, cs[i], x) then 1 else 0
    decreases |t.nodes[id].children| - k
  {
    var cs, u := t.nodes[id].children, Bumped(t, x, reward);
    if k < |cs| {
      SumBumped(t, x, reward, id, k + 1);
      assert cs[k..][1..] == cs[k + 1..];
      assert ChildrenOk(t, id);
      if Above(t, cs[k], x) {
        forall i | k + 1 <= i < |cs|
          ensures !Above(t, cs[i], x)
        {
          OnlyOneToward(t, id, x, cs[k]);
          if Above(t, cs[i], x) { OnlyOneToward(t, id, x, cs[i]); }
        }
      }
    }
  }

  lemma BumpedSum(t: Tree, x: string, reward: real, id: string)
    requires WellFormed(t) && x in t.nodes && id in t.nodes
    requires VisitSum(t, t.nodes[id].children) <= t.nodes[id].visits
    ensures VisitSum(Bumped(t, x, reward), t.nodes[id].children) <= Bumped(t, x, reward).nodes[id].visits
  {
    var cs := t.nodes[id].children;
    assert cs[0..] == cs;
    SumBumped(t, x, reward, id, 0);
    if i :| 0 <= i < |cs| && cs[i] in t.nodes && Above(t, cs[i], x) {
      assert ChildrenOk(t, id);
      OnlyOneToward(t, id, x, cs[i]);
    }
  }

  lemma BumpedAt(t: Tree, x: string, reward: real, id: string)
    requires Conserved(t) && x in t.nodes && 0.0 <= reward <= 1.0 && id in t.nodes
    ensures var n := Bumped(t, x, reward).nodes[id];
      && n.children == t.nodes[id].children && VisitSum(Bumped(t, x, reward), n.children) <= n.visits
      && 0.0 <= n.reward <= n.visits as real
  {
    BumpedSum(t, x, reward, id);
    hide WellFormed, VisitSum, Above;
  }

  lemma BumpedKeeps(t: Tree, x: string, reward: real)
    requires Conserved(t) && x in t.nodes && 0.0 <= reward <= 1.0
    ensures Conserved(Bumped(t, x, reward)) && t.root in Bumped(t, x, reward).nodes
    ensures Bumped(t, x, reward).nodes[t.root].visits == t.nodes[t.root].visits + 1
    ensures Bumped(t, x, reward).nodes[t.root].reward == t.nodes[t.root].reward + reward
  {
    hide WellFormed, VisitSum, Bumped;
    var u := Bumped(t, x, reward);
    forall id | id in u.nodes
      ensures VisitSum(u, u.nodes[id].children) <= u.nodes[id].visits
      ensures 0.0 <= u.nodes[id].reward <= u.nodes[id].visits as real
    {
      BumpedAt(t, x, reward, id);
    }
    RootBumped(t, x, reward);
  }

  lemma RootBumped(t: Tree, x: string, reward: real)
    requires WellFormed(t) && x in t.nodes
    ensures t.root in Bumped(t, x, reward).nodes && t.root in t.nodes
    ensures Bumped(t, x, reward).nodes[t.root].visits == t.nodes[t.root].visits + 1
    ensures Bumped(t, x, reward).nodes[t.root].reward == t.nodes[t.root].reward + reward
  {
    RootIsAbove(t, x);
  }

  // Visits that ended at a node itself: its own simulations.
  lemma OwnVisits(t: Tree, x: string, reward: real, id: string)
    requires WellFormed(t) && x in t.nodes && id in t.nodes
    ensures var u := Bumped(t, x, reward);
      u.nodes[id].visits - VisitSum(u, u.nodes[id].children) ==
        t.nodes[id].visits - VisitSum(t, t.nodes[id].children) + if id == x then 1 else 0
  {
    var cs := t.nodes[id].children;
    assert cs[0..] == cs;
    SumBumped(t, x, reward, id, 0);
    assert ChildrenOk(t, id);
    if i :| 0 <= i < |cs| && cs[i] in t.nodes && Above(t, cs[i], x) {
      OnlyOneToward(t, id, x, cs[i]);
    }
    if Above(t, id, x) && id != x {
      var c := Toward(t, id, x);
      assert ParentOk(t, c);
      var i :| 0 <= i < |cs| && cs[i] == c;
      assert Above(t, cs[i], x);
    }
  }

  lemma {:induction false} SumAppends(t: Tree, u: Tree, cs: seq<string>, id: string)
    requires forall i :: 0 <= i < |cs| ==> cs[i] in t.nodes && cs[i] in u.nodes && u.nodes[cs[i]].visits == t.nodes[cs[i]].visits
    requires id in u.nodes && u.nodes[id].visits == 0
    ensures VisitSum(u, cs) == VisitSum(t, cs) && VisitSum(u, cs + [id]) == VisitSum(t, cs)
  {
    if cs != [] {
      assert (cs + [id])[1..] == cs[1..] + [id];
      SumAppends(t, u, cs[1..], id);
    } else {
      assert ([id])[1..] == [];
    }
  }

  lemma GrownSum(t: Tree, parent: string, id: string, action: Option<Action>, x: string)
    requires WellFormed(t) && parent in t.nodes && id !in t.nodes && x in t.nodes
    requires parent in t.level && id in Grown(t, parent, id, action).nodes && x in Grown(t, parent, id, action).nodes
    ensures VisitSum(Grown(t, parent, id, action), Grown(t, parent, id, action).nodes[x].children) == VisitSum(t, t.nodes[x].children)
  {
    var u := Grown(t, parent, id, action);
    assert ChildrenOk(t, x);
    SumAppends(t, u, t.nodes[x].children, id);
  }

  lemma GrownFields(t: Tree, parent: string, id: string, action: Option<Action>, x: string)
    requires WellFormed(t) && parent in t.nodes && id !in t.nodes && parent in t.level
    ensures var u := Grown(t, parent, id, action);
      && (x in u.nodes <==> x in t.nodes || x == id)
      && (x in t.nodes ==> u.nodes[x].visits == t.nodes[x].visits && u.nodes[x].reward == t.nodes[x].reward)
      && (x == id ==> u.nodes[x].visits == 0 && u.nodes[x].reward == 0.0 && u.nodes[x].children == [])
  {
  }

  // A new tree has its counts conserved.
  lemma PlantedConserved(rootId: string, description: string)
    requires rootId != ""
    ensures Conserved(Planted(rootId, description))
  {
    var t := Planted(rootId, description);
    assert t.nodes[rootId].children == [];
    assert ChildrenOk(t, rootId);
  }

  // Growing the tree keeps the counts conserved.
  lemma GrownConserved(t: Tree, parent: string, id: string, action: Option<Action>)
    requires Conserved(t) && parent in t.nodes && id !in t.nodes && id != ""
    ensures parent in t.level && Conserved(Grown(t, parent, id, action))
  {
    GrownWellFormed(t, parent, id, action);
    GrownChild(t, parent, id, action);
    hide WellFormed, Grown;
    var u := Grown(t, parent, id, action);
    forall x | x in u.nodes
      ensures VisitSum(u, u.nodes[x].children) <= u.nodes[x].visits
      ensures 0.0 <= u.nodes[x].reward <= u.nodes[x].visits as real
    {
      GrownFields(t, parent, id, action, x);
      if x in t.nodes { GrownSum(t, parent, id, action, x); }
    }
  }

  lemma {:induction false} MemberSum(t: Tree, cs: seq<string>, c: string)
    requires c in cs && c in t.nodes
    ensures t.nodes[c].visits <= VisitSum(t, cs)
  {
    if c != cs[0] { MemberSum(t, cs[1..], c); }
  }

  // So the logarithm in UCB1 is never taken of a zero count: a visited child has a visited parent.
  lemma VisitedParent(t: Tree, id: string, c: string)
    requires Conserved(t) && id in t.nodes && c in t.nodes[id].children && c in t.nodes && t.nodes[c].visits > 0
    ensures t.nodes[id].visits > 0
  {
    MemberSum(t, t.nodes[id].children, c);
  }

  datatype Ucb = Infinite | Finite(value: real)

  predicate Greater(a: Ucb, b: Ucb) { b.Finite? && (a.Infinite? || a.value > b.value) }

  // ucb1Score; explore(parent, child) stands for the exploration term, defined for positive counts.
  function Ucb1(n: Node, parent: Node, explore: (nat, nat) -> real): Ucb
    requires n.visits > 0 ==> parent.visits > 0
  {
    if n.visits == 0 then Infinite else Finite(n.reward / n.visits as real + explore(parent.visits, n.visits))
  }

  function Score(t: Tree, id: string, c: string, explore: (nat, nat) -> real): Ucb {
    if id in t.nodes && c in t.nodes && (t.nodes[c].visits > 0 ==> t.nodes[id].visits > 0)
    then Ucb1(t.nodes[c], t.nodes[id], explore) else Infinite
  }

  predicate Untried(t: Tree, c: string) { Live(t, c) && t.nodes[c].visits == 0 }

  predicate Live(t: Tree, c: string) { c in t.nodes && !t.nodes[c].status.Pruned? }

  // The child the search descends to: the first live one of greatest score.
  ghost predicate Picks(t: Tree, id: string, c: string, explore: (nat, nat) -> real) {
    id in t.nodes && exists k :: PicksAmong(t, id, k, |t.nodes[id].children|, explore) && t.nodes[id].children[k] == c
  }

  // The same among the first n children.
  ghost predicate PicksAmong(t: Tree, id: string, k: int, n: nat, explore: (nat, nat) -> real)
    requires id in t.nodes
  {
    var cs := t.nodes[id].children;
    && 0 <= k < n <= |cs| && Live(t, cs[k])
    && (forall j :: 0 <= j < k && Live(t, cs[j]) ==> Greater(Score(t, id, cs[k], explore), Score(t, id, cs[j], explore)))
    && (forall j :: k < j < n && Live(t, cs[j]) ==> !Greater(Score(t, id, cs[j], explore), Score(t, id, cs[k], explore)))
  }

  // In plain numbers: no live child is unvisited unless the one picked is, and none visited has a higher
  // sum of mean reward and exploration; those that come before it have less.
  lemma PickedIsBest(t: Tree, id: string, c: string, explore: (nat, nat) -> real)
    requires Conserved(t) && Picks(t, id, c, explore)
    ensures c in t.nodes && Live(t, c) && exists k :: 0 <= k < |t.nodes[id].children| && BestAt(t, id, c, k, explore)
  {
    hide Conserved;
    var cs := t.nodes[id].children;
    var k :| PicksAmong(t, id, k, |cs|, explore) && cs[k] == c;
    forall j | 0 <= j < |cs| && j != k && Live(t, cs[j])
      ensures NoBetter(t, id, c, cs[j], j < k, explore)
    {
      if t.nodes[c].visits > 0 { VisitedParent(t, id, c); }
      if t.nodes[cs[j]].visits > 0 { VisitedParent(t, id, cs[j]); }
    }
    assert BestAt(t, id, c, k, explore);
  }

  ghost predicate BestAt(t: Tree, id: string, c: string, k: nat, explore: (nat, nat) -> real)
    requires id in t.nodes && k < |t.nodes[id].children| && c in t.nodes
  {
    var cs := t.nodes[id].children;
    && cs[k] == c
    && (forall j :: 0 <= j < |cs| && j != k && Live(t, cs[j]) ==> NoBetter(t, id, c, cs[j], j < k, explore))
  }

  // Child d of id is no better than c, or even worse.
  ghost predicate NoBetter(t: Tree, id: string, c: string, d: string, worse: bool, explore: (nat, nat) -> real)
    requires id in t.nodes && c in t.nodes && d in t.nodes
  {
    var parent, m, n := t.nodes[id].visits, t.nodes[c].visits, t.nodes[d].visits;
    if n == 0 then m == 0 && !worse
    else if m == 0 then true
    else
      var x, y := t.nodes[c].reward / m as real + explore(parent, m), t.nodes[d].reward / n as real + explore(parent, n);
      if worse then y < x else y <= x
  }

  lemma PickNext(t: Tree, id: string, k: int, n: nat, explore: (nat, nat) -> real)
    requires id in t.nodes && PicksAmong(t, id, k, n, explore) && n < |t.nodes[id].children|
    ensures var cs := t.nodes[id].children;
      if Live(t, cs[n]) && Greater(Score(t, id, cs[n], explore), Score(t, id, cs[k], explore))
      then PicksAmong(t, id, n, n + 1, explore) else PicksAmong(t, id, k, n + 1, explore)
  {
    hide Score, Live;
  }

  lemma PickFirst(t: Tree, id: string, n: nat, explore: (nat, nat) -> real)
    requires id in t.nodes && n < |t.nodes[id].children| && Live(t, t.nodes[id].children[n])
    requires forall j :: 0 <= j < n ==> !Live(t, t.nodes[id].children[j])
    ensures PicksAmong(t, id, n, n + 1, explore)
  {
  }

  // Where a descent stops.
  ghost predicate Stops(t: Tree, id: string)
    requires id in t.nodes
  {
    t.nodes[id].status in {Succeeded, NodeFailed, Pruned} || forall i :: 0 <= i < |t.nodes[id].children| ==> !Live(t, t.nodes[id].children[i])
  }

  // mctsSelect went from the root to x, at every node to the child it picks.
  ghost predicate Descends(t: Tree, x: string, explore: (nat, nat) -> real)
    requires WellFormed(t) && x in t.nodes
    decreases t.level[x]
  {
    x == t.root || (assert ParentOk(t, x);
      !t.nodes[t.nodes[x].parent].Terminal() && Picks(t, t.nodes[x].parent, x, explore) && Descends(t, t.nodes[x].parent, explore))
  }

  function Clamp(x: real): (r: real)
    ensures 0.0 <= r <= 1.0
    ensures (x <= 0.0 ==> r == 0.0) && (x >= 1.0 ==> r == 1.0) && (0.0 <= x <= 1.0 ==> r == x)
  {
    if x < 0.0 then 0.0 else if x > 1.0 then 1.0 else x
  }
}

module Mcts {
  import opened PlanTrees
  import opened MctsSpec

  class Planner {
    // The exploration term c * sqrt(log(parent) / child) of UCB1, for positive counts.
    const explore: (nat, nat) -> real

    constructor (explore: (nat, nat) -> real)
      ensures this.explore == explore
    {
      this.explore := explore;
    }

    // ucb1Score: the parent's count is positive whenever its logarithm is taken.
    method Ucb1Score(pt: PlanTree, child: PlanNode, parent: PlanNode) returns (u: Ucb)
      requires pt.Valid() && pt.Owns(child) && pt.Owns(parent) && Conserved(pt.tree)
      requires child.id in parent.children
      ensures u == Score(pt.tree, parent.id, child.id, explore)
    {
      hide PlanTree.Valid, Conserved, WellFormed;
      pt.Seen(child);
      pt.Seen(parent);
      if child.visitCount == 0 { return Infinite; }
      VisitedParent(pt.tree, parent.id, child.id);
      u := Finite(child.totalReward / child.visitCount as real + explore(parent.visitCount, child.visitCount));
    }

    // The inner loop of mctsSelect.
    method BestChild(pt: PlanTree, current: PlanNode) returns (best: PlanNode?)
      requires pt.Valid() && pt.Owns(current) && Conserved(pt.tree) && current.id in pt.tree.nodes
      ensures best == null ==> forall i :: 0 <= i < |current.children| ==> !Live(pt.tree, current.children[i])
      ensures best != null ==> pt.Owns(best) && Picks(pt.tree, current.id, best.id, explore)
    {
      hide PlanTree.Valid, Conserved, Score, Greater, PicksAmong, Live;
      pt.Mine(current);
      best := null;
      ghost var k := -1;
      var bestUcb := Infinite;
      for i := 0 to |current.children|
        invariant best == null ==> forall j :: 0 <= j < i ==> !Live(pt.tree, current.children[j])
        invariant best != null ==> 0 <= k < i && PicksAmong(pt.tree, current.id, k, i, explore)
        invariant best != null ==> pt.Owns(best) && current.children[k] == best.id
        invariant best != null ==> bestUcb == Score(pt.tree, current.id, best.id, explore)
      {
        var child := ChildAt(pt, current, i);
        if best != null { PickNext(pt.tree, current.id, k, i, explore); }
        if child.status != Pruned {
          var ucb := Ucb1Score(pt, child, current);
          if best == null { PickFirst(pt.tree, current.id, i, explore); }
          if best == null || Greater(ucb, bestUcb) {
            best, bestUcb, k := child, ucb, i;
          }
        }
      }
    }

    method ChildAt(pt: PlanTree, n: PlanNode, i: nat) returns (child: PlanNode)
      requires pt.Valid() && pt.Owns(n) && i < |n.children|
      ensures pt.Owns(child) && child.id == n.children[i] && child.id in pt.tree.nodes
      ensures Live(pt.tree, child.id) <==> child.status != Pruned
    {
      pt.Seen(n);
      assert ChildrenOk(pt.tree, n.id);
      child := pt.nodeIndex[n.children[i]];
      pt.Seen(child);
    }

    // mctsSelect
    method Select(pt: PlanTree) returns (current: PlanNode)
      requires pt.Valid() && Conserved(pt.tree)
      ensures pt.Owns(current) && current.id in pt.tree.nodes
      ensures Stops(pt.tree, current.id) && Descends(pt.tree, current.id, explore)
    {
      hide PlanTree.Valid, Conserved, Picks, Live, WellFormed, ParentOk;
      ghost var t := pt.tree;
      pt.Found(t.root);
      current := pt.root;
      ghost var bound := |t.nodes|;
      pt.Data(current);
      while current.children != [] && !IsTerminal(current)
        invariant pt.Owns(current) && current.id in t.nodes && Descends(t, current.id, explore)
        invariant current.AsNode() == t.nodes[current.id]
        decreases |Below(t, current.id)|
      {
        var best := BestChild(pt, current);
        if best == null { break; }
        pt.Data(best);
        Descend(t, current.id, best.id, explore);
        current := best;
      }
    }

    predicate IsTerminal(n: PlanNode)
      reads n
    {
      n.status == Succeeded || n.status == NodeFailed || n.status == Pruned
    }

    // mctsExpand. After mctsSelect there is never an unvisited live child left to return.
    method Expand(pt: PlanTree, node: PlanNode) returns (r: PlanNode)
      requires pt.Valid() && pt.Owns(node) && node.id in pt.tree.nodes
      ensures pt.Owns(r) && r.id in pt.tree.nodes
      ensures if IsTerminal(node) || forall i :: 0 <= i < |node.children| ==> !Untried(pt.tree, node.children[i]) then r == node
              else exists k :: 0 <= k < |node.children| && node.children[k] == r.id && Untried(pt.tree, node.children[k])
                               && forall j :: 0 <= j < k ==> !Untried(pt.tree, node.children[j])
      ensures Stops(pt.tree, node.id) ==> r == node
    {
      hide PlanTree.Valid, Live;
      pt.Data(node);
      r := node;
      if IsTerminal(node) { return; }
      for i := 0 to |node.children|
        invariant r == node && forall j :: 0 <= j < i ==> !Untried(pt.tree, node.children[j])
      {
        var child := ChildAt(pt, node, i);
        pt.Data(child);
        if child.visitCount == 0 && child.status != Pruned { return child; }
      }
    }

    // One node's share of mctsBackpropagate.
    method Visit(pt: PlanTree, n: PlanNode, reward: real)
      requires pt.Valid() && pt.Owns(n) && n.id in pt.tree.nodes
      modifies pt`tree, n`visitCount, n`totalReward
      ensures pt.Valid() && pt.tree == Set(old(pt.tree), n.id, Visited(old(pt.tree).nodes[n.id], reward))
    {
      hide *;
      pt.Found(pt.tree.root);
      VisitShape(pt.tree, n.id, reward);
      Tally(pt, n, reward);
      pt.IsValid();
    }

    lemma VisitShape(t: Tree, id: string, reward: real)
      requires WellFormed(t) && id in t.nodes
      ensures WellFormed(Set(t, id, Visited(t.nodes[id], reward))) && Set(t, id, Visited(t.nodes[id], reward)).root == t.root
    {
      SameShapeWellFormed(t, Set(t, id, Visited(t.nodes[id], reward)));
    }

    method Tally(pt: PlanTree, n: PlanNode, reward: real)
      requires pt.Mirrored() && pt.Owns(n) && n.id in pt.tree.nodes
      modifies pt`tree, n`visitCount, n`totalReward
      ensures pt.Mirrored() && pt.tree == Set(old(pt.tree), n.id, Visited(old(pt.tree).nodes[n.id], reward))
    {
      ghost var t := pt.tree;
      n.visitCount := n.visitCount + 1;
      n.totalReward := n.totalReward + reward;
      pt.tree := Set(t, n.id, Visited(t.nodes[n.id], reward));
      forall id | id in pt.nodeIndex
        ensures pt.nodeIndex[id].AsNode() == pt.tree.nodes[id]
      {
        assert old(pt.nodeIndex[id].AsNode()) == t.nodes[id];
      }
    }

    // mctsBackpropagate: from the simulated node up the parent links to the root.
    method Backpropagate(pt: PlanTree, node: PlanNode, reward: real)
      requires pt.Valid() && WellFormed(pt.tree) && pt.Owns(node) && node.id in pt.tree.nodes
      modifies pt`tree, pt.nodeIndex.Values`visitCount, pt.nodeIndex.Values`totalReward
      ensures pt.Valid() && pt.tree == Bumped(old(pt.tree), node.id, reward)
    {
      hide PlanTree.Valid, WellFormed, Partly, Bumped;
      ghost var t := pt.tree;
      var current := node;
      PartlyNone(t, node.id, reward);
      while true
        invariant pt.Valid() && pt.Owns(current) && current.id in t.nodes && current.id in t.level
        invariant Above(t, current.id, node.id) && pt.tree == Partly(t, node.id, reward, current.id)
        decreases t.level[current.id]
      {
        PartlyShape(t, node.id, reward, current.id);
        PartlyNext(t, node.id, reward, current.id);
        Visit(pt, current, reward);
        pt.Climb(current);
        if current.parentId == "" { return; }
        current := pt.nodeIndex[current.parentId];
      }
    }

    // One iteration of RunMCTS; raw is the simulated or rolled-out value before clamping.
    method Iterate(pt: PlanTree, raw: real) returns (ghost chosen: string)
      requires pt.Valid() && Conserved(pt.tree)
      modifies pt`tree, pt.nodeIndex.Values`visitCount, pt.nodeIndex.Values`totalReward
      ensures chosen in old(pt.tree).nodes && Stops(old(pt.tree), chosen) && Descends(old(pt.tree), chosen, explore)
      ensures pt.Valid() && pt.tree == Bumped(old(pt.tree), chosen, Clamp(raw))
      ensures Conserved(pt.tree) && pt.tree.nodes[pt.tree.root].visits == old(pt.tree).nodes[old(pt.tree).root].visits + 1
      ensures pt.tree.nodes[pt.tree.root].reward == old(pt.tree).nodes[old(pt.tree).root].reward + Clamp(raw)
    {
      hide PlanTree.Valid, VisitSum, Stops, Descends, Bumped;
      var selected := Select(pt);
      chosen := selected.id;
      if !IsTerminal(selected) { selected := Expand(pt, selected); }
      BumpedKeeps(pt.tree, chosen, Clamp(raw));
      Backpropagate(pt, selected, Clamp(raw));
    }

    // RunMCTS; one raw value for each iteration.
    method RunMCTS(pt: PlanTree, raw: seq<real>) returns (path: seq<PlanNode>)
      requires pt.Valid() && Conserved(pt.tree)
      modifies pt`tree, pt.nodeIndex.Values`visitCount, pt.nodeIndex.Values`totalReward
      ensures pt.Valid() && Conserved(pt.tree) && Recounted(old(pt.tree), pt.tree)
      ensures pt.tree.nodes[pt.tree.root].visits == old(pt.tree).nodes[old(pt.tree).root].visits + |raw|
      ensures pt.tree.nodes[pt.tree.root].reward == old(pt.tree).nodes[old(pt.tree).root].reward + ClampedSum(raw)
      ensures MostVisited(pt.tree, Names(path)) && forall i :: 0 <= i < |path| ==> pt.Owns(path[i])
    {
      hide PlanTree.Valid, Conserved, MostVisited, Recounted, Bumped;
      ItselfRecounted(pt.tree);
      ConservedTree(pt.tree);
      for i := 0 to |raw|
        invariant pt.Valid() && Conserved(pt.tree) && Recounted(old(pt.tree), pt.tree)
        invariant pt.tree.root in pt.tree.nodes && old(pt.tree).root in old(pt.tree).nodes
        invariant pt.tree.nodes[pt.tree.root].visits == old(pt.tree).nodes[old(pt.tree).root].visits + i
        invariant pt.tree.nodes[pt.tree.root].reward == old(pt.tree).nodes[old(pt.tree).root].reward + ClampedSum(raw[..i])
      {
        ConservedTree(pt.tree);
        assert raw[..i + 1][..i] == raw[..i];
        ghost var u := pt.tree;
        var chosen := Iterate(pt, raw[i]);
        BumpedRecounts(old(pt.tree), u, chosen, Clamp(raw[i]));
        ConservedTree(pt.tree);
      }
      assert raw[..|raw|] == raw;
      path := SelectBestPath(pt);
    }

    // mctsSelectBestPath
    method SelectBestPath(pt: PlanTree) returns (path: seq<PlanNode>)
      requires pt.Valid()
      ensures MostVisited(pt.tree, Names(path)) && forall i :: 0 <= i < |path| ==> pt.Owns(path[i])
    {
      hide PlanTree.Valid, Favours, WellFormed;
      ghost var t := pt.tree;
      pt.Found(t.root);
      var current := pt.root;
      pt.Data(current);
      path := [current];
      while current.children != []
        invariant path != [] && path[|path| - 1] == current && path[0].id == t.root
        invariant forall i :: 0 <= i < |path| ==> pt.Owns(path[i]) && path[i].id in t.nodes
        invariant current.AsNode() == t.nodes[current.id]
        invariant forall i, j :: 0 <= i < |path| && j == i + 1 < |path| ==> Favours(t, path[i].id, path[j].id)
        decreases |Below(t, current.id)|
      {
        var best := MostVisitedChild(pt, current);
        if best == null { break; }
        pt.Data(best);
        FavouredIsBelow(t, current.id, best.id);
        path := path + [best];
        current := best;
      }
    }

    method MostVisitedChild(pt: PlanTree, current: PlanNode) returns (best: PlanNode?)
      requires pt.Valid() && pt.Owns(current) && current.id in pt.tree.nodes
      ensures best == null ==> NoLive(pt.tree, current.id)
      ensures best != null ==> pt.Owns(best) && Favours(pt.tree, current.id, best.id)
    {
      hide PlanTree.Valid;
      pt.Data(current);
      best := null;
      var bestVisits: int := -1;
      ghost var k := -1;
      for i := 0 to |current.children|
        invariant best == null ==> bestVisits == -1 && forall j :: 0 <= j < i ==> !Live(pt.tree, current.children[j])
        invariant best != null ==> pt.Owns(best) && 0 <= k < i && current.children[k] == best.id
        invariant best != null ==> FavoursAmong(pt.tree, current.id, k, i) && bestVisits == pt.tree.nodes[best.id].visits
      {
        var child := ChildAt(pt, current, i);
        pt.Data(child);
        if child.status != Pruned && child.visitCount > bestVisits {
          best, bestVisits, k := child, child.visitCount, i;
        }
      }
    }
  }

  // Backpropagation from x that has yet to reach top.
  ghost function Partly(t: Tree, x: string, reward: real, top: string): Tree
    requires WellFormed(t) && x in t.nodes && top in t.nodes
  {
    t.(nodes := map id | id in t.nodes ::
         if Above(t, id, x) && !Above(t, id, top) then Visited(t.nodes[id], reward) else t.nodes[id])
  }

  lemma PartlyNone(t: Tree, x: string, reward: real)
    requires WellFormed(t) && x in t.nodes
    ensures Partly(t, x, reward, x) == t && x in t.level && Above(t, x, x)
  {
    assert x in t.level;
    hide WellFormed;
    assert Partly(t, x, reward, x).nodes == t.nodes;
  }

  lemma PartlyShape(t: Tree, x: string, reward: real, top: string)
    requires WellFormed(t) && x in t.nodes && top in t.nodes
    ensures SameShape(t, Partly(t, x, reward, top))
  {
  }

  lemma NotAboveParent(t: Tree, top: string)
    requires WellFormed(t) && top in t.nodes
    ensures top != t.root ==> t.nodes[top].parent in t.nodes && !Above(t, top, t.nodes[top].parent)
  {
    if top != t.root {
      assert ParentOk(t, top);
      if Above(t, top, t.nodes[top].parent) { AboveIsHigher(t, top, t.nodes[top].parent); }
    }
  }

  // Visiting top passes the front on to its parent.
  lemma PartlyNext(t: Tree, x: string, reward: real, top: string)
    requires WellFormed(t) && x in t.nodes && top in t.nodes && Above(t, top, x)
    ensures top in Partly(t, x, reward, top).nodes
    ensures var u := Partly(t, x, reward, top);
      top != t.root ==>
        && t.nodes[top].parent in t.nodes && Above(t, t.nodes[top].parent, x)
        && Set(u, top, Visited(u.nodes[top], reward)) == Partly(t, x, reward, t.nodes[top].parent)
    ensures var u := Partly(t, x, reward, top);
      top == t.root ==> Set(u, top, Visited(u.nodes[top], reward)) == Bumped(t, x, reward)
  {
    hide Partly, Bumped, Above, WellFormed, Set;
    PartlyShape(t, x, reward, top);
    if top != t.root {
      ParentIsAbove(t, top, x);
      PartlyClimbs(t, x, reward, top);
    } else {
      PartlyEnds(t, x, reward);
    }
  }

  lemma PartlyEnds(t: Tree, x: string, reward: real)
    requires WellFormed(t) && x in t.nodes && t.root in t.nodes && Above(t, t.root, x)
    ensures var u := Partly(t, x, reward, t.root);
      t.root in u.nodes && Set(u, t.root, Visited(u.nodes[t.root], reward)) == Bumped(t, x, reward)
  {
    hide WellFormed;
    var u := Partly(t, x, reward, t.root);
    assert Set(u, t.root, Visited(u.nodes[t.root], reward)).nodes == Bumped(t, x, reward).nodes;
  }

  lemma PartlyClimbs(t: Tree, x: string, reward: real, top: string)
    requires WellFormed(t) && x in t.nodes && top in t.nodes && Above(t, top, x)
    requires top != t.root && t.nodes[top].parent in t.nodes
    ensures var u := Partly(t, x, reward, top);
      top in u.nodes && Set(u, top, Visited(u.nodes[top], reward)) == Partly(t, x, reward, t.nodes[top].parent)
  {
    hide WellFormed, Above;
    var u, w := Partly(t, x, reward, top), Partly(t, x, reward, t.nodes[top].parent);
    var v := Set(u, top, Visited(u.nodes[top], reward));
    forall id | id in t.nodes
      ensures v.nodes[id] == w.nodes[id]
    {
      PartlyAt(t, x, reward, top, id);
    }
    assert v.nodes == w.nodes;
  }

  lemma ParentIsAbove(t: Tree, top: string, x: string)
    requires WellFormed(t) && x in t.nodes && top in t.nodes && Above(t, top, x) && top != t.root
    ensures t.nodes[top].parent in t.nodes && Above(t, t.nodes[top].parent, x)
  {
    assert ParentOk(t, top);
    assert Above(t, t.nodes[top].parent, top);
    AboveThrough(t, t.nodes[top].parent, top, x);
  }

  lemma PartlyAt(t: Tree, x: string, reward: real, top: string, id: string)
    requires WellFormed(t) && x in t.nodes && top in t.nodes && Above(t, top, x) && id in t.nodes
    requires top != t.root && t.nodes[top].parent in t.nodes
    ensures Partly(t, x, reward, t.nodes[top].parent).nodes[id] ==
              if id == top then Visited(Partly(t, x, reward, top).nodes[top], reward) else Partly(t, x, reward, top).nodes[id]
  {
    AboveSplits(t, id, top);
    AboveSplits(t, top, top);
    NotAboveParent(t, top);
    hide WellFormed, Above;
  }

  lemma AboveSplits(t: Tree, id: string, top: string)
    requires WellFormed(t) && top in t.nodes && top != t.root
    ensures t.nodes[top].parent in t.nodes && (Above(t, id, top) <==> id == top || Above(t, id, t.nodes[top].parent))
  {
    assert ParentOk(t, top);
  }

  lemma ConservedTree(t: Tree)
    requires Conserved(t)
    ensures WellFormed(t) && t.root in t.nodes
  {
  }

  ghost predicate NoLive(t: Tree, id: string)
    requires id in t.nodes
  {
    forall i :: 0 <= i < |t.nodes[id].children| ==> !Live(t, t.nodes[id].children[i])
  }

  // c is the first live child of id that no live sibling has outvisited.
  ghost predicate Favours(t: Tree, id: string, c: string) {
    id in t.nodes && exists k :: FavoursAmong(t, id, k, |t.nodes[id].children|) && t.nodes[id].children[k] == c
  }

  // The same among the first n children.
  ghost predicate FavoursAmong(t: Tree, id: string, k: int, n: nat)
    requires id in t.nodes
  {
    var cs := t.nodes[id].children;
    && 0 <= k < n <= |cs| && Live(t, cs[k])
    && (forall j :: 0 <= j < k && Live(t, cs[j]) ==> t.nodes[cs[j]].visits < t.nodes[cs[k]].visits)
    && (forall j :: k < j < n && Live(t, cs[j]) ==> t.nodes[cs[j]].visits <= t.nodes[cs[k]].visits)
  }

  // The path by visit counts, from the root down to a node without live children.
  ghost predicate MostVisited(t: Tree, p: seq<string>) {
    && p != [] && p[0] == t.root && (forall i :: 0 <= i < |p| ==> p[i] in t.nodes)
    && (forall i, j :: 0 <= i < |p| && j == i + 1 < |p| ==> Favours(t, p[i], p[j]))
    && NoLive(t, p[|p| - 1])
  }

  lemma FavouredIsBelow(t: Tree, id: string, c: string)
    requires WellFormed(t) && Favours(t, id, c)
    ensures |Below(t, c)| < |Below(t, id)|
  {
    var k :| FavoursAmong(t, id, k, |t.nodes[id].children|) && t.nodes[id].children[k] == c;
    ChildIsBelow(t, id, k);
  }

  lemma Descend(t: Tree, id: string, c: string, explore: (nat, nat) -> real)
    requires WellFormed(t) && id in t.nodes && Picks(t, id, c, explore) && c in t.nodes
    requires !t.nodes[id].Terminal() && Descends(t, id, explore)
    ensures Descends(t, c, explore) && |Below(t, c)| < |Below(t, id)|
  {
    var k :| PicksAmong(t, id, k, |t.nodes[id].children|, explore) && t.nodes[id].children[k] == c;
    assert ChildrenOk(t, id);
    ChildIsBelow(t, id, k);
  }
}
