// Plan trees (internal/agent/plan_node.go): nodes linked to their parent by ID and to their children
// by reference, with an index from ID to node. A tree as a value, and the class that holds it.

module PlanTrees {
  import opened Wrappers

  datatype ActionType = ToolCall | Delegate | Decompose | Verify

  datatype Action = Action(kind: ActionType, toolName: string, toolArgs: string, agentType: string, prompt: string,
                           prerequisites: seq<string>, nodeId: string)

  datatype NodeStatus = NodePending | Executing | Succeeded | NodeFailed | Pruned

  datatype Result = Result(output: string, error: string)

  datatype Node = Node(
    parent: string, children: seq<string>, action: Option<Action>,
    score: real, successProb: real, progress: real,
    status: NodeStatus, result: Option<Result>, depth: int, visits: nat, reward: real
  ) {
    predicate Terminal() { status.Succeeded? || status.NodeFailed? || status.Pruned? }
  }

  // level is how far a node is from the root; the depth a node stores agrees with it until the tree
  // has been through a checkpoint.
  datatype Tree = Tree(root: string, nodes: map<string, Node>, level: map<string, nat>)

  ghost predicate WellFormed(t: Tree) {
    && t.root in t.nodes && t.nodes[t.root].parent == "" && "" !in t.nodes
    && t.level.Keys == t.nodes.Keys && t.level[t.root] == 0
    && (forall id :: id in t.nodes ==> ChildrenOk(t, id))
    && (forall id :: id in t.nodes && id != t.root ==> ParentOk(t, id))
  }

  ghost predicate ChildrenOk(t: Tree, id: string)
    requires id in t.nodes
  {
    var cs := t.nodes[id].children;
    && (forall i :: 0 <= i < |cs| ==> cs[i] in t.nodes && t.nodes[cs[i]].parent == id && cs[i] != t.root)
    && (forall i, j :: 0 <= i < j < |cs| ==> cs[i] != cs[j])
  }

  ghost predicate ParentOk(t: Tree, id: string)
    requires id in t.nodes
  {
    var p := t.nodes[id].parent;
    && p in t.nodes && id in t.nodes[p].children
    && p in t.level && id in t.level && t.level[p] + 1 == t.level[id]
  }

  // The chain of IDs from the root down to a node.
  ghost function PathTo(t: Tree, id: string): (p: seq<string>)
    requires WellFormed(t) && id in t.nodes
    ensures |p| == t.level[id] + 1 && p[0] == t.root && p[|p| - 1] == id
    decreases t.level[id]
  {
    if id == t.root then [id]
    else
      assert ParentOk(t, id);
      PathTo(t, t.nodes[id].parent) + [id]
  }

  // A chain of nodes, each a child of the one before.
  ghost predicate Chain(t: Tree, p: seq<string>) {
    && p != [] && (forall i :: 0 <= i < |p| ==> p[i] in t.nodes)
    && (forall i, j :: 0 <= i < |p| && j == i + 1 < |p| ==> p[j] in t.nodes[p[i]].children)
  }

  lemma {:induction false} PathIsChain(t: Tree, id: string)
    requires WellFormed(t) && id in t.nodes
    ensures Chain(t, PathTo(t, id))
    decreases t.level[id]
  {
    if id != t.root {
      assert ParentOk(t, id);
      PathIsChain(t, t.nodes[id].parent);
    }
  }

  lemma RootIsAlone(t: Tree, id: string)
    requires WellFormed(t) && id in t.nodes
    ensures t.nodes[id].parent == "" <==> id == t.root
    ensures t.level[id] == 0 <==> id == t.root
  {
    if id != t.root { assert ParentOk(t, id); }
  }

  // id lies on the way from the root to x.
  ghost predicate Above(t: Tree, id: string, x: string)
    requires WellFormed(t) && x in t.nodes
    decreases t.level[x]
  {
    id == x || (x != t.root && (assert ParentOk(t, x); Above(t, id, t.nodes[x].parent)))
  }

  lemma {:induction false} AboveIsHigher(t: Tree, id: string, x: string)
    requires WellFormed(t) && x in t.nodes && Above(t, id, x)
    ensures id in t.nodes && t.level[id] <= t.level[x] && (t.level[id] == t.level[x] ==> id == x)
    decreases t.level[x]
  {
    if id != x {
      assert ParentOk(t, x);
      AboveIsHigher(t, id, t.nodes[x].parent);
    }
  }

  lemma {:induction false} AboveThrough(t: Tree, a: string, b: string, c: string)
    requires WellFormed(t) && c in t.nodes && b in t.nodes && Above(t, a, b) && Above(t, b, c)
    ensures Above(t, a, c)
    decreases t.level[c]
  {
    if b != c {
      assert ParentOk(t, c);
      AboveThrough(t, a, b, t.nodes[c].parent);
    }
  }

  lemma {:induction false} RootIsAbove(t: Tree, x: string)
    requires WellFormed(t) && x in t.nodes
    ensures Above(t, t.root, x)
    decreases t.level[x]
  {
    if x != t.root {
      assert ParentOk(t, x);
      RootIsAbove(t, t.nodes[x].parent);
    }
  }

  // Of a proper ancestor's children, exactly one is again on the way.
  ghost function Toward(t: Tree, id: string, x: string): (c: string)
    requires WellFormed(t) && x in t.nodes && Above(t, id, x) && id != x
    ensures c in t.nodes && t.nodes[c].parent == id && c != t.root && Above(t, c, x)
    decreases t.level[x]
  {
    assert ParentOk(t, x);
    if t.nodes[x].parent == id then x else Toward(t, id, t.nodes[x].parent)
  }

  lemma {:induction false} OnlyOneToward(t: Tree, id: string, x: string, c: string)
    requires WellFormed(t) && x in t.nodes && c in t.nodes && c != t.root && t.nodes[c].parent == id && Above(t, c, x)
    ensures Above(t, id, x) && id != x && c == Toward(t, id, x)
    decreases t.level[x]
  {
    assert ParentOk(t, c);
    AboveIsHigher(t, c, x);
    if x != c {
      assert ParentOk(t, x);
      OnlyOneToward(t, id, t.nodes[x].parent, c);
    }
  }

  // Two trees of one shape, whatever their nodes record besides.
  ghost predicate SameShape(t: Tree, u: Tree) {
    && u.root == t.root && u.level == t.level && u.nodes.Keys == t.nodes.Keys
    && forall id :: id in t.nodes ==> u.nodes[id].parent == t.nodes[id].parent && u.nodes[id].children == t.nodes[id].children
  }

  lemma SameShapeWellFormed(t: Tree, u: Tree)
    requires WellFormed(t) && SameShape(t, u)
    ensures WellFormed(u)
  {
    forall id | id in u.nodes
      ensures ChildrenOk(u, id) && (id != u.root ==> ParentOk(u, id))
    {
      assert ChildrenOk(t, id) && (id != t.root ==> ParentOk(t, id));
    }
  }

  lemma {:induction false} SameShapeAbove(t: Tree, u: Tree, id: string, x: string)
    requires WellFormed(t) && SameShape(t, u) && WellFormed(u) && x in t.nodes
    ensures Above(u, id, x) == Above(t, id, x) && PathTo(u, x) == PathTo(t, x)
    decreases t.level[x]
  {
    if x != t.root {
      assert ParentOk(t, x);
      SameShapeAbove(t, u, id, t.nodes[x].parent);
    }
  }

  // NewPlanTree: a pending root that is to be decomposed.
  function Planted(rootId: string, description: string): Tree {
    Tree(rootId,
         map[rootId := Node("", [], Some(Action(Decompose, "", "", "", description, [], "")), 0.0, 0.0, 0.0, NodePending, None, 0, 0, 0.0)],
         map[rootId := 0])
  }

  // AddNode: a new last child.
  function Grown(t: Tree, parent: string, id: string, action: Option<Action>): Tree
    requires parent in t.nodes && parent in t.level
  {
    var p := t.nodes[parent];
    t.(nodes := t.nodes[parent := p.(children := p.children + [id])]
                  [id := Node(parent, [], Tagged(action, id), 0.0, 0.0, 0.0, NodePending, None, p.depth + 1, 0, 0.0)],
       level := t.level[id := t.level[parent] + 1])
  }

  function Tagged(action: Option<Action>, id: string): Option<Action> {
    if action.None? then None else Some(action.value.(nodeId := id))
  }

  lemma TaggedIs(action: Option<Action>, id: string)
    ensures Tagged(action, id) == if action.None? then None else Some(action.value.(nodeId := id))
  {
  }

  lemma GrownWellFormed(t: Tree, parent: string, id: string, action: Option<Action>)
    requires WellFormed(t) && parent in t.nodes && id !in t.nodes && id != ""
    ensures WellFormed(Grown(t, parent, id, action))
  {
    hide Tagged;
    var u := Grown(t, parent, id, action);
    forall x | x in u.nodes
      ensures ChildrenOk(u, x) && (x != u.root ==> ParentOk(u, x))
    {
      if x in t.nodes {
        GrownChildren(t, parent, id, action, x);
        if x != t.root { GrownParent(t, parent, id, action, x); }
      }
    }
  }

  lemma GrownChildren(t: Tree, parent: string, id: string, action: Option<Action>, x: string)
    requires WellFormed(t) && parent in t.nodes && id !in t.nodes && x in t.nodes
    ensures ChildrenOk(Grown(t, parent, id, action), x)
  {
    hide Tagged;
    assert ChildrenOk(t, x);
  }

  lemma GrownParent(t: Tree, parent: string, id: string, action: Option<Action>, x: string)
    requires WellFormed(t) && parent in t.nodes && id !in t.nodes && x in t.nodes && x != t.root
    ensures ParentOk(Grown(t, parent, id, action), x)
  {
    hide Tagged;
    assert ParentOk(t, x);
  }

  lemma GrownChild(t: Tree, parent: string, id: string, action: Option<Action>)
    requires WellFormed(t) && parent in t.nodes
    ensures parent in t.level && id in Grown(t, parent, id, action).nodes
    ensures Grown(t, parent, id, action).nodes[id] ==
              Node(parent, [], Tagged(action, id), 0.0, 0.0, 0.0, NodePending, None, t.nodes[parent].depth + 1, 0, 0.0)
  {
  }

  lemma GrownIs(t: Tree, parent: string, id: string, action: Option<Action>)
    requires parent in t.nodes && parent in t.level
    ensures var g := Grown(t, parent, id, action);
      && id in g.nodes && g.root == t.root
      && g == Set(Set(t, parent, t.nodes[parent].(children := t.nodes[parent].children + [id])), id, g.nodes[id]).(level := g.level)
  {
  }

  // The part of the tree from id down.
  ghost function Below(t: Tree, id: string): set<string>
    requires WellFormed(t)
  {
    set x | x in t.nodes && Above(t, id, x)
  }

  // PruneSubtree: every node below loses whatever status it had.
  ghost function Painted(t: Tree, s: set<string>): (u: Tree)
    ensures SameShape(t, u)
  {
    t.(nodes := map x | x in t.nodes :: if x in s then t.nodes[x].(status := Pruned) else t.nodes[x])
  }

  lemma PaintedTwice(t: Tree, a: set<string>, b: set<string>)
    ensures Painted(Painted(t, a), b) == Painted(t, a + b)
  {
    assert Painted(Painted(t, a), b).nodes == Painted(t, a + b).nodes;
  }

  lemma SameBelow(t: Tree, u: Tree, id: string)
    requires WellFormed(t) && SameShape(t, u) && WellFormed(u)
    ensures Below(u, id) == Below(t, id)
  {
    forall x | x in t.nodes
      ensures Above(u, id, x) == Above(t, id, x)
    {
      SameShapeAbove(t, u, id, x);
    }
  }

  // A node and the subtrees of its first i children.
  ghost function BelowFirst(t: Tree, id: string, i: nat): set<string>
    requires WellFormed(t) && id in t.nodes && i <= |t.nodes[id].children|
  {
    if i == 0 then {id} else BelowFirst(t, id, i - 1) + Below(t, t.nodes[id].children[i - 1])
  }

  lemma BelowNone(t: Tree, id: string)
    requires WellFormed(t) && id in t.nodes
    ensures BelowFirst(t, id, 0) == {id}
  {
  }

  lemma BelowNext(t: Tree, id: string, i: nat)
    requires WellFormed(t) && id in t.nodes && i < |t.nodes[id].children|
    ensures BelowFirst(t, id, i + 1) == BelowFirst(t, id, i) + Below(t, t.nodes[id].children[i])
  {
  }

  lemma PaintedNext(t: Tree, id: string, i: nat)
    requires WellFormed(t) && id in t.nodes && i < |t.nodes[id].children|
    ensures Painted(Painted(t, BelowFirst(t, id, i)), Below(t, t.nodes[id].children[i])) == Painted(t, BelowFirst(t, id, i + 1))
  {
    PaintedTwice(t, BelowFirst(t, id, i), Below(t, t.nodes[id].children[i]));
    BelowNext(t, id, i);
  }

  lemma Child(t: Tree, id: string, i: nat)
    requires WellFormed(t) && id in t.nodes && i < |t.nodes[id].children|
    ensures t.nodes[id].children[i] in t.nodes
  {
    assert ChildrenOk(t, id);
  }

  lemma {:induction false} BelowFirstOnly(t: Tree, id: string, i: nat, x: string)
    requires WellFormed(t) && id in t.nodes && i <= |t.nodes[id].children| && x in t.nodes
    ensures x in BelowFirst(t, id, i) <==>
              x == id || exists j :: 0 <= j < i && Above(t, t.nodes[id].children[j], x)
  {
    if i > 0 { BelowFirstOnly(t, id, i - 1, x); }
  }

  lemma BelowAll(t: Tree, id: string)
    requires WellFormed(t) && id in t.nodes
    ensures BelowFirst(t, id, |t.nodes[id].children|) == Below(t, id)
  {
    var cs := t.nodes[id].children;
    assert ChildrenOk(t, id);
    BelowFirstInside(t, id, |cs|);
    forall x | x in t.nodes
      ensures x in BelowFirst(t, id, |cs|) <==> Above(t, id, x)
    {
      BelowFirstOnly(t, id, |cs|, x);
      if j :| 0 <= j < |cs| && Above(t, cs[j], x) { OnlyOneToward(t, id, x, cs[j]); }
      if Above(t, id, x) && x != id {
        var c := Toward(t, id, x);
        assert ParentOk(t, c);
        var j :| 0 <= j < |cs| && cs[j] == c;
      }
    }
  }

  lemma {:induction false} BelowFirstInside(t: Tree, id: string, i: nat)
    requires WellFormed(t) && id in t.nodes && i <= |t.nodes[id].children|
    ensures BelowFirst(t, id, i) <= t.nodes.Keys
  {
    if i > 0 { BelowFirstInside(t, id, i - 1); }
  }

  lemma ChildIsBelow(t: Tree, id: string, i: nat)
    requires WellFormed(t) && id in t.nodes && i < |t.nodes[id].children|
    ensures Below(t, t.nodes[id].children[i]) < Below(t, id)
    ensures |Below(t, t.nodes[id].children[i])| < |Below(t, id)|
  {
    var c := t.nodes[id].children[i];
    assert ChildrenOk(t, id);
    forall x | x in Below(t, c)
      ensures x in Below(t, id) && x != id
    {
      OnlyOneToward(t, id, x, c);
    }
    assert id in Below(t, id);
    Smaller(Below(t, c), Below(t, id));
  }

  lemma Smaller(a: set<string>, b: set<string>)
    requires a < b
    ensures |a| < |b|
  {
    var x :| x in b && x !in a;
    Subset(a, b - {x});
  }

  lemma {:induction false} Subset(a: set<string>, b: set<string>)
    requires a <= b
    ensures |a| <= |b|
    decreases a
  {
    if a != {} {
      var x :| x in a;
      Subset(a - {x}, b - {x});
    }
  }

  // ----- the class -----

  // Children are named by ID and followed through the tree's index.
  class PlanNode {
    const id: string
    var parentId: string
    var children: seq<string>
    var action: Option<Action>
    var score: real
    var successProb: real
    var goalProgress: real
    var status: NodeStatus
    var result: Option<Result>
    var depth: int
    var visitCount: nat
    var totalReward: real

    constructor (id: string, parentId: string, action: Option<Action>, depth: int)
      ensures this.id == id && AsNode() == Node(parentId, [], action, 0.0, 0.0, 0.0, NodePending, None, depth, 0, 0.0)
    {
      this.id, this.parentId, this.action, this.depth := id, parentId, action, depth;
      children, score, successProb, goalProgress := [], 0.0, 0.0, 0.0;
      status, result, visitCount, totalReward := NodePending, None, 0, 0.0;
    }

    function AsNode(): Node
      reads this
    {
      Node(parentId, children, action, score, successProb, goalProgress, status, result, depth, visitCount, totalReward)
    }
  }

  class PlanTree {
    var root: PlanNode
    var nodeIndex: map<string, PlanNode>
    var totalNodes: int
    var maxDepth: int
    ghost var tree: Tree

    ghost predicate Mirrored()
      reads this`nodeIndex, this`tree, nodeIndex.Values
    {
      && nodeIndex.Keys == tree.nodes.Keys
      && forall id :: id in nodeIndex ==> nodeIndex[id].id == id && nodeIndex[id].AsNode() == tree.nodes[id]
    }

    ghost predicate Valid()
      reads this`root, this`nodeIndex, this`tree, nodeIndex.Values
    {
      Mirrored() && WellFormed(tree) && tree.root in nodeIndex && nodeIndex[tree.root] == root
    }

    // The node is this tree's own.
    ghost predicate Owns(n: PlanNode)
      reads this`nodeIndex
    {
      n.id in nodeIndex && nodeIndex[n.id] == n
    }

    lemma Seen(n: PlanNode)
      requires Valid() && Owns(n)
      ensures n.id in tree.nodes && n.id in tree.level && n.AsNode() == tree.nodes[n.id]
      ensures WellFormed(tree) && nodeIndex.Keys == tree.nodes.Keys
    {
    }

    lemma Mine(n: PlanNode)
      requires Valid() && Owns(n)
      ensures n.id in tree.nodes && n.children == tree.nodes[n.id].children
    {
      Seen(n);
    }

    lemma Scored(n: PlanNode)
      requires Valid() && Owns(n)
      ensures n.id in tree.nodes && n.score == tree.nodes[n.id].score
    {
      Seen(n);
    }

    lemma Data(n: PlanNode)
      requires Valid() && Owns(n)
      ensures n.id in tree.nodes && n.AsNode() == tree.nodes[n.id]
    {
    }

    lemma Found(id: string)
      requires Valid()
      ensures id in nodeIndex <==> id in tree.nodes
      ensures id in nodeIndex ==> Owns(nodeIndex[id]) && nodeIndex[id].id == id
      ensures WellFormed(tree) && Mirrored() && tree.root in nodeIndex && nodeIndex[tree.root] == root
    {
    }

    // One link up.
    lemma Climb(n: PlanNode)
      requires Valid() && Owns(n)
      ensures WellFormed(tree) && n.id in tree.nodes && n.id in tree.level
      ensures if n.parentId == "" then n.id == tree.root && PathTo(tree, n.id) == [n.id]
              else && n.id != tree.root && n.parentId in nodeIndex && Owns(nodeIndex[n.parentId])
                   && n.parentId in tree.nodes && nodeIndex[n.parentId].id == n.parentId == tree.nodes[n.id].parent
                   && n.parentId in tree.level && tree.level[n.parentId] < tree.level[n.id]
                   && PathTo(tree, n.id) == PathTo(tree, n.parentId) + [n.id]
    {
      Seen(n);
      RootIsAlone(tree, n.id);
      if n.parentId != "" {
        assert ParentOk(tree, n.id);
        Found(n.parentId);
      }
    }

    // NewPlanTree
    constructor (rootId: string, description: string)
      requires rootId != ""
      ensures Valid() && totalNodes == 1 && maxDepth == 0 && fresh(root)
      ensures tree == Planted(rootId, description)
    {
      var action := Some(Action(Decompose, "", "", "", description, [], ""));
      var n := new PlanNode(rootId, "", action, 0);
      root := n;
      nodeIndex := map[rootId := n];
      totalNodes, maxDepth := 1, 0;
      tree := Planted(rootId, description);
    }

    // A tree put together from nodes that are already linked; the greatest depth is not kept.
    constructor Assembled(root: PlanNode, index: map<string, PlanNode>, totalNodes: int, ghost t: Tree)
      requires WellFormed(t) && index.Keys == t.nodes.Keys && t.root in index && index[t.root] == root
      requires forall id :: id in index ==> index[id].id == id && index[id].AsNode() == t.nodes[id]
      ensures Valid() && tree == t && nodeIndex == index && this.root == root && this.totalNodes == totalNodes && maxDepth == 0
    {
      this.root, nodeIndex, this.totalNodes, maxDepth, tree := root, index, totalNodes, 0, t;
    }

    // AddNode; newId is the one generateAgentID has just drawn.
    method AddNode(parentId: string, action: Option<Action>, newId: string) returns (node: PlanNode?)
      requires Valid() && newId !in nodeIndex && newId != ""
      modifies this`nodeIndex, this`totalNodes, this`maxDepth, this`tree, nodeIndex.Values`children
      ensures Valid()
      ensures parentId !in old(nodeIndex) ==> node == null && tree == old(tree) && totalNodes == old(totalNodes)
      ensures parentId in old(nodeIndex) ==>
                && node != null && Owns(node) && node.id == newId && tree == Grown(old(tree), parentId, newId, action)
                && totalNodes == old(totalNodes) + 1 && maxDepth == if node.depth > old(maxDepth) then node.depth else old(maxDepth)
      ensures parentId in old(nodeIndex) ==>
                && node.action == (if action.None? then None else Some(action.value.(nodeId := newId)))
                && node.depth == old(nodeIndex)[parentId].depth + 1
    {
      hide *;
      if parentId !in nodeIndex { return null; }
      Found(parentId);
      Seen(nodeIndex[parentId]);
      AsNodeIs(nodeIndex[parentId]);
      GrownChild(tree, parentId, newId, action);
      TaggedIs(action, newId);
      node := NewChild(nodeIndex[parentId], action, newId);
      Seen(node);
      AsNodeIs(node);
      Count(node.depth);
    }

    lemma AsNodeIs(n: PlanNode)
      ensures n.AsNode().action == n.action && n.AsNode().depth == n.depth
    {
    }

    method Count(depth: int)
      modifies this`totalNodes, this`maxDepth
      ensures totalNodes == old(totalNodes) + 1 && maxDepth == if depth > old(maxDepth) then depth else old(maxDepth)
    {
      totalNodes := totalNodes + 1;
      if depth > maxDepth { maxDepth := depth; }
    }

    method NewChild(parent: PlanNode, action: Option<Action>, newId: string) returns (node: PlanNode)
      requires Valid() && Owns(parent) && parent.id in tree.nodes && parent.id in tree.level && newId !in nodeIndex && newId != ""
      modifies this`nodeIndex, this`tree, parent`children
      ensures Valid() && Owns(node) && node.id == newId && tree == Grown(old(tree), parent.id, newId, action)
    {
      hide Valid, WellFormed, Grown, Tagged, Mirrored;
      Found(newId);
      ghost var g := Grown(tree, parent.id, newId, action);
      GrownWellFormed(tree, parent.id, newId, action);
      GrownChild(tree, parent.id, newId, action);
      GrownIs(tree, parent.id, newId, action);
      Seen(parent);
      node := new PlanNode(newId, parent.id, Tagged(action, newId), parent.depth + 1);
      Link(parent, node, g.level);
      assert tree == g;
      IsValid();
    }

    lemma IsValid()
      requires Mirrored() && WellFormed(tree) && tree.root in nodeIndex && nodeIndex[tree.root] == root
      ensures Valid()
    {
    }

    method Link(parent: PlanNode, node: PlanNode, ghost level: map<string, nat>)
      requires Mirrored() && Owns(parent) && node.id !in nodeIndex && node !in nodeIndex.Values
      modifies this`nodeIndex, this`tree, parent`children
      ensures Mirrored() && nodeIndex == old(nodeIndex)[node.id := node]
      ensures tree == Set(Set(old(tree), parent.id, old(parent.AsNode()).(children := old(parent.children) + [node.id])),
                          node.id, node.AsNode()).(level := level)
    {
      hide Mirrored, PlanNode.AsNode, Set;
      HangBelow(parent, node.id);
      Register(node, level);
    }

    method HangBelow(parent: PlanNode, id: string)
      requires Mirrored() && Owns(parent)
      modifies this`tree, parent`children
      ensures Mirrored() && tree == Set(old(tree), parent.id, old(parent.AsNode()).(children := old(parent.children) + [id]))
    {
      ghost var wasTree := tree;
      parent.children := parent.children + [id];
      tree := Set(tree, parent.id, parent.AsNode());
    }

    method Register(node: PlanNode, ghost level: map<string, nat>)
      requires Mirrored() && node.id !in nodeIndex && node !in nodeIndex.Values
      modifies this`nodeIndex, this`tree
      ensures Mirrored() && nodeIndex == old(nodeIndex)[node.id := node]
      ensures tree == Set(old(tree), node.id, node.AsNode()).(level := level)
    {
      nodeIndex := nodeIndex[node.id := node];
      tree := Set(tree, node.id, node.AsNode()).(level := level);
    }

    // PruneSubtree
    method PruneSubtree(id: string)
      requires Valid() && WellFormed(tree)
      modifies this`tree, nodeIndex.Values`status
      ensures Valid()
      ensures tree == if id in nodeIndex then Painted(old(tree), Below(old(tree), id)) else old(tree)
    {
      if id !in nodeIndex { return; }
      Found(id);
      Prune(nodeIndex[id]);
    }

    method Prune(n: PlanNode)
      requires Valid() && Owns(n) && WellFormed(tree)
      modifies this`tree, nodeIndex.Values`status
      ensures Valid() && tree == Painted(old(tree), Below(old(tree), n.id))
      decreases |Below(tree, n.id)|
    {
      hide Valid, WellFormed, Below, BelowFirst, Painted, PlanNode.AsNode;
      ghost var t := tree;
      var children := n.children;
      Mine(n);
      BelowNone(t, n.id);
      PruneOne(n);
      for i := 0 to |children|
        invariant Valid() && tree == Painted(t, BelowFirst(t, n.id, i))
      {
        AtChild(t, n.id, i);
        Prune(nodeIndex[children[i]]);
        PaintedNext(t, n.id, i);
      }
      BelowAll(t, n.id);
    }

    // Before the i-th child is pruned.
    lemma AtChild(t: Tree, id: string, i: nat)
      requires Valid() && WellFormed(t) && id in t.nodes && i < |t.nodes[id].children|
      requires tree == Painted(t, BelowFirst(t, id, i))
      ensures WellFormed(tree)
      ensures var c := t.nodes[id].children[i];
        && c in nodeIndex && Owns(nodeIndex[c]) && nodeIndex[c].id == c
        && Below(tree, c) == Below(t, c) && |Below(t, c)| < |Below(t, id)|
    {
      Child(t, id, i);
      Found(t.nodes[id].children[i]);
      SameBelow(t, tree, t.nodes[id].children[i]);
      ChildIsBelow(t, id, i);
    }

    method PruneOne(n: PlanNode)
      requires Valid() && Owns(n)
      modifies this`tree, n`status
      ensures Valid() && tree == Painted(old(tree), {n.id})
    {
      assert tree.root in nodeIndex;
      SameShapeWellFormed(tree, Painted(tree, {n.id}));
      hide WellFormed;
      ghost var t := tree;
      n.status := Pruned;
      tree := Painted(tree, {n.id});
      forall id | id in nodeIndex
        ensures nodeIndex[id].AsNode() == tree.nodes[id]
      {
        assert old(nodeIndex[id].AsNode()) == t.nodes[id];
      }
    }

    // ReconstructPath
    method ReconstructPath(id: string) returns (path: seq<PlanNode>)
      requires Valid() && WellFormed(tree)
      ensures id !in nodeIndex ==> path == []
      ensures id in nodeIndex ==> id in tree.nodes && Names(path) == PathTo(tree, id)
      ensures forall i :: 0 <= i < |path| ==> Owns(path[i])
    {
      hide Valid, WellFormed, PathTo;
      path := [];
      if id !in nodeIndex { return; }
      Found(id);
      var current := nodeIndex[id];
      Climb(current);
      while current.parentId != ""
        invariant Owns(current) && current.id in tree.nodes && current.id in tree.level
        invariant forall i :: 0 <= i < |path| ==> Owns(path[i])
        invariant PathTo(tree, id) == PathTo(tree, current.id) + Names(path)
        decreases tree.level[current.id]
      {
        Climb(current);
        NamesNext(current, path);
        path := [current] + path;
        current := nodeIndex[current.parentId];
      }
      Climb(current);
      NamesNext(current, path);
      path := [current] + path;
    }
  }

  lemma NamesNext(n: PlanNode, ns: seq<PlanNode>)
    ensures Names([n] + ns) == [n.id] + Names(ns)
    ensures forall p: seq<string> :: p + [n.id] + Names(ns) == p + ([n.id] + Names(ns))
  {
  }

  function Names(ns: seq<PlanNode>): seq<string> { seq(|ns|, i requires 0 <= i < |ns| => ns[i].id) }

  function Set(t: Tree, id: string, n: Node): Tree { t.(nodes := t.nodes[id := n]) }
}
