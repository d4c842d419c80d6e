// Plan trees in checkpoints (internal/agent/checkpoint.go, lines 175 to 294): a tree of nodes to a
// table indexed by ID, and back.

module Checkpoint {
  import opened Wrappers
  import opened PlanTrees

  datatype SavedAction = SavedAction(kind: ActionType, agentType: string, prompt: string, toolName: string, toolArgs: string)

  datatype SavedNode = SavedNode(
    action: Option<SavedAction>, status: NodeStatus, confidence: real, result: string, error: string, children: seq<string>)

  datatype Saved = Saved(rootId: string, nodes: map<string, SavedNode>, currentPath: seq<string>, totalNodes: int)

  function SaveAction(a: Option<Action>): Option<SavedAction> {
    if a.None? then None
    else Some(SavedAction(a.value.kind, a.value.agentType, a.value.prompt, a.value.toolName, a.value.toolArgs))
  }

  function LoadAction(a: Option<SavedAction>, id: string): Option<Action> {
    if a.None? then None
    else Some(Action(a.value.kind, a.value.toolName, a.value.toolArgs, a.value.agentType, a.value.prompt, [], id))
  }

  function Save(n: Node): SavedNode {
    SavedNode(SaveAction(n.action), n.status, n.score,
              if n.result.Some? then n.result.value.output else "",
              if n.result.Some? then n.result.value.error else "",
              n.children)
  }

  // A node as it is first rebuilt, without links.
  function Load(s: SavedNode, id: string): Node {
    Node("", [], LoadAction(s.action, id), s.confidence, 0.0, 0.0, s.status,
         if s.result != "" || s.error != "" then Some(Result(s.result, s.error)) else None, 0, 0, 0.0)
  }

  // What a round trip makes of a node: links, status, score, the saved action fields and a result
  // that says something survive; the rest is reset.
  function Faded(n: Node, id: string): Node {
    Node(n.parent, n.children,
         if n.action.None? then None else Some(n.action.value.(prerequisites := [], nodeId := id)),
         n.score, 0.0, 0.0, n.status,
         if n.result.Some? && (n.result.value.output != "" || n.result.value.error != "") then n.result else None, 0, 0, 0.0)
  }

  ghost function FadedTree(t: Tree): Tree {
    t.(nodes := map id | id in t.nodes :: Faded(t.nodes[id], id))
  }

  ghost function Table(t: Tree): map<string, SavedNode> {
    map id | id in t.nodes :: Save(t.nodes[id])
  }

  // Saving what was restored gives the same table; restoring again changes nothing.
  lemma SavedAgain(t: Tree)
    requires WellFormed(t)
    ensures WellFormed(FadedTree(t)) && Table(FadedTree(t)) == Table(t) && FadedTree(FadedTree(t)) == FadedTree(t)
  {
    SameShapeWellFormed(t, FadedTree(t));
    forall id | id in t.nodes
      ensures Save(Faded(t.nodes[id], id)) == Save(t.nodes[id]) && Faded(Faded(t.nodes[id], id), id) == Faded(t.nodes[id], id)
    {
      FadedOnce(t.nodes[id], id);
    }
    hide WellFormed, Save, Faded;
    assert FadedTree(FadedTree(t)).nodes == FadedTree(t).nodes;
    assert Table(FadedTree(t)) == Table(t);
  }

  lemma FadedOnce(n: Node, id: string)
    ensures Save(Faded(n, id)) == Save(n) && Faded(Faded(n, id), id) == Faded(n, id)
  {
  }

  // Exactly the nodes that a round trip brings back as they were.
  lemma Survives(n: Node, id: string)
    ensures Faded(n, id) == n <==>
              && n.successProb == 0.0 && n.progress == 0.0 && n.depth == 0 && n.visits == 0 && n.reward == 0.0
              && (n.action.Some? ==> n.action.value.prerequisites == [] && n.action.value.nodeId == id)
              && n.result != Some(Result("", ""))
  {
    if n.result.Some? { assert n.result == Some(Result(n.result.value.output, n.result.value.error)); }
  }

  class Checkpointer {

    constructor ()
    {
    }

    // serializeNode: children first, then the node itself.
    method SerializeNode(pt: PlanTree, n: PlanNode, nodes: map<string, SavedNode>) returns (r: map<string, SavedNode>)
      requires pt.Valid() && WellFormed(pt.tree) && pt.Owns(n) && n.id in pt.tree.nodes
      ensures r == nodes + Part(pt.tree, Below(pt.tree, n.id))
      decreases |Below(pt.tree, n.id)|
    {
      hide PlanTree.Valid, WellFormed, Below, BelowFirst;
      ghost var t := pt.tree;
      pt.Data(n);
      var sn := Save(n.AsNode());
      r := nodes;
      ghost var seen: set<string> := {};
      assert Part(t, {}) == map[];
      BelowNone(t, n.id);
      for i := 0 to |n.children|
        invariant r == nodes + Part(t, seen) && seen + {n.id} == BelowFirst(t, n.id, i)
      {
        AtChild(pt, n, i);
        var child := pt.nodeIndex[n.children[i]];
        r := SerializeNode(pt, child, r);
        PartJoins(t, seen, Below(t, child.id));
        seen := seen + Below(t, child.id);
        BelowNext(t, n.id, i);
      }
      r := r[n.id := sn];
      BelowAll(t, n.id);
      PartAdds(t, seen, n.id);
    }

    lemma AtChild(pt: PlanTree, n: PlanNode, i: nat)
      requires pt.Valid() && WellFormed(pt.tree) && pt.Owns(n) && i < |n.children|
      ensures n.id in pt.tree.nodes && n.children == pt.tree.nodes[n.id].children
      ensures var c := n.children[i];
        && c in pt.nodeIndex && c in pt.tree.nodes && pt.Owns(pt.nodeIndex[c]) && pt.nodeIndex[c].id == c
        && |Below(pt.tree, c)| < |Below(pt.tree, n.id)|
    {
      pt.Mine(n);
      Child(pt.tree, n.id, i);
      pt.Found(n.children[i]);
      ChildIsBelow(pt.tree, n.id, i);
    }

    // serializePlanTree
    method Serialize(pt: PlanTree, bestPath: seq<PlanNode>) returns (st: Saved)
      requires pt.Valid() && WellFormed(pt.tree)
      ensures st == Saved(pt.tree.root, Table(pt.tree), Names(bestPath), pt.totalNodes)
    {
      hide PlanTree.Valid, WellFormed, Below;
      var path := [];
      assert Names(bestPath[..0]) == [];
      for i := 0 to |bestPath|
        invariant path == Names(bestPath[..i])
      {
        path := path + [bestPath[i].id];
        assert bestPath[..i + 1] == bestPath[..i] + [bestPath[i]];
      }
      assert bestPath[..|bestPath|] == bestPath;
      pt.Found(pt.tree.root);
      var nodes := SerializeNode(pt, pt.root, map[]);
      WholeTable(pt.tree);
      assert map[] + Table(pt.tree) == Table(pt.tree);
      st := Saved(pt.root.id, nodes, path, pt.totalNodes);
    }
  }

  // The rows of some of the nodes.
  ghost function Part(t: Tree, s: set<string>): map<string, SavedNode> {
    map id | id in t.nodes && id in s :: Save(t.nodes[id])
  }

  lemma PartJoins(t: Tree, a: set<string>, b: set<string>)
    ensures forall m: map<string, SavedNode> :: m + Part(t, a) + Part(t, b) == m + Part(t, a + b)
  {
    forall m: map<string, SavedNode>
      ensures m + Part(t, a) + Part(t, b) == m + Part(t, a + b)
    {
    }
  }

  lemma PartAdds(t: Tree, s: set<string>, id: string)
    requires id in t.nodes
    ensures forall m: map<string, SavedNode> :: (m + Part(t, s))[id := Save(t.nodes[id])] == m + Part(t, s + {id})
  {
    forall m: map<string, SavedNode>
      ensures (m + Part(t, s))[id := Save(t.nodes[id])] == m + Part(t, s + {id})
    {
    }
  }

  lemma WholeTable(t: Tree)
    requires WellFormed(t)
    ensures t.root in t.nodes && Part(t, Below(t, t.root)) == Table(t)
  {
    forall x | x in t.nodes
      ensures x in Below(t, t.root)
    {
      RootIsAbove(t, x);
    }
  }

  // ----- restoring -----

  // The children whose rows are present.
  function Present(nodes: map<string, SavedNode>, cs: seq<string>): seq<string> {
    if cs == [] then []
    else Present(nodes, cs[..|cs| - 1]) + if cs[|cs| - 1] in nodes then [cs[|cs| - 1]] else []
  }

  ghost predicate Lists(nodes: map<string, SavedNode>, p: string, c: string) {
    p in nodes && c in nodes[p].children
  }

  datatype Restored = Restored(root: Option<PlanNode>, index: map<string, PlanNode>, bestPath: seq<PlanNode>, totalNodes: int)

  // A rebuilt node but for its links.
  ghost predicate Rebuilt(n: PlanNode, id: string, s: SavedNode)
    reads n
  {
    n.id == id && n.AsNode() == Load(s, id).(parent := n.parentId, children := n.children)
  }

  class Restorer {

    method MakeNode(id: string, s: SavedNode) returns (n: PlanNode)
      ensures fresh(n) && Rebuilt(n, id, s) && n.parentId == "" && n.children == []
    {
      n := new PlanNode(id, "", LoadAction(s.action, id), 0);
      n.status, n.score := s.status, s.confidence;
      if s.result != "" || s.error != "" { n.result := Some(Result(s.result, s.error)); }
    }

    // The first loop of deserializePlanTree; map iteration order is arbitrary.
    method MakeNodes(st: Saved) returns (index: map<string, PlanNode>)
      ensures index.Keys == st.nodes.Keys && fresh(index.Values)
      ensures forall id :: id in index ==> Rebuilt(index[id], id, st.nodes[id]) && index[id].parentId == "" && index[id].children == []
    {
      hide Rebuilt;
      index := map[];
      var left := st.nodes.Keys;
      while left != {}
        invariant left <= st.nodes.Keys && index.Keys == st.nodes.Keys - left && fresh(index.Values)
        invariant forall id :: id in index ==>
                    Rebuilt(index[id], id, st.nodes[id]) && index[id].parentId == "" && index[id].children == []
        decreases left
      {
        var id :| id in left;
        var n := MakeNode(id, st.nodes[id]);
        assert index[id := n].Values <= index.Values + {n};
        index := index[id := n];
        left := left - {id};
      }
    }

    ghost predicate AllRebuilt(index: map<string, PlanNode>, nodes: map<string, SavedNode>)
      reads index.Values
    {
      index.Keys == nodes.Keys && forall id :: id in index ==> Rebuilt(index[id], id, nodes[id])
    }

    // Every parent link is one that the table lists, and every listed child has one; the rows done
    // so far have their children.
    ghost predicate Linking(index: map<string, PlanNode>, nodes: map<string, SavedNode>, done: set<string>)
      reads index.Values
    {
      && AllRebuilt(index, nodes)
      && (forall id :: id in index ==> index[id].children == if id in done then Present(nodes, nodes[id].children) else [])
      && (forall c :: c in index && index[c].parentId != "" ==> Lists(nodes, index[c].parentId, c))
      && (forall p, c :: p in done && Lists(nodes, p, c) && c in index ==> Lists(nodes, index[c].parentId, c))
    }

    // One row of the second loop of deserializePlanTree.
    method LinkRow(index: map<string, PlanNode>, nodes: map<string, SavedNode>, p: string)
      requires AllRebuilt(index, nodes) && p in index && index[p].children == []
      modifies index.Values`children, index.Values`parentId
      ensures AllRebuilt(index, nodes) && index[p].children == Present(nodes, nodes[p].children)
      ensures forall c :: c in index && c != p ==> index[c].children == old(index[c].children)
      ensures forall c :: c in index ==> index[c].parentId == if c in nodes[p].children then p else old(index[c].parentId)
    {
      hide AllRebuilt, Present;
      NamesOfIndex(index, nodes);
      SameNames(index, nodes);
      var cs := nodes[p].children;
      PresentNext(nodes, cs, 0);
      for i := 0 to |cs|
        invariant AllRebuilt(index, nodes) && index[p].children == Present(nodes, cs[..i])
        invariant forall c :: c in index && c != p ==> index[c].children == old(index[c].children)
        invariant forall c :: c in index ==> index[c].parentId == if c in cs[..i] then p else old(index[c].parentId)
      {
        PresentNext(nodes, cs, i);
        if cs[i] in index { LinkOne(index[p], index[cs[i]], index, nodes); }
      }
      assert cs[..|cs|] == cs;
    }

    lemma PresentNext(nodes: map<string, SavedNode>, cs: seq<string>, i: nat)
      ensures Present(nodes, cs[..0]) == []
      ensures i < |cs| ==> forall c :: c in cs[..i + 1] <==> c in cs[..i] || c == cs[i]
      ensures i < |cs| ==> Present(nodes, cs[..i + 1]) == Present(nodes, cs[..i]) + if cs[i] in nodes then [cs[i]] else []
    {
      if i < |cs| { assert cs[..i + 1] == cs[..i] + [cs[i]] && cs[..i + 1][..i] == cs[..i]; }
    }

    method LinkOne(parent: PlanNode, child: PlanNode, ghost index: map<string, PlanNode>, ghost nodes: map<string, SavedNode>)
      requires AllRebuilt(index, nodes)
      requires parent.id in index && index[parent.id] == parent && child.id in index && index[child.id] == child
      modifies parent`children, child`parentId
      ensures AllRebuilt(index, nodes)
      ensures parent.children == old(parent.children) + [child.id] && child.parentId == parent.id
    {
      parent.children := parent.children + [child.id];
      child.parentId := parent.id;
    }

    method LinkNext(index: map<string, PlanNode>, nodes: map<string, SavedNode>, ghost done: set<string>, p: string)
      requires Linking(index, nodes, done) && p in nodes && p !in done
      modifies index.Values`children, index.Values`parentId
      ensures Linking(index, nodes, done + {p})
    {
      hide Present, AllRebuilt, Lists;
      SameNames(index, nodes);
      Listed(nodes, p);
      LinkRow(index, nodes, p);
    }

    lemma Listed(nodes: map<string, SavedNode>, p: string)
      requires p in nodes
      ensures forall c :: Lists(nodes, p, c) <==> c in nodes[p].children
    {
    }

    lemma SameNames(index: map<string, PlanNode>, nodes: map<string, SavedNode>)
      requires AllRebuilt(index, nodes)
      ensures index.Keys == nodes.Keys
    {
    }

    method LinkNodes(index: map<string, PlanNode>, nodes: map<string, SavedNode>)
      requires Linking(index, nodes, {})
      modifies index.Values`children, index.Values`parentId
      ensures Linking(index, nodes, nodes.Keys)
    {
      hide Linking;
      var left := nodes.Keys;
      assert nodes.Keys - left == {};
      while left != {}
        invariant left <= nodes.Keys && Linking(index, nodes, nodes.Keys - left)
        decreases left
      {
        var p :| p in left;
        assert nodes.Keys - left + {p} == nodes.Keys - (left - {p});
        LinkNext(index, nodes, nodes.Keys - left, p);
        left := left - {p};
      }
      assert nodes.Keys - left == nodes.Keys;
    }

    // deserializePlanTree
    method Deserialize(st: Saved) returns (r: Option<Restored>)
      ensures r.None? <==> st.rootId == ""
      ensures r.Some? ==>
                && Linking(r.value.index, st.nodes, st.nodes.Keys) && r.value.totalNodes == st.totalNodes
                && r.value.root == (if st.rootId in st.nodes then Some(r.value.index[st.rootId]) else None)
                && Names(r.value.bestPath) == Present(st.nodes, st.currentPath)
    {
      hide Linking;
      if st.rootId == "" { return None; }
      var index := MakeNodes(st);
      Unlinked(index, st.nodes);
      LinkNodes(index, st.nodes);
      var path := RestorePath(index, st.nodes, st.currentPath);
      SameKeys(index, st.nodes);
      r := Some(Restored(if st.rootId in index then Some(index[st.rootId]) else None, index, path, st.totalNodes));
    }

    lemma Unlinked(index: map<string, PlanNode>, nodes: map<string, SavedNode>)
      requires index.Keys == nodes.Keys
      requires forall id :: id in index ==> Rebuilt(index[id], id, nodes[id]) && index[id].parentId == "" && index[id].children == []
      ensures Linking(index, nodes, {})
    {
    }

    method RestorePath(index: map<string, PlanNode>, ghost nodes: map<string, SavedNode>, ids: seq<string>) returns (path: seq<PlanNode>)
      requires Linking(index, nodes, nodes.Keys)
      ensures Names(path) == Present(nodes, ids)
    {
      hide Present, AllRebuilt;
      path := [];
      NamesOfIndex(index, nodes);
      SameNames(index, nodes);
      PresentNext(nodes, ids, 0);
      for i := 0 to |ids|
        invariant Names(path) == Present(nodes, ids[..i])
      {
        PresentNext(nodes, ids, i);
        if ids[i] in index {
          assert Names(path + [index[ids[i]]]) == Names(path) + [ids[i]];
          path := path + [index[ids[i]]];
        }
      }
      assert ids[..|ids|] == ids;
    }

    lemma NamesOfIndex(index: map<string, PlanNode>, nodes: map<string, SavedNode>)
      requires AllRebuilt(index, nodes)
      ensures forall id :: id in index ==> index[id].id == id
    {
    }

    // ----- the round trip -----

    lemma {:induction false} AllPresent(t: Tree, cs: seq<string>)
      requires forall i :: 0 <= i < |cs| ==> cs[i] in t.nodes
      ensures Present(Table(t), cs) == cs
    {
      if cs != [] {
        AllPresent(t, cs[..|cs| - 1]);
        assert cs == cs[..|cs| - 1] + [cs[|cs| - 1]];
      }
    }

    // Restoring the table of a tree gives each node its links, status, score, saved action fields and
    // result text back: node by node it is the faded tree.
    lemma RoundTripAt(t: Tree, index: map<string, PlanNode>, id: string)
      requires WellFormed(t) && Linking(index, Table(t), Table(t).Keys) && id in t.nodes
      ensures id in index && index[id].id == id && index[id].AsNode() == Faded(t.nodes[id], id)
    {
      var n := index[id];
      assert Rebuilt(n, id, Table(t)[id]);
      assert ChildrenOk(t, id);
      AllPresent(t, t.nodes[id].children);
      if n.parentId != "" {
        assert Lists(Table(t), n.parentId, id);
        assert ChildrenOk(t, n.parentId);
      }
      if id != t.root {
        assert ParentOk(t, id);
        assert Lists(Table(t), t.nodes[id].parent, id);
        assert Lists(Table(t), n.parentId, id) && ChildrenOk(t, n.parentId);
      }
    }

    method RoundTrip(pt: PlanTree, bestPath: seq<PlanNode>) returns (r: Restored, again: PlanTree)
      requires pt.Valid() && WellFormed(pt.tree) && forall i :: 0 <= i < |bestPath| ==> pt.Owns(bestPath[i])
      ensures r.root.Some? && r.root.value.id == pt.tree.root && r.totalNodes == pt.totalNodes
      ensures r.index.Keys == pt.tree.nodes.Keys && Names(r.bestPath) == Names(bestPath)
      ensures forall id :: id in r.index ==> r.index[id].id == id && r.index[id].AsNode() == FadedTree(pt.tree).nodes[id]
      // What is restored is a plan tree again: the faded one.
      ensures again.Valid() && again.tree == FadedTree(pt.tree) && again.totalNodes == pt.totalNodes
      ensures again.root == r.root.value && again.nodeIndex == r.index
    {
      hide PlanTree.Valid, Linking, WellFormed;
      var saver := new Checkpointer();
      var st := saver.Serialize(pt, bestPath);
      pt.Found(pt.tree.root);
      RootNamed(pt.tree);
      var o := Deserialize(st);
      r := o.value;
      PathPresent(pt, bestPath);
      forall id | id in pt.tree.nodes
        ensures id in r.index && r.index[id].id == id && r.index[id].AsNode() == Faded(pt.tree.nodes[id], id)
      {
        RoundTripAt(pt.tree, r.index, id);
      }
      SameKeys(r.index, st.nodes);
      SavedAgain(pt.tree);
      again := new PlanTree.Assembled(r.root.value, r.index, r.totalNodes, FadedTree(pt.tree));
    }

    // Saving a tree, restoring it and saving it again gives the same checkpoint.
    method SaveTwice(pt: PlanTree, bestPath: seq<PlanNode>) returns (first: Saved, second: Saved)
      requires pt.Valid() && WellFormed(pt.tree) && forall i :: 0 <= i < |bestPath| ==> pt.Owns(bestPath[i])
      ensures first == Saved(pt.tree.root, Table(pt.tree), Names(bestPath), pt.totalNodes) && second == first
    {
      hide PlanTree.Valid, WellFormed, Linking, FadedTree, Table;
      var saver := new Checkpointer();
      first := saver.Serialize(pt, bestPath);
      var r, again := RoundTrip(pt, bestPath);
      SavedAgain(pt.tree);
      FadedRoot(pt.tree);
      second := saver.Serialize(again, r.bestPath);
    }

    lemma FadedRoot(t: Tree)
      ensures FadedTree(t).root == t.root
    {
    }

    lemma SameKeys(index: map<string, PlanNode>, nodes: map<string, SavedNode>)
      requires Linking(index, nodes, nodes.Keys)
      ensures index.Keys == nodes.Keys
    {
    }

    lemma RootNamed(t: Tree)
      requires WellFormed(t)
      ensures t.root != "" && t.root in Table(t)
    {
    }

    lemma PathPresent(pt: PlanTree, path: seq<PlanNode>)
      requires pt.Valid() && forall i :: 0 <= i < |path| ==> pt.Owns(path[i])
      ensures Present(Table(pt.tree), Names(path)) == Names(path)
    {
      forall i | 0 <= i < |path|
        ensures Names(path)[i] in pt.tree.nodes
      {
        pt.Seen(path[i]);
      }
      AllPresent(pt.tree, Names(path));
    }
  }
}
