// Which goals A* search over a plan tree can return (internal/agent/plan_search.go, lines 393 to 476),
// and when they are the cheapest.

module AStarOutcomes {
  import opened Wrappers
  import opened PlanTrees
  import opened AStarSpec

  // The open set is determined by the closed one.
  ghost predicate Waiting(t: Tree, closed: set<string>, x: string)
    requires WellFormed(t)
  {
    x !in closed && Frontier(t, x, closed)
  }

  // A node that may be popped: the sort is not stable, so it is any one of least estimate.
  ghost predicate Next(t: Tree, goal: Option<Goal>, closed: set<string>, x: string)
    requires WellFormed(t)
  {
    Waiting(t, closed, x) && forall z :: Waiting(t, closed, z) ==> z in t.nodes && Estimate(t, goal, x) <= Estimate(t, goal, z)
  }

  // Some course of the search from these closed nodes on returns g.
  ghost predicate CanReturn(t: Tree, goal: Option<Goal>, closed: set<string>, g: string)
    requires WellFormed(t)
    decreases t.nodes.Keys - closed
  {
    exists x :: Next(t, goal, closed, x) &&
      if IsGoal(t.nodes[x], goal) then g == x else CanReturn(t, goal, closed + {x}, g)
  }

  // The greatest estimate strictly below a on the way to y.
  ghost function Peak(t: Tree, goal: Option<Goal>, a: string, y: string): real
    requires WellFormed(t) && y in t.nodes && Above(t, a, y) && a != y
    decreases t.level[y]
  {
    assert ParentOk(t, y);
    var e, p := Estimate(t, goal, y), t.nodes[y].parent;
    if p == a || e > Peak(t, goal, a, p) then e else Peak(t, goal, a, p)
  }

  // The lowest common ancestor.
  ghost function Fork(t: Tree, x: string, y: string): (f: string)
    requires WellFormed(t) && x in t.nodes && y in t.nodes
    ensures f in t.nodes && Above(t, f, x) && Above(t, f, y)
    decreases t.level[x]
  {
    if Above(t, x, y) then x
    else
      RootIsAbove(t, y);
      assert ParentOk(t, x);
      Fork(t, t.nodes[x].parent, y)
  }

  lemma {:induction false} ForkIsLowest(t: Tree, x: string, y: string, z: string)
    requires WellFormed(t) && x in t.nodes && y in t.nodes && Above(t, z, x) && Above(t, z, y)
    ensures Above(t, z, Fork(t, x, y))
    decreases t.level[x]
  {
    if !Above(t, x, y) {
      RootIsAbove(t, y);
      assert ParentOk(t, x);
      ForkIsLowest(t, t.nodes[x].parent, y, z);
    }
  }

  // Below the node where the ways to the two goals part, the way to y stays under the way to g.
  ghost predicate Beats(t: Tree, goal: Option<Goal>, y: string, g: string)
    requires WellFormed(t)
  {
    && ReachableGoal(t, goal, y) && g in t.nodes && !Above(t, g, y) && !Above(t, y, g)
    && Peak(t, goal, Fork(t, g, y), y) < Peak(t, goal, Fork(t, g, y), g)
  }

  // No goal lies above it.
  ghost predicate First(t: Tree, goal: Option<Goal>, g: string)
    requires WellFormed(t) && g in t.nodes
  {
    forall m :: m in t.nodes && m != g && Above(t, m, g) ==> !IsGoal(t.nodes[m], goal)
  }

  ghost predicate Returnable(t: Tree, goal: Option<Goal>, g: string)
    requires WellFormed(t)
  {
    ReachableGoal(t, goal, g) && First(t, goal, g) && forall y :: !Beats(t, goal, y, g)
  }

  // ----- on the way -----

  lemma {:induction false} OneWay(t: Tree, a: string, b: string, y: string)
    requires WellFormed(t) && y in t.nodes && Above(t, a, y) && Above(t, b, y)
    ensures a in t.nodes && b in t.nodes && (Above(t, a, b) || Above(t, b, a))
    decreases t.level[y]
  {
    AboveIsHigher(t, a, y);
    AboveIsHigher(t, b, y);
    if a != y && b != y {
      assert ParentOk(t, y);
      OneWay(t, a, b, t.nodes[y].parent);
    }
  }

  lemma Antisymmetric(t: Tree, a: string, b: string)
    requires WellFormed(t) && a in t.nodes && b in t.nodes && Above(t, a, b) && Above(t, b, a)
    ensures a == b
  {
    AboveIsHigher(t, a, b);
    AboveIsHigher(t, b, a);
  }

  lemma {:induction false} PeakOver(t: Tree, goal: Option<Goal>, a: string, o: string, y: string)
    requires WellFormed(t) && y in t.nodes && o in t.nodes && Above(t, a, o) && a != o && Above(t, o, y)
    ensures Above(t, a, y) && a != y && Estimate(t, goal, o) <= Peak(t, goal, a, y)
    decreases t.level[y]
  {
    AboveThrough(t, a, o, y);
    AboveIsHigher(t, a, o);
    AboveIsHigher(t, o, y);
    if o != y {
      assert ParentOk(t, y);
      PeakOver(t, goal, a, o, t.nodes[y].parent);
    }
  }

  // ----- the closed nodes -----

  ghost predicate Explored(t: Tree, goal: Option<Goal>, closed: set<string>)
    requires WellFormed(t)
  {
    forall x :: x in closed ==> Frontier(t, x, closed) && !IsGoal(t.nodes[x], goal)
  }

  lemma {:induction false} AncestorsClosed(t: Tree, goal: Option<Goal>, closed: set<string>, a: string, x: string)
    requires WellFormed(t) && Explored(t, goal, closed) && Frontier(t, x, closed) && Above(t, a, x) && a != x
    ensures a in closed
    decreases t.level[x]
  {
    assert x != t.root && ParentOk(t, x);
    var p := t.nodes[x].parent;
    if a != p { AncestorsClosed(t, goal, closed, a, p); }
  }

  lemma {:induction false} OpenToward(t: Tree, goal: Option<Goal>, closed: set<string>, y: string) returns (o: string)
    requires WellFormed(t) && Explored(t, goal, closed) && y in t.nodes && Reach(t, y) && y !in closed
    ensures o in t.nodes && Waiting(t, closed, o) && Above(t, o, y)
    decreases t.level[y]
  {
    if y == t.root || t.nodes[y].parent in closed {
      o := y;
    } else {
      assert ParentOk(t, y);
      o := OpenToward(t, goal, closed, t.nodes[y].parent);
    }
  }

  // Below a closed node on the way to y, the way passes an open one.
  lemma OpenBelow(t: Tree, goal: Option<Goal>, closed: set<string>, a: string, y: string) returns (o: string)
    requires WellFormed(t) && Explored(t, goal, closed) && y in t.nodes && Reach(t, y) && y !in closed
    requires a in closed && Above(t, a, y)
    ensures o in t.nodes && Waiting(t, closed, o) && Above(t, o, y) && Above(t, a, o) && a != o
    ensures a != y && Estimate(t, goal, o) <= Peak(t, goal, a, y)
  {
    o := OpenToward(t, goal, closed, y);
    OneWay(t, a, o, y);
    if !Above(t, a, o) {
      assert Frontier(t, a, closed);
      AncestorsClosed(t, goal, closed, o, a);
    }
    PeakOver(t, goal, a, o, y);
  }

  lemma {:induction false} LeastOf(t: Tree, goal: Option<Goal>, s: set<string>) returns (x: string)
    requires WellFormed(t) && s != {} && s <= t.nodes.Keys
    ensures x in s && forall z :: z in s ==> Estimate(t, goal, x) <= Estimate(t, goal, z)
    decreases s
  {
    x :| x in s;
    if s != {x} {
      var y := LeastOf(t, goal, s - {x});
      if Estimate(t, goal, y) < Estimate(t, goal, x) { x := y; }
    }
  }

  lemma SomeNext(t: Tree, goal: Option<Goal>, closed: set<string>, o: string) returns (x: string)
    requires WellFormed(t) && Waiting(t, closed, o)
    ensures Next(t, goal, closed, x)
  {
    var s := set z | z in t.nodes && Waiting(t, closed, z);
    assert o in s;
    x := LeastOf(t, goal, s);
  }

  lemma ExploredNext(t: Tree, goal: Option<Goal>, closed: set<string>, x: string)
    requires WellFormed(t) && Explored(t, goal, closed) && Waiting(t, closed, x) && !IsGoal(t.nodes[x], goal)
    ensures Explored(t, goal, closed + {x})
  {
    forall z | z in closed + {x}
      ensures Frontier(t, z, closed + {x}) && !IsGoal(t.nodes[z], goal)
    {
      assert Frontier(t, z, closed);
    }
  }

  // ----- what is returned is beaten by nothing -----

  ghost predicate Shared(t: Tree, a: string, x: string, y: string)
    requires WellFormed(t)
  {
    x in t.nodes && y in t.nodes && a != x && a != y && Above(t, a, x) && Above(t, a, y)
  }

  ghost predicate Under(t: Tree, goal: Option<Goal>, a: string, x: string, y: string)
    requires WellFormed(t)
  {
    Shared(t, a, x, y) ==> Estimate(t, goal, x) <= Peak(t, goal, a, y)
  }

  // Every closed node has stayed under the way to every reachable goal, below any ancestor they share.
  ghost predicate AllUnder(t: Tree, goal: Option<Goal>, closed: set<string>)
    requires WellFormed(t)
  {
    forall x, a, y :: x in closed && ReachableGoal(t, goal, y) ==> Under(t, goal, a, x, y)
  }

  lemma NextIsUnder(t: Tree, goal: Option<Goal>, closed: set<string>, x: string, a: string, y: string)
    requires WellFormed(t) && Explored(t, goal, closed) && Next(t, goal, closed, x) && ReachableGoal(t, goal, y)
    ensures Under(t, goal, a, x, y)
  {
    if Shared(t, a, x, y) {
      AncestorsClosed(t, goal, closed, a, x);
      assert y !in closed;
      var o := OpenBelow(t, goal, closed, a, y);
    }
  }

  lemma {:induction false} WayIsUnder(t: Tree, goal: Option<Goal>, closed: set<string>, a: string, x: string, y: string)
    requires WellFormed(t) && Explored(t, goal, closed) && AllUnder(t, goal, closed) && ReachableGoal(t, goal, y)
    requires Shared(t, a, x, y) && Frontier(t, x, closed) && Under(t, goal, a, x, y)
    ensures Peak(t, goal, a, x) <= Peak(t, goal, a, y)
    decreases t.level[x]
  {
    assert x != t.root && ParentOk(t, x);
    var p := t.nodes[x].parent;
    if p != a {
      assert Under(t, goal, a, p, y);
      WayIsUnder(t, goal, closed, a, p, y);
    }
  }

  lemma PoppedIsReturnable(t: Tree, goal: Option<Goal>, closed: set<string>, g: string)
    requires WellFormed(t) && Explored(t, goal, closed) && AllUnder(t, goal, closed)
    requires Next(t, goal, closed, g) && IsGoal(t.nodes[g], goal)
    ensures Returnable(t, goal, g)
  {
    forall m | m in t.nodes && m != g && Above(t, m, g)
      ensures !IsGoal(t.nodes[m], goal)
    {
      AncestorsClosed(t, goal, closed, m, g);
    }
    forall y | ReachableGoal(t, goal, y)
      ensures !Beats(t, goal, y, g)
    {
      if !Above(t, g, y) && !Above(t, y, g) {
        var a := Fork(t, g, y);
        NextIsUnder(t, goal, closed, g, a, y);
        WayIsUnder(t, goal, closed, a, g, y);
      }
    }
  }

  lemma {:induction false} ReturnedIsReturnable(t: Tree, goal: Option<Goal>, closed: set<string>, g: string)
    requires WellFormed(t) && Explored(t, goal, closed) && AllUnder(t, goal, closed) && CanReturn(t, goal, closed, g)
    ensures Returnable(t, goal, g)
    decreases t.nodes.Keys - closed
  {
    var x :| Next(t, goal, closed, x) && if IsGoal(t.nodes[x], goal) then g == x else CanReturn(t, goal, closed + {x}, g);
    if IsGoal(t.nodes[x], goal) {
      PoppedIsReturnable(t, goal, closed, g);
    } else {
      ExploredNext(t, goal, closed, x);
      forall a, y | ReachableGoal(t, goal, y)
        ensures Under(t, goal, a, x, y)
      {
        NextIsUnder(t, goal, closed, x, a, y);
      }
      ReturnedIsReturnable(t, goal, closed + {x}, g);
    }
  }

  // ----- what nothing beats can be returned -----

  // Closed nodes off the way to g have stayed strictly under it.
  ghost predicate Off(t: Tree, goal: Option<Goal>, a: string, x: string, g: string)
    requires WellFormed(t)
  {
    Shared(t, a, x, g) && !Above(t, x, g) ==> Estimate(t, goal, x) < Peak(t, goal, a, g)
  }

  ghost predicate AllOff(t: Tree, goal: Option<Goal>, closed: set<string>, g: string)
    requires WellFormed(t)
  {
    forall x, a :: x in closed ==> Off(t, goal, a, x, g)
  }

  lemma {:induction false} WayIsOff(t: Tree, goal: Option<Goal>, closed: set<string>, x: string, z: string, g: string)
    requires WellFormed(t) && Explored(t, goal, closed) && AllOff(t, goal, closed, g)
    requires x in t.nodes && g in t.nodes && !Above(t, x, g) && !Above(t, g, x) && Above(t, z, x) && z in t.nodes && !Above(t, z, g)
    requires Frontier(t, z, closed) && Off(t, goal, Fork(t, g, x), z, g) && Above(t, Fork(t, g, x), z)
    ensures Peak(t, goal, Fork(t, g, x), z) < Peak(t, goal, Fork(t, g, x), g)
    decreases t.level[z]
  {
    var a := Fork(t, g, x);
    RootIsAbove(t, g);
    assert z != t.root && ParentOk(t, z);
    var p := t.nodes[z].parent;
    if p != a {
      assert Above(t, a, p);
      assert Above(t, p, z);
      AboveThrough(t, p, z, x);
      if Above(t, p, g) {
        ForkIsLowest(t, g, x, p);
        Antisymmetric(t, a, p);
      }
      assert Off(t, goal, a, p, g);
      WayIsOff(t, goal, closed, x, p, g);
    }
  }

  // A node off the way that is popped before the one open on it.
  lemma NextIsOff(t: Tree, goal: Option<Goal>, closed: set<string>, o: string, x: string, a: string, g: string)
    requires WellFormed(t) && Explored(t, goal, closed) && g in t.nodes && Reach(t, g) && g !in closed
    requires Waiting(t, closed, o) && Above(t, o, g) && Waiting(t, closed, x) && Estimate(t, goal, x) < Estimate(t, goal, o)
    ensures Off(t, goal, a, x, g)
  {
    if Shared(t, a, x, g) {
      AncestorsClosed(t, goal, closed, a, x);
      OneWay(t, a, o, g);
      if !Above(t, a, o) {
        assert Frontier(t, a, closed);
        AncestorsClosed(t, goal, closed, o, a);
      }
      PeakOver(t, goal, a, o, g);
    }
  }

  // Two open nodes are never one above the other.
  lemma OpenApart(t: Tree, goal: Option<Goal>, closed: set<string>, o: string, x: string, g: string)
    requires WellFormed(t) && Explored(t, goal, closed) && g in t.nodes && g !in closed
    requires Waiting(t, closed, o) && Above(t, o, g) && Waiting(t, closed, x) && x != o
    ensures !Above(t, x, g) && !Above(t, g, x)
  {
    if Above(t, x, g) {
      OneWay(t, o, x, g);
      if Above(t, o, x) { AncestorsClosed(t, goal, closed, o, x); } else { AncestorsClosed(t, goal, closed, x, o); }
    }
    if Above(t, g, x) && g != x { AncestorsClosed(t, goal, closed, g, x); }
  }

  // By popping the open node on the way to g whenever it is among the least, g is reached.
  lemma {:induction false} ReturnableIsReturned(t: Tree, goal: Option<Goal>, closed: set<string>, g: string)
    requires WellFormed(t) && Explored(t, goal, closed) && AllOff(t, goal, closed, g) && Returnable(t, goal, g) && g !in closed
    ensures CanReturn(t, goal, closed, g)
    decreases t.nodes.Keys - closed
  {
    var o := OpenToward(t, goal, closed, g);
    var x := SomeNext(t, goal, closed, o);
    if Estimate(t, goal, o) <= Estimate(t, goal, x) {
      assert Next(t, goal, closed, o);
      if !IsGoal(t.nodes[o], goal) {
        ExploredNext(t, goal, closed, o);
        forall a
          ensures Off(t, goal, a, o, g)
        {
        }
        ReturnableIsReturned(t, goal, closed + {o}, g);
      }
    } else {
      OpenApart(t, goal, closed, o, x, g);
      forall a
        ensures Off(t, goal, a, x, g)
      {
        NextIsOff(t, goal, closed, o, x, a, g);
      }
      if IsGoal(t.nodes[x], goal) {
        WayIsOff(t, goal, closed, x, x, g);
        assert Beats(t, goal, x, g);
      } else {
        ExploredNext(t, goal, closed, x);
        ReturnableIsReturned(t, goal, closed + {x}, g);
      }
    }
  }

  // Exactly the reachable goals with no goal above them that no other goal beats can be returned.
  lemma WhatReturns(t: Tree, goal: Option<Goal>, g: string)
    requires WellFormed(t)
    ensures CanReturn(t, goal, {}, g) <==> Returnable(t, goal, g)
  {
    if CanReturn(t, goal, {}, g) { ReturnedIsReturnable(t, goal, {}, g); }
    if Returnable(t, goal, g) { ReturnableIsReturned(t, goal, {}, g); }
  }

  // Of the two goals of NotOptimal, the dearer one is what every search returns.
  lemma DearerReturned(g: string)
    ensures WellFormed(Biased())
    ensures CanReturn(Biased(), Some(Goal(0)), {}, g) <==> g == "b"
  {
    hide Biased, CanReturn, Cost, LeastBottleneck, Beats, WellFormed;
    NotOptimal();
    WhatReturns(Biased(), Some(Goal(0)), g);
    BeatsDearer();
    BeatenByNone(g);
  }

  lemma BiasedForks()
    ensures WellFormed(Biased()) && "a" in Biased().nodes && "b" in Biased().nodes
    ensures !Above(Biased(), "a", "b") && !Above(Biased(), "b", "a")
    ensures Fork(Biased(), "a", "b") == "r" == Fork(Biased(), "b", "a")
  {
    BiasedWellFormed();
    assert ParentOk(Biased(), "a") && ParentOk(Biased(), "b");
  }

  lemma BeatsDearer()
    ensures WellFormed(Biased()) && Beats(Biased(), Some(Goal(0)), "b", "a")
  {
    hide Biased, Cost, LeastBottleneck, WellFormed, Fork, Peak;
    NotOptimal();
    BiasedForks();
    BiasedPeaks();
  }

  lemma BeatenByNone(g: string)
    ensures WellFormed(Biased())
    ensures Returnable(Biased(), Some(Goal(0)), g) ==> g in {"a", "b"}
    ensures Returnable(Biased(), Some(Goal(0)), "b")
  {
    var t, goal := Biased(), Some(Goal(0));
    BiasedForks();
    BiasedPeaks();
    NotOptimal();
    assert !IsGoal(t.nodes["r"], goal);
    hide Cost, LeastBottleneck, WellFormed, Fork, Peak;
    forall y
      ensures !Beats(t, goal, y, "b")
    {
      if ReachableGoal(t, goal, y) { assert y in {"a", "b"}; }
    }
  }

  lemma BiasedPeaks()
    ensures WellFormed(Biased()) && Above(Biased(), "r", "a") && Above(Biased(), "r", "b")
    ensures Peak(Biased(), Some(Goal(0)), "r", "a") == 0.6 && Peak(Biased(), Some(Goal(0)), "r", "b") == 0.5
  {
    var t, goal := Biased(), Some(Goal(0));
    BiasedWellFormed();
    assert ParentOk(t, "a") && ParentOk(t, "b");
    assert Cost(t, "r") == 0.0 && Cost(t, "a") == 0.1 && Cost(t, "b") == 0.5;
  }

  ghost predicate Cheapest(t: Tree, goal: Option<Goal>, g: string)
    requires WellFormed(t)
  {
    ReachableGoal(t, goal, g) && forall y :: ReachableGoal(t, goal, y) ==> y in t.nodes && Cost(t, g) <= Cost(t, y)
  }

  // The search is sure to return a cheapest goal exactly when every reachable goal that is dearer than
  // another, and has no goal above it, is beaten by some goal.
  lemma CheapestExactly(t: Tree, goal: Option<Goal>)
    requires WellFormed(t)
    ensures (forall g :: CanReturn(t, goal, {}, g) ==> Cheapest(t, goal, g))
       <==> (forall g :: ReachableGoal(t, goal, g) && First(t, goal, g) && !Cheapest(t, goal, g) ==> exists y :: Beats(t, goal, y, g))
  {
    hide CanReturn, Cheapest, First, Beats, ReachableGoal;
    forall g
      ensures CanReturn(t, goal, {}, g) <==> Returnable(t, goal, g)
    {
      WhatReturns(t, goal, g);
    }
  }
}
