// What follows from the invariant of the dependency graph (internal/agent/coordinator.go).

module GraphTheorems {
  import opened Wrappers
  import opened SortedEntries
  import opened TaskQueues
  import opened TaskGraph
  import opened GraphInvariant

  // ----- no deadlock -----

  lemma {:induction false} NoneBlocked(g: Graph, id: string)
    requires Inv(g) && g.queue == [] && g.running == map[]
    requires id in g.tasks
    ensures g.tasks[id].Terminal()
    decreases g.tasks[id].born
  {
    assert g.Has(id, Ready) ==> id in Ids(g.queue);
    assert g.Has(id, Running) ==> id in g.running.Values;
    assert !Decided(g, id);
    if g.Has(id, Blocked) {
      var deps := g.tasks[id].deps;
      forall i | 0 <= i < |deps|
        ensures g.Has(deps[i], Completed)
      {
        assert !g.Hopeless(deps[i]);
        NoneBlocked(g, deps[i]);
      }
    }
  }

  // With nothing queued and nothing running, everything has ended.
  lemma NoDeadlock(g: Graph)
    requires Inv(g) && g.queue == [] && g.running == map[]
    ensures g.AllTerminal()
  {
    forall id | id in g.tasks
      ensures g.tasks[id].Terminal()
    {
      NoneBlocked(g, id);
    }
  }

  // ----- what a finished task does to the rest of the graph -----

  // id waits for something that cannot happen: a failed or unknown dependency, or one that waits
  // for such a thing itself.
  ghost predicate Doomed(g: Graph, id: string)
    requires EdgesOk(g)
    decreases if id in g.tasks then g.tasks[id].born else 0
  {
    && g.Has(id, Blocked)
    && exists i :: 0 <= i < |g.tasks[id].deps| &&
         (g.Hopeless(g.tasks[id].deps[i]) || Doomed(g, g.tasks[id].deps[i]))
  }

  ghost predicate Settled(g: Graph, h: Graph, id: string)
    requires EdgesOk(g) && id in g.tasks
  {
    id in h.tasks &&
    if !g.Has(id, Blocked) then h.tasks[id] == g.tasks[id]
    else if Doomed(g, id) then h.tasks[id].status.Failed? && !h.tasks[id].verdict.Cancelled?
    else if g.DepsMet(g.tasks[id].deps) then h.tasks[id] == g.tasks[id].(status := Ready)
    else h.tasks[id] == g.tasks[id]
  }

  // Each task either keeps its record or changes it in the one way open to it.
  ghost predicate Allowed(g: Graph, h: Graph, id: string)
    requires EdgesOk(g) && id in g.tasks
  {
    id in h.tasks && (h.tasks[id] == g.tasks[id] || Settled(g, h, id))
  }

  lemma {:induction false} DoomedFails(g: Graph, h: Graph, id: string)
    requires EdgesOk(g) && Inv(h) && h.tasks.Keys == g.tasks.Keys
    requires forall x :: x in g.tasks ==> Allowed(g, h, x)
    requires Doomed(g, id)
    ensures h.Has(id, Failed)
    decreases g.tasks[id].born
  {
    var i :| 0 <= i < |g.tasks[id].deps| &&
         (g.Hopeless(g.tasks[id].deps[i]) || Doomed(g, g.tasks[id].deps[i]));
    var d := g.tasks[id].deps[i];
    if !g.Hopeless(d) { DoomedFails(g, h, d); }
    assert h.Hopeless(d) by { if d in g.tasks { assert Allowed(g, h, d); } }
    assert Allowed(g, h, id);
    assert h.tasks[id].deps == g.tasks[id].deps ==> FailedDependency(h, h.tasks[id].deps).Some?;
    assert !Decided(h, id);
  }

  lemma MetIsNotDoomed(g: Graph, id: string)
    requires EdgesOk(g) && g.Has(id, Blocked) && g.DepsMet(g.tasks[id].deps)
    ensures !Doomed(g, id)
  {
    forall i | 0 <= i < |g.tasks[id].deps|
      ensures !g.Hopeless(g.tasks[id].deps[i]) && !Doomed(g, g.tasks[id].deps[i])
    {
      assert g.Has(g.tasks[id].deps[i], Completed);
    }
  }

  // Neither failing a doomed task nor readying one dooms anything new.
  lemma {:induction false} NothingNewlyDoomed(g: Graph, h: Graph, id: string)
    requires EdgesOk(g) && EdgesOk(h) && h.tasks.Keys == g.tasks.Keys
    requires forall x :: x in g.tasks ==> h.tasks[x].deps == g.tasks[x].deps && h.tasks[x].born == g.tasks[x].born
    requires forall x :: x in g.tasks ==> h.tasks[x] == g.tasks[x] || h.Has(x, Ready) || Doomed(g, x)
    requires Doomed(h, id) && g.Has(id, Blocked)
    ensures Doomed(g, id)
    decreases g.tasks[id].born
  {
    var i :| 0 <= i < |h.tasks[id].deps| &&
         (h.Hopeless(h.tasks[id].deps[i]) || Doomed(h, h.tasks[id].deps[i]));
    var d := g.tasks[id].deps[i];
    if d in g.tasks && !g.Hopeless(d) && !Doomed(g, d) {
      assert h.tasks[d] == g.tasks[d] || h.Has(d, Ready);
      NothingNewlyDoomed(g, h, d);
    }
  }

  // One step of the worklist loop, and what the rest of the loop may do after it.
  lemma AllowedAfter(g: Graph, m: Graph, h: Graph, id: string, x: string)
    requires EdgesOk(g) && EdgesOk(m) && m.tasks.Keys == g.tasks.Keys && x in g.tasks
    requires forall y :: y in g.tasks && y != id ==> m.tasks[y] == g.tasks[y]
    requires g.Has(id, Blocked) && (Settled(g, m, id) && m.tasks[id] != g.tasks[id])
    requires m.tasks[id].deps == g.tasks[id].deps && m.tasks[id].born == g.tasks[id].born
    requires Allowed(m, h, x)
    ensures Allowed(g, h, x)
  {
    assert g.DepsMet(g.tasks[x].deps) == m.DepsMet(m.tasks[x].deps) by {
      assert m.tasks[id].status in {Ready, Failed};
      assert forall d :: m.Has(d, Completed) == g.Has(d, Completed);
    }
    if x != id && h.tasks[x] != g.tasks[x] {
      if Doomed(m, x) { NothingNewlyDoomed(g, m, x); }
      if g.DepsMet(g.tasks[x].deps) { MetIsNotDoomed(g, x); }
    }
  }

  lemma FailedStepSettles(g: Graph, id: string, v: Verdict)
    requires EdgesOk(g) && g.Has(id, Blocked) && FailedDependency(g, g.tasks[id].deps).Some?
    requires !v.Succeeded? && !v.Cancelled?
    ensures Settled(g, Conclude(g, id, v), id)
  {
    var d := FailedDependency(g, g.tasks[id].deps).value;
    var i :| 0 <= i < |g.tasks[id].deps| && g.tasks[id].deps[i] == d;
    assert Doomed(g, id);
  }

  lemma AllowedAfterFail(g: Graph, h: Graph, id: string, v: Verdict, x: string)
    requires EdgesOk(g) && g.Has(id, Blocked) && FailedDependency(g, g.tasks[id].deps).Some?
    requires !v.Succeeded? && !v.Cancelled? && x in g.tasks
    requires EdgesOk(Conclude(g, id, v)) && Allowed(Conclude(g, id, v), h, x)
    ensures Allowed(g, h, x)
  {
    FailedStepSettles(g, id, v);
    AllowedAfter(g, Conclude(g, id, v), h, id, x);
  }

  lemma AllowedAfterReady(g: Graph, h: Graph, id: string, x: string)
    requires EdgesOk(g) && g.Has(id, Blocked) && g.DepsMet(g.tasks[id].deps) && x in g.tasks
    requires EdgesOk(MakeReady(g, id)) && Allowed(MakeReady(g, id), h, x)
    ensures Allowed(g, h, x)
  {
    MetIsNotDoomed(g, id);
    AllowedAfter(g, MakeReady(g, id), h, id, x);
  }

  lemma AllowedSelf(g: Graph, x: string)
    requires EdgesOk(g) && x in g.tasks
    ensures Allowed(g, g, x)
  {
  }

  lemma {:induction false} ResolveAllowed(g: Graph, pending: seq<string>, x: string)
    requires EdgesOk(g) && x in g.tasks
    ensures Allowed(g, Resolve(g, pending), x)
    decreases |g.Blockeds()|, |pending|
  {
    hide EdgesOk, Allowed;
    AllowedSelf(g, x);
    if pending != [] {
      var id := pending[0];
      if g.Has(id, Blocked) && FailedDependency(g, g.tasks[id].deps).Some? {
        var v := DependencyVerdict(g, FailedDependency(g, g.tasks[id].deps).value);
        ConcludeWeighs(g, id, v);
        ConcludeEdges(g, id, v);
        ResolveAllowed(Conclude(g, id, v), pending[1..] + g.DependentsOf(id), x);
        AllowedAfterFail(g, Resolve(g, pending), id, v, x);
      } else if g.Has(id, Blocked) && g.DepsMet(g.tasks[id].deps) {
        ReadyWeighs(g, id);
        SameEdges(g, MakeReady(g, id));
        ResolveAllowed(MakeReady(g, id), pending[1..], x);
        AllowedAfterReady(g, Resolve(g, pending), id, x);
      } else {
        ResolveAllowed(g, pending[1..], x);
      }
    }
  }

  lemma AllowedIsSettled(g: Graph, h: Graph, x: string)
    requires EdgesOk(g) && Inv(h) && h.tasks.Keys == g.tasks.Keys && x in g.tasks
    requires forall y :: y in g.tasks ==> Allowed(g, h, y)
    ensures Settled(g, h, x)
  {
    if Doomed(g, x) { DoomedFails(g, h, x); }
    assert !Decided(h, x);
    forall i | 0 <= i < |g.tasks[x].deps| && g.Has(g.tasks[x].deps[i], Completed)
      ensures h.Has(g.tasks[x].deps[i], Completed)
    {
      assert Allowed(g, h, g.tasks[x].deps[i]);
    }
    assert Allowed(g, h, x);
  }

  // The worklist, followed through reverse edges, does exactly what the recursive definition over
  // forward edges says: doomed tasks fail, tasks with every dependency completed become ready, and
  // nothing else changes.
  lemma ResolveSettles(g: Graph, pending: seq<string>)
    requires InvBut(g, {}, pending)
    ensures forall x :: x in g.tasks ==> Settled(g, Resolve(g, pending), x)
  {
    ResolveKeepsInv(g, pending);
    forall x | x in g.tasks
      ensures Allowed(g, Resolve(g, pending), x)
    {
      ResolveAllowed(g, pending, x);
    }
    forall x | x in g.tasks
      ensures Settled(g, Resolve(g, pending), x)
    {
      AllowedIsSettled(g, Resolve(g, pending), x);
    }
  }

  // id is reachable from x along dependencies.
  ghost predicate DependsOn(g: Graph, x: string, id: string)
    requires EdgesOk(g)
    decreases if x in g.tasks then g.tasks[x].born else 0
  {
    x in g.tasks &&
    exists i :: 0 <= i < |g.tasks[x].deps| &&
      (g.tasks[x].deps[i] == id || (g.tasks[x].deps[i] in g.tasks && DependsOn(g, g.tasks[x].deps[i], id)))
  }

  // Whatever depends on an unfinished task is Blocked, or failed already for another reason.
  lemma {:induction false} DependentWaits(g: Graph, x: string, id: string)
    requires InvBut(g, {id}, []) && id in g.tasks && !g.tasks[id].Terminal() && DependsOn(g, x, id)
    ensures g.Has(x, Blocked) || g.Has(x, Failed)
    decreases g.tasks[x].born
  {
    var i :| 0 <= i < |g.tasks[x].deps| &&
      (g.tasks[x].deps[i] == id || (g.tasks[x].deps[i] in g.tasks && DependsOn(g, g.tasks[x].deps[i], id)));
    if g.tasks[x].deps[i] != id { DependentWaits(g, g.tasks[x].deps[i], id); }
    assert !g.Has(g.tasks[x].deps[i], Completed);
  }

  lemma {:induction false} DoomedDepends(g: Graph, x: string, id: string, v: Verdict)
    requires InvBut(g, {id}, []) && id in g.tasks && !g.tasks[id].Terminal() && !v.Succeeded?
    requires EdgesOk(Conclude(g, id, v)) && g.Has(x, Blocked) && x != id
    ensures Doomed(Conclude(g, id, v), x) ==> DependsOn(g, x, id)
    decreases g.tasks[x].born
  {
    var c := Conclude(g, id, v);
    if Doomed(c, x) {
      var i :| 0 <= i < |c.tasks[x].deps| && (c.Hopeless(c.tasks[x].deps[i]) || Doomed(c, c.tasks[x].deps[i]));
      var d := g.tasks[x].deps[i];
      assert !Decided(g, x);
      assert !g.Hopeless(d);
      if d != id { DoomedDepends(g, d, id, v); }
    }
  }

  lemma {:induction false} DependsDoomed(g: Graph, x: string, id: string, v: Verdict)
    requires InvBut(g, {id}, []) && id in g.tasks && !g.tasks[id].Terminal() && !v.Succeeded?
    requires EdgesOk(Conclude(g, id, v)) && g.Has(x, Blocked) && x != id
    ensures DependsOn(g, x, id) ==> Doomed(Conclude(g, id, v), x)
    decreases g.tasks[x].born
  {
    var c := Conclude(g, id, v);
    if DependsOn(g, x, id) {
      var i :| 0 <= i < |g.tasks[x].deps| &&
        (g.tasks[x].deps[i] == id || (g.tasks[x].deps[i] in g.tasks && DependsOn(g, g.tasks[x].deps[i], id)));
      var d := g.tasks[x].deps[i];
      assert c.tasks[x].deps[i] == d;
      if d != id {
        DependentWaits(g, d, id);
        if g.Has(d, Blocked) { DependsDoomed(g, d, id, v); }
      }
      assert c.Hopeless(d) || Doomed(c, d);
    }
  }

  // A task that fails or is cancelled takes with it exactly the tasks that depend on it, however
  // indirectly; nothing else changes and nothing becomes ready.
  lemma FailureCascade(g: Graph, id: string, v: Verdict)
    requires InvBut(g, {id}, []) && id in g.tasks && !g.tasks[id].Terminal()
    requires !v.Succeeded? && !v.NotYet?
    ensures Finish(g, id, v).tasks.Keys == g.tasks.Keys
    ensures Finish(g, id, v).Has(id, Failed) && Finish(g, id, v).tasks[id].verdict == v
    ensures forall x :: x in g.tasks && x != id ==>
              if DependsOn(g, x, id) then Finish(g, id, v).Has(x, Failed)
              else Finish(g, id, v).tasks[x] == g.tasks[x]
  {
    hide QueueOk, RunningOk, StatusOk, LogOk, Noticed, DependsOn;
    var c := Conclude(g, id, v);
    Concluded(g, id, v, []);
    assert [] + g.DependentsOf(id) == g.DependentsOf(id);
    ResolveSettles(c, g.DependentsOf(id));
    assert Settled(c, Finish(g, id, v), id);
    forall x | x in g.tasks && x != id
      ensures if DependsOn(g, x, id) then Finish(g, id, v).Has(x, Failed)
              else Finish(g, id, v).tasks[x] == g.tasks[x]
    {
      assert Settled(c, Finish(g, id, v), x);
      CascadeAt(g, id, v, x);
    }
  }

  lemma CascadeAt(g: Graph, id: string, v: Verdict, x: string)
    requires InvBut(g, {id}, []) && id in g.tasks && !g.tasks[id].Terminal() && !v.Succeeded?
    requires EdgesOk(Conclude(g, id, v)) && x in g.tasks && x != id
    ensures DependsOn(g, x, id) ==> g.Has(x, Failed) || Doomed(Conclude(g, id, v), x)
    ensures !DependsOn(g, x, id) ==> !Doomed(Conclude(g, id, v), x)
    ensures g.Has(x, Blocked) ==> !Conclude(g, id, v).DepsMet(g.tasks[x].deps)
  {
    if DependsOn(g, x, id) { DependentWaits(g, x, id); }
    if g.Has(x, Blocked) {
      DoomedDepends(g, x, id, v);
      DependsDoomed(g, x, id, v);
      assert !Decided(g, x);
      var i :| 0 <= i < |g.tasks[x].deps| && !g.Has(g.tasks[x].deps[i], Completed);
      assert !Conclude(g, id, v).Has(g.tasks[x].deps[i], Completed);
    }
  }

  // x waits for id and for nothing else.
  ghost predicate WaitsOnlyFor(g: Graph, x: string, id: string) {
    && g.Has(x, Blocked)
    && forall i :: 0 <= i < |g.tasks[x].deps| ==>
         g.tasks[x].deps[i] == id || g.Has(g.tasks[x].deps[i], Completed)
  }

  // A task that succeeds readies exactly the Blocked tasks that were waiting for it alone.
  lemma SuccessUnlocks(g: Graph, id: string)
    requires InvBut(g, {id}, []) && g.Has(id, Running)
    ensures Finish(g, id, Succeeded).tasks.Keys == g.tasks.Keys
    ensures Finish(g, id, Succeeded).Has(id, Completed)
    ensures forall x :: x in g.tasks && x != id ==>
              Finish(g, id, Succeeded).tasks[x] ==
                if WaitsOnlyFor(g, x, id) then g.tasks[x].(status := Ready) else g.tasks[x]
  {
    var c := Conclude(g, id, Succeeded);
    Concluded(g, id, Succeeded, []);
    assert [] + g.DependentsOf(id) == g.DependentsOf(id);
    ResolveSettles(c, g.DependentsOf(id));
    assert Settled(c, Finish(g, id, Succeeded), id);
    forall x | x in g.tasks && x != id
      ensures Finish(g, id, Succeeded).tasks[x] ==
                if WaitsOnlyFor(g, x, id) then g.tasks[x].(status := Ready) else g.tasks[x]
    {
      assert Settled(c, Finish(g, id, Succeeded), x);
      UnlockAt(g, id, x);
    }
  }

  lemma UnlockAt(g: Graph, id: string, x: string)
    requires InvBut(g, {id}, []) && g.Has(id, Running) && x in g.tasks && x != id
    requires EdgesOk(Conclude(g, id, Succeeded))
    ensures g.Has(x, Blocked) ==> !Doomed(Conclude(g, id, Succeeded), x)
    ensures g.Has(x, Blocked) ==>
              (Conclude(g, id, Succeeded).DepsMet(g.tasks[x].deps) <==> WaitsOnlyFor(g, x, id))
  {
    if g.Has(x, Blocked) {
      NoneDoomedBySuccess(g, id, x);
    }
  }

  lemma {:induction false} NoneDoomedBySuccess(g: Graph, id: string, x: string)
    requires InvBut(g, {id}, []) && g.Has(id, Running) && g.Has(x, Blocked)
    requires EdgesOk(Conclude(g, id, Succeeded))
    ensures !Doomed(Conclude(g, id, Succeeded), x)
    decreases g.tasks[x].born
  {
    var c := Conclude(g, id, Succeeded);
    assert !Decided(g, x);
    forall i | 0 <= i < |g.tasks[x].deps|
      ensures !c.Hopeless(g.tasks[x].deps[i]) && !Doomed(c, g.tasks[x].deps[i])
    {
      var d := g.tasks[x].deps[i];
      assert !g.Hopeless(d);
      if g.Has(d, Blocked) { NoneDoomedBySuccess(g, id, d); }
    }
  }
}
