// What each section of the coordinator does to the graph it finds, said of the fields.

module CoordinatorEffects {
  import opened Wrappers
  import opened SortedEntries
  import opened TaskQueues
  import opened TaskGraph
  import opened GraphInvariant
  import opened GraphTheorems
  import opened CoordinatorRuns

  // ----- a scheduling round -----

  // What SpawnAsync answers to the k-th call; empty for a failure.
  function Answer(spawns: seq<string>, k: nat): string { if k < |spawns| then spawns[k] else "" }

  function Rest(spawns: seq<string>): seq<string> { if spawns == [] then [] else spawns[1..] }

  // Of these tasks, asked for in order, the ones that get an agent.
  function Taken(entries: seq<Entry>, spawns: seq<string>): seq<string> {
    if entries == [] then []
    else (if Answer(spawns, 0) != "" then [entries[0].id] else []) + Taken(entries[1..], Rest(spawns))
  }

  // The first n queued tasks have each been started or have failed to start.
  ghost predicate Dealt(g: Graph, h: Graph, spawns: seq<string>, n: nat) {
    && n <= |g.queue| && h.queue == g.queue[n..]
    && h.started == g.started + Taken(g.queue[..n], spawns)
    && |h.running| == |g.running| + |Taken(g.queue[..n], spawns)|
    && (forall a :: a in g.running ==> a in h.running && h.running[a] == g.running[a])
    && (forall i :: 0 <= i < n ==> Handled(h, g.queue[i].id, Answer(spawns, i)))
  }

  predicate Handled(h: Graph, id: string, answer: string) {
    if answer == "" then h.Has(id, Failed) && h.tasks[id].verdict.SpawnFailed?
    else h.Has(id, Running) && answer in h.running && h.running[answer] == id
  }

  // A round takes queued tasks from the front, each started or failed, until all are gone or every slot
  // is in use, and no sooner and no later.
  lemma RoundFills(g: Graph, spawns: seq<string>) returns (n: nat)
    requires Inv(g) && Legal(g, Fill(spawns))
    ensures var h := Step(g, Fill(spawns));
      && Dealt(g, h, spawns, n)
      && (h.queue == [] || |h.running| >= h.maxParallel) && h.maxParallel == g.maxParallel
      && (n > 0 ==> |g.running| + |Taken(g.queue[..n - 1], spawns)| < g.maxParallel)
  {
    hide Inv, StartReady, Dealt;
    n := RoundDeals(g, g.maxParallel - |g.running|, spawns);
    DealtCounts(g, Step(g, Fill(spawns)), spawns, n);
  }

  lemma DealtCounts(g: Graph, h: Graph, spawns: seq<string>, n: nat)
    requires Dealt(g, h, spawns, n)
    ensures n <= |g.queue| && |h.running| == |g.running| + |Taken(g.queue[..n], spawns)|
  {
  }

  lemma {:induction false} RoundDeals(g: Graph, slots: int, spawns: seq<string>) returns (n: nat)
    requires Inv(g) && FreshAgents(g, spawns)
    ensures var h := StartReady(g, slots, spawns);
      && Dealt(g, h, spawns, n) && h.maxParallel == g.maxParallel && Inv(h)
      && (h.queue == [] || |Taken(g.queue[..n], spawns)| >= slots)
      && (n > 0 ==> |Taken(g.queue[..n - 1], spawns)| < slots)
    decreases g.Weight()
  {
    hide Inv, StartOne, FreshAgents, Dealt, Evolves, Handled, StartReady;
    StartReadyKeepsInv(g, slots, spawns);
    StartReadyIs(g, slots, spawns);
    if slots <= 0 || g.queue == [] {
      n := 0;
      assert Dealt(g, g, spawns, 0) by { DealtNone(g, spawns); }
    } else {
      var answer := Answer(spawns, 0);
      NoAgentIsNobody(g);
      FreshRest(g, g.(running := if answer == "" then g.running else g.running[answer := g.queue[0].id]), spawns, g.queue[0].id);
      StartOneKeepsInv(g, answer);
      StartOneDeals(g, answer);
      var h := StartOne(g, answer);
      FreshRest(g, h, spawns, g.queue[0].id);
      var m := RoundDeals(h, if answer != "" then slots - 1 else slots, Rest(spawns));
      n := m + 1;
      StartReadyEvolves(h, if answer != "" then slots - 1 else slots, Rest(spawns));
      DealtOn(g, h, StartReady(g, slots, spawns), spawns, m);
    }
  }

  lemma StartReadyIs(g: Graph, slots: int, spawns: seq<string>)
    ensures slots <= 0 || g.queue == [] ==> StartReady(g, slots, spawns) == g
    ensures slots > 0 && g.queue != [] && g.Has(g.queue[0].id, Ready) ==>
              StartReady(g, slots, spawns) ==
                StartReady(StartOne(g, Answer(spawns, 0)), if Answer(spawns, 0) != "" then slots - 1 else slots, Rest(spawns))
  {
    hide StartOne;
  }

  lemma DealtNone(g: Graph, spawns: seq<string>)
    ensures Dealt(g, g, spawns, 0)
  {
    assert g.queue[..0] == [];
    assert g.started + [] == g.started;
  }

  lemma TakenNext(entries: seq<Entry>, spawns: seq<string>, m: nat)
    requires m < |entries|
    ensures Taken(entries[..m + 1], spawns) ==
              (if Answer(spawns, 0) != "" then [entries[0].id] else []) + Taken(entries[1..][..m], Rest(spawns))
  {
    assert entries[..m + 1][1..] == entries[1..][..m];
  }

  // One task dealt with, and then m more.
  lemma DealtOn(g: Graph, h: Graph, r: Graph, spawns: seq<string>, m: nat)
    requires g.queue != [] && h.queue == g.queue[1..]
    requires h.started == g.started + (if Answer(spawns, 0) != "" then [g.queue[0].id] else [])
    requires Answer(spawns, 0) != "" ==> Answer(spawns, 0) !in g.running
    requires h.running == if Answer(spawns, 0) == "" then g.running else g.running[Answer(spawns, 0) := g.queue[0].id]
    requires Handled(h, g.queue[0].id, Answer(spawns, 0))
    requires Dealt(h, r, Rest(spawns), m) && Evolves(h, r) && Inv(r)
    ensures Dealt(g, r, spawns, m + 1)
    ensures Taken(g.queue[..m + 1], spawns) ==
              (if Answer(spawns, 0) != "" then [g.queue[0].id] else []) + Taken(h.queue[..m], Rest(spawns))
    ensures m > 0 ==>
              Taken(g.queue[..m], spawns) ==
                (if Answer(spawns, 0) != "" then [g.queue[0].id] else []) + Taken(h.queue[..m - 1], Rest(spawns))
  {
    hide Taken, Inv, Evolves, Handled, Answer, Rest;
    var first := if Answer(spawns, 0) != "" then [g.queue[0].id] else [];
    TakenNext(g.queue, spawns, m);
    if m > 0 { TakenNext(g.queue, spawns, m - 1); }
    assert r.queue == g.queue[m + 1..];
    assert r.started == g.started + (first + Taken(h.queue[..m], Rest(spawns)));
    assert |h.running| == |g.running| + |first|;
    FirstStays(h, r, g.queue[0].id, Answer(spawns, 0));
    forall i | 0 <= i < m + 1
      ensures Handled(r, g.queue[i].id, Answer(spawns, i))
    {
      if i > 0 { assert h.queue[i - 1] == g.queue[i] && Answer(Rest(spawns), i - 1) == Answer(spawns, i) by { AnswerOn(spawns, i); } }
    }
  }

  lemma AnswerOn(spawns: seq<string>, i: nat)
    requires i > 0
    ensures Answer(Rest(spawns), i - 1) == Answer(spawns, i)
  {
  }

  lemma FirstStays(h: Graph, r: Graph, id: string, answer: string)
    requires Handled(h, id, answer) && Evolves(h, r) && Inv(r)
    requires forall a :: a in h.running ==> a in r.running && r.running[a] == h.running[a]
    ensures Handled(r, id, answer)
  {
    if answer == "" { assert Later(h.tasks[id], r.tasks[id]); } else { assert r.Has(r.running[answer], Running); }
  }

  // No task waits for nothing, so that a failure makes none ready.
  ghost predicate NoneMet(g: Graph) { forall x :: g.Has(x, Blocked) ==> !g.DepsMet(g.tasks[x].deps) }

  lemma {:induction false} FailingKeepsQueue(g: Graph, pending: seq<string>)
    requires NoneMet(g)
    ensures Resolve(g, pending).queue == g.queue
    decreases |g.Blockeds()|, |pending|
  {
    if pending != [] {
      var id := pending[0];
      if g.Has(id, Blocked) && FailedDependency(g, g.tasks[id].deps).Some? {
        var v := DependencyVerdict(g, FailedDependency(g, g.tasks[id].deps).value);
        ConcludeWeighs(g, id, v);
        FailureMeetsNone(g, id, v);
        FailingKeepsQueue(Conclude(g, id, v), pending[1..] + g.DependentsOf(id));
      } else {
        FailingKeepsQueue(g, pending[1..]);
      }
    }
  }

  lemma FailureMeetsNone(g: Graph, id: string, v: Verdict)
    requires NoneMet(g) && id in g.tasks && !g.tasks[id].status.Completed? && !v.Succeeded?
    ensures NoneMet(Conclude(g, id, v))
  {
    var h := Conclude(g, id, v);
    forall x | h.Has(x, Blocked)
      ensures !h.DepsMet(h.tasks[x].deps)
    {
      assert g.Has(x, Blocked);
      var i :| 0 <= i < |g.tasks[x].deps| && !g.Has(g.tasks[x].deps[i], Completed);
      assert !h.Has(h.tasks[x].deps[i], Completed);
    }
  }

  lemma InvMeetsNone(g: Graph, loose: set<string>)
    requires InvBut(g, loose, [])
    ensures NoneMet(g)
  {
    forall x | g.Has(x, Blocked)
      ensures !g.DepsMet(g.tasks[x].deps)
    {
      assert !Decided(g, x);
    }
  }

  lemma StartOneDeals(g: Graph, answer: string)
    requires Inv(g) && g.queue != [] && answer !in g.running
    ensures var h := StartOne(g, answer);
      && h.queue == g.queue[1..] && h.maxParallel == g.maxParallel
      && h.started == g.started + (if answer != "" then [g.queue[0].id] else [])
      && Handled(h, g.queue[0].id, answer)
  {
    hide QueueOk, RunningOk, StatusOk, EdgesOk, LogOk, Noticed;
    PoppedInv(g);
    if answer == "" {
      var id, p := g.queue[0].id, Popped(g);
      InvMeetsNone(p, {id});
      FailureMeetsNone(p, id, SpawnFailed);
      FailingKeepsQueue(Conclude(p, id, SpawnFailed), p.DependentsOf(id));
      ResolveKeepsRunning(Conclude(p, id, SpawnFailed), p.DependentsOf(id));
      ResolveEvolves(Conclude(p, id, SpawnFailed), p.DependentsOf(id));
      assert Later(Conclude(p, id, SpawnFailed).tasks[id], Finish(p, id, SpawnFailed).tasks[id]);
    }
  }

  // ----- an agent's result, a cancellation, a new task -----

  lemma {:induction false} SameDepends(g: Graph, h: Graph, x: string, id: string)
    requires EdgesOk(g) && EdgesOk(h) && h.tasks == g.tasks
    ensures DependsOn(h, x, id) == DependsOn(g, x, id)
    decreases if x in g.tasks then g.tasks[x].born else 0
  {
    if x in g.tasks {
      var deps := g.tasks[x].deps;
      forall i | 0 <= i < |deps| && deps[i] in g.tasks
        ensures DependsOn(h, deps[i], id) == DependsOn(g, deps[i], id)
      {
        SameDepends(g, h, deps[i], id);
      }
    }
  }

  // Task id has ended with verdict v, and every other task has changed only as that makes it.
  ghost predicate Ended(g: Graph, h: Graph, id: string, v: Verdict)
    requires EdgesOk(g) && id in g.tasks
  {
    && h.tasks.Keys == g.tasks.Keys
    && h.tasks[id] == g.tasks[id].(status := if v.Succeeded? then Completed else Failed, verdict := v)
    && forall x :: x in g.tasks && x != id ==>
         if v.Succeeded? then h.tasks[x] == (if WaitsOnlyFor(g, x, id) then g.tasks[x].(status := Ready) else g.tasks[x])
         else if DependsOn(g, x, id) then h.Has(x, Failed)
         else h.tasks[x] == g.tasks[x]
  }

  lemma FinishEnds(g: Graph, k: Graph, id: string, v: Verdict)
    requires EdgesOk(g) && InvBut(k, {id}, []) && k.tasks == g.tasks && id in g.tasks && !g.tasks[id].Terminal() && !v.NotYet?
    requires v.Succeeded? ==> g.Has(id, Running)
    ensures Ended(g, Finish(k, id, v), id, v)
  {
    hide QueueOk, RunningOk, StatusOk, LogOk, Noticed, Resolve, DependsOn;
    var h := Finish(k, id, v);
    ResolveEvolves(Conclude(k, id, v), k.DependentsOf(id));
    assert Later(Conclude(k, id, v).tasks[id], h.tasks[id]);
    if v.Succeeded? {
      SuccessUnlocks(k, id);
      forall x | x in g.tasks
        ensures WaitsOnlyFor(k, x, id) == WaitsOnlyFor(g, x, id)
      {
        assert forall d :: k.Has(d, Completed) == g.Has(d, Completed);
      }
    } else {
      FailureCascade(k, id, v);
      forall x | x in g.tasks
        ensures DependsOn(k, x, id) == DependsOn(g, x, id)
      {
        SameDepends(g, k, x, id);
      }
    }
  }

  // The result of an agent ends its task with just that verdict, and no other agent is touched; of an
  // unknown agent it changes nothing.
  lemma DoneEffect(g: Graph, agent: string, v: Verdict)
    requires Inv(g) && v in {Succeeded, AgentFailed, AgentCancelled}
    ensures EdgesOk(g) && (agent !in g.running ==> Step(g, Done(agent, v)) == g)
    ensures agent in g.running ==>
              var h, id := Step(g, Done(agent, v)), g.running[agent];
              && g.Has(id, Running) && Ended(g, h, id, v)
              && h.running == g.running - {agent} && h.started == g.started && h.maxParallel == g.maxParallel
  {
    hide QueueOk, StatusOk, LogOk, Noticed, Resolve, Ended;
    if agent in g.running {
      var k, id := g.(running := g.running - {agent}), g.running[agent];
      AnsweredInv(g, agent);
      FinishEnds(g, k, id, v);
      ResolveKeepsRunning(Conclude(k, id, v), k.DependentsOf(id));
    }
  }

  // A waiting task that is cancelled ends so, leaves the queue and touches no agent; any other is left
  // alone.
  lemma CancelEffect(g: Graph, id: string)
    requires Inv(g)
    ensures EdgesOk(g) && (!g.Has(id, Blocked) && !g.Has(id, Ready) ==> Step(g, Cancel(id)) == g)
    ensures g.Has(id, Blocked) || g.Has(id, Ready) ==>
              var h := Step(g, Cancel(id));
              && Ended(g, h, id, Cancelled) && h.queue == Without(g.queue, id)
              && h.running == g.running && h.started == g.started && h.maxParallel == g.maxParallel
  {
    hide QueueOk, StatusOk, LogOk, Noticed, Resolve, Ended, Without;
    if g.Has(id, Blocked) || g.Has(id, Ready) {
      var k := g.(queue := Without(g.queue, id));
      WithdrawnInv(g, id);
      FinishEnds(g, k, id, Cancelled);
      ResolveKeepsRunning(Conclude(k, id, Cancelled), k.DependentsOf(id));
      InvMeetsNone(k, {id});
      FailureMeetsNone(k, id, Cancelled);
      FailingKeepsQueue(Conclude(k, id, Cancelled), k.DependentsOf(id));
    }
  }

  // What the dependencies make of a new task.
  function Outlook(g: Graph, deps: seq<string>): Status {
    if exists i :: 0 <= i < |deps| && g.Hopeless(deps[i]) then Failed else if g.DepsMet(deps) then Ready else Blocked
  }

  // Task id is new, with these dependencies, this priority and this status, and nothing else has changed
  // but the histories of ends, the queue and the reverse edges.
  ghost predicate Added(g: Graph, h: Graph, id: string, deps: seq<string>, priority: int, st: Status) {
    && h.tasks.Keys == g.tasks.Keys + {id} && (forall x :: x in g.tasks ==> h.tasks[x] == g.tasks[x])
    && h.tasks[id].deps == deps && h.tasks[id].priority == priority && h.tasks[id].status == st
    && h.running == g.running && h.maxParallel == g.maxParallel && h.sealed == g.sealed && h.started == g.started
  }

  // Before Start a new task is failed at once, ready at once or blocked, as its dependencies say; the
  // others are left alone. After Start nothing is added.
  lemma AddEffect(g: Graph, id: string, deps: seq<string>, priority: int)
    requires FreshTask(g, id, deps)
    ensures var h := Step(g, Add(id, deps, priority));
      if g.sealed then h == g else Added(g, h, id, deps, priority, Outlook(g, deps))
  {
    hide Register, FailedDependency, DependencyVerdict, Outlook, Conclude, MakeReady, Added;
    if !g.sealed {
      var p := g.(tasks := g.tasks[id := TaskRec(deps, priority, Blocked, NotYet, |g.tasks|)],
                  dependents := Register(g.dependents, deps, id));
      PostedOutlook(g, p, id, deps);
      var failed := FailedDependency(p, deps);
      var v := DependencyVerdict(p, if failed.Some? then failed.value else "");
      NotSuccess(p, if failed.Some? then failed.value else "");
      PostedAdded(g, p, id, deps, priority);
      TouchedBy(p, id, v);
      TouchedAdded(g, p, Conclude(p, id, v), id, deps, priority, Failed);
      TouchedAdded(g, p, MakeReady(p, id), id, deps, priority, Ready);
    }
  }

  lemma PostedAdded(g: Graph, p: Graph, id: string, deps: seq<string>, priority: int)
    requires id !in g.tasks && p == g.(tasks := g.tasks[id := TaskRec(deps, priority, Blocked, NotYet, |g.tasks|)], dependents := p.dependents)
    ensures Added(g, p, id, deps, priority, Blocked)
  {
  }

  lemma TouchedAdded(g: Graph, p: Graph, h: Graph, id: string, deps: seq<string>, priority: int, st: Status)
    requires id !in g.tasks && Added(g, p, id, deps, priority, Blocked) && Touched(p, h, id, st)
    ensures Added(g, h, id, deps, priority, st)
  {
  }

  // Nothing but the outcome of one task is changed, the histories of ends and the queue apart.
  predicate Touched(p: Graph, h: Graph, id: string, st: Status) {
    && id in p.tasks && id in h.tasks && h.tasks[id].status == st
    && h.tasks == p.tasks[id := p.tasks[id].(status := st, verdict := h.tasks[id].verdict)]
    && h.running == p.running && h.maxParallel == p.maxParallel && h.sealed == p.sealed && h.started == p.started
  }

  lemma TouchedBy(p: Graph, id: string, v: Verdict)
    requires id in p.tasks && !v.Succeeded?
    ensures Touched(p, MakeReady(p, id), id, Ready) && Touched(p, Conclude(p, id, v), id, Failed)
  {
    hide Insert, Ids;
  }

  lemma NotSuccess(p: Graph, dep: string)
    ensures !DependencyVerdict(p, dep).Succeeded?
  {
  }

  lemma PostedOutlook(g: Graph, p: Graph, id: string, deps: seq<string>)
    requires id !in g.tasks && id !in deps && id in p.tasks && p.tasks == g.tasks[id := p.tasks[id]]
    ensures Outlook(g, deps) == if FailedDependency(p, deps).Some? then Failed else if p.DepsMet(deps) then Ready else Blocked
  {
    assert forall i :: 0 <= i < |deps| ==> p.Hopeless(deps[i]) == g.Hopeless(deps[i]);
    assert p.DepsMet(deps) == g.DepsMet(deps);
  }

  // ----- reasons -----

  ghost predicate CameBefore(records: seq<string>, d: string, x: string) {
    exists i, j :: 0 <= i < j < |records| && records[i] == d && records[j] == x
  }

  predicate WasCancelled(v: Verdict) { v.Cancelled? || v.AgentCancelled? }

  // A task that a dependency failed names one of its own, truly: it never existed, or it was cancelled,
  // or it failed otherwise; and its completion was recorded first.
  ghost predicate ReasonOk(g: Graph, x: string)
    requires x in g.tasks
  {
    var t := g.tasks[x];
    match t.verdict
    case DependencyMissing(d) => d in t.deps && d !in g.tasks
    case DependencyCancelled(d) =>
      d in t.deps && g.Has(d, Failed) && WasCancelled(g.tasks[d].verdict) && CameBefore(g.records, d, x)
    case DependencyFailed(d) =>
      d in t.deps && g.Has(d, Failed) && !WasCancelled(g.tasks[d].verdict) && CameBefore(g.records, d, x)
    case _ => true
  }

  ghost predicate ReasonsOk(g: Graph) {
    && (forall x :: x in g.tasks ==> ReasonOk(g, x))
    && (forall x :: x in g.tasks && g.tasks[x].status.Failed? ==> x in g.records)
    && (forall x, i :: x in g.tasks && 0 <= i < |g.tasks[x].deps| ==> g.tasks[x].deps[i] in g.dependents)
  }

  lemma ReasonStays(g: Graph, h: Graph, x: string)
    requires x in g.tasks && x in h.tasks && h.tasks[x].deps == g.tasks[x].deps && h.tasks[x].verdict == g.tasks[x].verdict
    requires ReasonOk(g, x) && g.records <= h.records
    requires forall d :: g.Has(d, Failed) ==> h.Has(d, Failed) && h.tasks[d].verdict == g.tasks[d].verdict
    requires forall i :: 0 <= i < |g.tasks[x].deps| && g.tasks[x].deps[i] !in g.tasks ==> g.tasks[x].deps[i] !in h.tasks
    ensures ReasonOk(h, x)
  {
    match g.tasks[x].verdict
    case DependencyCancelled(d) => BeforeStays(g.records, h.records, d, x);
    case DependencyFailed(d) => BeforeStays(g.records, h.records, d, x);
    case _ =>
  }

  lemma BeforeStays(a: seq<string>, b: seq<string>, d: string, x: string)
    requires CameBefore(a, d, x) && a <= b
    ensures CameBefore(b, d, x)
  {
    var i, j :| 0 <= i < j < |a| && a[i] == d && a[j] == x;
    assert b[i] == d && b[j] == x;
  }

  lemma ConcludeReasons(g: Graph, id: string, v: Verdict)
    requires ReasonsOk(g) && id in g.tasks && !g.tasks[id].Terminal()
    requires v.DependencyMissing? || v.DependencyCancelled? || v.DependencyFailed? ==>
               v.dep in g.tasks[id].deps && g.Hopeless(v.dep) && v == DependencyVerdict(g, v.dep)
    ensures ReasonsOk(Conclude(g, id, v))
  {
    hide ReasonOk;
    var h := Conclude(g, id, v);
    forall x | x in h.tasks
      ensures ReasonOk(h, x)
    {
      if x != id {
        ReasonStays(g, h, x);
      } else {
        NewReason(g, id, v);
      }
    }
  }

  lemma NewReason(g: Graph, id: string, v: Verdict)
    requires ReasonsOk(g) && id in g.tasks && !g.tasks[id].Terminal()
    requires v.DependencyMissing? || v.DependencyCancelled? || v.DependencyFailed? ==>
               v.dep in g.tasks[id].deps && g.Hopeless(v.dep) && v == DependencyVerdict(g, v.dep)
    ensures ReasonOk(Conclude(g, id, v), id)
  {
    var h := Conclude(g, id, v);
    if v.DependencyCancelled? || v.DependencyFailed? {
      var i :| 0 <= i < |g.records| && g.records[i] == v.dep;
      assert h.records[i] == v.dep && h.records[|g.records|] == id;
    }
  }

  // Tasks change only in statuses short of the end, or not at all.
  lemma SideReasons(g: Graph, h: Graph)
    requires ReasonsOk(g) && h.records == g.records && h.dependents == g.dependents && h.tasks.Keys == g.tasks.Keys
    requires forall x :: x in g.tasks ==> h.tasks[x].deps == g.tasks[x].deps && h.tasks[x].verdict == g.tasks[x].verdict
    requires forall x :: x in g.tasks ==> (h.tasks[x].status.Failed? <==> g.tasks[x].status.Failed?)
    ensures ReasonsOk(h)
  {
    hide ReasonOk;
    forall x | x in h.tasks
      ensures ReasonOk(h, x)
    {
      ReasonStays(g, h, x);
    }
  }

  lemma {:induction false} ResolveReasons(g: Graph, pending: seq<string>)
    requires ReasonsOk(g)
    ensures ReasonsOk(Resolve(g, pending))
    decreases |g.Blockeds()|, |pending|
  {
    hide ReasonsOk, Insert;
    if pending != [] {
      var id := pending[0];
      if g.Has(id, Blocked) && FailedDependency(g, g.tasks[id].deps).Some? {
        var v := DependencyVerdict(g, FailedDependency(g, g.tasks[id].deps).value);
        ConcludeWeighs(g, id, v);
        ConcludeReasons(g, id, v);
        ResolveReasons(Conclude(g, id, v), pending[1..] + g.DependentsOf(id));
      } else if g.Has(id, Blocked) && g.DepsMet(g.tasks[id].deps) {
        ReadyWeighs(g, id);
        SideReasons(g, MakeReady(g, id));
        ResolveReasons(MakeReady(g, id), pending[1..]);
      } else {
        ResolveReasons(g, pending[1..]);
      }
    }
  }

  lemma FinishReasons(g: Graph, id: string, v: Verdict)
    requires ReasonsOk(g) && id in g.tasks && !g.tasks[id].Terminal() && v in {Succeeded, AgentFailed, AgentCancelled, SpawnFailed, Cancelled}
    ensures ReasonsOk(Finish(g, id, v))
  {
    hide ReasonsOk;
    ConcludeReasons(g, id, v);
    ResolveReasons(Conclude(g, id, v), g.DependentsOf(id));
  }

  lemma StartOneReasons(g: Graph, answer: string)
    requires ReasonsOk(g) && g.queue != []
    ensures ReasonsOk(StartOne(g, answer))
  {
    hide ReasonsOk, Resolve;
    var id, h := g.queue[0].id, Popped(g);
    SideReasons(g, h);
    if h.Has(id, Ready) {
      if answer == "" { FinishReasons(h, id, SpawnFailed); } else { SideReasons(h, Launch(h, id, answer)); }
    }
  }

  lemma {:induction false} StartReadyReasons(g: Graph, slots: int, spawns: seq<string>)
    requires ReasonsOk(g)
    ensures ReasonsOk(StartReady(g, slots, spawns))
    decreases g.Weight()
  {
    hide ReasonsOk, StartOne;
    if slots > 0 && g.queue != [] {
      var asked := g.Has(g.queue[0].id, Ready);
      var answer := if spawns == [] then "" else spawns[0];
      StartOneReasons(g, answer);
      StartReadyReasons(StartOne(g, answer),
                        if asked && answer != "" then slots - 1 else slots,
                        if asked && spawns != [] then spawns[1..] else spawns);
    }
  }

  lemma AddReasons(g: Graph, id: string, deps: seq<string>, priority: int)
    requires ReasonsOk(g) && FreshTask(g, id, deps)
    ensures ReasonsOk(AddTask(g, id, deps, priority))
  {
    hide Insert;
    if !g.sealed {
      var p := g.(tasks := g.tasks[id := TaskRec(deps, priority, Blocked, NotYet, |g.tasks|)],
                  dependents := Register(g.dependents, deps, id));
      PostedReasons(g, p, id);
      hide ReasonsOk;
      var failed := FailedDependency(p, deps);
      if failed.Some? {
        ConcludeReasons(p, id, DependencyVerdict(p, failed.value));
      } else if p.DepsMet(deps) {
        SideReasons(p, MakeReady(p, id));
      }
    }
  }

  lemma PostedReasons(g: Graph, p: Graph, id: string)
    requires ReasonsOk(g) && id !in g.tasks && id !in g.dependents && id in p.tasks && p.tasks[id].verdict.NotYet? && p.tasks[id].status.Blocked?
    requires p == g.(tasks := g.tasks[id := p.tasks[id]], dependents := Register(g.dependents, p.tasks[id].deps, id))
    ensures ReasonsOk(p)
  {
    hide ReasonOk;
    RegisterAdds(g.dependents, p.tasks[id].deps, id);
    forall x | x in p.tasks
      ensures ReasonOk(p, x)
    {
      if x != id { ReasonStays(g, p, x); } else { NoReasonYet(p, id); }
    }
  }

  lemma NoReasonYet(p: Graph, id: string)
    requires id in p.tasks && p.tasks[id].verdict.NotYet?
    ensures ReasonOk(p, id)
  {
  }

  lemma StepReasons(g: Graph, e: Event)
    requires Inv(g) && Legal(g, e) && ReasonsOk(g)
    ensures ReasonsOk(Step(g, e))
  {
    hide ReasonsOk, StartReady, AddTask, AgentDone, Withdraw, Inv;
    match e
    case Add(id, deps, priority) => AddReasons(g, id, deps, priority);
    case Start => SideReasons(g, g.(sealed := true));
    case SetMax(max) => SideReasons(g, g.(maxParallel := max));
    case Fill(spawns) => StartReadyReasons(g, g.maxParallel - |g.running|, spawns);
    case Done(agent, v) => DoneReasons(g, agent, v);
    case Cancel(id) => if g.Has(id, Blocked) || g.Has(id, Ready) { CancelReasons(g, id); }
  }

  lemma DoneReasons(g: Graph, agent: string, v: Verdict)
    requires Inv(g) && ReasonsOk(g) && v in {Succeeded, AgentFailed, AgentCancelled}
    ensures ReasonsOk(AgentDone(g, agent, v))
  {
    hide ReasonsOk, Inv;
    if agent in g.running {
      RunningTask(g, agent);
      SideReasons(g, g.(running := g.running - {agent}));
      FinishReasons(g.(running := g.running - {agent}), g.running[agent], v);
    }
  }

  lemma CancelReasons(g: Graph, id: string)
    requires ReasonsOk(g) && (g.Has(id, Blocked) || g.Has(id, Ready))
    ensures ReasonsOk(Withdraw(g, id))
  {
    hide ReasonsOk;
    SideReasons(g, g.(queue := Without(g.queue, id)));
    FinishReasons(g.(queue := Without(g.queue, id)), id, Cancelled);
  }

  lemma RunningTask(g: Graph, agent: string)
    requires Inv(g) && agent in g.running
    ensures g.Has(g.running[agent], Running)
  {
  }

  // Whatever the run, the reason given for a failed dependency is true, and its completion came first.
  lemma {:induction false} ReasonsTrue(g: Graph, es: seq<Event>)
    requires Inv(g) && ReasonsOk(g) && LegalRun(g, es)
    ensures ReasonsOk(Run(g, es))
    decreases |es|
  {
    hide Inv, Step, Legal, ReasonsOk;
    if es != [] {
      StepKeepsInv(g, es[0]);
      StepReasons(g, es[0]);
      ReasonsTrue(Step(g, es[0]), es[1..]);
    }
  }

  // The dependency named is the first that can no longer be satisfied.
  lemma {:induction false} FirstFailed(g: Graph, deps: seq<string>, i: nat)
    requires i < |deps| && g.Hopeless(deps[i]) && forall j :: 0 <= j < i ==> !g.Hopeless(deps[j])
    ensures FailedDependency(g, deps) == Some(deps[i])
  {
    if i > 0 {
      assert !g.Hopeless(deps[0]) && deps[1..][i - 1] == deps[i];
      FirstFailed(g, deps[1..], i - 1);
    }
  }
}
