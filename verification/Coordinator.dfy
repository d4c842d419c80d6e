// The dependency graph that the coordinator schedules (internal/agent/coordinator.go), as a value:
// what each lock-held section does to it.

module TaskGraph {
  import opened Wrappers
  import opened SortedEntries
  import opened TaskQueues

  datatype TaskRec = TaskRec(deps: seq<string>, priority: int, status: Status, verdict: Verdict, born: nat) {
    predicate Terminal() { status.Completed? || status.Failed? }
  }

  // started and records are histories: the tasks handed to the runner, and the completion records
  // created for onTaskComplete, each in order.
  datatype Graph = Graph(
    tasks: map<string, TaskRec>,
    dependents: map<string, seq<string>>,
    queue: seq<Entry>,
    nextSequence: nat,
    running: map<string, string>,
    completed: set<string>,
    sealed: bool,
    maxParallel: int,
    started: seq<string>,
    records: seq<string>
  ) {
    predicate Has(id: string, st: Status) { id in tasks && tasks[id].status == st }

    predicate Done(id: string) { id in tasks && tasks[id].Terminal() }

    // areDependenciesMet
    predicate DepsMet(deps: seq<string>) {
      forall i :: 0 <= i < |deps| ==> Has(deps[i], Completed)
    }

    predicate Hopeless(dep: string) { dep !in tasks || tasks[dep].status.Failed? }

    function DependentsOf(id: string): seq<string> {
      if id in dependents then dependents[id] else []
    }

    function Blockeds(): set<string> {
      set id | id in tasks && tasks[id].status.Blocked?
    }

    function Weight(): nat { 2 * |Blockeds()| + |queue| }

    predicate AllTerminal() {
      running == map[] && forall id :: id in tasks ==> tasks[id].Terminal()
    }
  }

  // failedDependencyLocked: the first dependency that can no longer be satisfied.
  function FailedDependency(g: Graph, deps: seq<string>): (r: Option<string>)
    ensures r.None? <==> forall i :: 0 <= i < |deps| ==> !g.Hopeless(deps[i])
    ensures r.Some? ==> r.value in deps && g.Hopeless(r.value)
  {
    if deps == [] then None
    else if g.Hopeless(deps[0]) then Some(deps[0])
    else FailedDependency(g, deps[1..])
  }

  function DependencyVerdict(g: Graph, dep: string): Verdict {
    if dep !in g.tasks then DependencyMissing(dep)
    else if g.tasks[dep].verdict.Cancelled? || g.tasks[dep].verdict.AgentCancelled? then DependencyCancelled(dep)
    else DependencyFailed(dep)
  }

  // Commit a terminal state and create its completion record.
  function Conclude(g: Graph, id: string, v: Verdict): Graph
    requires id in g.tasks
  {
    g.(tasks := g.tasks[id := g.tasks[id].(status := if v.Succeeded? then Completed else Failed, verdict := v)],
       completed := g.completed + {id},
       records := g.records + [id])
  }

  // Mark ready and PushTask.
  function MakeReady(g: Graph, id: string): Graph
    requires id in g.tasks
  {
    var h := g.(tasks := g.tasks[id := g.tasks[id].(status := Ready)]);
    if id == "" || id in Ids(g.queue) then h
    else h.(queue := Insert(g.queue, Entry(id, g.tasks[id].priority, g.nextSequence + 1)),
            nextSequence := g.nextSequence + 1)
  }

  lemma InsertLength(l: seq<Entry>, e: Entry)
    ensures |Insert(l, e)| == |l| + 1
  {
  }

  lemma ConcludeWeighs(g: Graph, id: string, v: Verdict)
    requires g.Has(id, Blocked)
    ensures |Conclude(g, id, v).Blockeds()| == |g.Blockeds()| - 1
  {
    var h := Conclude(g, id, v);
    assert h.Blockeds() == g.Blockeds() - {id};
  }

  lemma ReadyWeighs(g: Graph, id: string)
    requires g.Has(id, Blocked)
    ensures |MakeReady(g, id).Blockeds()| == |g.Blockeds()| - 1
    ensures |MakeReady(g, id).queue| <= |g.queue| + 1
  {
    var h := MakeReady(g, id);
    assert h.Blockeds() == g.Blockeds() - {id};
    InsertLength(g.queue, Entry(id, g.tasks[id].priority, g.nextSequence + 1));
  }

  // The worklist loop of resolveDependentsLocked.
  function Resolve(g: Graph, pending: seq<string>): (r: Graph)
    ensures r.Weight() <= g.Weight()
    ensures r.tasks.Keys == g.tasks.Keys
    decreases |g.Blockeds()|, |pending|
  {
    if pending == [] then g
    else
      var id := pending[0];
      if !g.Has(id, Blocked) then Resolve(g, pending[1..])
      else
        var failed := FailedDependency(g, g.tasks[id].deps);
        if failed.Some? then
          ConcludeWeighs(g, id, DependencyVerdict(g, failed.value));
          Resolve(Conclude(g, id, DependencyVerdict(g, failed.value)), pending[1..] + g.DependentsOf(id))
        else if g.DepsMet(g.tasks[id].deps) then
          ReadyWeighs(g, id);
          Resolve(MakeReady(g, id), pending[1..])
        else Resolve(g, pending[1..])
  }

  // A task reaches a terminal state, and its dependents are resolved.
  function Finish(g: Graph, id: string, v: Verdict): Graph
    requires id in g.tasks
  {
    Resolve(Conclude(g, id, v), g.DependentsOf(id))
  }

  function Register(dependents: map<string, seq<string>>, deps: seq<string>, id: string): map<string, seq<string>>
    decreases |deps|
  {
    if deps == [] then dependents
    else
      var known := if deps[0] in dependents then dependents[deps[0]] else [];
      Register(dependents[deps[0] := known + [id]], deps[1..], id)
  }

  // AddTask before Start; the ID is chosen by the coordinator.
  function AddTask(g: Graph, id: string, deps: seq<string>, priority: int): Graph {
    if g.sealed then g
    else
      var h := g.(tasks := g.tasks[id := TaskRec(deps, priority, Blocked, NotYet, |g.tasks|)],
                  dependents := Register(g.dependents, deps, id));
      var failed := FailedDependency(h, deps);
      if failed.Some? then Conclude(h, id, DependencyVerdict(h, failed.value))
      else if h.DepsMet(deps) then MakeReady(h, id)
      else h
  }

  function Popped(g: Graph): (r: Graph)
    requires g.queue != []
    ensures r.Weight() == g.Weight() - 1
  {
    var r := g.(queue := g.queue[1..]);
    assert r.Blockeds() == g.Blockeds();
    r
  }

  // One round of that loop: pop, and start the task if it is Ready. An empty answer from
  // SpawnAsync, or a panic in it, is a failure to start.
  function StartOne(g: Graph, answer: string): (r: Graph)
    requires g.queue != []
    ensures r.Weight() < g.Weight()
  {
    var id, h := g.queue[0].id, Popped(g);
    if !h.Has(id, Ready) then h
    else if answer == "" then
      assert Conclude(h, id, SpawnFailed).Blockeds() == h.Blockeds();
      Finish(h, id, SpawnFailed)
    else
      assert Launch(h, id, answer).Blockeds() == h.Blockeds();
      Launch(h, id, answer)
  }

  // The loop of startReadyTasksLocked; spawns is what SpawnAsync answers to successive calls.
  function StartReady(g: Graph, slots: int, spawns: seq<string>): Graph
    decreases g.Weight()
  {
    if slots <= 0 || g.queue == [] then g
    else
      var asked := g.Has(g.queue[0].id, Ready);
      var answer := if spawns == [] then "" else spawns[0];
      StartReady(StartOne(g, answer),
                 if asked && answer != "" then slots - 1 else slots,
                 if asked && spawns != [] then spawns[1..] else spawns)
  }

  function Launch(g: Graph, id: string, agent: string): Graph
    requires id in g.tasks
  {
    g.(tasks := g.tasks[id := g.tasks[id].(status := Running)],
       running := g.running[agent := id],
       started := g.started + [id])
  }

  // handleAgentCompletionResult, and one round of the loop of checkCompletedAgents.
  function AgentDone(g: Graph, agent: string, v: Verdict): Graph {
    if agent !in g.running || g.running[agent] !in g.tasks then g
    else Finish(g.(running := g.running - {agent}), g.running[agent], v)
  }

  // CancelTask on a task no agent runs.
  function Withdraw(g: Graph, id: string): Graph
    requires id in g.tasks
  {
    Finish(g.(queue := Without(g.queue, id)), id, Cancelled)
  }
}

// What every reachable graph satisfies.
module GraphInvariant {
  import opened Wrappers
  import opened SortedEntries
  import opened TaskQueues
  import opened TaskGraph

  // The queue is exactly the Ready tasks; loose is a task just taken off it.
  ghost predicate QueueOk(g: Graph, loose: set<string>) {
    && Sorted(g.queue) && DistinctArrivals(g.queue) && DistinctIds(g.queue)
    && (forall i :: 0 <= i < |g.queue| ==> g.queue[i].arrival <= g.nextSequence && g.queue[i].id !in loose)
    && (forall i :: 0 <= i < |g.queue| ==> g.Has(g.queue[i].id, Ready))
    && (forall i :: 0 <= i < |g.queue| ==> g.queue[i].priority == g.tasks[g.queue[i].id].priority)
    && (forall id :: g.Has(id, Ready) && id !in loose ==> id in Ids(g.queue))
  }

  // running is a bijection between live agents and Running tasks; loose is a task whose agent has
  // just answered.
  ghost predicate RunningOk(g: Graph, loose: set<string>) {
    && "" !in g.running
    && (forall a :: a in g.running ==> g.Has(g.running[a], Running) && g.running[a] !in loose)
    && (forall a, b :: a in g.running && b in g.running && g.running[a] == g.running[b] ==> a == b)
    && (forall id :: g.Has(id, Running) && id !in loose ==> id in g.running.Values)
  }

  // A task past Blocked other than a failed one has all its dependencies completed.
  ghost predicate StatusOk(g: Graph) {
    && "" !in g.tasks
    && (forall id :: id in g.tasks ==> !g.tasks[id].status.Pending?)
    && (forall id :: id in g.tasks && g.tasks[id].status in {Ready, Running, Completed} ==> g.DepsMet(g.tasks[id].deps))
    && (forall id :: id in g.tasks ==> (g.tasks[id].verdict.NotYet? <==> !g.tasks[id].Terminal()))
    && (forall id :: id in g.tasks ==> (g.tasks[id].verdict.Succeeded? <==> g.tasks[id].status.Completed?))
  }

  // Reverse edges are complete, and a dependency is older than what depends on it.
  ghost predicate EdgesOk(g: Graph) {
    && (forall id, i :: id in g.tasks && 0 <= i < |g.tasks[id].deps| ==>
          id in g.DependentsOf(g.tasks[id].deps[i]))
    && (forall id, i :: id in g.tasks && 0 <= i < |g.tasks[id].deps| && g.tasks[id].deps[i] in g.tasks ==>
          g.tasks[g.tasks[id].deps[i]].born < g.tasks[id].born)
    && (forall id :: id in g.tasks ==> g.tasks[id].born < |g.tasks|)
  }

  // Completion records: one for each terminal task. Starts: at most one for each task.
  ghost predicate LogOk(g: Graph) {
    && (forall id :: id in g.completed <==> g.Done(id))
    && (forall id :: id in g.records <==> id in g.completed)
    && (forall i, j :: 0 <= i < j < |g.records| ==> g.records[i] != g.records[j])
    && (forall i, j :: 0 <= i < j < |g.started| ==> g.started[i] != g.started[j])
    && (forall id :: id in g.started ==> id in g.tasks && g.tasks[id].status in {Running, Completed, Failed})
    && (forall id :: id in g.tasks && g.tasks[id].status in {Running, Completed} ==> id in g.started)
  }

  // A Blocked task that a finished dependency has decided.
  ghost predicate Decided(g: Graph, id: string) {
    && g.Has(id, Blocked)
    && (g.DepsMet(g.tasks[id].deps) || FailedDependency(g, g.tasks[id].deps).Some?)
  }

  // Every decided task is still waiting in the worklist.
  ghost predicate Noticed(g: Graph, pending: seq<string>) {
    forall id :: Decided(g, id) ==> id in pending
  }

  ghost predicate InvBut(g: Graph, loose: set<string>, pending: seq<string>) {
    && QueueOk(g, loose) && RunningOk(g, loose) && StatusOk(g) && EdgesOk(g) && LogOk(g)
    && Noticed(g, pending)
  }

  ghost predicate Inv(g: Graph) { InvBut(g, {}, []) }

  lemma ConcludeQueue(g: Graph, id: string, v: Verdict)
    requires QueueOk(g, {id}) && id in g.tasks
    ensures QueueOk(Conclude(g, id, v), {})
  {
  }

  lemma ConcludeRunning(g: Graph, id: string, v: Verdict)
    requires RunningOk(g, {id}) && id in g.tasks
    ensures RunningOk(Conclude(g, id, v), {})
  {
  }

  lemma ConcludeStatus(g: Graph, id: string, v: Verdict)
    requires StatusOk(g) && id in g.tasks && !g.tasks[id].Terminal() && !v.NotYet?
    requires v.Succeeded? ==> g.DepsMet(g.tasks[id].deps)
    ensures StatusOk(Conclude(g, id, v))
  {
    var h := Conclude(g, id, v);
    forall x | x in h.tasks && h.tasks[x].status in {Ready, Running, Completed}
      ensures h.DepsMet(h.tasks[x].deps)
    {
      assert g.DepsMet(g.tasks[x].deps);
    }
  }

  lemma ConcludeEdges(g: Graph, id: string, v: Verdict)
    requires EdgesOk(g) && id in g.tasks
    ensures EdgesOk(Conclude(g, id, v))
  {
    assert Conclude(g, id, v).tasks.Keys == g.tasks.Keys;
    assert |g.tasks.Keys| == |g.tasks|;
  }

  lemma ConcludeLog(g: Graph, id: string, v: Verdict)
    requires LogOk(g) && id in g.tasks && !g.tasks[id].Terminal()
    requires v.Succeeded? ==> id in g.started
    requires id in g.started ==> g.tasks[id].status.Running?
    ensures LogOk(Conclude(g, id, v))
  {
  }

  lemma ConcludeNoticed(g: Graph, id: string, v: Verdict, pending: seq<string>)
    requires Noticed(g, pending) && EdgesOk(g) && id in g.tasks && !g.tasks[id].Terminal()
    ensures Noticed(Conclude(g, id, v), pending + g.DependentsOf(id))
  {
    var h := Conclude(g, id, v);
    forall x | Decided(h, x)
      ensures x in pending + g.DependentsOf(id)
    {
      if id in g.tasks[x].deps {
        var i :| 0 <= i < |g.tasks[x].deps| && g.tasks[x].deps[i] == id;
        assert x in g.DependentsOf(g.tasks[x].deps[i]);
      } else {
        assert forall i :: 0 <= i < |g.tasks[x].deps| ==> h.Hopeless(g.tasks[x].deps[i]) == g.Hopeless(g.tasks[x].deps[i]);
        assert Decided(g, x);
      }
    }
  }

  // A loose or Blocked task concludes; its dependents must now be looked at.
  lemma Concluded(g: Graph, id: string, v: Verdict, pending: seq<string>)
    requires InvBut(g, {id}, pending) && id in g.tasks && !g.tasks[id].Terminal() && !v.NotYet?
    requires v.Succeeded? ==> g.tasks[id].status.Running?
    ensures InvBut(Conclude(g, id, v), {}, pending + g.DependentsOf(id))
  {
    ConcludeQueue(g, id, v);
    ConcludeRunning(g, id, v);
    ConcludeStatus(g, id, v);
    ConcludeEdges(g, id, v);
    ConcludeLog(g, id, v);
    ConcludeNoticed(g, id, v, pending);
  }

  lemma BlockedIsLoose(g: Graph, id: string, pending: seq<string>)
    requires InvBut(g, {}, pending) && g.Has(id, Blocked)
    ensures InvBut(g, {id}, pending)
  {
  }

  lemma ReadyQueue(g: Graph, id: string)
    requires QueueOk(g, {}) && g.Has(id, Blocked) && id != ""
    ensures id !in Ids(g.queue) && QueueOk(MakeReady(g, id), {})
  {
    var e := Entry(id, g.tasks[id].priority, g.nextSequence + 1);
    var h := MakeReady(g, id);
    assert forall i :: 0 <= i < |g.queue| ==> g.queue[i].id != id;
    forall x | x in g.queue
      ensures x.arrival != e.arrival
    {
      var i :| 0 <= i < |g.queue| && g.queue[i] == x;
    }
    InsertKeepsSorted(g.queue, e);
    InsertPositions(g.queue, e);
    InsertDistinct(g.queue, e);
    forall i | 0 <= i < |h.queue|
      ensures h.queue[i].arrival <= h.nextSequence && h.Has(h.queue[i].id, Ready)
      ensures h.queue[i].priority == h.tasks[h.queue[i].id].priority
    {
      assert h.queue[i] in h.queue;
      if h.queue[i] != e {
        var j :| 0 <= j < |g.queue| && g.queue[j] == h.queue[i];
        assert g.Has(g.queue[j].id, Ready);
      }
    }
    InsertLists(g.queue, e);
  }

  lemma InsertLists(l: seq<Entry>, e: Entry)
    ensures forall x :: x in Ids(Insert(l, e)) <==> x == e.id || x in Ids(l)
  {
    var r := Insert(l, e);
    InsertPositions(l, e);
    forall x
      ensures x in Ids(r) <==> x == e.id || x in Ids(l)
    {
      ListedById(r, x);
      ListedById(l, x);
    }
  }

  lemma ListedById(l: seq<Entry>, x: string)
    ensures x in Ids(l) <==> exists e :: e in l && e.id == x
  {
    if x in Ids(l) {
      var i :| 0 <= i < |l| && Ids(l)[i] == x;
      assert l[i] in l;
    }
    if exists e :: e in l && e.id == x {
      var e :| e in l && e.id == x;
      var i :| 0 <= i < |l| && l[i] == e;
      assert Ids(l)[i] == x;
    }
  }

  lemma InsertPositions(l: seq<Entry>, e: Entry)
    ensures forall x :: x in Insert(l, e) <==> x == e || x in l
  {
    InsertAdds(l, e);
    forall x
      ensures x in Insert(l, e) <==> x == e || x in l
    {
      assert x in Insert(l, e) <==> x in multiset(Insert(l, e));
      assert x in l <==> x in multiset(l);
    }
  }

  lemma {:induction false} InsertDistinct(l: seq<Entry>, e: Entry)
    requires DistinctIds(l) && e.id !in Ids(l)
    ensures DistinctIds(Insert(l, e))
  {
    if l != [] && !Before(e, l[0]) {
      assert forall i :: 0 <= i < |l[1..]| ==> Ids(l)[i + 1] == Ids(l[1..])[i];
      InsertDistinct(l[1..], e);
      InsertPositions(l[1..], e);
      var r := Insert(l[1..], e);
      assert Ids(l)[0] == l[0].id;
      forall i | 0 <= i < |r|
        ensures l[0].id != r[i].id
      {
        assert r[i] in r;
        if r[i] != e {
          var k :| 0 <= k < |l[1..]| && l[1..][k] == r[i];
          assert l[k + 1] == r[i];
        }
      }
    } else if l != [] {
      forall i | 0 <= i < |l|
        ensures l[i].id != e.id
      {
        assert Ids(l)[i] == l[i].id;
      }
    }
  }

  lemma ReadyStatus(g: Graph, id: string)
    requires StatusOk(g) && g.Has(id, Blocked) && g.DepsMet(g.tasks[id].deps)
    ensures StatusOk(MakeReady(g, id))
  {
    hide Insert, Ids;
    var h := MakeReady(g, id);
    forall x | x in h.tasks && h.tasks[x].status in {Ready, Running, Completed}
      ensures h.DepsMet(h.tasks[x].deps)
    {
      assert g.DepsMet(g.tasks[x].deps);
    }
  }

  lemma ReadyNoticed(g: Graph, id: string, pending: seq<string>)
    requires Noticed(g, pending) && g.Has(id, Blocked)
    ensures forall x :: Decided(MakeReady(g, id), x) ==> x != id && x in pending
  {
    var h := MakeReady(g, id);
    forall x | Decided(h, x)
      ensures x != id && x in pending
    {
      forall i | 0 <= i < |g.tasks[x].deps|
        ensures h.Hopeless(g.tasks[x].deps[i]) == g.Hopeless(g.tasks[x].deps[i])
        ensures h.Has(g.tasks[x].deps[i], Completed) == g.Has(g.tasks[x].deps[i], Completed)
      {
      }
      assert Decided(g, x);
    }
  }

  lemma SameEdges(g: Graph, h: Graph)
    requires EdgesOk(g) && h.dependents == g.dependents && h.tasks.Keys == g.tasks.Keys
    requires forall x :: x in g.tasks ==> h.tasks[x].deps == g.tasks[x].deps && h.tasks[x].born == g.tasks[x].born
    ensures EdgesOk(h)
  {
    assert |h.tasks| == |h.tasks.Keys| == |g.tasks|;
  }

  lemma ReadyRunning(g: Graph, id: string)
    requires RunningOk(g, {}) && g.Has(id, Blocked)
    ensures RunningOk(MakeReady(g, id), {})
  {
    hide Insert, Ids;
  }

  lemma ReadyLog(g: Graph, id: string)
    requires LogOk(g) && g.Has(id, Blocked)
    ensures LogOk(MakeReady(g, id))
  {
    hide Insert, Ids;
  }

  lemma MadeReady(g: Graph, id: string, pending: seq<string>)
    requires InvBut(g, {}, pending) && g.Has(id, Blocked) && g.DepsMet(g.tasks[id].deps)
    ensures InvBut(MakeReady(g, id), {}, pending)
  {
    ReadyQueue(g, id);
    ReadyStatus(g, id);
    ReadyNoticed(g, id, pending);
    SameEdges(g, MakeReady(g, id));
    ReadyRunning(g, id);
    ReadyLog(g, id);
  }

  // One entry of the worklist that is not, or no longer, decided can be dropped.
  lemma Dropped(g: Graph, pending: seq<string>)
    requires InvBut(g, {}, pending) && pending != [] && !Decided(g, pending[0])
    ensures InvBut(g, {}, pending[1..])
  {
    forall x | Decided(g, x)
      ensures x in pending[1..]
    {
      assert x in pending;
      assert pending == [pending[0]] + pending[1..];
    }
  }

  lemma FailStep(g: Graph, pending: seq<string>, v: Verdict)
    requires InvBut(g, {}, pending) && pending != [] && g.Has(pending[0], Blocked)
    requires !v.Succeeded? && !v.NotYet?
    ensures InvBut(Conclude(g, pending[0], v), {}, pending[1..] + g.DependentsOf(pending[0]))
  {
    hide InvBut, QueueOk, StatusOk, EdgesOk, Noticed;
    var id := pending[0];
    BlockedIsLoose(g, id, pending);
    Concluded(g, id, v, pending);
    Dropped(Conclude(g, id, v), pending + g.DependentsOf(id));
    assert (pending + g.DependentsOf(id))[1..] == pending[1..] + g.DependentsOf(id);
  }

  lemma ReadyStep(g: Graph, pending: seq<string>)
    requires InvBut(g, {}, pending) && pending != [] && g.Has(pending[0], Blocked)
    requires g.DepsMet(g.tasks[pending[0]].deps)
    ensures InvBut(MakeReady(g, pending[0]), {}, pending[1..])
  {
    MadeReady(g, pending[0], pending);
    Dropped(MakeReady(g, pending[0]), pending);
  }

  // The worklist loop restores the invariant.
  lemma {:induction false} ResolveKeepsInv(g: Graph, pending: seq<string>)
    requires InvBut(g, {}, pending)
    ensures Inv(Resolve(g, pending))
    decreases |g.Blockeds()|, |pending|
  {
    if pending != [] {
      var id := pending[0];
      if g.Has(id, Blocked) && FailedDependency(g, g.tasks[id].deps).Some? {
        var v := DependencyVerdict(g, FailedDependency(g, g.tasks[id].deps).value);
        FailStep(g, pending, v);
        ConcludeWeighs(g, id, v);
        ResolveKeepsInv(Conclude(g, id, v), pending[1..] + g.DependentsOf(id));
      } else if g.Has(id, Blocked) && g.DepsMet(g.tasks[id].deps) {
        ReadyStep(g, pending);
        ReadyWeighs(g, id);
        ResolveKeepsInv(MakeReady(g, id), pending[1..]);
      } else {
        Dropped(g, pending);
        ResolveKeepsInv(g, pending[1..]);
      }
    }
  }

  lemma FinishKeepsInv(g: Graph, id: string, v: Verdict)
    requires InvBut(g, {id}, []) && id in g.tasks && !g.tasks[id].Terminal() && !v.NotYet?
    requires v.Succeeded? ==> g.tasks[id].status.Running?
    ensures Inv(Finish(g, id, v))
  {
    Concluded(g, id, v, []);
    assert [] + g.DependentsOf(id) == g.DependentsOf(id);
    ResolveKeepsInv(Conclude(g, id, v), g.DependentsOf(id));
  }

  // ----- the lock-held sections -----

  // The coordinator draws random IDs, so a new one has not been used or named before.
  predicate FreshTask(g: Graph, id: string, deps: seq<string>) {
    id != "" && id !in g.tasks && id !in g.dependents && id !in deps
  }

  lemma {:induction false} RegisterAdds(m: map<string, seq<string>>, deps: seq<string>, id: string)
    ensures forall d, x :: d in m && x in m[d] ==> d in Register(m, deps, id) && x in Register(m, deps, id)[d]
    ensures forall i :: 0 <= i < |deps| ==> deps[i] in Register(m, deps, id) && id in Register(m, deps, id)[deps[i]]
    ensures Register(m, deps, id).Keys == m.Keys + (set i | 0 <= i < |deps| :: deps[i])
    decreases |deps|
  {
    if deps != [] {
      var known := if deps[0] in m then m[deps[0]] else [];
      var n := m[deps[0] := known + [id]];
      RegisterAdds(n, deps[1..], id);
      assert id in n[deps[0]];
      assert deps == [deps[0]] + deps[1..];
    }
  }

  function Posted(g: Graph, id: string, deps: seq<string>, priority: int): Graph {
    g.(tasks := g.tasks[id := TaskRec(deps, priority, Blocked, NotYet, |g.tasks|)],
       dependents := Register(g.dependents, deps, id))
  }

  lemma PostedEdges(g: Graph, id: string, deps: seq<string>, priority: int)
    requires EdgesOk(g) && FreshTask(g, id, deps)
    ensures EdgesOk(Posted(g, id, deps, priority))
  {
    var h := Posted(g, id, deps, priority);
    RegisterAdds(g.dependents, deps, id);
    assert |h.tasks| == |g.tasks| + 1;
    forall x, i | x in h.tasks && 0 <= i < |h.tasks[x].deps|
      ensures x in h.DependentsOf(h.tasks[x].deps[i])
      ensures h.tasks[x].deps[i] in h.tasks ==> h.tasks[h.tasks[x].deps[i]].born < h.tasks[x].born
    {
      var d := h.tasks[x].deps[i];
      if x != id {
        assert x in g.DependentsOf(g.tasks[x].deps[i]);
        assert d in g.dependents && d != id;
      }
    }
  }

  lemma PostedStatus(g: Graph, id: string, deps: seq<string>, priority: int)
    requires StatusOk(g) && FreshTask(g, id, deps)
    ensures StatusOk(Posted(g, id, deps, priority))
  {
    var h := Posted(g, id, deps, priority);
    forall x | x in h.tasks && h.tasks[x].status in {Ready, Running, Completed}
      ensures h.DepsMet(h.tasks[x].deps)
    {
      assert g.DepsMet(g.tasks[x].deps);
    }
  }

  lemma PostedQueue(g: Graph, id: string, deps: seq<string>, priority: int)
    requires QueueOk(g, {}) && RunningOk(g, {}) && LogOk(g) && FreshTask(g, id, deps)
    ensures QueueOk(Posted(g, id, deps, priority), {})
    ensures RunningOk(Posted(g, id, deps, priority), {})
    ensures LogOk(Posted(g, id, deps, priority))
  {
  }

  // Two graphs that agree on which dependencies are met and which are hopeless.
  ghost predicate SameOutlook(g: Graph, h: Graph, deps: seq<string>) {
    forall i :: 0 <= i < |deps| ==>
      h.Hopeless(deps[i]) == g.Hopeless(deps[i]) && h.Has(deps[i], Completed) == g.Has(deps[i], Completed)
  }

  lemma SameOutlookSameFate(g: Graph, h: Graph, deps: seq<string>)
    requires SameOutlook(g, h, deps)
    ensures h.DepsMet(deps) == g.DepsMet(deps)
    ensures FailedDependency(h, deps).Some? == FailedDependency(g, deps).Some?
  {
    if h.DepsMet(deps) {
      assert forall i :: 0 <= i < |deps| ==> g.Has(deps[i], Completed);
    }
    if g.DepsMet(deps) {
      assert forall i :: 0 <= i < |deps| ==> h.Has(deps[i], Completed);
    }
    if FailedDependency(h, deps).None? {
      assert forall i :: 0 <= i < |deps| ==> !g.Hopeless(deps[i]);
    }
    if FailedDependency(g, deps).None? {
      assert forall i :: 0 <= i < |deps| ==> !h.Hopeless(deps[i]);
    }
  }

  lemma PostedOthers(g: Graph, id: string, deps: seq<string>, priority: int, x: string)
    requires EdgesOk(g) && FreshTask(g, id, deps) && x in g.tasks
    ensures SameOutlook(g, Posted(g, id, deps, priority), g.tasks[x].deps)
  {
    forall i | 0 <= i < |g.tasks[x].deps|
      ensures g.tasks[x].deps[i] != id
    {
      assert x in g.DependentsOf(g.tasks[x].deps[i]);
    }
  }

  lemma PostedNoticed(g: Graph, id: string, deps: seq<string>, priority: int)
    requires Noticed(g, []) && EdgesOk(g) && FreshTask(g, id, deps)
    ensures Noticed(Posted(g, id, deps, priority), [id])
  {
    var h := Posted(g, id, deps, priority);
    forall x | x in g.tasks
      ensures Decided(h, x) == Decided(g, x)
    {
      PostedOthers(g, id, deps, priority, x);
      SameOutlookSameFate(g, h, g.tasks[x].deps);
    }
  }

  lemma PostedInv(g: Graph, id: string, deps: seq<string>, priority: int)
    requires Inv(g) && FreshTask(g, id, deps)
    ensures InvBut(Posted(g, id, deps, priority), {}, [id])
    ensures Posted(g, id, deps, priority).DependentsOf(id) == []
  {
    PostedEdges(g, id, deps, priority);
    PostedStatus(g, id, deps, priority);
    PostedQueue(g, id, deps, priority);
    PostedNoticed(g, id, deps, priority);
    RegisterAdds(g.dependents, deps, id);
  }

  lemma AddTaskKeepsInv(g: Graph, id: string, deps: seq<string>, priority: int)
    requires Inv(g) && FreshTask(g, id, deps)
    ensures Inv(AddTask(g, id, deps, priority))
  {
    if !g.sealed {
      var h := Posted(g, id, deps, priority);
      PostedInv(g, id, deps, priority);
      var failed := FailedDependency(h, deps);
      if failed.Some? {
        FailStep(h, [id], DependencyVerdict(h, failed.value));
      } else if h.DepsMet(deps) {
        ReadyStep(h, [id]);
      } else {
        Dropped(h, [id]);
      }
    }
  }

  // SpawnAsync answers with an ID not in use, or with nothing.
  predicate FreshAgents(g: Graph, spawns: seq<string>) {
    && (forall i :: 0 <= i < |spawns| ==> spawns[i] !in g.running)
    && (forall i, j :: 0 <= i < j < |spawns| && spawns[i] == spawns[j] ==> spawns[i] == "")
  }

  lemma PoppedInv(g: Graph)
    requires Inv(g) && g.queue != []
    ensures g.Has(g.queue[0].id, Ready)
    ensures InvBut(Popped(g), {g.queue[0].id}, [])
  {
    hide QueueOk, RunningOk, StatusOk, EdgesOk, LogOk, Decided;
    var h := Popped(g);
    PoppedQueue(g);
    PoppedRunning(g);
    SameDecisions(g, h);
    SameEdges(g, h);
    SameLog(g, h);
  }

  lemma PoppedQueue(g: Graph)
    requires QueueOk(g, {}) && g.queue != []
    ensures g.Has(g.queue[0].id, Ready) && QueueOk(Popped(g), {g.queue[0].id})
  {
    var h := Popped(g);
    assert g.Has(g.queue[0].id, Ready);
    forall x | h.Has(x, Ready) && x != g.queue[0].id
      ensures x in Ids(h.queue)
    {
      assert g.Has(x, Ready);
      var i :| 0 <= i < |g.queue| && Ids(g.queue)[i] == x;
      assert Ids(h.queue)[i - 1] == x;
    }
  }

  lemma PoppedRunning(g: Graph)
    requires RunningOk(g, {}) && g.queue != [] && g.Has(g.queue[0].id, Ready)
    ensures RunningOk(Popped(g), {g.queue[0].id})
  {
  }

  lemma SameDecisions(g: Graph, h: Graph)
    requires h.tasks == g.tasks
    ensures forall x :: Decided(h, x) <==> Decided(g, x)
    ensures StatusOk(g) ==> StatusOk(h)
  {
    forall x
      ensures Decided(h, x) <==> Decided(g, x)
    {
      if x in g.tasks {
        assert forall i :: 0 <= i < |g.tasks[x].deps| ==> h.Hopeless(g.tasks[x].deps[i]) == g.Hopeless(g.tasks[x].deps[i]);
        assert h.DepsMet(g.tasks[x].deps) == g.DepsMet(g.tasks[x].deps);
      }
    }
    if StatusOk(g) {
      forall x | x in h.tasks && h.tasks[x].status in {Ready, Running, Completed}
        ensures h.DepsMet(h.tasks[x].deps)
      {
        assert g.DepsMet(g.tasks[x].deps);
      }
    }
  }

  lemma LaunchStatus(g: Graph, id: string, agent: string)
    requires StatusOk(g) && Noticed(g, []) && g.Has(id, Ready)
    ensures StatusOk(Launch(g, id, agent)) && Noticed(Launch(g, id, agent), [])
  {
    var h := Launch(g, id, agent);
    forall x | x in h.tasks
      ensures h.DepsMet(h.tasks[x].deps) == g.DepsMet(g.tasks[x].deps)
      ensures Decided(h, x) ==> Decided(g, x)
    {
      assert SameOutlook(g, h, g.tasks[x].deps);
      SameOutlookSameFate(g, h, g.tasks[x].deps);
    }
  }

  lemma LaunchRunning(g: Graph, id: string, agent: string)
    requires RunningOk(g, {id}) && g.Has(id, Ready) && agent !in g.running && agent != ""
    ensures RunningOk(Launch(g, id, agent), {})
  {
    var h := Launch(g, id, agent);
    forall x | h.Has(x, Running)
      ensures x in h.running.Values
    {
      if x == id {
        assert h.running[agent] == id;
      } else {
        assert g.Has(x, Running);
        var a :| a in g.running && g.running[a] == x;
        assert h.running[a] == x;
      }
    }
  }

  lemma LaunchRest(g: Graph, id: string, agent: string)
    requires QueueOk(g, {id}) && EdgesOk(g) && LogOk(g) && g.Has(id, Ready)
    ensures QueueOk(Launch(g, id, agent), {}) && EdgesOk(Launch(g, id, agent)) && LogOk(Launch(g, id, agent))
  {
    var h := Launch(g, id, agent);
    assert id !in g.started;
    assert |h.tasks.Keys| == |h.tasks|;
  }

  lemma LaunchKeepsInv(g: Graph, id: string, agent: string)
    requires InvBut(g, {id}, []) && g.Has(id, Ready) && agent !in g.running && agent != ""
    ensures Inv(Launch(g, id, agent))
  {
    LaunchStatus(g, id, agent);
    LaunchRunning(g, id, agent);
    LaunchRest(g, id, agent);
  }

  // The head of the queue is popped and fails to start, or starts.
  lemma HeadFails(g: Graph)
    requires Inv(g) && g.queue != []
    ensures g.Has(g.queue[0].id, Ready)
    ensures Inv(Finish(Popped(g), g.queue[0].id, SpawnFailed))
    ensures Finish(Popped(g), g.queue[0].id, SpawnFailed).running == g.running
  {
    var id, h := g.queue[0].id, Popped(g);
    PoppedInv(g);
    FinishKeepsInv(h, id, SpawnFailed);
    ResolveKeepsRunning(Conclude(h, id, SpawnFailed), h.DependentsOf(id));
  }

  lemma StartOneKeepsInv(g: Graph, answer: string)
    requires Inv(g) && g.queue != [] && answer !in g.running
    ensures g.Has(g.queue[0].id, Ready) && Inv(StartOne(g, answer))
    ensures StartOne(g, answer).running ==
              if answer == "" then g.running else g.running[answer := g.queue[0].id]
  {
    PoppedInv(g);
    if answer == "" {
      HeadFails(g);
    } else {
      LaunchKeepsInv(Popped(g), g.queue[0].id, answer);
    }
  }

  // The answers left are fresh for the graph that the first one leads to.
  lemma FreshRest(g: Graph, h: Graph, spawns: seq<string>, id: string)
    requires FreshAgents(g, spawns)
    requires h.running == if spawns == [] || spawns[0] == "" then g.running else g.running[spawns[0] := id]
    ensures FreshAgents(h, if spawns == [] then [] else spawns[1..])
    ensures |h.running| <= |g.running| + if spawns == [] || spawns[0] == "" then 0 else 1
    ensures spawns == [] || spawns[0] == "" || spawns[0] !in g.running
  {
    if spawns != [] && spawns[0] != "" { assert |g.running[spawns[0] := id]| == |g.running| + 1; }
  }

  lemma NoAgentIsNobody(g: Graph)
    requires Inv(g)
    ensures "" !in g.running
  {
  }

  lemma {:induction false} StartReadyKeepsInv(g: Graph, slots: int, spawns: seq<string>)
    requires Inv(g) && FreshAgents(g, spawns)
    ensures Inv(StartReady(g, slots, spawns))
    decreases g.Weight()
  {
    hide Inv, StartOne, FreshAgents;
    if slots > 0 && g.queue != [] {
      var answer := if spawns == [] then "" else spawns[0];
      NoAgentIsNobody(g);
      FreshRest(g, g.(running := if answer == "" then g.running else g.running[answer := g.queue[0].id]), spawns, g.queue[0].id);
      StartOneKeepsInv(g, answer);
      var h := StartOne(g, answer);
      var rest := if spawns == [] then [] else spawns[1..];
      FreshRest(g, h, spawns, g.queue[0].id);
      StartReadyKeepsInv(h, if answer != "" then slots - 1 else slots, rest);
    }
  }

  lemma {:induction false} ResolveKeepsRunning(g: Graph, pending: seq<string>)
    ensures Resolve(g, pending).running == g.running && Resolve(g, pending).started == g.started
    ensures Resolve(g, pending).sealed == g.sealed && Resolve(g, pending).maxParallel == g.maxParallel
    ensures Resolve(g, pending).dependents == g.dependents
    decreases |g.Blockeds()|, |pending|
  {
    if pending != [] {
      var id := pending[0];
      if g.Has(id, Blocked) && FailedDependency(g, g.tasks[id].deps).Some? {
        var v := DependencyVerdict(g, FailedDependency(g, g.tasks[id].deps).value);
        ConcludeWeighs(g, id, v);
        ResolveKeepsRunning(Conclude(g, id, v), pending[1..] + g.DependentsOf(id));
      } else if g.Has(id, Blocked) && g.DepsMet(g.tasks[id].deps) {
        ReadyWeighs(g, id);
        ResolveKeepsRunning(MakeReady(g, id), pending[1..]);
      } else {
        ResolveKeepsRunning(g, pending[1..]);
      }
    }
  }

  lemma AnsweredInv(g: Graph, agent: string)
    requires Inv(g) && agent in g.running
    ensures InvBut(g.(running := g.running - {agent}), {g.running[agent]}, [])
  {
    var id, h := g.running[agent], g.(running := g.running - {agent});
    assert g.Has(id, Running);
    assert QueueOk(h, {id});
    forall x | h.Has(x, Running) && x != id
      ensures x in h.running.Values
    {
      assert g.Has(x, Running);
      var a :| a in g.running && g.running[a] == x;
      assert h.running[a] == x;
    }
    SameDecisions(g, h);
  }

  lemma AgentDoneKeepsInv(g: Graph, agent: string, v: Verdict)
    requires Inv(g) && !v.NotYet?
    ensures Inv(AgentDone(g, agent, v))
  {
    if agent in g.running {
      AnsweredInv(g, agent);
      FinishKeepsInv(g.(running := g.running - {agent}), g.running[agent], v);
    }
  }

  lemma WithdrawnListed(g: Graph, id: string, x: string)
    requires g.Has(x, Ready) ==> x in Ids(g.queue)
    ensures g.Has(x, Ready) && x != id ==> x in Ids(Without(g.queue, id))
  {
    if g.Has(x, Ready) && x != id {
      WithoutMembers(g.queue, id);
      ListedById(g.queue, x);
      ListedById(Without(g.queue, id), x);
    }
  }

  lemma WithdrawnQueue(g: Graph, id: string)
    requires QueueOk(g, {})
    ensures QueueOk(g.(queue := Without(g.queue, id)), {id})
  {
    var h := g.(queue := Without(g.queue, id));
    WithoutKeepsSorted(g.queue, id);
    WithoutDistinct(g.queue, id);
    forall i | 0 <= i < |h.queue|
      ensures h.queue[i].arrival <= h.nextSequence && h.queue[i].id != id && h.Has(h.queue[i].id, Ready)
      ensures h.queue[i].priority == h.tasks[h.queue[i].id].priority
    {
      var j := WithoutFrom(g.queue, id, i);
      assert g.Has(g.queue[j].id, Ready);
    }
    forall x
      ensures h.Has(x, Ready) && x != id ==> x in Ids(h.queue)
    {
      WithdrawnListed(g, id, x);
    }
  }

  lemma WithdrawnInv(g: Graph, id: string)
    requires Inv(g) && id in g.tasks && g.tasks[id].status in {Blocked, Ready}
    ensures InvBut(g.(queue := Without(g.queue, id)), {id}, [])
  {
    hide QueueOk, StatusOk, EdgesOk, LogOk, Decided;
    var h := g.(queue := Without(g.queue, id));
    WithdrawnQueue(g, id);
    SameDecisions(g, h);
    SameEdges(g, h);
    SameLog(g, h);
  }

  lemma SameLog(g: Graph, h: Graph)
    requires LogOk(g) && h.tasks == g.tasks && h.completed == g.completed
    requires h.started == g.started && h.records == g.records
    ensures LogOk(h)
  {
    assert forall id :: h.Done(id) == g.Done(id);
  }

  lemma {:induction false} WithoutDistinct(l: seq<Entry>, id: string)
    requires DistinctIds(l)
    ensures DistinctIds(Without(l, id))
  {
    if l != [] {
      WithoutDistinct(l[1..], id);
      var r := Without(l[1..], id);
      forall i | 0 <= i < |r|
        ensures r[i].id != l[0].id
      {
        var k := WithoutFrom(l[1..], id, i);
        assert l[k + 1] == r[i];
      }
    }
  }

  lemma WithdrawKeepsInv(g: Graph, id: string)
    requires Inv(g) && id in g.tasks && g.tasks[id].status in {Blocked, Ready}
    ensures Inv(Withdraw(g, id))
  {
    WithdrawnInv(g, id);
    FinishKeepsInv(g.(queue := Without(g.queue, id)), id, Cancelled);
  }
}
