// Whole runs of the coordinator: any interleaving of its lock-held sections.

module CoordinatorRuns {
  import opened Wrappers
  import opened SortedEntries
  import opened TaskQueues
  import opened TaskGraph
  import opened GraphInvariant
  import opened GraphTheorems

  datatype Event =
    | Add(id: string, deps: seq<string>, priority: int)
    | Start
    | SetMax(max: int)
    | Fill(spawns: seq<string>)
    | Done(agent: string, verdict: Verdict)
    | Cancel(id: string)

  function Step(g: Graph, e: Event): Graph {
    match e
    case Add(id, deps, priority) => AddTask(g, id, deps, priority)
    case Start => g.(sealed := true)
    case SetMax(max) => if max <= 0 then g else g.(maxParallel := max)
    case Fill(spawns) => StartReady(g, g.maxParallel - |g.running|, spawns)
    case Done(agent, verdict) => AgentDone(g, agent, verdict)
    case Cancel(id) =>
      // A running task is only asked to stop, and a finished one is left alone.
      if g.Has(id, Blocked) || g.Has(id, Ready) then Withdraw(g, id) else g
  }

  // What the environment promises: fresh task and agent IDs, a real verdict from an agent, and no
  // scheduling before Start.
  predicate Legal(g: Graph, e: Event) {
    match e
    case Add(id, deps, priority) => FreshTask(g, id, deps)
    case Fill(spawns) => g.sealed && FreshAgents(g, spawns)
    case Done(agent, verdict) => g.sealed && verdict in {Succeeded, AgentFailed, AgentCancelled}
    case _ => true
  }

  function Initial(maxParallel: int): Graph {
    Graph(map[], map[], [], 0, map[], {}, false, if maxParallel <= 0 then 3 else maxParallel, [], [])
  }

  function Run(g: Graph, es: seq<Event>): Graph
    decreases |es|
  {
    if es == [] then g else Run(Step(g, es[0]), es[1..])
  }

  predicate LegalRun(g: Graph, es: seq<Event>)
    decreases |es|
  {
    es == [] || (Legal(g, es[0]) && LegalRun(Step(g, es[0]), es[1..]))
  }

  lemma InitialInv(maxParallel: int)
    ensures Inv(Initial(maxParallel))
  {
  }

  lemma SameTasksKeepInv(g: Graph, h: Graph)
    requires Inv(g) && h == g.(sealed := h.sealed, maxParallel := h.maxParallel)
    ensures Inv(h)
  {
    SameDecisions(g, h);
  }

  lemma StepKeepsInv(g: Graph, e: Event)
    requires Inv(g) && Legal(g, e)
    ensures Inv(Step(g, e))
  {
    hide Inv, StartReady, AddTask, Withdraw, AgentDone;
    match e
    case Add(id, deps, priority) => AddTaskKeepsInv(g, id, deps, priority);
    case Start => SameTasksKeepInv(g, g.(sealed := true));
    case SetMax(max) => SameTasksKeepInv(g, g.(maxParallel := max));
    case Fill(spawns) => StartReadyKeepsInv(g, g.maxParallel - |g.running|, spawns);
    case Done(agent, verdict) => AgentDoneKeepsInv(g, agent, verdict);
    case Cancel(id) =>
      if g.Has(id, Blocked) || g.Has(id, Ready) { WithdrawKeepsInv(g, id); }
  }

  // Every reachable state keeps the invariant.
  lemma {:induction false} RunKeepsInv(g: Graph, es: seq<Event>)
    requires Inv(g) && LegalRun(g, es)
    ensures Inv(Run(g, es))
    decreases |es|
  {
    hide Inv, Step, Legal;
    if es != [] {
      StepKeepsInv(g, es[0]);
      RunKeepsInv(Step(g, es[0]), es[1..]);
    }
  }

  // ----- terminal states are absorbing, histories only grow -----

  predicate Later(t: TaskRec, u: TaskRec) {
    && u.deps == t.deps && u.born == t.born
    && (t.Terminal() ==> u == t)
    && Rank(u.status) <= Rank(t.status)
  }

  ghost predicate Evolves(g: Graph, h: Graph) {
    && (forall id :: id in g.tasks ==> id in h.tasks && Later(g.tasks[id], h.tasks[id]))
    && g.records <= h.records && g.started <= h.started
    && (g.sealed ==> h.sealed && h.tasks.Keys == g.tasks.Keys)
  }

  function Rank(st: Status): nat {
    match st
    case Pending => 4
    case Blocked => 3
    case Ready => 2
    case Running => 1
    case Completed => 0
    case Failed => 0
  }

  lemma EvolvesOn(g: Graph, m: Graph, h: Graph)
    requires Evolves(g, m) && Evolves(m, h)
    ensures Evolves(g, h)
  {
    forall id | id in g.tasks
      ensures id in h.tasks && Later(g.tasks[id], h.tasks[id])
    {
      assert id in m.tasks;
    }
  }

  lemma EvolvesSelf(g: Graph)
    ensures Evolves(g, g)
  {
  }

  lemma ConcludeEvolves(g: Graph, id: string, v: Verdict)
    requires id in g.tasks && !g.tasks[id].Terminal()
    ensures Evolves(g, Conclude(g, id, v))
  {
  }

  lemma ReadyEvolves(g: Graph, id: string)
    requires g.Has(id, Blocked)
    ensures Evolves(g, MakeReady(g, id))
  {
    assert MakeReady(g, id).tasks.Keys == g.tasks.Keys;
  }

  lemma {:induction false} ResolveEvolves(g: Graph, pending: seq<string>)
    ensures Evolves(g, Resolve(g, pending))
    decreases |g.Blockeds()|, |pending|
  {
    hide Evolves, MakeReady;
    EvolvesSelf(g);
    if pending != [] {
      var id := pending[0];
      if g.Has(id, Blocked) && FailedDependency(g, g.tasks[id].deps).Some? {
        var v := DependencyVerdict(g, FailedDependency(g, g.tasks[id].deps).value);
        ConcludeWeighs(g, id, v);
        ConcludeEvolves(g, id, v);
        ResolveEvolves(Conclude(g, id, v), pending[1..] + g.DependentsOf(id));
        EvolvesOn(g, Conclude(g, id, v), Resolve(g, pending));
      } else if g.Has(id, Blocked) && g.DepsMet(g.tasks[id].deps) {
        ReadyWeighs(g, id);
        ReadyEvolves(g, id);
        ResolveEvolves(MakeReady(g, id), pending[1..]);
        EvolvesOn(g, MakeReady(g, id), Resolve(g, pending));
      } else {
        ResolveEvolves(g, pending[1..]);
      }
    }
  }

  lemma FinishEvolves(g: Graph, id: string, v: Verdict)
    requires id in g.tasks && !g.tasks[id].Terminal()
    ensures Evolves(g, Finish(g, id, v))
  {
    hide Evolves;
    ConcludeEvolves(g, id, v);
    ResolveEvolves(Conclude(g, id, v), g.DependentsOf(id));
    EvolvesOn(g, Conclude(g, id, v), Finish(g, id, v));
  }

  lemma StartOneEvolves(g: Graph, answer: string)
    requires g.queue != []
    ensures Evolves(g, StartOne(g, answer))
  {
    var id, h := g.queue[0].id, Popped(g);
    if h.Has(id, Ready) && answer == "" {
      FinishEvolves(h, id, SpawnFailed);
      EvolvesOn(g, h, StartOne(g, answer));
    }
  }

  lemma {:induction false} StartReadyEvolves(g: Graph, slots: int, spawns: seq<string>)
    ensures Evolves(g, StartReady(g, slots, spawns))
    decreases g.Weight()
  {
    if slots > 0 && g.queue != [] {
      var asked := g.Has(g.queue[0].id, Ready);
      var answer := if spawns == [] then "" else spawns[0];
      StartOneEvolves(g, answer);
      StartReadyEvolves(StartOne(g, answer),
                        if asked && answer != "" then slots - 1 else slots,
                        if asked && spawns != [] then spawns[1..] else spawns);
      EvolvesOn(g, StartOne(g, answer), StartReady(g, slots, spawns));
    }
  }

  lemma AddEvolves(g: Graph, id: string, deps: seq<string>, priority: int)
    requires FreshTask(g, id, deps)
    ensures Evolves(g, AddTask(g, id, deps, priority))
  {
    if !g.sealed {
      var h := Posted(g, id, deps, priority);
      ConcludeEvolves(h, id, DependencyMissing(""));
    }
  }

  lemma SwitchEvolves(g: Graph, h: Graph)
    requires h == g.(sealed := h.sealed, maxParallel := h.maxParallel) && (g.sealed ==> h.sealed)
    ensures Evolves(g, h)
  {
  }

  lemma StepEvolves(g: Graph, e: Event)
    requires Inv(g) && Legal(g, e)
    ensures Evolves(g, Step(g, e))
  {
    hide Inv, Evolves, StartReady, AddTask, AgentDone, Withdraw;
    EvolvesSelf(g);
    match e
    case Add(id, deps, priority) => AddEvolves(g, id, deps, priority);
    case Start => SwitchEvolves(g, g.(sealed := true));
    case SetMax(max) => SwitchEvolves(g, g.(maxParallel := max));
    case Fill(spawns) => StartReadyEvolves(g, g.maxParallel - |g.running|, spawns);
    case Done(agent, verdict) => DoneEvolves(g, agent, verdict);
    case Cancel(id) => if g.Has(id, Blocked) || g.Has(id, Ready) { WithdrawEvolves(g, id); }
  }

  lemma DoneEvolves(g: Graph, agent: string, v: Verdict)
    requires Inv(g)
    ensures Evolves(g, AgentDone(g, agent, v))
  {
    if agent in g.running {
      var h := g.(running := g.running - {agent});
      assert g.Has(g.running[agent], Running);
      FinishEvolves(h, g.running[agent], v);
    }
  }

  lemma WithdrawEvolves(g: Graph, id: string)
    requires g.Has(id, Blocked) || g.Has(id, Ready)
    ensures Evolves(g, Withdraw(g, id))
  {
    FinishEvolves(g.(queue := Without(g.queue, id)), id, Cancelled);
  }

  lemma {:induction false} RunEvolves(g: Graph, es: seq<Event>)
    requires Inv(g) && LegalRun(g, es)
    ensures Evolves(g, Run(g, es))
    decreases |es|
  {
    hide Inv, Step, Legal, Evolves;
    EvolvesSelf(g);
    if es != [] {
      StepKeepsInv(g, es[0]);
      StepEvolves(g, es[0]);
      RunEvolves(Step(g, es[0]), es[1..]);
      EvolvesOn(g, Step(g, es[0]), Run(g, es));
    }
  }

  // ----- scheduling order does not matter -----

  // What becomes of a task, whatever the schedule: it completes when its own agent succeeds and
  // every dependency exists and completes.
  ghost predicate Prospers(g: Graph, ok: set<string>, id: string)
    requires EdgesOk(g)
    decreases if id in g.tasks then g.tasks[id].born else 0
  {
    && id in g.tasks && id in ok
    && forall i :: 0 <= i < |g.tasks[id].deps| ==>
         g.tasks[id].deps[i] in g.tasks && Prospers(g, ok, g.tasks[id].deps[i])
  }

  // So far every ended task has ended as it had to.
  ghost predicate AsDestined(g: Graph, ok: set<string>)
    requires EdgesOk(g)
  {
    && (forall id :: g.Has(id, Completed) ==> Prospers(g, ok, id))
    && (forall id :: g.Has(id, Failed) ==> !Prospers(g, ok, id))
  }

  // An event that keeps to the chosen outcomes: the tasks in ok are the ones whose agent starts and
  // succeeds, and nothing is cancelled.
  predicate Faithful(g: Graph, ok: set<string>, e: Event) {
    match e
    case Done(agent, v) => agent in g.running ==> (v.Succeeded? <==> g.running[agent] in ok)
    case Fill(spawns) => FaithfulFill(g, ok, g.maxParallel - |g.running|, spawns)
    case Cancel(_) => false
    case _ => true
  }

  predicate FaithfulFill(g: Graph, ok: set<string>, slots: int, spawns: seq<string>)
    decreases g.Weight()
  {
    slots <= 0 || g.queue == [] ||
    var asked := g.Has(g.queue[0].id, Ready);
    var answer := if spawns == [] then "" else spawns[0];
    && (asked && answer == "" ==> g.queue[0].id !in ok)
    && FaithfulFill(StartOne(g, answer), ok,
                    if asked && answer != "" then slots - 1 else slots,
                    if asked && spawns != [] then spawns[1..] else spawns)
  }

  // Prospects depend on the shape of the graph alone.
  lemma {:induction false} SameProspects(g: Graph, h: Graph, ok: set<string>, id: string)
    requires EdgesOk(g) && EdgesOk(h) && id in g.tasks
    requires forall x :: x in g.tasks ==> x in h.tasks && h.tasks[x].deps == g.tasks[x].deps
    requires forall x, i :: x in g.tasks && 0 <= i < |g.tasks[x].deps| && g.tasks[x].deps[i] in h.tasks ==>
               g.tasks[x].deps[i] in g.tasks
    ensures Prospers(g, ok, id) == Prospers(h, ok, id)
    decreases g.tasks[id].born
  {
    var deps := g.tasks[id].deps;
    forall i | 0 <= i < |deps|
      ensures (deps[i] in g.tasks && Prospers(g, ok, deps[i])) == (deps[i] in h.tasks && Prospers(h, ok, deps[i]))
    {
      if deps[i] in g.tasks { SameProspects(g, h, ok, deps[i]); }
    }
  }

  lemma SameShapeSameDestiny(g: Graph, h: Graph, ok: set<string>)
    requires EdgesOk(g) && EdgesOk(h) && h.tasks.Keys == g.tasks.Keys
    requires forall x :: x in g.tasks ==> h.tasks[x].deps == g.tasks[x].deps
    ensures forall id :: Prospers(g, ok, id) == Prospers(h, ok, id)
  {
    forall id
      ensures Prospers(g, ok, id) == Prospers(h, ok, id)
    {
      if id in g.tasks { SameProspects(g, h, ok, id); }
    }
  }

  lemma ConcludeDestined(g: Graph, ok: set<string>, id: string, v: Verdict)
    requires EdgesOk(g) && AsDestined(g, ok) && id in g.tasks
    requires v.Succeeded? <==> Prospers(g, ok, id)
    ensures EdgesOk(Conclude(g, id, v)) && AsDestined(Conclude(g, id, v), ok)
  {
    ConcludeEdges(g, id, v);
    SameShapeSameDestiny(g, Conclude(g, id, v), ok);
  }

  lemma HopelessDoesNotProsper(g: Graph, ok: set<string>, id: string)
    requires EdgesOk(g) && AsDestined(g, ok) && id in g.tasks && FailedDependency(g, g.tasks[id].deps).Some?
    ensures !Prospers(g, ok, id)
  {
    var d := FailedDependency(g, g.tasks[id].deps).value;
    var i :| 0 <= i < |g.tasks[id].deps| && g.tasks[id].deps[i] == d;
    assert d !in g.tasks || g.Has(d, Failed);
  }

  lemma ReadyDestined(g: Graph, ok: set<string>, id: string)
    requires EdgesOk(g) && AsDestined(g, ok) && g.Has(id, Blocked)
    ensures EdgesOk(MakeReady(g, id)) && AsDestined(MakeReady(g, id), ok)
  {
    hide EdgesOk, Prospers;
    SameEdges(g, MakeReady(g, id));
    SameShapeSameDestiny(g, MakeReady(g, id), ok);
  }

  lemma {:induction false} ResolveDestined(g: Graph, ok: set<string>, pending: seq<string>)
    requires EdgesOk(g) && AsDestined(g, ok)
    ensures EdgesOk(Resolve(g, pending)) && AsDestined(Resolve(g, pending), ok)
    decreases |g.Blockeds()|, |pending|
  {
    hide EdgesOk, AsDestined, Prospers, MakeReady;
    if pending != [] {
      var id := pending[0];
      if g.Has(id, Blocked) && FailedDependency(g, g.tasks[id].deps).Some? {
        var v := DependencyVerdict(g, FailedDependency(g, g.tasks[id].deps).value);
        ConcludeWeighs(g, id, v);
        HopelessDoesNotProsper(g, ok, id);
        ConcludeDestined(g, ok, id, v);
        ResolveDestined(Conclude(g, id, v), ok, pending[1..] + g.DependentsOf(id));
      } else if g.Has(id, Blocked) && g.DepsMet(g.tasks[id].deps) {
        ReadyWeighs(g, id);
        ReadyDestined(g, ok, id);
        ResolveDestined(MakeReady(g, id), ok, pending[1..]);
      } else {
        ResolveDestined(g, ok, pending[1..]);
      }
    }
  }

  lemma FinishDestined(g: Graph, ok: set<string>, id: string, v: Verdict)
    requires EdgesOk(g) && AsDestined(g, ok) && id in g.tasks
    requires v.Succeeded? <==> Prospers(g, ok, id)
    ensures EdgesOk(Finish(g, id, v)) && AsDestined(Finish(g, id, v), ok)
  {
    ConcludeDestined(g, ok, id, v);
    ResolveDestined(Conclude(g, id, v), ok, g.DependentsOf(id));
  }

  // A task whose dependencies are all completed prospers exactly when its own agent does.
  lemma MetProspers(g: Graph, ok: set<string>, id: string)
    requires EdgesOk(g) && AsDestined(g, ok) && id in g.tasks && g.DepsMet(g.tasks[id].deps)
    ensures Prospers(g, ok, id) <==> id in ok
  {
    forall i | 0 <= i < |g.tasks[id].deps|
      ensures g.tasks[id].deps[i] in g.tasks && Prospers(g, ok, g.tasks[id].deps[i])
    {
      assert g.Has(g.tasks[id].deps[i], Completed);
    }
  }

  // Changing the queue, the running map or the switches changes no prospects.
  lemma SideDestined(g: Graph, h: Graph, ok: set<string>)
    requires EdgesOk(g) && AsDestined(g, ok) && h.tasks == g.tasks && h.dependents == g.dependents
    ensures EdgesOk(h) && AsDestined(h, ok)
  {
    SameEdges(g, h);
    SameShapeSameDestiny(g, h, ok);
  }

  lemma LaunchDestined(g: Graph, ok: set<string>, id: string, agent: string)
    requires EdgesOk(g) && AsDestined(g, ok) && id in g.tasks
    ensures EdgesOk(Launch(g, id, agent)) && AsDestined(Launch(g, id, agent), ok)
  {
    SameEdges(g, Launch(g, id, agent));
    SameShapeSameDestiny(g, Launch(g, id, agent), ok);
  }

  lemma StartOneDestined(g: Graph, ok: set<string>, answer: string)
    requires Inv(g) && AsDestined(g, ok) && g.queue != []
    requires answer == "" ==> g.queue[0].id !in ok
    ensures EdgesOk(StartOne(g, answer)) && AsDestined(StartOne(g, answer), ok)
  {
    var id, h := g.queue[0].id, Popped(g);
    PoppedInv(g);
    SideDestined(g, h, ok);
    MetProspers(h, ok, id);
    if answer == "" {
      FinishDestined(h, ok, id, SpawnFailed);
    } else {
      LaunchDestined(h, ok, id, answer);
    }
  }

  lemma {:induction false} StartReadyDestined(g: Graph, ok: set<string>, slots: int, spawns: seq<string>)
    requires Inv(g) && AsDestined(g, ok) && FreshAgents(g, spawns) && FaithfulFill(g, ok, slots, spawns)
    ensures EdgesOk(StartReady(g, slots, spawns)) && AsDestined(StartReady(g, slots, spawns), ok)
    decreases g.Weight()
  {
    hide AsDestined, Prospers, StartOne, FreshAgents, QueueOk, StatusOk, EdgesOk, LogOk, Noticed;
    if slots > 0 && g.queue != [] {
      var answer := if spawns == [] then "" else spawns[0];
      NoAgentIsNobody(g);
      FreshRest(g, g.(running := if answer == "" then g.running else g.running[answer := g.queue[0].id]), spawns, g.queue[0].id);
      StartOneKeepsInv(g, answer);
      StartOneDestined(g, ok, answer);
      var h := StartOne(g, answer);
      var rest := if spawns == [] then [] else spawns[1..];
      FreshRest(g, h, spawns, g.queue[0].id);
      StartReadyDestined(h, ok, if answer != "" then slots - 1 else slots, rest);
    }
  }

  lemma DoneDestined(g: Graph, ok: set<string>, agent: string, v: Verdict)
    requires Inv(g) && AsDestined(g, ok) && agent in g.running
    requires v.Succeeded? <==> g.running[agent] in ok
    ensures EdgesOk(AgentDone(g, agent, v)) && AsDestined(AgentDone(g, agent, v), ok)
  {
    var id, h := g.running[agent], g.(running := g.running - {agent});
    assert g.Has(id, Running);
    SideDestined(g, h, ok);
    MetProspers(g, ok, id);
    MetProspers(h, ok, id);
    FinishDestined(h, ok, id, v);
  }

  lemma AddDestined(g: Graph, ok: set<string>, id: string, deps: seq<string>, priority: int)
    requires Inv(g) && AsDestined(g, ok) && FreshTask(g, id, deps)
    ensures EdgesOk(AddTask(g, id, deps, priority)) && AsDestined(AddTask(g, id, deps, priority), ok)
  {
    if !g.sealed {
      var h := Posted(g, id, deps, priority);
      PostedEdges(g, id, deps, priority);
      PostedDestined(g, ok, id, deps, priority);
      var failed := FailedDependency(h, deps);
      if failed.Some? {
        HopelessDoesNotProsper(h, ok, id);
        ConcludeDestined(h, ok, id, DependencyVerdict(h, failed.value));
      } else if h.DepsMet(deps) {
        ReadyDestined(h, ok, id);
      }
    }
  }

  lemma PostedDestined(g: Graph, ok: set<string>, id: string, deps: seq<string>, priority: int)
    requires EdgesOk(g) && AsDestined(g, ok) && FreshTask(g, id, deps)
    requires EdgesOk(Posted(g, id, deps, priority))
    ensures AsDestined(Posted(g, id, deps, priority), ok)
  {
    var h := Posted(g, id, deps, priority);
    forall x, i | x in g.tasks && 0 <= i < |g.tasks[x].deps|
      ensures g.tasks[x].deps[i] != id
    {
      assert x in g.DependentsOf(g.tasks[x].deps[i]);
    }
    forall x | x in g.tasks
      ensures Prospers(h, ok, x) == Prospers(g, ok, x)
    {
      SameProspects(g, h, ok, x);
    }
  }

  lemma StepDestined(g: Graph, ok: set<string>, e: Event)
    requires Inv(g) && Legal(g, e) && AsDestined(g, ok) && Faithful(g, ok, e)
    ensures EdgesOk(Step(g, e)) && AsDestined(Step(g, e), ok)
  {
    hide AsDestined, Prospers, StartReady, AddTask, AgentDone, Withdraw, QueueOk, RunningOk, StatusOk, EdgesOk, LogOk, Noticed;
    match e
    case Add(id, deps, priority) => AddDestined(g, ok, id, deps, priority);
    case Start => SideDestined(g, g.(sealed := true), ok);
    case SetMax(max) => if max > 0 { SideDestined(g, g.(maxParallel := max), ok); }
    case Fill(spawns) => StartReadyDestined(g, ok, g.maxParallel - |g.running|, spawns);
    case Done(agent, v) => if agent in g.running { DoneDestined(g, ok, agent, v); } else { IdleDone(g, agent, v); }
    case Cancel(_) =>
  }

  lemma IdleDone(g: Graph, agent: string, v: Verdict)
    requires agent !in g.running
    ensures AgentDone(g, agent, v) == g
  {
  }

  predicate FaithfulRun(g: Graph, ok: set<string>, es: seq<Event>)
    decreases |es|
  {
    es == [] || (Legal(g, es[0]) && Faithful(g, ok, es[0]) && FaithfulRun(Step(g, es[0]), ok, es[1..]))
  }

  lemma {:induction false} RunDestined(g: Graph, ok: set<string>, es: seq<Event>)
    requires Inv(g) && AsDestined(g, ok) && FaithfulRun(g, ok, es)
    ensures Inv(Run(g, es)) && AsDestined(Run(g, es), ok)
    decreases |es|
  {
    hide AsDestined, Prospers, Step, Legal, Faithful, QueueOk, RunningOk, StatusOk, EdgesOk, LogOk, Noticed;
    if es != [] {
      StepKeepsInv(g, es[0]);
      StepDestined(g, ok, es[0]);
      RunDestined(Step(g, es[0]), ok, es[1..]);
    }
  }

  // A complete run ends with each task as its prospects say.
  lemma CompleteRun(max: int, ok: set<string>, es: seq<Event>)
    requires FaithfulRun(Initial(max), ok, es) && Run(Initial(max), es).AllTerminal()
    ensures Inv(Run(Initial(max), es))
    ensures forall id :: id in Run(Initial(max), es).tasks ==>
              Run(Initial(max), es).tasks[id].status ==
                if Prospers(Run(Initial(max), es), ok, id) then Completed else Failed
  {
    InitialInv(max);
    RunDestined(Initial(max), ok, es);
    var g := Run(Initial(max), es);
    forall id | id in g.tasks
      ensures g.tasks[id].status == if Prospers(g, ok, id) then Completed else Failed
    {
      assert g.tasks[id].Terminal();
      assert g.Has(id, Completed) || g.Has(id, Failed);
    }
  }

  // Two complete runs over the same tasks with the same agent outcomes end with the same statuses,
  // whatever the interleaving, the priorities, the concurrency limits and the order of AddTask.
  lemma ScheduleDoesNotMatter(max1: int, max2: int, ok: set<string>, es1: seq<Event>, es2: seq<Event>)
    requires FaithfulRun(Initial(max1), ok, es1) && Run(Initial(max1), es1).AllTerminal()
    requires FaithfulRun(Initial(max2), ok, es2) && Run(Initial(max2), es2).AllTerminal()
    requires Run(Initial(max1), es1).tasks.Keys == Run(Initial(max2), es2).tasks.Keys
    requires forall id :: id in Run(Initial(max1), es1).tasks ==>
               Run(Initial(max1), es1).tasks[id].deps == Run(Initial(max2), es2).tasks[id].deps
    ensures forall id :: id in Run(Initial(max1), es1).tasks ==>
              Run(Initial(max1), es1).tasks[id].status == Run(Initial(max2), es2).tasks[id].status
  {
    CompleteRun(max1, ok, es1);
    CompleteRun(max2, ok, es2);
    SameShapeSameDestiny(Run(Initial(max1), es1), Run(Initial(max2), es2), ok);
  }

  // ----- progress -----

  function Potential(g: Graph): nat { 3 * |g.Blockeds()| + 2 * |g.queue| + |g.running| }

  lemma {:induction false} ResolvePotential(g: Graph, pending: seq<string>)
    ensures Potential(Resolve(g, pending)) <= Potential(g)
    decreases |g.Blockeds()|, |pending|
  {
    if pending != [] {
      var id := pending[0];
      if g.Has(id, Blocked) && FailedDependency(g, g.tasks[id].deps).Some? {
        var v := DependencyVerdict(g, FailedDependency(g, g.tasks[id].deps).value);
        ConcludeWeighs(g, id, v);
        ResolvePotential(Conclude(g, id, v), pending[1..] + g.DependentsOf(id));
      } else if g.Has(id, Blocked) && g.DepsMet(g.tasks[id].deps) {
        ReadyWeighs(g, id);
        ResolvePotential(MakeReady(g, id), pending[1..]);
      } else {
        ResolvePotential(g, pending[1..]);
      }
    }
  }

  lemma StartOnePotential(g: Graph, answer: string)
    requires Inv(g) && g.queue != [] && answer !in g.running
    ensures Potential(StartOne(g, answer)) < Potential(g)
  {
    hide Inv, Potential, Launch, Finish;
    PoppedInv(g);
    PoppedPotential(g);
    if answer == "" { FailPotential(Popped(g), g.queue[0].id); } else { LaunchPotential(Popped(g), g.queue[0].id, answer); }
  }

  lemma PoppedPotential(g: Graph)
    requires g.queue != []
    ensures Potential(Popped(g)) == Potential(g) - 2
  {
    assert Popped(g).Blockeds() == g.Blockeds();
  }

  lemma FailPotential(g: Graph, id: string)
    requires g.Has(id, Ready)
    ensures Potential(Finish(g, id, SpawnFailed)) <= Potential(g)
  {
    assert Conclude(g, id, SpawnFailed).Blockeds() == g.Blockeds();
    ResolvePotential(Conclude(g, id, SpawnFailed), g.DependentsOf(id));
  }

  lemma LaunchPotential(g: Graph, id: string, answer: string)
    requires g.Has(id, Ready)
    ensures Potential(Launch(g, id, answer)) <= Potential(g) + 1
  {
    assert Launch(g, id, answer).Blockeds() == g.Blockeds();
    assert |g.running[answer := id]| <= |g.running| + 1;
  }

  lemma {:induction false} StartReadyPotential(g: Graph, slots: int, spawns: seq<string>)
    requires Inv(g) && FreshAgents(g, spawns)
    ensures Potential(StartReady(g, slots, spawns)) <= Potential(g)
    ensures slots > 0 && g.queue != [] ==> Potential(StartReady(g, slots, spawns)) < Potential(g)
    ensures |StartReady(g, slots, spawns).running| <= |g.running| + if slots > 0 then slots else 0
    decreases g.Weight()
  {
    hide Potential, StartOne, FreshAgents, Inv;
    if slots > 0 && g.queue != [] {
      var answer := if spawns == [] then "" else spawns[0];
      NoAgentIsNobody(g);
      FreshRest(g, g.(running := if answer == "" then g.running else g.running[answer := g.queue[0].id]), spawns, g.queue[0].id);
      StartOneKeepsInv(g, answer);
      StartOnePotential(g, answer);
      var h := StartOne(g, answer);
      var rest := if spawns == [] then [] else spawns[1..];
      FreshRest(g, h, spawns, g.queue[0].id);
      StartReadyPotential(h, if answer != "" then slots - 1 else slots, rest);
    }
  }

  // No more agents run than the limit, except those already running when it was lowered.
  lemma LimitKept(g: Graph, spawns: seq<string>)
    requires Inv(g) && Legal(g, Fill(spawns))
    ensures |Step(g, Fill(spawns)).running| <=
              if |g.running| <= g.maxParallel then g.maxParallel else |g.running|
  {
    StartReadyPotential(g, g.maxParallel - |g.running|, spawns);
  }

  lemma DonePotential(g: Graph, agent: string, v: Verdict)
    requires Inv(g) && agent in g.running
    ensures Potential(AgentDone(g, agent, v)) < Potential(g)
  {
    var id, h := g.running[agent], g.(running := g.running - {agent});
    assert g.Has(id, Running);
    assert Conclude(h, id, v).Blockeds() == g.Blockeds();
    assert |h.running| == |g.running| - 1;
    ResolvePotential(Conclude(h, id, v), h.DependentsOf(id));
  }

  // The events that get a sealed run further: an agent answers, something is started, or a waiting
  // task is cancelled.
  predicate Moves(g: Graph, e: Event) {
    match e
    case Done(agent, _) => agent in g.running
    case Fill(_) => |g.running| < g.maxParallel && g.queue != []
    case Cancel(id) => g.Has(id, Blocked) || g.Has(id, Ready)
    case _ => false
  }

  lemma {:induction false} WithoutShortens(l: seq<Entry>, id: string)
    ensures |Without(l, id)| <= |l| && (id in Ids(l) ==> |Without(l, id)| < |l|)
  {
    if l != [] {
      WithoutShortens(l[1..], id);
      assert forall i :: 0 < i < |l| ==> Ids(l)[i] == Ids(l[1..])[i - 1];
    }
  }

  lemma WithdrawPotential(g: Graph, id: string)
    requires Inv(g) && (g.Has(id, Blocked) || g.Has(id, Ready))
    ensures Potential(Withdraw(g, id)) < Potential(g)
  {
    var h := g.(queue := Without(g.queue, id));
    WithoutShortens(g.queue, id);
    assert g.Has(id, Ready) ==> id in Ids(g.queue);
    hide Inv, Resolve, Without, Ids;
    assert h.Blockeds() == g.Blockeds();
    if g.Has(id, Blocked) {
      ConcludeWeighs(h, id, Cancelled);
    } else {
      assert Conclude(h, id, Cancelled).Blockeds() == h.Blockeds();
    }
    ResolvePotential(Conclude(h, id, Cancelled), h.DependentsOf(id));
  }

  lemma MoveLowers(g: Graph, e: Event)
    requires Inv(g) && g.sealed && Legal(g, e)
    ensures Potential(Step(g, e)) + (if Moves(g, e) then 1 else 0) <= Potential(g)
    ensures Step(g, e).sealed
  {
    hide Inv, StartReady, Withdraw, Evolves, FreshAgents, Finish;
    StepEvolves(g, e);
    SealedStays(g, Step(g, e));
    match e
    case Fill(spawns) => StartReadyPotential(g, g.maxParallel - |g.running|, spawns);
    case Done(agent, v) => if agent in g.running { DonePotential(g, agent, v); } else { IdleDone(g, agent, v); }
    case Cancel(id) => if g.Has(id, Blocked) || g.Has(id, Ready) { WithdrawPotential(g, id); }
    case _ => SwitchPotential(g, Step(g, e));
  }

  lemma SealedStays(g: Graph, h: Graph)
    requires Evolves(g, h) && g.sealed
    ensures h.sealed
  {
  }

  lemma SwitchPotential(g: Graph, h: Graph)
    requires h == g.(sealed := h.sealed, maxParallel := h.maxParallel)
    ensures Potential(h) == Potential(g)
  {
    assert h.Blockeds() == g.Blockeds();
  }

  function MovesIn(g: Graph, es: seq<Event>): nat
    decreases |es|
  {
    if es == [] then 0 else (if Moves(g, es[0]) then 1 else 0) + MovesIn(Step(g, es[0]), es[1..])
  }

  // Over any run of a sealed graph there are at most as many moves as its potential at the start.
  lemma {:induction false} MovesBounded(g: Graph, es: seq<Event>)
    requires Inv(g) && g.sealed && LegalRun(g, es)
    ensures MovesIn(g, es) + Potential(Run(g, es)) <= Potential(g)
    decreases |es|
  {
    hide Inv, Step, Legal, Moves, Potential;
    if es != [] {
      StepKeepsInv(g, es[0]);
      MoveLowers(g, es[0]);
      MovesBounded(Step(g, es[0]), es[1..]);
    }
  }

  // A graph that has no move left to an agent or to the scheduler is finished.
  lemma StuckIsDone(g: Graph, spawns: seq<string>)
    requires Inv(g) && g.maxParallel > 0
    ensures g.AllTerminal() <==> g.running == map[] && !Moves(g, Fill(spawns))
  {
    if g.queue != [] { QueuedIsUnfinished(g); } else if g.running == map[] { NoDeadlock(g); }
  }

  lemma QueuedIsUnfinished(g: Graph)
    requires Inv(g) && g.queue != []
    ensures !g.AllTerminal()
  {
    assert g.Has(g.queue[0].id, Ready);
  }

  // A sealed graph that is not finished can always move: an agent is running and will answer, or
  // the next scheduling round starts something. Both strictly lower the potential, so every run
  // that keeps taking such steps ends.
  lemma Progress(g: Graph, spawns: seq<string>, agent: string, v: Verdict)
    requires Inv(g) && g.maxParallel > 0 && Legal(g, Fill(spawns)) && Legal(g, Done(agent, v))
    ensures agent in g.running ==> Potential(Step(g, Done(agent, v))) < Potential(g)
    ensures g.running == map[] && !g.AllTerminal() ==> Potential(Step(g, Fill(spawns))) < Potential(g)
  {
    hide Inv, Potential, Step;
    MoveLowers(g, Done(agent, v));
    MoveLowers(g, Fill(spawns));
    StuckIsDone(g, spawns);
  }
}
