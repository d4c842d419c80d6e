// The coordinator's own fields and the methods that update them under its lock
// (internal/agent/coordinator.go). Each method moves the graph as the functions of TaskGraph say.

module Coordinators {
  import opened Wrappers
  import opened SortedEntries
  import opened TaskQueues
  import opened TaskGraph
  import opened GraphInvariant
  import opened CoordinatorRuns
  import opened CoordinatorEffects
  import opened Delivery

  ghost predicate Mirrors(t: Task, id: string, r: TaskRec)
    reads t`priority, t`status, t`verdict
  {
    t.id == id && t.deps == r.deps && t.priority == r.priority && t.status == r.status && t.verdict == r.verdict
  }

  function Marked(g: Graph, id: string, st: Status, v: Verdict): Graph
    requires id in g.tasks
  {
    g.(tasks := g.tasks[id := g.tasks[id].(status := st, verdict := v)])
  }

  lemma SettledTwice(g: Graph, id: string, st: Status, v: Verdict)
    requires id in g.tasks
    ensures Conclude(g.(tasks := g.tasks[id := g.tasks[id].(status := st)]), id, v) == Conclude(g, id, v)
  {
    assert g.tasks[id := g.tasks[id].(status := st)][id := Conclude(g, id, v).tasks[id]] == Conclude(g, id, v).tasks;
  }

  datatype CancelReply = NotFound | AlreadyOver | Consumed(agent: string) | Requested(agent: string) | Withdrawn

  class Coordinator {
    var tasks: map<string, Task>
    var dependencies: map<string, seq<string>>
    const queue: TaskQueue
    var running: map<string, string>
    var completed: set<string>
    var isSealed: bool
    var maxParallel: int
    var pendingCallbacks: int
    var completionClosed: bool
    var allCompleteFired: bool
    ghost var graph: Graph

    ghost predicate TasksHeld()
      reads this`tasks, this`graph, tasks.Values`priority, tasks.Values`status, tasks.Values`verdict
    {
      && tasks.Keys == graph.tasks.Keys
      && (forall id :: id in tasks ==> Mirrors(tasks[id], id, graph.tasks[id]))
    }

    // Queued tasks are the coordinator's own.
    ghost predicate QueueHeld()
      reads this`tasks, this`graph
      reads queue`items, queue`byID, queue`nextSequence, queue`keys, queue`list
      reads queue.byID.Values`index, queue.byID.Values`priority, queue.byID.Values`arrival
    {
      && queue.Valid() && queue.list == graph.queue && queue.nextSequence == graph.nextSequence
      && (forall id :: id in queue.byID ==> id in tasks && queue.byID[id] == tasks[id])
    }

    // The fields hold the graph.
    ghost predicate Holds()
      reads this`tasks, this`dependencies, this`running, this`completed, this`isSealed, this`maxParallel, this`graph
      reads queue`items, queue`byID, queue`nextSequence, queue`keys, queue`list
      reads tasks.Values`priority, tasks.Values`status, tasks.Values`verdict
      reads queue.byID.Values`index, queue.byID.Values`priority, queue.byID.Values`arrival
    {
      && TasksHeld() && QueueHeld()
      && dependencies == graph.dependents && running == graph.running && completed == graph.completed
      && isSealed == graph.sealed && maxParallel == graph.maxParallel
    }

    ghost predicate Valid()
      reads this`tasks, this`dependencies, this`running, this`completed, this`isSealed, this`maxParallel, this`graph
      reads queue`items, queue`byID, queue`nextSequence, queue`keys, queue`list
      reads tasks.Values`priority, tasks.Values`status, tasks.Values`verdict
      reads queue.byID.Values`index, queue.byID.Values`priority, queue.byID.Values`arrival
    {
      Holds() && Inv(graph) && maxParallel > 0
    }

    // The delivery protocol's state, as far as the coordinator stores it.
    ghost predicate Shows(s: State)
      reads this`graph, this`pendingCallbacks, this`completionClosed, this`allCompleteFired
    {
      && graph == s.graph && pendingCallbacks == s.pendingCallbacks
      && completionClosed == s.completionClosed && allCompleteFired == s.allCompleteFired
    }

    constructor (limit: int)
      ensures Valid() && Shows(Begun(limit))
      ensures fresh(queue)
    {
      tasks, dependencies, running, completed, isSealed := map[], map[], map[], {}, false;
      queue := new TaskQueue();
      maxParallel := if limit <= 0 then 3 else limit;
      pendingCallbacks, completionClosed, allCompleteFired := 0, false, false;
      graph := Initial(limit);
      new;
      InitialInv(limit);
    }

    method AreDependenciesMet(task: Task) returns (met: bool)
      requires Holds()
      ensures met == graph.DepsMet(task.deps)
    {
      for i := 0 to |task.deps|
        invariant forall j :: 0 <= j < i ==> graph.Has(task.deps[j], Completed)
      {
        var dep := task.deps[i];
        if dep !in tasks || tasks[dep].status != Completed { return false; }
      }
      met := true;
    }

    method FailedDependencyOf(task: Task) returns (dep: Option<string>)
      requires Holds()
      ensures dep == FailedDependency(graph, task.deps)
    {
      assert task.deps[0..] == task.deps;
      for i := 0 to |task.deps|
        invariant FailedDependency(graph, task.deps[i..]) == FailedDependency(graph, task.deps)
      {
        var d := task.deps[i];
        if d !in tasks || tasks[d].status == Failed { return Some(d); }
        assert task.deps[i..][1..] == task.deps[i + 1..];
      }
      dep := None;
    }

    // The scheduler's own marks on a task do not concern the queue.
    method Mark(task: Task, st: Status, v: Verdict)
      requires queue.Valid()
      modifies task`status, task`verdict
      ensures queue.Valid() && task.status == st && task.verdict == v
    {
      hide *;
      task.status := st;
      task.verdict := v;
    }

    method MarkTask(task: Task, st: Status, v: Verdict)
      requires Holds() && task.id in tasks && tasks[task.id] == task
      modifies this`graph, task`status, task`verdict
      ensures Holds() && graph == Marked(old(graph), task.id, st, v)
    {
      hide TaskQueue.Valid, Sorted, Stands;
      Mark(task, st, v);
      graph := Marked(graph, task.id, st, v);
      assert QueueHeld();
      forall x | x in tasks
        ensures Mirrors(tasks[x], x, graph.tasks[x])
      {
        assert old(Mirrors(tasks[x], x, graph.tasks[x]));
      }
    }

    // Commit a terminal state: the common part of startTask's failure, failTaskForDependencyLocked
    // and the handling of an agent's result.
    method Settle(task: Task, v: Verdict)
      requires Holds() && task.id in tasks && tasks[task.id] == task
      modifies this`completed, this`graph, task`status, task`verdict
      ensures Holds() && graph == Conclude(old(graph), task.id, v)
    {
      hide TaskQueue.Valid, Mirrors;
      MarkTask(task, if v.Succeeded? then Completed else Failed, v);
      completed := completed + {task.id};
      graph := graph.(completed := completed, records := graph.records + [task.id]);
    }

    method FailForDependency(task: Task, dep: string)
      requires Holds() && task.id in tasks && tasks[task.id] == task
      modifies this`completed, this`graph, task`status, task`verdict
      ensures Holds() && graph == Conclude(old(graph), task.id, DependencyVerdict(old(graph), dep))
    {
      var v := DependencyMissing(dep);
      if dep in tasks {
        var cancelled := tasks[dep].verdict == Cancelled || tasks[dep].verdict == AgentCancelled;
        v := if cancelled then DependencyCancelled(dep) else DependencyFailed(dep);
      }
      Settle(task, v);
    }

    method Enqueue(task: Task)
      requires Holds() && task.id in tasks && tasks[task.id] == task
      modifies this`graph, queue, task`index, task`arrival, queue.byID.Values`index
      ensures Holds()
      ensures graph == if task.id == "" || task.id in Ids(old(graph.queue)) then old(graph)
                       else old(graph).(queue := Insert(old(graph).queue, Entry(task.id, task.priority, old(graph).nextSequence + 1)),
                                        nextSequence := old(graph).nextSequence + 1)
    {
      hide TaskQueue.Valid, Insert, Mirrors, Sorted, Stands;
      queue.IndexIsList();
      queue.PushTask(task);
      assert TasksHeld();
      graph := graph.(queue := queue.list, nextSequence := queue.nextSequence);
    }

    method QueueReady(task: Task)
      requires Holds() && task.id in tasks && tasks[task.id] == task
      modifies this`graph, queue, task`status, task`verdict, task`index, task`arrival, queue.byID.Values`index
      ensures Holds() && graph == MakeReady(old(graph), task.id)
    {
      hide TaskQueue.Valid, Insert, QueueHeld;
      assert Mirrors(task, task.id, graph.tasks[task.id]);
      MarkTask(task, Ready, task.verdict);
      Enqueue(task);
    }

    // One round of the worklist loop.
    method Look(id: string) returns (more: seq<string>, completions: seq<string>)
      requires Holds()
      modifies this`graph, this`completed, queue, tasks.Values
      ensures Holds() && (graph, more) == Looked(old(graph), id)
      ensures graph.records == old(graph).records + completions
    {
      hide TaskQueue.Valid, QueueHeld, MakeReady;
      more, completions := [], [];
      if id !in tasks { return; }
      var task := tasks[id];
      assert Mirrors(task, id, graph.tasks[id]);
      if task.status != Blocked { return; }
      var failed := FailedDependencyOf(task);
      if failed.Some? {
        FailForDependency(task, failed.value);
        completions := [id];
        more := if id in dependencies then dependencies[id] else [];
        return;
      }
      var met := AreDependenciesMet(task);
      if met {
        ReadyRecords(graph, id);
        assert queue.byID.Values <= tasks.Values by { OwnTasks(); }
        QueueReady(task);
      }
    }

    // resolveDependentsLocked: the worklist grows while the loop reads it.
    method ResolveDependents(id: string) returns (completions: seq<string>)
      requires Holds()
      modifies this`graph, this`completed, queue, tasks.Values
      ensures Holds() && graph == Resolve(old(graph), old(graph).DependentsOf(id))
      ensures graph.records == old(graph).records + completions
    {
      hide Holds, Resolve, Looked;
      var pending := if id in dependencies then dependencies[id] else [];
      assert pending == graph.DependentsOf(id) by { HoldsSwitches(); }
      completions := [];
      var i := 0;
      assert pending[0..] == pending;
      while i < |pending|
        invariant i <= |pending| && Holds()
        invariant Resolve(graph, pending[i..]) == Resolve(old(graph), old(graph).DependentsOf(id))
        invariant graph.records == old(graph).records + completions
        decreases |graph.Blockeds()|, |pending| - i
      {
        LookedNext(graph, pending[i..]);
        var more, ended := Look(pending[i]);
        assert pending[i..][1..] + more == (pending + more)[i + 1..];
        pending := pending + more;
        completions := completions + ended;
        i := i + 1;
      }
      assert pending[i..] == [];
      ResolveNothing(graph);
    }

    lemma OwnTasks()
      requires Holds()
      ensures queue.byID.Values <= tasks.Values
    {
    }

    lemma HoldsSwitches()
      requires Holds()
      ensures graph.dependents == dependencies && graph.running == running
      ensures graph.maxParallel == maxParallel && graph.sealed == isSealed
    {
    }

    lemma HoldsStatus(task: Task)
      requires Holds() && task.id in tasks && tasks[task.id] == task
      ensures task.id in graph.tasks && task.status == graph.tasks[task.id].status
      ensures task.verdict == graph.tasks[task.id].verdict
    {
      assert Mirrors(task, task.id, graph.tasks[task.id]);
    }

    // A task reaches its end, and its dependents are looked at.
    method Conclusion(task: Task, v: Verdict) returns (completions: seq<string>)
      requires Holds() && task.id in tasks && tasks[task.id] == task
      modifies this`graph, this`completed, queue, tasks.Values
      ensures Holds() && graph == Finish(old(graph), task.id, v)
      ensures graph.records == old(graph).records + completions
    {
      hide Holds, Resolve;
      Settle(task, v);
      var more := ResolveDependents(task.id);
      completions := [task.id] + more;
    }

    method Board(task: Task, agent: string)
      requires Holds()
      modifies this`running, this`graph
      ensures Holds()
      ensures graph == old(graph).(running := old(graph).running[agent := task.id], started := old(graph).started + [task.id])
    {
      hide TaskQueue.Valid, Mirrors;
      running := running[agent := task.id];
      graph := graph.(running := running, started := graph.started + [task.id]);
    }

    // startTask, with SpawnAsync's answer; nothing is left Running without an agent.
    method StartTask(task: Task, answer: string) returns (ok: bool, failed: seq<string>)
      requires Holds() && task.id in tasks && tasks[task.id] == task
      modifies this`graph, this`completed, this`running, queue, tasks.Values
      ensures Holds() && ok == (answer != "")
      ensures graph == if ok then Launch(old(graph), task.id, answer) else Finish(old(graph), task.id, SpawnFailed)
      ensures graph.records == old(graph).records + failed
    {
      hide Holds, Resolve;
      ghost var g := graph;
      HoldsStatus(task);
      MarkTask(task, Running, task.verdict);
      failed := [];
      ok := answer != "";
      if !ok {
        SettledTwice(g, task.id, Running, SpawnFailed);
        failed := Conclusion(task, SpawnFailed);
      } else {
        Board(task, answer);
      }
    }

    ghost function Advanced(g: Graph): Graph
      requires g.queue != []
      ensures Advanced(g) == Popped(g)
    {
      g.(queue := g.queue[1..])
    }

    lemma HeadIsMine()
      requires Holds() && graph.queue != []
      ensures graph.queue[0].id in queue.byID && graph.queue[0].id in tasks
      ensures tasks[graph.queue[0].id] == queue.byID[graph.queue[0].id] && tasks[graph.queue[0].id].id == graph.queue[0].id
    {
      queue.IndexIsList();
      assert Ids(queue.list)[0] == queue.list[0].id;
    }

    method PopQueue() returns (task: Task?)
      requires Holds()
      modifies queue, queue.byID.Values`index
      ensures TasksHeld() && queue.Valid() && queue.nextSequence == graph.nextSequence
      ensures graph.queue == [] ==> task == null && queue.list == [] && queue.byID == old(queue.byID)
      ensures graph.queue != [] ==>
                && task != null && task.id in tasks && tasks[task.id] == task && task.id == graph.queue[0].id
                && queue.list == graph.queue[1..] && queue.byID == old(queue.byID) - {task.id}
    {
      hide TaskQueue.Valid, Mirrors, Sorted, Stands;
      if graph.queue != [] { HeadIsMine(); }
      task := queue.PopTask();
    }

    method Pop() returns (task: Task?)
      requires Holds()
      modifies this`graph, queue, queue.byID.Values`index
      ensures Holds()
      ensures if old(graph).queue == [] then task == null && graph == old(graph)
              else && task != null && task.id in tasks && tasks[task.id] == task
                   && task.id == old(graph).queue[0].id && graph == Popped(old(graph))
    {
      hide TaskQueue.Valid, Mirrors, Popped;
      task := PopQueue();
      if task != null { graph := Advanced(graph); }
    }

    // One round of the loop of startReadyTasksLocked.
    method StartNext(task: Task, spawns: seq<string>) returns (started: seq<string>, failed: seq<string>)
      requires Holds() && task.id in tasks && tasks[task.id] == task && task.status == Ready
      modifies this`graph, this`completed, this`running, queue, tasks.Values
      ensures Holds() && started == (if spawns != [] && spawns[0] != "" then [task.id] else [])
      ensures graph == if started != [] then Launch(old(graph), task.id, spawns[0]) else Finish(old(graph), task.id, SpawnFailed)
      ensures graph.records == old(graph).records + failed
    {
      hide Holds, Resolve;
      var ok: bool;
      ok, failed := StartTask(task, if spawns == [] then "" else spawns[0]);
      started := if ok then [task.id] else [];
    }

    // Pop and start one task; over says the queue was empty.
    method StartRound(slots: int, spawns: seq<string>)
      returns (over: bool, started: seq<string>, failed: seq<string>, left: int, rest: seq<string>)
      requires Holds() && slots > 0
      modifies this`graph, this`completed, this`running, queue, tasks.Values
      ensures Holds() && StartReady(graph, left, rest) == StartReady(old(graph), slots, spawns)
      ensures graph.records == old(graph).records + failed && graph.started == old(graph).started + started
      ensures if over then graph.queue == [] else graph.Weight() < old(graph).Weight()
    {
      hide Holds, StartReady, Finish;
      started, failed, left, rest := [], [], slots, spawns;
      ghost var g := graph;
      StartReadyNext(g, slots, spawns);
      assert queue.byID.Values <= tasks.Values by { OwnTasks(); }
      var task := Pop();
      over := task == null;
      if task == null { return; }
      HoldsStatus(task);
      if task.status == Ready {
        FinishStarts(graph, task.id);
        started, failed := StartNext(task, spawns);
        left := if started != [] then slots - 1 else slots;
        rest := if spawns != [] then spawns[1..] else [];
      }
    }

    // startReadyTasksLocked; spawns is what SpawnAsync answers, in order.
    method StartReadyTasks(spawns: seq<string>) returns (started: seq<string>, failed: seq<string>)
      requires Valid() && Legal(graph, Fill(spawns))
      modifies this`graph, this`completed, this`running, this`pendingCallbacks, queue, tasks.Values
      ensures Valid() && graph == Step(old(graph), Fill(spawns))
      ensures graph.records == old(graph).records + failed
      ensures graph.started == old(graph).started + started
      ensures pendingCallbacks == old(pendingCallbacks) + |failed|
      // The first n queued tasks have been dealt with in order, and it stops only with none left or
      // every slot in use.
      ensures exists n :: Dealt(old(graph), graph, spawns, n)
      ensures graph.queue == [] || |running| >= maxParallel
    {
      hide Holds, Inv, StartReady, Dealt;
      ghost var before := graph;
      HoldsSwitches();
      var slots := maxParallel - |running|;
      var answers := spawns;
      started, failed := [], [];
      var over := false;
      while slots > 0 && !over
        invariant Holds() && pendingCallbacks == old(pendingCallbacks)
        invariant over ==> graph.queue == []
        invariant StartReady(graph, slots, answers) == StartReady(before, before.maxParallel - |before.running|, spawns)
        invariant graph.records == before.records + failed && graph.started == before.started + started
        decreases !over, graph.Weight()
      {
        var s, f: seq<string>;
        over, s, f, slots, answers := StartRound(slots, answers);
        started, failed := started + s, failed + f;
      }
      StartReadyStops(graph, slots, answers);
      pendingCallbacks := pendingCallbacks + |failed|;
      StepKeepsInv(before, Fill(spawns));
      ghost var n := RoundFills(before, spawns);
      HoldsSwitches();
    }

    method Release(agent: string)
      requires Holds()
      modifies this`running, this`graph
      ensures Holds() && graph == old(graph).(running := old(graph).running - {agent}) && running == old(running) - {agent}
    {
      hide TaskQueue.Valid, Mirrors;
      running := running - {agent};
      graph := graph.(running := running);
    }

    // An agent's result: its task ends, and its dependents are looked at.
    method Answered(agent: string, v: Verdict) returns (completions: seq<string>)
      requires Valid() && agent in running && v in {Succeeded, AgentFailed, AgentCancelled}
      modifies this`graph, this`completed, this`running, queue, tasks.Values
      ensures Valid() && graph == AgentDone(old(graph), agent, v) && running == old(running) - {agent}
      ensures graph.records == old(graph).records + completions
    {
      hide Holds, Finish, Inv;
      HoldsSwitches();
      AgentDoneKeepsInv(graph, agent, v);
      var id := running[agent];
      TaskOf(agent);
      Release(agent);
      completions := Conclusion(tasks[id], v);
    }

    lemma TaskOf(agent: string)
      requires Valid() && agent in running
      ensures running[agent] in tasks && tasks[running[agent]].id == running[agent]
      ensures running == graph.running && running[agent] in graph.tasks
    {
      assert graph.Has(graph.running[agent], Running);
      assert Mirrors(tasks[running[agent]], running[agent], graph.tasks[running[agent]]);
    }

    // handleAgentCompletionResult; no result means none has been published.
    method HandleAgentCompletion(agent: string, result: Option<Verdict>) returns (completions: seq<string>)
      requires Valid() && (result.Some? ==> result.value in {Succeeded, AgentFailed, AgentCancelled})
      modifies this`graph, this`completed, this`running, this`pendingCallbacks, queue, tasks.Values
      ensures Valid()
      ensures graph == if result.None? then old(graph) else AgentDone(old(graph), agent, result.value)
      ensures graph.records == old(graph).records + completions
      ensures pendingCallbacks == old(pendingCallbacks) + |completions|
    {
      hide Holds, Inv, Finish;
      HoldsSwitches();
      completions := [];
      if agent in running && result.Some? {
        completions := Answered(agent, result.value);
        pendingCallbacks := pendingCallbacks + |completions|;
      }
    }

    // The agents among those running whose result is out, in some order.
    method Published(results: map<string, Verdict>) returns (found: seq<string>)
      ensures forall a :: a in found <==> a in running && a in results
      ensures forall i, j :: 0 <= i < j < |found| ==> found[i] != found[j]
    {
      found := [];
      var left := running.Keys;
      while left != {}
        invariant left <= running.Keys
        invariant forall a :: a in found <==> a in running && a in results && a !in left
        invariant forall i, j :: 0 <= i < j < |found| ==> found[i] != found[j]
        decreases left
      {
        var a :| a in left;
        left := left - {a};
        if a in results { found := found + [a]; }
      }
    }

    // checkCompletedAgents: one section for all the agents found done.
    method CheckCompletedAgents(results: map<string, Verdict>) returns (found: seq<string>, completions: seq<string>)
      requires Valid() && forall a :: a in results ==> results[a] in {Succeeded, AgentFailed, AgentCancelled}
      modifies this`graph, this`completed, this`running, this`pendingCallbacks, queue, tasks.Values
      ensures forall a :: a in found <==> a in old(running) && a in results
      ensures graph == Run(old(graph), Answers(found, results))
      ensures graph.records == old(graph).records + completions
      ensures pendingCallbacks == old(pendingCallbacks) + |completions|
      ensures Valid()
    {
      hide Valid, AgentDone, Run;
      found := Published(results);
      completions := [];
      assert found[0..] == found;
      for i := 0 to |found|
        invariant Valid() && pendingCallbacks == old(pendingCallbacks)
        invariant forall j :: i <= j < |found| ==> found[j] in running
        invariant Run(graph, Answers(found[i..], results)) == Run(old(graph), Answers(found, results))
        invariant graph.records == old(graph).records + completions
      {
        NextAnswer(graph, found[i..], results);
        assert found[i..][1..] == found[i + 1..];
        var ended := Answered(found[i], results[found[i]]);
        completions := completions + ended;
      }
      NoAnswer(graph, found[|found|..], results);
      pendingCallbacks := pendingCallbacks + |completions|;
    }

    method AgentOf(id: string) returns (agent: Option<string>)
      ensures agent.Some? ==> agent.value in running && running[agent.value] == id
      ensures agent.None? ==> id !in running.Values
    {
      var left := running.Keys;
      while left != {}
        invariant left <= running.Keys
        invariant forall a :: a in running && running[a] == id ==> a in left
        decreases left
      {
        var a :| a in left;
        if running[a] == id { return Some(a); }
        left := left - {a};
      }
      agent := None;
    }

    // CancelTask; published holds the results the runner has already published.
    method CancelTask(id: string, published: map<string, Verdict>) returns (reply: CancelReply, completions: seq<string>)
      requires Valid() && forall a :: a in published ==> published[a] in {Succeeded, AgentFailed, AgentCancelled}
      modifies this`graph, this`completed, this`running, this`pendingCallbacks, queue, tasks.Values
      ensures Valid()
      ensures reply.NotFound? <==> id !in old(graph).tasks
      ensures reply.AlreadyOver? <==> old(graph).Done(id)
      ensures reply.Consumed? || reply.Requested? <==> old(graph).Has(id, Running)
      ensures reply.Consumed? || reply.Requested? ==>
                reply.agent in old(graph).running && old(graph).running[reply.agent] == id && (reply.Consumed? <==> reply.agent in published)
      ensures graph == match reply
                       case Consumed(a) => AgentDone(old(graph), a, published[a])
                       case _ => Step(old(graph), Cancel(id))
      ensures graph.records == old(graph).records + completions
      ensures pendingCallbacks == old(pendingCallbacks) + |completions|
    {
      hide Holds, Inv, Finish;
      HoldsSwitches();
      completions := [];
      HoldsTask(id);
      if id !in tasks { return NotFound, []; }
      var task := tasks[id];
      if task.status == Completed || task.status == Failed { return AlreadyOver, []; }
      RunningHasAgent(id);
      var agent := AgentOf(id);
      if agent.Some? {
        TaskOf(agent.value);
        if agent.value !in published { return Requested(agent.value), []; }
        completions := Answered(agent.value, published[agent.value]);
        reply := Consumed(agent.value);
      } else {
        WithdrawKeepsInv(graph, id);
        OwnTasks();
        Unqueue(id);
        completions := Conclusion(task, Cancelled);
        reply := Withdrawn;
      }
      pendingCallbacks := pendingCallbacks + |completions|;
    }

    lemma HoldsTask(id: string)
      requires Holds()
      ensures id in tasks <==> id in graph.tasks
      ensures id in tasks ==> tasks[id].id == id && tasks[id].status == graph.tasks[id].status
    {
      if id in tasks { assert Mirrors(tasks[id], id, graph.tasks[id]); }
    }

    lemma RunningHasAgent(id: string)
      requires Valid() && id in tasks
      ensures graph.Has(id, Running) <==> id in graph.running.Values
      ensures graph.running == running && graph.tasks[id].status != Pending
    {
      if id in graph.running.Values {
        var a :| a in graph.running && graph.running[a] == id;
        assert graph.Has(graph.running[a], Running);
      }
    }

    method Unqueue(id: string)
      requires Holds()
      modifies this`graph, queue, queue.byID.Values`index
      ensures Holds() && graph == old(graph).(queue := Without(old(graph).queue, id))
    {
      hide TaskQueue.Valid, Mirrors;
      var gone := queue.RemoveTask(id);
      graph := graph.(queue := queue.list);
    }

    method RegisterDependents(deps: seq<string>, id: string)
      modifies this`dependencies
      ensures dependencies == Register(old(dependencies), deps, id)
    {
      assert deps[0..] == deps;
      for i := 0 to |deps|
        invariant Register(dependencies, deps[i..], id) == Register(old(dependencies), deps, id)
      {
        var known := if deps[i] in dependencies then dependencies[deps[i]] else [];
        dependencies := dependencies[deps[i] := known + [id]];
        assert deps[i..][1..] == deps[i + 1..];
      }
    }

    // AddTask up to the decision; the ID is one generateTaskID has just drawn.
    method Post(id: string, deps: seq<string>, priority: int) returns (task: Task)
      requires Holds() && id !in tasks
      modifies this`graph, this`tasks, this`dependencies
      ensures Holds() && fresh(task) && tasks == old(tasks)[id := task] && task.id == id && task.deps == deps
      ensures graph == Arrived(old(graph), id, deps, priority)
    {
      hide Holds;
      task := new Task(id, deps, priority);
      Install(task);
    }

    method Admit(task: Task)
      requires Holds() && task.id !in tasks && task.status == Pending && task.verdict == NotYet
      modifies this`graph, this`tasks
      ensures Holds() && tasks == old(tasks)[task.id := task]
      ensures graph == old(graph).(tasks := Arrived(old(graph), task.id, task.deps, task.priority).tasks)
    {
      hide TaskQueue.Valid, Register;
      tasks := tasks[task.id := task];
      graph := graph.(tasks := Arrived(graph, task.id, task.deps, task.priority).tasks);
      forall x | x in tasks
        ensures Mirrors(tasks[x], x, graph.tasks[x])
      {
        assert x != task.id ==> old(Mirrors(tasks[x], x, graph.tasks[x]));
      }
      assert queue.Valid();
      assert TasksHeld();
      assert QueueHeld();
    }

    method Install(task: Task)
      requires Holds() && task.id !in tasks && task.status == Pending && task.verdict == NotYet
      modifies this`graph, this`tasks, this`dependencies
      ensures Holds() && tasks == old(tasks)[task.id := task]
      ensures graph == Arrived(old(graph), task.id, task.deps, task.priority)
    {
      hide TaskQueue.Valid, Register, Mirrors;
      Admit(task);
      RegisterDependents(task.deps, task.id);
      graph := graph.(dependents := dependencies);
      assert queue.Valid();
      assert TasksHeld();
      assert QueueHeld();
    }

    // The decision: failed at once, ready at once, or blocked.
    method Decide(task: Task) returns (completions: seq<string>)
      requires Holds() && task.id in tasks && tasks[task.id] == task
      modifies this`graph, this`completed, queue, task, queue.byID.Values`index
      ensures Holds()
      ensures graph == if FailedDependency(old(graph), task.deps).Some? then
                         Conclude(old(graph), task.id, DependencyVerdict(old(graph), FailedDependency(old(graph), task.deps).value))
                       else if old(graph).DepsMet(task.deps) then MakeReady(old(graph), task.id)
                       else Marked(old(graph), task.id, Blocked, old(graph).tasks[task.id].verdict)
      ensures graph.records == old(graph).records + completions
    {
      hide Holds, MakeReady, FailedDependency;
      HoldsStatus(task);
      var failed := FailedDependencyOf(task);
      completions := [];
      if failed.Some? {
        FailForDependency(task, failed.value);
        completions := [task.id];
      } else {
        var met := AreDependenciesMet(task);
        if met {
          ReadyRecords(graph, task.id);
          QueueReady(task);
        } else {
          MarkTask(task, Blocked, task.verdict);
        }
      }
    }

    method AddTask(id: string, deps: seq<string>, priority: int) returns (accepted: bool, completions: seq<string>)
      requires Valid() && FreshTask(graph, id, deps)
      modifies this`graph, this`tasks, this`dependencies, this`completed, this`pendingCallbacks, queue, tasks.Values
      ensures Valid() && graph == Step(old(graph), Add(id, deps, priority))
      ensures accepted == !old(graph).sealed
      ensures graph.records == old(graph).records + completions
      ensures pendingCallbacks == old(pendingCallbacks) + |completions|
    {
      hide Holds, Inv, MakeReady, FailedDependency, Conclude, Marked;
      completions := [];
      HoldsSwitches();
      HoldsTask(id);
      AddTaskKeepsInv(graph, id, deps, priority);
      if isSealed { return false, []; }
      AddTaskDecides(graph, id, deps, priority);
      OwnTasks();
      var task := Post(id, deps, priority);
      completions := Decide(task);
      pendingCallbacks := pendingCallbacks + |completions|;
      accepted := true;
    }

    method Start()
      requires Valid()
      modifies this`isSealed, this`graph
      ensures Valid() && graph == Step(old(graph), Event.Start) && isSealed
    {
      hide TaskQueue.Valid, Mirrors, Inv;
      StepKeepsInv(graph, Event.Start);
      isSealed := true;
      graph := graph.(sealed := true);
    }

    method SetMaxParallel(max: int)
      requires Valid()
      modifies this`maxParallel, this`graph
      ensures Valid() && graph == Step(old(graph), SetMax(max))
      ensures maxParallel == if max <= 0 then old(maxParallel) else max
    {
      hide TaskQueue.Valid, Mirrors, Inv;
      StepKeepsInv(graph, SetMax(max));
      if max <= 0 { return; }
      maxParallel := max;
      graph := graph.(maxParallel := max);
    }

    // allTasksTerminalLocked
    method AllTasksTerminal() returns (all: bool)
      requires Holds()
      ensures all == graph.AllTerminal()
    {
      HoldsSwitches();
      if |running| > 0 { return false; }
      var left := tasks.Keys;
      while left != {}
        invariant left <= tasks.Keys
        invariant forall id :: id in tasks && id !in left ==> graph.tasks[id].Terminal()
        decreases left
      {
        var id :| id in left;
        HoldsTask(id);
        if tasks[id].status != Completed && tasks[id].status != Failed { return false; }
        left := left - {id};
      }
      all := true;
    }

    // publishCompletionIfReady, called for the batch b.
    method PublishCompletion(ghost s: State, ghost b: nat)
      requires Holds() && Shows(s) && Enabled(s, Publish(b))
      modifies this`completionClosed
      ensures Shows(Next(s, Publish(b)))
    {
      hide TasksHeld, QueueHeld;
      var all := AllTasksTerminal();
      if isSealed && all { completionClosed := true; }
    }

    // The end of deliverTaskCompletions, for the batch b of the given size: ready says that
    // notifyAllComplete is to be called.
    method FinishBatch(delivered: nat, ghost s: State, ghost b: nat) returns (ready: bool)
      requires Holds() && Shows(s) && Enabled(s, Drain(b)) && delivered == |s.batches[b].items|
      modifies this`pendingCallbacks
      ensures Shows(Next(s, Drain(b)))
      ensures ready == (Next(s, Drain(b)).notifiers > s.notifiers)
    {
      hide TasksHeld, QueueHeld;
      pendingCallbacks := pendingCallbacks - delivered;
      if pendingCallbacks < 0 { pendingCallbacks := 0; }
      var all := AllTasksTerminal();
      ready := isSealed && pendingCallbacks <= 0 && all;
    }

    // notifyAllComplete up to the observer's call: first says that it is to be made.
    method NotifyAllComplete(ghost s: State) returns (first: bool)
      requires Holds() && Shows(s)
      modifies this`completionClosed, this`allCompleteFired
      ensures Shows(Next(s, Notify))
      ensures first == (Next(s, Notify).announced > s.announced)
    {
      hide TasksHeld, QueueHeld;
      var all := AllTasksTerminal();
      if !isSealed || !all || pendingCallbacks > 0 { return false; }
      completionClosed := true;
      first := !allCompleteFired;
      allCompleteFired := true;
    }
  }

  // A task just registered, before its fate is decided.
  function Arrived(g: Graph, id: string, deps: seq<string>, priority: int): Graph {
    g.(tasks := g.tasks[id := TaskRec(deps, priority, Pending, NotYet, |g.tasks|)],
       dependents := Register(g.dependents, deps, id))
  }

  lemma {:induction false} SameFailed(g: Graph, h: Graph, deps: seq<string>)
    requires SameOutlook(g, h, deps)
    ensures FailedDependency(g, deps) == FailedDependency(h, deps)
  {
    if deps != [] {
      assert h.Hopeless(deps[0]) == g.Hopeless(deps[0]);
      assert SameOutlook(g, h, deps[1..]) by {
        forall i | 0 <= i < |deps[1..]|
          ensures h.Hopeless(deps[1..][i]) == g.Hopeless(deps[1..][i])
          ensures h.Has(deps[1..][i], Completed) == g.Has(deps[1..][i], Completed)
        {
          assert deps[1..][i] == deps[i + 1];
        }
      }
      SameFailed(g, h, deps[1..]);
    }
  }

  lemma ArrivedIsPosted(g: Graph, id: string, deps: seq<string>, priority: int)
    requires id !in g.tasks
    ensures var a, p := Arrived(g, id, deps, priority), Posted(g, id, deps, priority);
      && FailedDependency(a, deps) == FailedDependency(p, deps) && a.DepsMet(deps) == p.DepsMet(deps)
      && MakeReady(a, id) == MakeReady(p, id)
      && Marked(a, id, Blocked, NotYet) == p
  {
    hide Insert, Register, FailedDependency;
    var a, p := Arrived(g, id, deps, priority), Posted(g, id, deps, priority);
    assert SameOutlook(a, p, deps);
    SameFailed(a, p, deps);
    SameOutlookSameFate(a, p, deps);
    assert a.tasks[id := p.tasks[id]] == p.tasks;
    assert a.tasks[id := p.tasks[id].(status := Ready)] == p.tasks[id := p.tasks[id].(status := Ready)];
  }

  lemma ArrivedFails(g: Graph, id: string, deps: seq<string>, priority: int, dep: string)
    requires id !in g.tasks
    ensures var a, p := Arrived(g, id, deps, priority), Posted(g, id, deps, priority);
      Conclude(a, id, DependencyVerdict(a, dep)) == Conclude(p, id, DependencyVerdict(p, dep))
  {
    var a, p := Arrived(g, id, deps, priority), Posted(g, id, deps, priority);
    var v := DependencyVerdict(p, dep);
    assert a.tasks[id := Conclude(p, id, v).tasks[id]] == Conclude(p, id, v).tasks;
  }

  // AddTask, from the point where the task has been registered.
  lemma AddTaskDecides(g: Graph, id: string, deps: seq<string>, priority: int)
    requires id !in g.tasks && !g.sealed
    ensures var a := Arrived(g, id, deps, priority);
      TaskGraph.AddTask(g, id, deps, priority) ==
        if FailedDependency(a, deps).Some? then Conclude(a, id, DependencyVerdict(a, FailedDependency(a, deps).value))
        else if a.DepsMet(deps) then MakeReady(a, id)
        else Marked(a, id, Blocked, NotYet)
  {
    hide FailedDependency, Conclude, MakeReady, Marked, DependencyVerdict, Register;
    ArrivedIsPosted(g, id, deps, priority);
    var failed := FailedDependency(Posted(g, id, deps, priority), deps);
    if failed.Some? { ArrivedFails(g, id, deps, priority, failed.value); }
  }

  function Answers(found: seq<string>, results: map<string, Verdict>): seq<Event>
    requires forall i :: 0 <= i < |found| ==> found[i] in results
  {
    seq(|found|, i requires 0 <= i < |found| => Done(found[i], results[found[i]]))
  }

  lemma NextAnswer(g: Graph, found: seq<string>, results: map<string, Verdict>)
    requires found != [] && forall i :: 0 <= i < |found| ==> found[i] in results
    ensures Run(g, Answers(found, results)) == Run(AgentDone(g, found[0], results[found[0]]), Answers(found[1..], results))
  {
    assert Answers(found, results)[1..] == Answers(found[1..], results);
  }

  lemma NoAnswer(g: Graph, found: seq<string>, results: map<string, Verdict>)
    requires found == []
    ensures Run(g, Answers(found, results)) == g
  {
  }

  // A section that moves the graph and counts its records is a step of the delivery protocol.
  lemma SectionShows(s: State, es: seq<Event>, h: Graph, completions: seq<string>)
    requires Enabled(s, Section(es)) && h == Run(s.graph, es) && h.records == s.graph.records + completions
    ensures Next(s, Section(es)).graph == h
    ensures Next(s, Section(es)).pendingCallbacks == s.pendingCallbacks + |completions|
    ensures Next(s, Section(es)).batches ==
              s.batches + if completions == [] then [] else [Batch(completions, false, 0, 0)]
  {
    assert h.records[|s.graph.records|..] == completions;
  }

  function Looked(g: Graph, id: string): (Graph, seq<string>) {
    if !g.Has(id, Blocked) then (g, [])
    else
      var failed := FailedDependency(g, g.tasks[id].deps);
      if failed.Some? then (Conclude(g, id, DependencyVerdict(g, failed.value)), g.DependentsOf(id))
      else if g.DepsMet(g.tasks[id].deps) then (MakeReady(g, id), [])
      else (g, [])
  }

  lemma ReadyRecords(g: Graph, id: string)
    requires id in g.tasks
    ensures MakeReady(g, id).records == g.records
  {
  }

  lemma ResolveNothing(g: Graph)
    ensures Resolve(g, []) == g
  {
  }

  lemma LookedNext(g: Graph, pending: seq<string>)
    requires pending != []
    ensures var r := Looked(g, pending[0]);
      && Resolve(g, pending) == Resolve(r.0, pending[1..] + r.1)
      && (|r.0.Blockeds()| < |g.Blockeds()| || (|r.0.Blockeds()| == |g.Blockeds()| && r.1 == []))
  {
    var id := pending[0];
    assert pending[1..] + [] == pending[1..];
    if g.Has(id, Blocked) {
      var failed := FailedDependency(g, g.tasks[id].deps);
      if failed.Some? {
        ConcludeWeighs(g, id, DependencyVerdict(g, failed.value));
      } else if g.DepsMet(g.tasks[id].deps) {
        ReadyWeighs(g, id);
      }
    }
  }

  // One round of the start loop, seen from its end.
  lemma StartReadyNext(g: Graph, slots: int, spawns: seq<string>)
    requires slots > 0
    ensures g.queue == [] ==> StartReady(g, slots, spawns) == g
    ensures g.queue != [] && !g.Has(g.queue[0].id, Ready) ==>
              StartReady(g, slots, spawns) == StartReady(Popped(g), slots, spawns)
    ensures g.queue != [] && g.Has(g.queue[0].id, Ready) && spawns != [] && spawns[0] != "" ==>
              && StartReady(g, slots, spawns) == StartReady(Launch(Popped(g), g.queue[0].id, spawns[0]), slots - 1, spawns[1..])
              && Launch(Popped(g), g.queue[0].id, spawns[0]).Weight() < g.Weight()
    ensures g.queue != [] && g.Has(g.queue[0].id, Ready) && (spawns == [] || spawns[0] == "") ==>
              && StartReady(g, slots, spawns) == StartReady(Finish(Popped(g), g.queue[0].id, SpawnFailed), slots,
                                                            if spawns == [] then [] else spawns[1..])
              && Finish(Popped(g), g.queue[0].id, SpawnFailed).Weight() < g.Weight()
  {
    hide Finish, Launch;
    if g.queue != [] {
      assert StartOne(g, if spawns == [] then "" else spawns[0]).Weight() < g.Weight();
    }
  }

  lemma StartReadyStops(g: Graph, slots: int, spawns: seq<string>)
    ensures slots <= 0 || g.queue == [] ==> StartReady(g, slots, spawns) == g
  {
  }

  lemma FinishStarts(g: Graph, id: string)
    requires id in g.tasks
    ensures Finish(g, id, SpawnFailed).started == g.started
  {
    ResolveKeepsRunning(Conclude(g, id, SpawnFailed), g.DependentsOf(id));
  }
}
