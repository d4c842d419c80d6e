// Delivery of completion callbacks (internal/agent/coordinator.go): sections that change the graph
// register their completion records under the lock, and hand them to the observer after it.

module Delivery {
  import opened SortedEntries
  import opened TaskQueues
  import opened TaskGraph
  import opened GraphInvariant
  import opened CoordinatorRuns

  // One call of deliverTaskCompletions: the records it owes, whether it has been past
  // publishCompletionIfReady, and how many callbacks it has begun and finished. A callback may
  // re-enter the coordinator between its begin and its end, so other steps interleave freely.
  datatype Batch = Batch(items: seq<string>, published: bool, begun: nat, ended: nat)

  // begun and announced are the calls made of the observers.
  datatype State = State(
    graph: Graph,
    pendingCallbacks: int,
    batches: seq<Batch>,
    completionClosed: bool,
    allCompleteFired: bool,
    notifiers: nat,
    begun: seq<string>,
    announced: nat
  )

  // Section is one lock-held section: AddTask, Start, startReadyTasksLocked, CancelTask,
  // handleAgentCompletionResult, or checkCompletedAgents with all the agents it finds done.
  datatype Action =
    | Section(events: seq<Event>)
    | Publish(batch: nat)
    | Begin(batch: nat)
    | End(batch: nat)
    | Drain(batch: nat)
    | Notify

  predicate Enabled(s: State, a: Action) {
    match a
    case Section(es) => LegalRun(s.graph, es)
    case Publish(b) => b < |s.batches| && !s.batches[b].published
    case Begin(b) => b < |s.batches| && s.batches[b].published && s.batches[b].begun == s.batches[b].ended < |s.batches[b].items|
    case End(b) => b < |s.batches| && s.batches[b].ended < s.batches[b].begun
    case Drain(b) => b < |s.batches| && s.batches[b].published && s.batches[b].ended == |s.batches[b].items|
    // Both a draining batch and the process loop may call notifyAllComplete at any moment.
    case Notify => true
  }

  // isAllCompleteLocked
  predicate Quiet(s: State) { s.pendingCallbacks <= 0 && s.graph.AllTerminal() }

  function Next(s: State, a: Action): State
    requires Enabled(s, a)
  {
    match a
    case Section(es) =>
      var h := Run(s.graph, es);
      var created := if |s.graph.records| <= |h.records| then h.records[|s.graph.records|..] else [];
      if created == [] then s.(graph := h)
      else s.(graph := h, pendingCallbacks := s.pendingCallbacks + |created|,
              batches := s.batches + [Batch(created, false, 0, 0)])
    case Publish(b) =>
      s.(batches := s.batches[b := s.batches[b].(published := true)],
         completionClosed := s.completionClosed || (s.graph.sealed && s.graph.AllTerminal()))
    case Begin(b) =>
      s.(batches := s.batches[b := s.batches[b].(begun := s.batches[b].begun + 1)],
         begun := s.begun + [s.batches[b].items[s.batches[b].begun]])
    case End(b) =>
      s.(batches := s.batches[b := s.batches[b].(ended := s.batches[b].ended + 1)])
    case Drain(b) =>
      var left := s.pendingCallbacks - |s.batches[b].items|;
      var r := s.(pendingCallbacks := if left < 0 then 0 else left,
                  batches := s.batches[..b] + s.batches[b + 1..]);
      if r.graph.sealed && Quiet(r) then r.(notifiers := r.notifiers + 1) else r
    case Notify =>
      var r := if s.notifiers > 0 then s.(notifiers := s.notifiers - 1) else s;
      if !s.graph.sealed || !s.graph.AllTerminal() || s.pendingCallbacks > 0 then r
      else r.(completionClosed := true, allCompleteFired := true,
              announced := if s.allCompleteFired then s.announced else s.announced + 1)
  }

  function Begun(maxParallel: int): State {
    State(Initial(maxParallel), 0, [], false, false, 0, [], 0)
  }

  function Total(bs: seq<Batch>): nat {
    if bs == [] then 0 else |bs[0].items| + Total(bs[1..])
  }

  // The records whose callback has not begun.
  function Waiting(bs: seq<Batch>): multiset<string> {
    if bs == [] then multiset{} else multiset(Unbegun(bs[0])) + Waiting(bs[1..])
  }

  function Unbegun(b: Batch): seq<string> {
    if b.begun <= |b.items| then b.items[b.begun..] else []
  }

  predicate BatchOk(b: Batch) {
    b.items != [] && b.ended <= b.begun <= b.ended + 1 && b.begun <= |b.items| && (b.begun > 0 ==> b.published)
  }

  ghost predicate Finished(g: Graph) { g.sealed && g.AllTerminal() }

  ghost predicate Sound(s: State) {
    && Inv(s.graph)
    && (forall i :: 0 <= i < |s.batches| ==> BatchOk(s.batches[i]))
    && s.pendingCallbacks == Total(s.batches)
    && multiset(s.graph.records) == multiset(s.begun) + Waiting(s.batches)
    && (s.completionClosed ==> Finished(s.graph))
    && (s.allCompleteFired ==> s.completionClosed && s.batches == [])
    && s.announced == (if s.allCompleteFired then 1 else 0)
  }

  lemma {:induction false} Cut(bs: seq<Batch>, b: nat)
    requires b < |bs|
    ensures Total(bs) == Total(bs[..b] + bs[b + 1..]) + |bs[b].items|
    ensures bs[b].begun == |bs[b].items| ==> Waiting(bs) == Waiting(bs[..b] + bs[b + 1..])
  {
    if b == 0 {
      assert bs[..0] + bs[1..] == bs[1..];
    } else {
      Cut(bs[1..], b - 1);
      var rest := bs[..b] + bs[b + 1..];
      assert rest[1..] == bs[1..][..b - 1] + bs[1..][b..];
    }
  }

  lemma {:induction false} Joined(bs: seq<Batch>, b: Batch)
    ensures Total(bs + [b]) == Total(bs) + |b.items|
    ensures Waiting(bs + [b]) == Waiting(bs) + multiset(Unbegun(b))
  {
    hide Unbegun;
    if bs != [] {
      Joined(bs[1..], b);
      assert (bs + [b])[1..] == bs[1..] + [b];
    }
  }

  lemma Exchange(u: multiset<string>, a: multiset<string>, b: multiset<string>, c: multiset<string>, d: multiset<string>)
    requires a + b == c + d
    ensures u + a + b == c + (u + d)
  {
    assert u + a + b == u + (a + b);
  }

  lemma {:induction false} Replaced(bs: seq<Batch>, b: nat, n: Batch)
    requires b < |bs| && n.items == bs[b].items
    ensures Total(bs[b := n]) == Total(bs)
    ensures Waiting(bs) + multiset(Unbegun(n)) == multiset(Unbegun(bs[b])) + Waiting(bs[b := n])
    ensures Unbegun(n) == Unbegun(bs[b]) ==> Waiting(bs[b := n]) == Waiting(bs)
  {
    hide Unbegun;
    var r := bs[b := n];
    if b == 0 {
      assert r[1..] == bs[1..];
    } else {
      Replaced(bs[1..], b - 1, n);
      assert bs[1..][b - 1] == bs[b];
      assert r[1..] == bs[1..][b - 1 := n];
      Exchange(multiset(Unbegun(bs[0])), Waiting(bs[1..]), multiset(Unbegun(n)), multiset(Unbegun(bs[b])), Waiting(r[1..]));
      assert Waiting(r) == multiset(Unbegun(bs[0])) + Waiting(r[1..]);
    }
  }

  lemma AgentsHaveTasks(g: Graph)
    requires RunningOk(g, {}) && g.running != map[]
    ensures exists id :: id in g.tasks && !g.tasks[id].Terminal()
  {
    var a :| a in g.running;
    assert g.Has(g.running[a], Running);
  }

  // Once every task of a sealed graph has ended, nothing changes and nothing is recorded any more.
  lemma FinishedStays(g: Graph, es: seq<Event>)
    requires Inv(g) && LegalRun(g, es) && Finished(g)
    ensures Finished(Run(g, es)) && Run(g, es).records == g.records
  {
    hide Step, Legal, QueueOk, StatusOk, EdgesOk, Noticed;
    var h := Run(g, es);
    RunKeepsInv(g, es);
    RunEvolves(g, es);
    if h.running != map[] { AgentsHaveTasks(h); }
    forall id | id in h.tasks
      ensures h.tasks[id].Terminal()
    {
      assert Later(g.tasks[id], h.tasks[id]);
    }
    forall x | x in h.records
      ensures x in g.records
    {
      assert h.Done(x);
    }
    NewIsNew(g.records, h.records);
  }

  lemma NewIsNew(a: seq<string>, b: seq<string>)
    requires a <= b && forall i, j :: 0 <= i < j < |b| ==> b[i] != b[j]
    ensures |a| < |b| ==> b[|a|] !in a && b[|a|] in b
    ensures |a| >= |b| ==> a == b
  {
  }

  // A sealed graph that becomes finished does so by creating a record.
  lemma FinishingIsRecorded(g: Graph, es: seq<Event>)
    requires Inv(g) && LegalRun(g, es) && g.sealed && !Finished(g) && Finished(Run(g, es))
    ensures |Run(g, es).records| > |g.records|
  {
    hide Step, Legal, QueueOk, StatusOk, EdgesOk, Noticed;
    var h := Run(g, es);
    RunKeepsInv(g, es);
    RunEvolves(g, es);
    if g.running != map[] { AgentsHaveTasks(g); }
    var id :| id in g.tasks && !g.tasks[id].Terminal();
    assert id in h.tasks && h.Done(id) && id in h.records && id !in g.records;
  }

  lemma SectionSound(s: State, es: seq<Event>)
    requires Sound(s) && Enabled(s, Section(es))
    ensures Sound(Next(s, Section(es)))
  {
    hide Inv, LegalRun, Run, Waiting, Total, Unbegun;
    var h := Run(s.graph, es);
    RunKeepsInv(s.graph, es);
    RunEvolves(s.graph, es);
    assert s.graph.records <= h.records && (s.graph.sealed ==> h.sealed);
    assert Finished(h) ==> h.sealed;
    hide Evolves, Finished;
    var created := h.records[|s.graph.records|..];
    assert h.records == s.graph.records + created;
    Joined(s.batches, Batch(created, false, 0, 0));
    assert Unbegun(Batch(created, false, 0, 0)) == created by { Whole(created); }
    assert multiset(h.records) == multiset(s.graph.records) + multiset(created);
    if Finished(s.graph) {
      FinishedStays(s.graph, es);
    } else if s.graph.sealed && Finished(h) {
      FinishingIsRecorded(s.graph, es);
    }
  }

  lemma Whole(items: seq<string>)
    ensures Unbegun(Batch(items, false, 0, 0)) == items
  {
  }

  lemma {:induction false} NothingOwed(bs: seq<Batch>)
    requires forall i :: 0 <= i < |bs| ==> BatchOk(bs[i])
    ensures Total(bs) == 0 <==> bs == []
  {
  }

  lemma DrainSound(s: State, b: nat)
    requires Sound(s) && Enabled(s, Drain(b))
    ensures Sound(Next(s, Drain(b))) && s.pendingCallbacks >= |s.batches[b].items|
  {
    hide Inv, Waiting, Total;
    assert BatchOk(s.batches[b]);
    Cut(s.batches, b);
    NothingOwed(s.batches[..b] + s.batches[b + 1..]);
  }

  lemma BegunOne(begun: seq<string>, x: string, before: multiset<string>, after: multiset<string>, left: seq<string>)
    requires before + multiset(left) == multiset([x] + left) + after
    ensures multiset(begun) + before == multiset(begun + [x]) + after
  {
    assert multiset([x] + left) == multiset{x} + multiset(left);
    forall y
      ensures before[y] == (multiset{x} + after)[y]
    {
      assert (before + multiset(left))[y] == before[y] + multiset(left)[y];
      assert (multiset{x} + multiset(left) + after)[y] == multiset{x}[y] + multiset(left)[y] + after[y];
    }
    assert before == multiset{x} + after;
    assert multiset(begun + [x]) == multiset(begun) + multiset{x};
  }

  lemma BeginSound(s: State, b: nat)
    requires Sound(s) && Enabled(s, Begin(b))
    ensures Sound(Next(s, Begin(b)))
  {
    hide Inv, Waiting, Total;
    var o := s.batches[b];
    var n := o.(begun := o.begun + 1);
    var x := o.items[o.begun];
    assert BatchOk(o);
    Replaced(s.batches, b, n);
    assert Unbegun(o) == [x] + Unbegun(n);
    BegunOne(s.begun, x, Waiting(s.batches), Waiting(s.batches[b := n]), Unbegun(n));
  }

  lemma PublishSound(s: State, b: nat)
    requires Sound(s) && Enabled(s, Publish(b))
    ensures Sound(Next(s, Publish(b)))
  {
    hide Inv, Waiting, Total;
    Replaced(s.batches, b, s.batches[b].(published := true));
  }

  lemma EndSound(s: State, b: nat)
    requires Sound(s) && Enabled(s, End(b))
    ensures Sound(Next(s, End(b)))
  {
    hide Inv, Waiting, Total;
    Replaced(s.batches, b, s.batches[b].(ended := s.batches[b].ended + 1));
  }

  lemma NotifySound(s: State)
    requires Sound(s)
    ensures Sound(Next(s, Notify))
  {
    hide Inv, Waiting, Total;
    NothingOwed(s.batches);
  }

  // Every step keeps the accounting, and the underflow guard of a drain never fires.
  lemma NextSound(s: State, a: Action)
    requires Sound(s) && Enabled(s, a)
    ensures Sound(Next(s, a))
    ensures a.Drain? ==> s.pendingCallbacks >= |s.batches[a.batch].items|
  {
    hide Sound, LegalRun, Next;
    match a
    case Section(es) => SectionSound(s, es);
    case Publish(b) => PublishSound(s, b);
    case Begin(b) => BeginSound(s, b);
    case End(b) => EndSound(s, b);
    case Drain(b) => DrainSound(s, b);
    case Notify => NotifySound(s);
  }

  function Play(s: State, acts: seq<Action>): State
    requires Playable(s, acts)
    decreases |acts|
  {
    if acts == [] then s else Play(Next(s, acts[0]), acts[1..])
  }

  predicate Playable(s: State, acts: seq<Action>)
    decreases |acts|
  {
    acts == [] || (Enabled(s, acts[0]) && Playable(Next(s, acts[0]), acts[1..]))
  }

  lemma {:induction false} PlaySound(s: State, acts: seq<Action>)
    requires Sound(s) && Playable(s, acts)
    ensures Sound(Play(s, acts))
    decreases |acts|
  {
    hide Sound, Next, Enabled;
    if acts != [] {
      NextSound(s, acts[0]);
      PlaySound(Next(s, acts[0]), acts[1..]);
    }
  }

  lemma BegunSound(maxParallel: int)
    ensures Sound(Begun(maxParallel))
  {
    InitialInv(maxParallel);
  }

  // Over any run: every callback is called at most once and only for a task that ended; the
  // counter is what the outstanding batches owe.
  lemma ExactlyOnce(maxParallel: int, acts: seq<Action>)
    requires Playable(Begun(maxParallel), acts)
    ensures var s := Play(Begun(maxParallel), acts);
      && (forall id :: multiset(s.begun)[id] <= 1)
      && (forall id :: id in s.begun ==> s.graph.Done(id))
      && (s.batches == [] ==> forall id :: s.graph.Done(id) ==> id in s.begun)
      && s.pendingCallbacks == Total(s.batches)
  {
    var s := Play(Begun(maxParallel), acts);
    BegunSound(maxParallel);
    PlaySound(Begun(maxParallel), acts);
    forall id
      ensures multiset(s.begun)[id] <= 1
      ensures id in s.begun ==> s.graph.Done(id)
      ensures s.batches == [] && s.graph.Done(id) ==> id in s.begun
    {
      AtMostOnce(s.graph.records, id);
      assert id in s.begun <==> id in multiset(s.begun);
      assert id in s.graph.records <==> id in multiset(s.graph.records);
    }
  }

  lemma {:induction false} AtMostOnce(l: seq<string>, x: string)
    requires forall i, j :: 0 <= i < j < |l| ==> l[i] != l[j]
    ensures multiset(l)[x] <= 1
  {
    if l != [] {
      assert l == l[..|l| - 1] + [l[|l| - 1]];
      AtMostOnce(l[..|l| - 1], x);
      assert l[|l| - 1] !in l[..|l| - 1];
      assert l[|l| - 1] !in multiset(l[..|l| - 1]);
    }
  }

  // Wait is released only when the sealed graph has ended, and stays so released; the observer of
  // the whole run is told at most once, after every task's callback has returned, and no record is
  // ever created after that.
  lemma ToldOnce(maxParallel: int, acts: seq<Action>, more: seq<Action>)
    requires Playable(Begun(maxParallel), acts) && Playable(Play(Begun(maxParallel), acts), more)
    ensures var s, t := Play(Begun(maxParallel), acts), Play(Play(Begun(maxParallel), acts), more);
      && s.announced <= t.announced <= 1
      && (s.completionClosed ==> t.completionClosed && Finished(s.graph) && Finished(t.graph))
      && (s.announced == 1 ==>
           && s.batches == [] && multiset(s.begun) == multiset(s.graph.records)
           && t.graph.records == s.graph.records && t.begun == s.begun)
  {
    BegunSound(maxParallel);
    PlaySound(Begun(maxParallel), acts);
    StaysTold(Play(Begun(maxParallel), acts), more);
  }

  ghost predicate Told(s: State, t: State) {
    && s.announced <= t.announced
    && (s.completionClosed ==> t.completionClosed && t.graph.records == s.graph.records)
    && (s.announced == 1 ==> t.begun == s.begun)
  }

  lemma StepTold(s: State, a: Action)
    requires Sound(s) && Enabled(s, a)
    ensures Told(s, Next(s, a))
  {
    hide Inv, LegalRun, Run, Waiting, Total;
    if a.Section? && s.completionClosed { FinishedStays(s.graph, a.events); }
  }

  lemma {:induction false} StaysTold(s: State, acts: seq<Action>)
    requires Sound(s) && Playable(s, acts)
    ensures Sound(Play(s, acts)) && Told(s, Play(s, acts))
    decreases |acts|
  {
    hide Inv, Next, Enabled, Waiting, Total, Finished, BatchOk;
    if acts != [] {
      NextSound(s, acts[0]);
      StepTold(s, acts[0]);
      StaysTold(Next(s, acts[0]), acts[1..]);
    }
  }

  // ----- the announcement is not lost -----

  // Some batch has been drained after Start.
  function DrainedIn(s: State, acts: seq<Action>): bool
    requires Playable(s, acts)
    decreases |acts|
  {
    acts != [] && ((acts[0].Drain? && s.graph.sealed) || DrainedIn(Next(s, acts[0]), acts[1..]))
  }

  ghost predicate Promised(s: State, drained: bool) {
    drained ==> s.graph.sealed && (Finished(s.graph) && s.batches == [] ==> s.notifiers > 0 || s.announced == 1)
  }

  // A drain is due to notify exactly when it takes the last batch of a finished graph.
  lemma DrainDue(s: State, b: nat)
    requires Sound(s) && Enabled(s, Drain(b))
    ensures Next(s, Drain(b)).notifiers == s.notifiers + if Finished(s.graph) && |s.batches| == 1 then 1 else 0
  {
    hide Inv, Waiting, Total;
    assert BatchOk(s.batches[b]);
    Cut(s.batches, b);
    NothingOwed(s.batches[..b] + s.batches[b + 1..]);
  }

  lemma NextPromised(s: State, drained: bool, a: Action)
    requires Sound(s) && Enabled(s, a) && Promised(s, drained)
    ensures Promised(Next(s, a), drained || (a.Drain? && s.graph.sealed))
  {
    match a
    case Section(es) => SectionPromised(s, drained, es);
    case Drain(b) => DrainPromised(s, drained, b);
    case Notify => NotifyPromised(s, drained);
    case _ =>
  }

  lemma SectionPromised(s: State, drained: bool, es: seq<Event>)
    requires Sound(s) && LegalRun(s.graph, es) && Promised(s, drained)
    ensures Promised(Next(s, Section(es)), drained)
  {
    hide Inv, LegalRun, Run, Waiting, Total;
    RunKeepsInv(s.graph, es);
    RunEvolves(s.graph, es);
    var t := Next(s, Section(es));
    if Finished(s.graph) {
      FinishedStays(s.graph, es);
    } else if s.graph.sealed && Finished(t.graph) {
      FinishingIsRecorded(s.graph, es);
    }
  }

  lemma DrainPromised(s: State, drained: bool, b: nat)
    requires Sound(s) && Enabled(s, Drain(b)) && Promised(s, drained)
    ensures Promised(Next(s, Drain(b)), drained || s.graph.sealed)
  {
    hide Sound, Finished;
    DrainDue(s, b);
  }

  lemma NotifyPromised(s: State, drained: bool)
    requires Sound(s) && Promised(s, drained)
    ensures Promised(Next(s, Notify), drained)
  {
    hide Inv, Waiting;
    NotifySound(s);
  }

  lemma {:induction false} PlayPromised(s: State, drained: bool, acts: seq<Action>)
    requires Sound(s) && Promised(s, drained) && Playable(s, acts)
    ensures Promised(Play(s, acts), drained || DrainedIn(s, acts))
    decreases |acts|
  {
    hide Sound, Promised, Next, Enabled;
    if acts != [] {
      NextSound(s, acts[0]);
      NextPromised(s, drained, acts[0]);
      PlayPromised(Next(s, acts[0]), drained || (acts[0].Drain? && s.graph.sealed), acts[1..]);
    }
  }

  // When all is done and a callback has been delivered since Start, the observer has been told or a
  // thread is on its way to tell it, and that thread's step tells.
  lemma NotLost(maxParallel: int, acts: seq<Action>)
    requires Playable(Begun(maxParallel), acts)
    ensures var s := Play(Begun(maxParallel), acts);
      && (DrainedIn(Begun(maxParallel), acts) && Finished(s.graph) && s.batches == [] ==> s.notifiers > 0 || s.announced == 1)
      && (Finished(s.graph) && s.batches == [] ==> Next(s, Notify).announced == 1)
  {
    hide Sound, Playable, Play, DrainedIn;
    BegunSound(maxParallel);
    PlaySound(Begun(maxParallel), acts);
    PlayPromised(Begun(maxParallel), false, acts);
    SoundIsTold(Play(Begun(maxParallel), acts));
  }

  lemma SoundIsTold(s: State)
    requires Sound(s)
    ensures Finished(s.graph) && s.batches == [] ==> Next(s, Notify).announced == 1
  {
    hide Inv, Waiting;
  }

  // ----- waiting -----

  // A finished graph has released its waiters, or some batch has yet to see that it is finished.
  ghost predicate Releasing(s: State) {
    Finished(s.graph) ==> s.completionClosed || exists i :: 0 <= i < |s.batches| && !s.batches[i].published
  }

  lemma NextReleases(s: State, a: Action)
    requires Sound(s) && Enabled(s, a) && s.graph.sealed && Releasing(s)
    ensures Releasing(Next(s, a)) && Next(s, a).graph.sealed
  {
    match a
    case Section(es) => SectionReleases(s, es);
    case Drain(b) => DrainReleases(s, b);
    case _ => BatchReleases(s, a);
  }

  lemma SectionReleases(s: State, es: seq<Event>)
    requires Sound(s) && LegalRun(s.graph, es) && s.graph.sealed && Releasing(s)
    ensures Releasing(Next(s, Section(es))) && Next(s, Section(es)).graph.sealed
  {
    hide Inv, LegalRun, Run, Waiting, Total;
    RunKeepsInv(s.graph, es);
    RunEvolves(s.graph, es);
    var t := Next(s, Section(es));
    if Finished(s.graph) {
      FinishedStays(s.graph, es);
      assert t.batches == s.batches;
    } else if Finished(t.graph) {
      FinishingIsRecorded(s.graph, es);
      assert !t.batches[|s.batches|].published;
    }
  }

  lemma DrainReleases(s: State, b: nat)
    requires Enabled(s, Drain(b)) && s.graph.sealed && Releasing(s)
    ensures Releasing(Next(s, Drain(b))) && Next(s, Drain(b)).graph.sealed
  {
    hide Finished;
    var t := Next(s, Drain(b));
    if Finished(s.graph) && !s.completionClosed {
      var i :| 0 <= i < |s.batches| && !s.batches[i].published;
      assert t.batches[if i < b then i else i - 1] == s.batches[i];
    }
  }

  lemma BatchReleases(s: State, a: Action)
    requires Enabled(s, a) && s.graph.sealed && Releasing(s) && (a.Publish? || a.Begin? || a.End? || a.Notify?)
    ensures Releasing(Next(s, a)) && Next(s, a).graph.sealed
  {
    var t := Next(s, a);
    if Finished(s.graph) && !s.completionClosed && (a.Begin? || a.End?) {
      var i :| 0 <= i < |s.batches| && !s.batches[i].published;
      assert !t.batches[i].published;
    }
  }

  // Whoever waits for a run that was not finished when it started is released as soon as every batch has
  // been published and the graph is finished.
  lemma {:induction false} Released(s: State, acts: seq<Action>)
    requires Sound(s) && s.graph.sealed && Releasing(s) && Playable(s, acts)
    ensures var t := Play(s, acts);
      Finished(t.graph) && (forall i :: 0 <= i < |t.batches| ==> t.batches[i].published) ==> t.completionClosed
    decreases |acts|
  {
    hide Sound, Next, Enabled, Finished;
    if acts != [] {
      NextSound(s, acts[0]);
      NextReleases(s, acts[0]);
      Released(Next(s, acts[0]), acts[1..]);
    }
  }
}
