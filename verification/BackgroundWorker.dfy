// The detached worker's inbox loop (cmd/gokin/background.go); senders and the stop command interleave
// freely with it.

module BackgroundWorkers {
  import opened Inbox

  // Where the loop stands. Begin is markTurn(true); the phases after InTurn follow the code's order.
  datatype Phase = Begin | InTurn | MarkEnd | CommitPrompt | CommitSteer | Branch | Drain | Close | Reclaim
    | Returned(ok: bool)

  datatype Worker = Worker(
    store: Store, phase: Phase, failed: bool,
    claimedForTurn: seq<Control>, steered: seq<Control>, deferred: seq<Control>)

  datatype Action =
    // the outside world
    | Send(id: string, message: string, now: nat) | Stop
    // a ticker tick during a turn: ok says that the store could be reached, taken that the running
    // turn accepts the steer it is offered
    | Tick(ok: bool, taken: bool)
    // the turn returns, by itself or because the worker's context was cancelled
    | TurnReturns(failed: bool)
    // the next statement of the loop outside a turn
    | Go(ok: bool, removed: bool)

  function Born(records: seq<Control>): Worker { Worker(Store(Running, records), Begin, false, [], [], []) }

  function Quit(w: Worker): Worker { w.(phase := Returned(false)) }

  // A claimed message becomes the prompt of the next turn.
  function Continue(w: Worker, c: Control): Worker {
    w.(claimedForTurn := [c], deferred := [], phase := Begin)
  }

  function OnTick(w: Worker, ok: bool, taken: bool): Worker {
    if w.steered != [] || w.deferred != [] || w.claimedForTurn != [] then w
    else
      var (reply, store) := Claim(w.store);
      // On an error the turn is cancelled and waited for before the loop returns.
      if !ok || reply.Ambiguous? then Quit(w)
      else if reply.Empty? then w
      else if taken then w.(store := store, steered := [reply.control])
      else w.(store := store, deferred := [reply.control])
  }

  function OnCommit(w: Worker, id: string, ok: bool, removed: bool): (bool, Store) {
    var (done, store) := Complete(w.store, id, removed);
    if ok && done then (true, store) else (false, w.store)
  }

  // Claim outside a turn; next is where the loop goes when there is nothing to claim.
  function OnDrain(w: Worker, ok: bool, next: Phase): Worker {
    var (reply, store) := Claim(w.store);
    if !ok || reply.Ambiguous? then Quit(w)
    else if reply.Empty? then w.(phase := next)
    else Continue(w.(store := store), reply.control)
  }

  function Statement(w: Worker, ok: bool, removed: bool): Worker
    requires !w.phase.InTurn? && !w.phase.Returned?
  {
    match w.phase
    case Begin => if ok then w.(phase := InTurn) else Quit(w)
    case MarkEnd => if ok then w.(phase := CommitPrompt) else Quit(w)
    case CommitPrompt =>
      if w.claimedForTurn == [] then w.(phase := CommitSteer)
      else
        var (done, store) := OnCommit(w, w.claimedForTurn[0].id, ok, removed);
        if done then w.(store := store, claimedForTurn := [], phase := CommitSteer) else Quit(w)
    case CommitSteer =>
      if w.steered == [] then w.(phase := Branch)
      else
        var (done, store) := OnCommit(w, w.steered[0].id, ok, removed);
        if done then w.(store := store, steered := [], phase := Branch) else Quit(w)
    case Branch =>
      if w.failed then Quit(w)
      else if w.deferred != [] then Continue(w, w.deferred[0])
      else w.(phase := Drain)
    case Drain => OnDrain(w, ok, Close)
    case Close =>
      var (reply, store) := BeginFinishing(w.store);
      if !ok || reply.Refused? then Quit(w)
      else if reply.Closed? then w.(store := store, phase := Returned(true))
      else w.(phase := Reclaim)
    case Reclaim => OnDrain(w, ok, Returned(false))
  }

  // The phases at which an action can happen.
  predicate Possible(w: Worker, a: Action) {
    match a
    case Tick(_, _) => w.phase.InTurn?
    case TurnReturns(_) => w.phase.InTurn?
    case Go(_, _) => !w.phase.InTurn? && !w.phase.Returned?
    case _ => true
  }

  function Next(w: Worker, a: Action): Worker
    requires Possible(w, a)
  {
    match a
    case Send(id, message, now) => w.(store := Enqueue(w.store, id, message, now).1)
    case Stop => w.(store := w.store.(job := Stopping))
    case Tick(ok, taken) => OnTick(w, ok, taken)
    case TurnReturns(failed) => w.(phase := MarkEnd, failed := failed)
    case Go(ok, removed) => Statement(w, ok, removed)
  }

  // ----- what is seen from outside -----

  // A message leaves the inbox while so many turns have been started.
  datatype Taken = Taken(id: string, turn: nat)

  // A message reaches the agent in some turn, either steered into it or as its prompt.
  datatype Delivery = Delivery(id: string, message: string, turn: nat, steered: bool)

  // What an observer has written down: the messages accepted with their texts, those the loop has
  // claimed, those that have reached the agent, the turns started, ended and failed, and whether no
  // message was accepted with a creation time that puts it before a record present.
  datatype Log = Log(accepted: seq<string>, texts: map<string, string>, claims: seq<Taken>, given: seq<Delivery>,
                     started: nat, ended: nat, failures: nat, ordered: bool)

  function Texts(rs: seq<Control>): map<string, string> {
    if rs == [] then map[]
    else if rs[0].state.Pending? then Texts(rs[1..])[rs[0].id := rs[0].message]
    else Texts(rs[1..])
  }

  function BornLog(records: seq<Control>): Log {
    Log(PendingIds(records), Texts(records), [], [], 0, 0, 0, true)
  }

  // The claim that has come to be open.
  function Taking(w: Worker, v: Worker): seq<string> {
    if ClaimedIds(w.store.records) == [] then ClaimedIds(v.store.records) else []
  }

  // The guard of ArrivalOrder: nothing present sorts after the new record.
  predicate Latest(records: seq<Control>, c: Control) {
    forall i :: 0 <= i < |records| ==> !Earlier(c, records[i])
  }

  // What reaches the agent in a step from w to v: a message claimed while the turn runs is offered to
  // it and is steered if the turn takes it; a turn that starts is given the message claimed for it.
  function Reaching(l: Log, w: Worker, a: Action, v: Worker): seq<Delivery> {
    match a
    case Tick(_, taken) =>
      if Taking(w, v) != [] && taken && Claim(w.store).0.Got?
      then [Delivery(Taking(w, v)[0], Claim(w.store).0.control.message, l.started, true)] else []
    case Go(_, _) =>
      if w.phase.Begin? && v.phase.InTurn? && w.claimedForTurn != []
      then [Delivery(w.claimedForTurn[0].id, w.claimedForTurn[0].message, l.started + 1, false)] else []
    case _ => []
  }

  function Observed(l: Log, w: Worker, a: Action, v: Worker): Log {
    var told := a.Send? && Enqueue(w.store, a.id, a.message, a.now).0;
    Log(if told then l.accepted + [a.id] else l.accepted,
        if told then l.texts[a.id := a.message] else l.texts,
        l.claims + if Taking(w, v) == [] then [] else [Taken(Taking(w, v)[0], l.started)],
        l.given + Reaching(l, w, a, v),
        l.started + if !w.phase.InTurn? && v.phase.InTurn? then 1 else 0,
        l.ended + if w.phase.InTurn? && !v.phase.InTurn? then 1 else 0,
        l.failures + if a == TurnReturns(true) then 1 else 0,
        l.ordered && (told ==> Latest(w.store.records, Control(a.id, a.message, Pending, a.now))))
  }

  // Senders draw fresh IDs. They are separate processes, so their clocks may tie or step back.
  predicate Enabled(w: Worker, l: Log, a: Action) {
    && Possible(w, a)
    && (a.Send? ==> a.id !in l.accepted && forall i :: 0 <= i < |w.store.records| ==> w.store.records[i].id != a.id)
  }

  // ----- the invariant -----

  function Outstanding(w: Worker): seq<Control> { w.claimedForTurn + w.steered + w.deferred }

  function Ids(cs: seq<Control>): (r: seq<string>)
    ensures |r| == |cs|
  {
    if cs == [] then [] else [cs[0].id] + Ids(cs[1..])
  }

  function Names(ts: seq<Taken>): (r: seq<string>)
    ensures |r| == |ts| && forall i :: 0 <= i < |ts| ==> r[i] == ts[i].id
  {
    seq(|ts|, i requires 0 <= i < |ts| => ts[i].id)
  }

  function GivenIds(ds: seq<Delivery>): (r: seq<string>)
    ensures |r| == |ds| && forall i :: 0 <= i < |ds| ==> r[i] == ds[i].id
  {
    seq(|ds|, i requires 0 <= i < |ds| => ds[i].id)
  }

  // The messages claimed that have not reached the agent.
  function Held(l: Log): seq<Taken> { if |l.given| <= |l.claims| then l.claims[|l.given|..] else [] }

  // The worker holds at most one claim, and it is the one claimed record in the store.
  ghost predicate ClaimsOk(w: Worker) {
    && |Outstanding(w)| <= 1
    && ClaimedIds(w.store.records) == Ids(Outstanding(w))
    && DistinctIds(w.store.records)
  }

  // Every message accepted has been claimed or is pending, once; they are claimed in the order they
  // were accepted as long as each was accepted behind those present.
  ghost predicate Accounted(accepted: seq<string>, claims: seq<string>, pending: seq<string>, ordered: bool) {
    && multiset(accepted) == multiset(claims) + multiset(pending)
    && (forall i, j :: 0 <= i < j < |accepted| ==> accepted[i] != accepted[j])
    && (ordered ==> accepted == claims + pending)
  }

  // A message claimed in some turn reaches the agent in that turn if it is steered, and otherwise as
  // the prompt of the very next one.
  predicate Reached(d: Delivery, t: Taken) { d.id == t.id && d.turn == t.turn + if d.steered then 0 else 1 }

  // The messages claimed reach the agent one by one in that order, in strictly increasing turns.
  ghost predicate OrderOk(w: Worker, l: Log) {
    && Accounted(l.accepted, Names(l.claims), PendingIds(w.store.records), l.ordered)
    && |l.given| <= |l.claims|
    && (forall i :: 0 <= i < |l.given| ==> Reached(l.given[i], l.claims[i]) && l.given[i].turn <= l.started)
    && (forall i, j :: 0 <= i < j < |l.given| ==> l.given[i].turn < l.given[j].turn)
  }

  ghost predicate PhaseOk(w: Worker, l: Log) {
    && l.started == l.ended + (if w.phase.InTurn? then 1 else 0)
    && Names(Held(l)) == (if w.deferred != [] then Ids(w.deferred)
                          else if w.phase.Begin? || (w.phase == Returned(false) && Held(l) != []) then Ids(w.claimedForTurn)
                          else [])
    && (!w.phase.Returned? && Held(l) != [] ==> Held(l)[0].turn == l.started)
    && (w.phase.Begin? ==> w.steered == [] && w.deferred == [])
    && (w.phase.InTurn? && w.claimedForTurn == [] && w.steered == [] ==>
          forall i :: 0 <= i < |l.given| ==> l.given[i].turn < l.started)
    && (w.phase in {CommitSteer, Branch, Drain, Close, Reclaim, Returned(true)} ==> w.claimedForTurn == [])
    && (w.phase in {Branch, Drain, Close, Reclaim, Returned(true)} ==> w.steered == [])
    && (w.phase in {Drain, Close, Reclaim, Returned(true)} ==> w.deferred == [])
    && (w.phase.Reclaim? ==> PendingIds(w.store.records) != [])
    && (w.phase == Returned(true) ==>
          PendingIds(w.store.records) == [] && !w.store.job.Starting? && !w.store.job.Running?)
    && l.failures == (if w.failed then 1 else 0)
    && (w.failed ==> w.phase in {MarkEnd, CommitPrompt, CommitSteer, Branch, Returned(false)})
  }

  ghost predicate Sound(w: Worker, l: Log) { ClaimsOk(w) && OrderOk(w, l) && PhaseOk(w, l) }

  lemma Single(c: Control)
    ensures Ids([c]) == [c.id] && Ids([]) == []
  {
    assert [c][1..] == [];
  }

  lemma ClaimedOne(accepted: seq<string>, claims: seq<string>, id: string, rest: seq<string>, ordered: bool)
    requires Accounted(accepted, claims, [id] + rest, ordered)
    ensures Accounted(accepted, claims + [id], rest, ordered)
  {
    assert multiset([id] + rest) == multiset{id} + multiset(rest);
    assert multiset(claims + [id]) == multiset(claims) + multiset{id};
    assert claims + ([id] + rest) == claims + [id] + rest;
  }

  lemma AcceptedOne(accepted: seq<string>, claims: seq<string>, before: seq<string>, id: string, after: seq<string>,
                    ordered: bool, last: bool)
    requires Accounted(accepted, claims, before + after, ordered) && id !in accepted && (last ==> after == [])
    ensures Accounted(accepted + [id], claims, before + [id] + after, ordered && last)
  {
    assert multiset(before + [id] + after) == multiset(before) + multiset{id} + multiset(after);
    assert multiset(before + after) == multiset(before) + multiset(after);
    if ordered && last { assert before + [id] + [] == before + [] + [id]; }
  }

  lemma NamesMore(ts: seq<Taken>, t: Taken)
    ensures Names(ts + [t]) == Names(ts) + [t.id] && Names([]) == []
  {
  }

  // Steps in which nothing is claimed.
  lemma NothingTaken(l: Log, w: Worker, a: Action, v: Worker)
    requires ClaimedIds(v.store.records) == ClaimedIds(w.store.records) || ClaimedIds(v.store.records) == []
    ensures Taking(w, v) == []
    ensures Observed(l, w, a, v).claims == l.claims
    ensures !a.Go? ==> Reaching(l, w, a, v) == [] && Observed(l, w, a, v).given == l.given
    ensures a.Go? && !(w.phase.Begin? && v.phase.InTurn?) ==> Reaching(l, w, a, v) == [] && Observed(l, w, a, v).given == l.given
  {
    assert l.claims + [] == l.claims && l.given + [] == l.given;
  }

  lemma SendSound(w: Worker, l: Log, id: string, message: string, now: nat)
    requires Sound(w, l) && Enabled(w, l, Send(id, message, now))
    ensures var v := Next(w, Send(id, message, now)); Sound(v, Observed(l, w, Send(id, message, now), v))
  {
    hide IdsIn, DistinctIds, Latest, OrderOk, PhaseOk, Ids;
    var a := Send(id, message, now);
    var v := Next(w, a);
    var (done, store) := Enqueue(w.store, id, message, now);
    if done {
      var c := Control(id, message, Pending, now);
      var k := Inserted(w.store.records, c);
      NothingTaken(l, w, a, v);
      SentOrdered(w, l, v, Observed(l, w, a, v), c, k);
      SentInPhase(w, l, v, Observed(l, w, a, v));
    } else {
      NothingTaken(l, w, a, w);
      assert Observed(l, w, a, w) == l;
    }
  }

  // Where the record of a new message comes to stand: at the end when nothing present sorts after it.
  lemma Inserted(rs: seq<Control>, c: Control) returns (k: nat)
    requires DistinctIds(rs) && c.state.Pending? && forall i :: 0 <= i < |rs| ==> rs[i].id != c.id
    ensures k <= |rs| && Insert(rs, c) == rs[..k] + [c] + rs[k..] && (Latest(rs, c) ==> k == |rs|)
    ensures DistinctIds(Insert(rs, c))
    ensures PendingIds(rs) == PendingIds(rs[..k]) + PendingIds(rs[k..])
    ensures PendingIds(Insert(rs, c)) == PendingIds(rs[..k]) + [c.id] + PendingIds(rs[k..])
    ensures ClaimedIds(Insert(rs, c)) == ClaimedIds(rs)
  {
    hide IdsIn, Earlier, Insert;
    k := InsertedSomewhere(rs, c);
    if Latest(rs, c) {
      assert c !in rs;
      ArrivalOrder(rs, c);
      assert |rs| == k by { assert (rs[..k] + [c] + rs[k..])[k] == (rs + [c])[k]; }
    }
    assert rs == rs[..k] + rs[k..];
    assert rs[..k] + [c] + rs[k..] == rs[..k] + ([c] + rs[k..]);
    forall st: ControlState
      ensures IdsIn(rs, st) == IdsIn(rs[..k], st) + IdsIn(rs[k..], st)
      ensures IdsIn(rs[..k] + ([c] + rs[k..]), st) == IdsIn(rs[..k], st) + Own(c, st) + IdsIn(rs[k..], st)
    {
      Split(rs[..k], rs[k..], st);
      Apart(rs[..k], c, rs[k..], st);
    }
  }

  lemma SentOrdered(w: Worker, l: Log, v: Worker, m: Log, c: Control, k: nat)
    requires OrderOk(w, l) && c.id !in l.accepted && k <= |w.store.records| && (Latest(w.store.records, c) ==> k == |w.store.records|)
    requires m.accepted == l.accepted + [c.id] && m.ordered == (l.ordered && Latest(w.store.records, c))
    requires m.claims == l.claims && m.given == l.given && m.started == l.started
    requires PendingIds(w.store.records) == PendingIds(w.store.records[..k]) + PendingIds(w.store.records[k..])
    requires PendingIds(v.store.records) == PendingIds(w.store.records[..k]) + [c.id] + PendingIds(w.store.records[k..])
    ensures OrderOk(v, m)
  {
    var rs := w.store.records;
    assert PendingIds([]) == [];
    hide PendingIds, Accounted, Latest, Reached;
    AcceptedOne(l.accepted, Names(l.claims), PendingIds(rs[..k]), c.id, PendingIds(rs[k..]), l.ordered, Latest(rs, c));
  }

  // A message comes in while the job is still open.
  lemma SentInPhase(w: Worker, l: Log, v: Worker, m: Log)
    requires PhaseOk(w, l) && v == w.(store := v.store) && v.store.job == w.store.job
    requires (w.store.job.Starting? || w.store.job.Running?) && PendingIds(v.store.records) != []
    requires m.claims == l.claims && m.given == l.given && m.started == l.started && m.ended == l.ended && m.failures == l.failures
    ensures PhaseOk(v, m)
  {
    hide PendingIds, Ids;
  }

  lemma HeldNone(l: Log)
    requires |l.given| <= |l.claims|
    ensures Names(Held(l)) == [] <==> |l.given| == |l.claims|
    ensures Held(l) == [] <==> |l.given| == |l.claims|
  {
  }

  // One more message is claimed, while so many turns have been started.
  lemma ClaimedInOrder(w: Worker, l: Log, v: Worker, m: Log, id: string)
    requires OrderOk(w, l) && PendingIds(w.store.records) == [id] + PendingIds(v.store.records)
    requires m.accepted == l.accepted && m.ordered == l.ordered && m.started == l.started && m.given == l.given
    requires m.claims == l.claims + [Taken(id, l.started)]
    ensures OrderOk(v, m)
  {
    hide PendingIds, Accounted, Reached;
    ClaimedOne(l.accepted, Names(l.claims), id, PendingIds(v.store.records), l.ordered);
    NamesMore(l.claims, Taken(id, l.started));
  }

  // The one message claimed reaches the agent.
  lemma ReachedInOrder(v: Worker, l: Log, m: Log, d: Delivery)
    requires OrderOk(v, l) && |l.claims| == |l.given| + 1 && Reached(d, l.claims[|l.given|])
    requires m.accepted == l.accepted && m.ordered == l.ordered && m.claims == l.claims && m.given == l.given + [d]
    requires l.started <= m.started && d.turn <= m.started && forall i :: 0 <= i < |l.given| ==> l.given[i].turn < d.turn
    ensures OrderOk(v, m)
  {
    hide PendingIds, Accounted, Reached;
  }

  lemma TickSound(w: Worker, l: Log, ok: bool, taken: bool)
    requires Sound(w, l) && w.phase.InTurn?
    ensures var v := OnTick(w, ok, taken); Sound(v, Observed(l, w, Tick(ok, taken), v))
  {
    hide IdsIn, DistinctIds, Outstanding, Accounted, OrderOk, Claim, Reached;
    var a, v := Tick(ok, taken), OnTick(w, ok, taken);
    Sum(w);
    Sum(v);
    OrderHas(w, l);
    if w.claimedForTurn == [] && w.steered == [] && w.deferred == [] && ok && Claim(w.store).0.Got? {
      ClaimTakesOldest(w.store);
      ClaimKeeps(w.store);
      TickTakes(w, l, taken);
    } else {
      if ClaimedIds(w.store.records) == [] { ClaimTakesOldest(w.store); }
      NothingTaken(l, w, a, v);
      SameOrder(w, l, v, Observed(l, w, a, v));
    }
  }

  lemma OrderHas(w: Worker, l: Log)
    requires OrderOk(w, l)
    ensures |l.given| <= |l.claims|
  {
  }

  lemma SameOrder(w: Worker, l: Log, v: Worker, m: Log)
    requires OrderOk(w, l) && PendingIds(v.store.records) == PendingIds(w.store.records)
    requires m.accepted == l.accepted && m.ordered == l.ordered && m.claims == l.claims && m.given == l.given && m.started >= l.started
    ensures OrderOk(v, m)
  {
  }

  // The tick that claims: the message is steered into the turn, or held for the next.
  lemma TickTakes(w: Worker, l: Log, taken: bool)
    requires Sound(w, l) && w.phase.InTurn? && Outstanding(w) == [] && Claim(w.store).0.Got?
    ensures var v := OnTick(w, true, taken); Sound(v, Observed(l, w, Tick(true, taken), v))
  {
    hide IdsIn, DistinctIds, Accounted, OrderOk, Reached;
    var a, v := Tick(true, taken), OnTick(w, true, taken);
    var c := Claim(w.store).0.control;
    var m := Observed(l, w, a, v);
    ClaimTakesOldest(w.store);
    ClaimKeeps(w.store);
    Single(c);
    OrderHas(w, l);
    HeldNone(l);
    assert Taking(w, v) == [c.id];
    assert Outstanding(v) == [c];
    var between := l.(claims := l.claims + [Taken(c.id, l.started)]);
    ClaimedInOrder(w, l, v, between, c.id);
    if taken {
      assert Reached(m.given[|l.given|], Taken(c.id, l.started)) by { NowReached(c.id, c.message, l.started); }
      ReachedInOrder(v, between, m, m.given[|l.given|]);
    } else {
      assert m.given == l.given;
      SameOrder(v, between, v, m);
      assert Held(m) == [Taken(c.id, l.started)];
    }
    HeldNone(m);
  }

  lemma NowReached(id: string, message: string, turn: nat)
    ensures Reached(Delivery(id, message, turn, true), Taken(id, turn))
    ensures Reached(Delivery(id, message, turn + 1, false), Taken(id, turn))
  {
  }

  lemma ClaimKeeps(s: Store)
    requires DistinctIds(s.records)
    ensures DistinctIds(Claim(s).1.records)
  {
  }

  lemma DrainSound(w: Worker, l: Log, ok: bool, removed: bool)
    requires Sound(w, l) && w.phase in {Drain, Reclaim}
    ensures var v := Statement(w, ok, removed); Sound(v, Observed(l, w, Go(ok, removed), v))
    ensures w.phase.Reclaim? && ok ==> Statement(w, ok, removed).phase.Begin?
  {
    hide IdsIn, DistinctIds, Claim, Accounted, OrderOk, Reached;
    var a, v := Go(ok, removed), Statement(w, ok, removed);
    var m := Observed(l, w, a, v);
    OrderHas(w, l);
    assert Outstanding(w) == [] && Ids([]) == [];
    ClaimTakesOldest(w.store);
    ClaimKeeps(w.store);
    if ok && Claim(w.store).0.Got? {
      var c := Claim(w.store).0.control;
      Single(c);
      assert Taking(w, v) == [c.id];
      assert Outstanding(v) == [c];
      HeldNone(l);
      assert m.given == l.given && m.claims == l.claims + [Taken(c.id, l.started)];
      ClaimedInOrder(w, l, v, m, c.id);
      assert Held(m) == [Taken(c.id, l.started)];
    } else {
      NothingTaken(l, w, a, v);
      SameOrder(w, l, v, m);
    }
  }

  // The commit of the outstanding claim: it is claimed in the store, so only the store itself can fail.
  lemma Committed(w: Worker, o: Control, removed: bool)
    requires ClaimsOk(w) && Outstanding(w) == [o]
    ensures Complete(w.store, o.id, removed).0
    ensures var t := Complete(w.store, o.id, removed).1;
      && ClaimedIds(t.records) == [] && PendingIds(t.records) == PendingIds(w.store.records) && t.job == w.store.job
      && DistinctIds(t.records)
  {
    Single(o);
    CompleteCommits(w.store, o.id, removed);
  }

  lemma Sum(w: Worker)
    ensures |Outstanding(w)| == |w.claimedForTurn| + |w.steered| + |w.deferred|
    ensures w.claimedForTurn == [] && w.steered == [] ==> Outstanding(w) == w.deferred
    ensures w.claimedForTurn == [] && w.deferred == [] ==> Outstanding(w) == w.steered
    ensures w.steered == [] && w.deferred == [] ==> Outstanding(w) == w.claimedForTurn
  {
  }

  lemma CommitPromptSound(w: Worker, l: Log, ok: bool, removed: bool)
    requires Sound(w, l) && w.phase.CommitPrompt?
    ensures var v := Statement(w, ok, removed); Sound(v, Observed(l, w, Go(ok, removed), v))
    ensures ok ==> !Statement(w, ok, removed).phase.Returned?
  {
    hide IdsIn, DistinctIds, Complete, Outstanding, OrderOk, Held, Taking;
    var v := Statement(w, ok, removed);
    Sum(w);
    Sum(v);
    if w.claimedForTurn != [] {
      var o := w.claimedForTurn[0];
      assert w.claimedForTurn == [o];
      Committed(w, o, removed);
    }
    assert Ids([]) == [];
    NothingTaken(l, w, Go(ok, removed), v);
    SameHeld(l, Observed(l, w, Go(ok, removed), v));
    SameOrder(w, l, v, Observed(l, w, Go(ok, removed), v));
  }

  lemma CommitSteerSound(w: Worker, l: Log, ok: bool, removed: bool)
    requires Sound(w, l) && w.phase.CommitSteer?
    ensures var v := Statement(w, ok, removed); Sound(v, Observed(l, w, Go(ok, removed), v))
    ensures ok ==> !Statement(w, ok, removed).phase.Returned?
  {
    hide IdsIn, DistinctIds, Complete, Outstanding, OrderOk, Held, Taking;
    var v := Statement(w, ok, removed);
    Sum(w);
    Sum(v);
    if w.steered != [] {
      var o := w.steered[0];
      assert w.steered == [o];
      Committed(w, o, removed);
    }
    assert Ids([]) == [];
    NothingTaken(l, w, Go(ok, removed), v);
    SameHeld(l, Observed(l, w, Go(ok, removed), v));
    SameOrder(w, l, v, Observed(l, w, Go(ok, removed), v));
  }

  lemma BeginSound(w: Worker, l: Log, ok: bool, removed: bool)
    requires Sound(w, l) && w.phase.Begin?
    ensures var v := Statement(w, ok, removed); Sound(v, Observed(l, w, Go(ok, removed), v))
  {
    hide IdsIn, DistinctIds, OrderOk, Held;
    var a, v := Go(ok, removed), Statement(w, ok, removed);
    NothingTaken(l, w, a, v);
    OrderHas(w, l);
    HeldNone(l);
    assert Ids([]) == [];
    EarlierTurns(w, l);
    if ok && w.claimedForTurn != [] {
      PromptReaches(w, l, removed);
    } else {
      assert Observed(l, w, a, v).given == l.given;
      SameHeld(l, Observed(l, w, a, v));
      SameOrder(w, l, v, Observed(l, w, a, v));
    }
  }

  lemma SameHeld(l: Log, m: Log)
    requires m.claims == l.claims && m.given == l.given
    ensures Held(m) == Held(l)
  {
  }

  // The turn that begins is given the message claimed for it.
  lemma PromptReaches(w: Worker, l: Log, removed: bool)
    requires Sound(w, l) && w.phase.Begin? && w.claimedForTurn != []
    ensures var v := w.(phase := InTurn); Sound(v, Observed(l, w, Go(true, removed), v))
  {
    hide IdsIn, DistinctIds, OrderOk, Reached;
    var a, v, c := Go(true, removed), w.(phase := InTurn), w.claimedForTurn[0];
    var m := Observed(l, w, a, v);
    NothingTaken(l, w, a, v);
    OrderHas(w, l);
    HeldNone(l);
    assert w.claimedForTurn == [c];
    Single(c);
    assert |Names(Held(l))| == 1 && Names(Held(l))[0] == c.id;
    assert l.claims[|l.given|] == Taken(c.id, l.started);
    NowReached(c.id, c.message, l.started);
    EarlierTurns(w, l);
    SameOrder(w, l, v, l);
    ReachedInOrder(v, l, m, Delivery(c.id, c.message, l.started + 1, false));
    HeldNone(m);
  }

  lemma EarlierTurns(w: Worker, l: Log)
    requires OrderOk(w, l)
    ensures forall i :: 0 <= i < |l.given| ==> l.given[i].turn < l.started + 1
  {
  }

  lemma BranchSound(w: Worker, l: Log, ok: bool, removed: bool)
    requires Sound(w, l) && w.phase.Branch?
    ensures var v := Statement(w, ok, removed); Sound(v, Observed(l, w, Go(ok, removed), v))
  {
    hide IdsIn, DistinctIds, Outstanding, OrderOk, Held, Taking;
    var v := Statement(w, ok, removed);
    Sum(w);
    Sum(v);
    if w.deferred != [] { assert w.deferred == [w.deferred[0]]; }
    assert Ids([]) == [];
    NothingTaken(l, w, Go(ok, removed), v);
    SameHeld(l, Observed(l, w, Go(ok, removed), v));
    SameOrder(w, l, v, Observed(l, w, Go(ok, removed), v));
  }

  lemma MarkSound(w: Worker, l: Log, ok: bool, removed: bool)
    requires Sound(w, l) && w.phase.MarkEnd?
    ensures var v := Statement(w, ok, removed); Sound(v, Observed(l, w, Go(ok, removed), v))
  {
    hide IdsIn, DistinctIds, Outstanding, OrderOk, Ids, Held, Taking;
    var v := Statement(w, ok, removed);
    Sum(w);
    Sum(v);
    NothingTaken(l, w, Go(ok, removed), v);
    SameHeld(l, Observed(l, w, Go(ok, removed), v));
    SameOrder(w, l, v, Observed(l, w, Go(ok, removed), v));
  }

  lemma CloseSound(w: Worker, l: Log, ok: bool, removed: bool)
    requires Sound(w, l) && w.phase.Close?
    ensures var v := Statement(w, ok, removed); Sound(v, Observed(l, w, Go(ok, removed), v))
  {
    hide IdsIn, DistinctIds, OrderOk, Outstanding, Held, Taking;
    var v := Statement(w, ok, removed);
    Sum(w);
    Sum(v);
    assert Ids([]) == [];
    NothingOpen(w.store.records);
    NothingTaken(l, w, Go(ok, removed), v);
    SameHeld(l, Observed(l, w, Go(ok, removed), v));
    SameOrder(w, l, v, Observed(l, w, Go(ok, removed), v));
  }

  lemma StopSound(w: Worker, l: Log)
    requires Sound(w, l)
    ensures Sound(Next(w, Stop), Observed(l, w, Stop, Next(w, Stop)))
  {
    hide IdsIn, DistinctIds, OrderOk, Ids, Held, Taking;
    NothingTaken(l, w, Stop, Next(w, Stop));
    SameHeld(l, Observed(l, w, Stop, Next(w, Stop)));
    SameOrder(w, l, Next(w, Stop), Observed(l, w, Stop, Next(w, Stop)));
  }

  lemma TurnReturnsSound(w: Worker, l: Log, failed: bool)
    requires Sound(w, l) && w.phase.InTurn?
    ensures var v := Next(w, TurnReturns(failed)); Sound(v, Observed(l, w, TurnReturns(failed), v))
  {
    hide IdsIn, DistinctIds, OrderOk, Ids;
    var v := Next(w, TurnReturns(failed));
    NothingTaken(l, w, TurnReturns(failed), v);
    SameOrder(w, l, v, Observed(l, w, TurnReturns(failed), v));
  }

  // Every step of the worker, of a sender and of the stop command keeps the invariant.
  lemma NextSound(w: Worker, l: Log, a: Action)
    requires Sound(w, l) && Enabled(w, l, a)
    ensures Sound(Next(w, a), Observed(l, w, a, Next(w, a)))
  {
    hide Sound, Statement, OnTick, Observed;
    match a
    case Send(id, message, now) => SendSound(w, l, id, message, now);
    case Tick(ok, taken) => TickSound(w, l, ok, taken);
    case Go(ok, removed) =>
      if w.phase.Begin? { BeginSound(w, l, ok, removed); }
      else if w.phase in {Drain, Reclaim} { DrainSound(w, l, ok, removed); }
      else if w.phase.CommitPrompt? { CommitPromptSound(w, l, ok, removed); }
      else if w.phase.CommitSteer? { CommitSteerSound(w, l, ok, removed); }
      else if w.phase.Close? { CloseSound(w, l, ok, removed); }
      else if w.phase.Branch? { BranchSound(w, l, ok, removed); }
      else { MarkSound(w, l, ok, removed); }
    case TurnReturns(failed) => TurnReturnsSound(w, l, failed);
    case Stop => StopSound(w, l);
  }

  // ----- whole runs -----

  predicate Playable(w: Worker, l: Log, acts: seq<Action>)
    decreases |acts|
  {
    acts == [] || (Enabled(w, l, acts[0]) && Playable(Next(w, acts[0]), Observed(l, w, acts[0], Next(w, acts[0])), acts[1..]))
  }

  function Play(w: Worker, l: Log, acts: seq<Action>): (Worker, Log)
    requires Playable(w, l, acts)
    decreases |acts|
  {
    if acts == [] then (w, l) else Play(Next(w, acts[0]), Observed(l, w, acts[0], Next(w, acts[0])), acts[1..])
  }

  // An inbox that was filled while the job was starting, with nothing claimed.
  predicate Ripe(records: seq<Control>) { DistinctIds(records) && ClaimedIds(records) == [] }

  lemma {:induction false} PendingDistinct(rs: seq<Control>)
    requires DistinctIds(rs)
    ensures forall i, j :: 0 <= i < j < |PendingIds(rs)| ==> PendingIds(rs)[i] != PendingIds(rs)[j]
    ensures forall x :: x in PendingIds(rs) ==> exists i :: 0 <= i < |rs| && rs[i].id == x
  {
    if rs != [] {
      PendingDistinct(rs[1..]);
      var more := PendingIds(rs[1..]);
      var own := if rs[0].state.Pending? then [rs[0].id] else [];
      assert PendingIds(rs) == own + more;
      forall x | x in more
        ensures exists i :: 1 <= i < |rs| && rs[i].id == x
      {
        var i :| 0 <= i < |rs[1..]| && rs[1..][i].id == x;
        assert rs[i + 1].id == x;
      }
      assert forall i :: 0 <= i < |more| ==> more[i] in more;
    }
  }

  lemma BornSound(records: seq<Control>)
    requires Ripe(records)
    ensures Sound(Born(records), BornLog(records))
  {
    hide IdsIn;
    assert Ids([]) == [] && Names([]) == [];
    PendingDistinct(records);
    assert [] + PendingIds(records) == PendingIds(records);
  }

  lemma {:induction false} PlaySound(w: Worker, l: Log, acts: seq<Action>)
    requires Sound(w, l) && Playable(w, l, acts)
    ensures Sound(Play(w, l, acts).0, Play(w, l, acts).1)
    decreases |acts|
  {
    hide Sound, Next, Enabled, Observed;
    if acts != [] {
      PossibleIf(w, l, acts[0]);
      NextSound(w, l, acts[0]);
      PlaySound(Next(w, acts[0]), Observed(l, w, acts[0], Next(w, acts[0])), acts[1..]);
    }
  }

  // Every accepted message reaches the agent exactly once, unless it is still pending or held by the
  // one claim open: steered into the turn it was claimed in or as the prompt of the very next turn,
  // never two in one turn. They arrive in the order they were accepted as long as none was accepted
  // with a creation time that puts it before a record present.
  lemma DeliveredOnce(records: seq<Control>, acts: seq<Action>)
    requires Ripe(records) && Playable(Born(records), BornLog(records), acts)
    ensures var (w, l) := Play(Born(records), BornLog(records), acts);
      && multiset(l.accepted) == multiset(GivenIds(l.given)) + multiset(Names(Held(l))) + multiset(PendingIds(w.store.records))
      && (forall i, j :: 0 <= i < j < |l.accepted| ==> l.accepted[i] != l.accepted[j])
      && (l.ordered ==> l.accepted == GivenIds(l.given) + Names(Held(l)) + PendingIds(w.store.records))
      && |Held(l)| <= |Outstanding(w)| <= 1 && ClaimedIds(w.store.records) == Ids(Outstanding(w))
      && |l.given| <= |l.claims| && (forall i :: 0 <= i < |l.given| ==> Reached(l.given[i], l.claims[i]))
      && (forall i, j :: 0 <= i < j < |l.given| ==> l.given[i].turn < l.given[j].turn)
  {
    hide Play, Playable, IdsIn;
    BornSound(records);
    PlaySound(Born(records), BornLog(records), acts);
    var (w, l) := Play(Born(records), BornLog(records), acts);
    NamesSplit(l);
  }

  lemma NamesSplit(l: Log)
    requires |l.given| <= |l.claims| && forall i :: 0 <= i < |l.given| ==> Reached(l.given[i], l.claims[i])
    ensures Names(l.claims) == GivenIds(l.given) + Names(Held(l)) && |Names(Held(l))| == |Held(l)|
  {
  }

  // However the loop returns, no turn is left running. When it returns without error, admission is
  // closed, nothing is left pending or claimed, no turn has failed, and every message ever accepted has
  // reached the agent; this stays so whatever senders do later.
  lemma ReturnsClean(records: seq<Control>, acts: seq<Action>)
    requires Ripe(records) && Playable(Born(records), BornLog(records), acts)
    ensures var (w, l) := Play(Born(records), BornLog(records), acts);
      && (w.phase.Returned? ==> l.started == l.ended)
      && (w.phase == Returned(true) ==>
            && PendingIds(w.store.records) == [] && ClaimedIds(w.store.records) == [] && l.failures == 0
            && multiset(l.accepted) == multiset(GivenIds(l.given))
            && (l.ordered ==> l.accepted == GivenIds(l.given))
            && forall id, message, now :: !Enqueue(w.store, id, message, now).0)
  {
    hide Play, Playable, IdsIn, Sound, Enqueue, Ripe, Born, BornLog;
    BornSound(records);
    PlaySound(Born(records), BornLog(records), acts);
    var (w, l) := Play(Born(records), BornLog(records), acts);
    CleanFacts(w, l);
    if w.phase == Returned(true) { Closed(w.store); }
  }

  lemma CleanFacts(w: Worker, l: Log)
    requires Sound(w, l)
    ensures w.phase.Returned? ==> l.started == l.ended
    ensures w.phase == Returned(true) ==>
              && PendingIds(w.store.records) == [] && ClaimedIds(w.store.records) == [] && l.failures == 0
              && multiset(l.accepted) == multiset(GivenIds(l.given)) && (l.ordered ==> l.accepted == GivenIds(l.given))
              && !w.store.job.Starting? && !w.store.job.Running?
  {
    hide IdsIn, Outstanding, DistinctIds;
    assert Ids([]) == [];
    NamesSplit(l);
    Sum(w);
  }

  lemma Closed(s: Store)
    requires !s.job.Starting? && !s.job.Running?
    ensures forall id, message, now :: !Enqueue(s, id, message, now).0
  {
  }

  // A turn that fails is the last one: no other starts, and the loop can only return the error.
  lemma FailureIsLast(w: Worker, l: Log, acts: seq<Action>)
    requires Sound(w, l) && l.failures > 0 && Playable(w, l, acts)
    ensures var (v, m) := Play(w, l, acts);
      m.failures == 1 && m.started == l.started && (v.phase.Returned? ==> v.phase == Returned(false))
    decreases |acts|
  {
    hide Sound, Next, Enabled, Observed;
    if acts != [] {
      PossibleIf(w, l, acts[0]);
      var v := Next(w, acts[0]);
      NextSound(w, l, acts[0]);
      FailedStep(w, l, acts[0]);
      FailureIsLast(v, Observed(l, w, acts[0], v), acts[1..]);
    } else {
      FailedPhase(w, l);
    }
  }

  lemma FailedPhase(w: Worker, l: Log)
    requires Sound(w, l) && l.failures > 0
    ensures l.failures == 1 && w.failed && w.phase in {MarkEnd, CommitPrompt, CommitSteer, Branch, Returned(false)}
  {
  }

  lemma FailedStep(w: Worker, l: Log, a: Action)
    requires Sound(w, l) && l.failures > 0 && Enabled(w, l, a)
    ensures Observed(l, w, a, Next(w, a)).failures > 0 && Observed(l, w, a, Next(w, a)).started == l.started
  {
    FailedPhase(w, l);
    hide Sound, Next, Reaching, Taking, Latest;
    NoTurnBegins(w, a);
  }

  lemma NoTurnBegins(w: Worker, a: Action)
    requires Possible(w, a) && w.failed && w.phase in {MarkEnd, CommitPrompt, CommitSteer, Branch, Returned(false)}
    ensures !Next(w, a).phase.InTurn?
  {
    hide Complete, BeginFinishing, Enqueue, Claim;
  }

  // ----- the texts -----

  predicate True(l: Log, id: string, message: string) { id in l.texts && l.texts[id] == message }

  ghost predicate RecordsTrue(l: Log, rs: seq<Control>) {
    forall i :: 0 <= i < |rs| && !rs[i].state.Delivered? ==> True(l, rs[i].id, rs[i].message)
  }

  // What is still to be given has the text that was sent, and so has what was given.
  ghost predicate TextsOk(w: Worker, l: Log) {
    && RecordsTrue(l, w.store.records)
    && (forall c :: c in Outstanding(w) ==> True(l, c.id, c.message))
    && (forall i :: 0 <= i < |l.given| ==> True(l, l.given[i].id, l.given[i].message))
    && (forall id :: id in l.texts ==> id in l.accepted)
  }

  lemma SendTexts(w: Worker, l: Log, id: string, message: string, now: nat)
    requires TextsOk(w, l) && Enabled(w, l, Send(id, message, now))
    requires ClaimsOk(w)
    ensures var v := Next(w, Send(id, message, now)); TextsOk(v, Observed(l, w, Send(id, message, now), v))
  {
    hide IdsIn, DistinctIds, Latest, Ids;
    var a := Send(id, message, now);
    var v, m := Next(w, a), Observed(l, w, a, Next(w, a));
    var c, rs := Control(id, message, Pending, now), w.store.records;
    if Enqueue(w.store, id, message, now).0 {
      var k := Inserted(rs, c);
      assert RecordsTrue(m, rs);
      assert v.store.records == rs[..k] + [c] + rs[k..];
      assert RecordsTrue(m, v.store.records);
    }
    NothingTaken(l, w, a, v);
  }

  // A claim takes a record as it is, and a commit drops the text.
  lemma StoreTexts(l: Log, s: Store, id: string, removed: bool)
    requires RecordsTrue(l, s.records)
    ensures RecordsTrue(l, Claim(s).1.records) && RecordsTrue(l, Complete(s, id, removed).1.records)
    ensures Claim(s).0.Got? ==> True(l, Claim(s).0.control.id, Claim(s).0.control.message)
  {
    var i := Find(s.records, id);
    var r := Complete(s, id, removed).1.records;
    if i < |s.records| && s.records[i].state.Claimed? && removed {
      forall j | 0 <= j < |r| && !r[j].state.Delivered?
        ensures True(l, r[j].id, r[j].message)
      {
        assert r[j] == s.records[if j < i then j else j + 1];
      }
    }
  }

  lemma TickTexts(w: Worker, l: Log, ok: bool, taken: bool)
    requires TextsOk(w, l) && ClaimsOk(w) && w.phase.InTurn?
    ensures var v := OnTick(w, ok, taken); TextsOk(v, Observed(l, w, Tick(ok, taken), v))
  {
    hide IdsIn, DistinctIds, RecordsTrue, Complete, True, Claim, Outstanding;
    var v := OnTick(w, ok, taken);
    StoreTexts(l, w.store, "", false);
    if ClaimedIds(w.store.records) == [] { ClaimTakesOldest(w.store); }
    SameTexts(l, Observed(l, w, Tick(ok, taken), v), v.store.records);
    assert forall c :: c in Outstanding(v) ==> c in Outstanding(w) || (Claim(w.store).0.Got? && c == Claim(w.store).0.control) by { Sum(w); Sum(v); }
  }

  lemma SameTexts(l: Log, m: Log, rs: seq<Control>)
    requires m.texts == l.texts
    ensures RecordsTrue(m, rs) == RecordsTrue(l, rs) && forall id, message :: True(m, id, message) == True(l, id, message)
  {
  }

  lemma CommitTexts(w: Worker, l: Log, ok: bool, removed: bool)
    requires TextsOk(w, l) && w.phase in {CommitPrompt, CommitSteer}
    ensures var v := Statement(w, ok, removed); TextsOk(v, Observed(l, w, Go(ok, removed), v))
  {
    hide IdsIn, DistinctIds, RecordsTrue, Complete, True, Claim, Taking, Outstanding, ClaimedIds;
    var v := Statement(w, ok, removed);
    StoreTexts(l, w.store, if w.claimedForTurn != [] then w.claimedForTurn[0].id else "", removed);
    StoreTexts(l, w.store, if w.steered != [] then w.steered[0].id else "", removed);
    FewerOutstanding(w, v);
    assert l.given + [] == l.given;
    SameTexts(l, Observed(l, w, Go(ok, removed), v), v.store.records);
  }

  lemma FewerOutstanding(w: Worker, v: Worker)
    requires v.claimedForTurn in {w.claimedForTurn, []} && v.steered in {w.steered, []} && v.deferred in {w.deferred, []}
    ensures forall c :: c in Outstanding(v) ==> c in Outstanding(w)
  {
  }

  lemma GoTexts(w: Worker, l: Log, ok: bool, removed: bool)
    requires TextsOk(w, l) && !w.phase.InTurn? && !w.phase.Returned? && w.phase !in {CommitPrompt, CommitSteer}
    ensures var v := Statement(w, ok, removed); TextsOk(v, Observed(l, w, Go(ok, removed), v))
  {
    hide IdsIn, DistinctIds, RecordsTrue, Complete, True, Claim, Taking;
    var v := Statement(w, ok, removed);
    StoreTexts(l, w.store, "", removed);
    SameTexts(l, Observed(l, w, Go(ok, removed), v), v.store.records);
    assert forall c :: c in Outstanding(v) ==> c in Outstanding(w) || (Claim(w.store).0.Got? && c == Claim(w.store).0.control);
  }

  lemma NextTexts(w: Worker, l: Log, a: Action)
    requires TextsOk(w, l) && ClaimsOk(w) && Enabled(w, l, a)
    ensures TextsOk(Next(w, a), Observed(l, w, a, Next(w, a)))
  {
    hide ClaimsOk, TextsOk, Statement, OnTick, Observed;
    match a
    case Send(id, message, now) => SendTexts(w, l, id, message, now);
    case Tick(ok, taken) => TickTexts(w, l, ok, taken);
    case Go(ok, removed) =>
      if w.phase in {CommitPrompt, CommitSteer} { CommitTexts(w, l, ok, removed); } else { GoTexts(w, l, ok, removed); }
    case _ => SideTexts(w, l, a);
  }

  lemma SideTexts(w: Worker, l: Log, a: Action)
    requires TextsOk(w, l) && ClaimsOk(w) && Enabled(w, l, a) && (a.Stop? || a.TurnReturns?)
    ensures TextsOk(Next(w, a), Observed(l, w, a, Next(w, a)))
  {
    NothingTaken(l, w, a, Next(w, a));
  }

  lemma {:induction false} BornTexts(rs: seq<Control>)
    requires Ripe(rs)
    ensures TextsOk(Born(rs), BornLog(rs))
  {
    TextsOf(rs);
    NoneClaimed(rs);
  }

  lemma {:induction false} NoneClaimed(rs: seq<Control>)
    requires ClaimedIds(rs) == []
    ensures forall i :: 0 <= i < |rs| ==> !rs[i].state.Claimed?
  {
    if rs != [] { NoneClaimed(rs[1..]); }
  }

  lemma {:induction false} TextsOf(rs: seq<Control>)
    requires DistinctIds(rs)
    ensures forall id :: id in Texts(rs) <==> id in PendingIds(rs)
    ensures forall i :: 0 <= i < |rs| && rs[i].state.Pending? ==> rs[i].id in Texts(rs) && Texts(rs)[rs[i].id] == rs[i].message
  {
    if rs != [] {
      TextsOf(rs[1..]);
      PendingDistinct(rs[1..]);
      forall i | 0 <= i < |rs| && rs[i].state.Pending?
        ensures rs[i].id in Texts(rs) && Texts(rs)[rs[i].id] == rs[i].message
      {
        if i > 0 { assert rs[1..][i - 1] == rs[i]; }
      }
    }
  }

  lemma {:induction false} PlayTexts(w: Worker, l: Log, acts: seq<Action>)
    requires Sound(w, l) && TextsOk(w, l) && Playable(w, l, acts)
    ensures TextsOk(Play(w, l, acts).0, Play(w, l, acts).1)
    decreases |acts|
  {
    hide OrderOk, PhaseOk, ClaimsOk, TextsOk, Next, Enabled, Observed;
    if acts != [] {
      PossibleIf(w, l, acts[0]);
      NextSound(w, l, acts[0]);
      NextTexts(w, l, acts[0]);
      PlayTexts(Next(w, acts[0]), Observed(l, w, acts[0], Next(w, acts[0])), acts[1..]);
    }
  }

  // Every message reaches the agent with the text that was sent.
  lemma TextsArrive(records: seq<Control>, acts: seq<Action>)
    requires Ripe(records) && Playable(Born(records), BornLog(records), acts)
    ensures var l := Play(Born(records), BornLog(records), acts).1;
      forall i :: 0 <= i < |l.given| ==> l.given[i].id in l.texts && l.texts[l.given[i].id] == l.given[i].message
  {
    hide Play, Playable, Sound, RecordsTrue, Born, BornLog, Ripe;
    BornSound(records);
    BornTexts(records);
    PlayTexts(Born(records), BornLog(records), acts);
  }

  // ----- what the loop does next -----

  // While a turn runs, a tick claims the oldest pending message exactly when nothing is outstanding and
  // there is one; what the turn takes is steered, and what it refuses is kept for the next.
  lemma TickClaims(w: Worker, taken: bool)
    requires ClaimsOk(w)
    ensures var v, pending := OnTick(w, true, taken), PendingIds(w.store.records);
      if Outstanding(w) != [] || pending == [] then v == w
      else
        && ClaimedIds(v.store.records) == pending[..1] && PendingIds(v.store.records) == pending[1..]
        && Ids(if taken then v.steered else v.deferred) == pending[..1]
        && (if taken then v.deferred else v.steered) == [] && v.claimedForTurn == [] && v.phase == w.phase
  {
    hide IdsIn, DistinctIds, Outstanding, Claim;
    Sum(w);
    if Outstanding(w) == [] {
      assert Ids([]) == [];
      ClaimTakesOldest(w.store);
      if Claim(w.store).0.Got? { Single(Claim(w.store).0.control); }
    }
  }

  function Left(p: Phase): nat {
    match p
    case MarkEnd => 7
    case CommitPrompt => 6
    case CommitSteer => 5
    case Branch => 4
    case Drain => 3
    case Close => 2
    case Reclaim => 1
    case _ => 0
  }

  // The loop runs on by itself with a reachable store until a turn begins or it returns.
  function Onward(w: Worker, removed: bool): Worker
    decreases Left(w.phase)
  {
    if Left(w.phase) == 0 then w
    else
      Falls(w, removed);
      Onward(Statement(w, true, removed), removed)
  }

  lemma Falls(w: Worker, removed: bool)
    requires Left(w.phase) > 0
    ensures !w.phase.InTurn? && !w.phase.Returned? && Left(Statement(w, true, removed).phase) < Left(w.phase)
  {
    hide Claim, Complete, BeginFinishing;
  }

  // After the outstanding claims have been committed: an error if the turn failed; else a turn with the
  // message deferred, or else with the oldest pending; else the job is closed.
  ghost predicate GoesOn(w: Worker, v: Worker) {
    var pending := PendingIds(w.store.records);
    if w.failed then v.phase == Returned(false)
    else if w.deferred != [] then
      && v.phase.Begin? && v.claimedForTurn == w.deferred
      && PendingIds(v.store.records) == pending && ClaimedIds(v.store.records) == Ids(w.deferred)
    else if pending != [] then
      && v.phase.Begin? && Ids(v.claimedForTurn) == pending[..1]
      && PendingIds(v.store.records) == pending[1..] && ClaimedIds(v.store.records) == pending[..1]
    else if w.store.job.Running? then
      v.phase == Returned(true) && v.store.job.Finishing? && PendingIds(v.store.records) == [] && ClaimedIds(v.store.records) == []
    else v.phase == Returned(false)
  }

  lemma FromClose(w: Worker, removed: bool)
    requires ClaimsOk(w) && w.phase.Close? && Outstanding(w) == [] && PendingIds(w.store.records) == [] && !w.failed
    ensures GoesOn(w, Onward(w, removed))
  {
    hide IdsIn, DistinctIds;
    Falls(w, removed);
    assert Ids([]) == [];
    NothingOpen(w.store.records);
    assert Left(Statement(w, true, removed).phase) == 0;
  }

  lemma FromDrain(w: Worker, removed: bool)
    requires ClaimsOk(w) && w.phase.Drain? && Outstanding(w) == [] && !w.failed
    ensures GoesOn(w, Onward(w, removed))
  {
    hide IdsIn, DistinctIds, Claim, BeginFinishing;
    Falls(w, removed);
    assert Ids([]) == [];
    ClaimTakesOldest(w.store);
    ClaimKeeps(w.store);
    var u := Statement(w, true, removed);
    if Claim(w.store).0.Got? {
      Single(Claim(w.store).0.control);
    } else {
      assert Outstanding(u) == [];
      FromClose(u, removed);
    }
  }

  lemma FromBranch(w: Worker, removed: bool)
    requires ClaimsOk(w) && w.phase.Branch? && w.claimedForTurn == [] && w.steered == []
    ensures GoesOn(w, Onward(w, removed))
  {
    hide IdsIn, DistinctIds;
    Falls(w, removed);
    Sum(w);
    var u := Statement(w, true, removed);
    if !w.failed && w.deferred == [] {
      assert Outstanding(u) == [];
      FromDrain(u, removed);
    } else if !w.failed {
      assert w.deferred == [w.deferred[0]];
    }
  }

  // After a turn the loop does what it should with the claims and messages there are.
  lemma WhatFollows(w: Worker, l: Log, removed: bool)
    requires Sound(w, l) && w.phase.MarkEnd?
    ensures GoesOn(w, Onward(w, removed))
  {
    hide IdsIn, DistinctIds, Complete, OrderOk, Onward, Outstanding, GoesOn;
    var w1 := w.(phase := CommitPrompt);
    OnwardIs(w, removed);
    Sum(w);
    Sum(w1);
    assert Ids([]) == [];
    var w2 := Statement(w1, true, removed);
    OnwardIs(w1, removed);
    Sum(w2);
    if w1.claimedForTurn != [] {
      assert w1.claimedForTurn == [w1.claimedForTurn[0]];
      Committed(w1, w1.claimedForTurn[0], removed);
    }
    var w3 := Statement(w2, true, removed);
    OnwardIs(w2, removed);
    Sum(w3);
    if w2.steered != [] {
      assert w2.steered == [w2.steered[0]];
      Committed(w2, w2.steered[0], removed);
    }
    FromBranch(w3, removed);
    SameGoal(w, w3, Onward(w3, removed));
  }

  lemma OnwardIs(w: Worker, removed: bool)
    requires Left(w.phase) > 0
    ensures !w.phase.InTurn? && !w.phase.Returned? && Onward(w, removed) == Onward(Statement(w, true, removed), removed)
  {
    Falls(w, removed);
  }

  lemma SameGoal(w: Worker, u: Worker, v: Worker)
    requires PendingIds(u.store.records) == PendingIds(w.store.records) && u.store.job == w.store.job
    requires u.deferred == w.deferred && u.failed == w.failed && GoesOn(u, v)
    ensures GoesOn(w, v)
  {
  }

  // With a reachable store the loop fails only because a turn failed or because the job is no longer
  // running when admission is to be closed: no claim is ever ambiguous, no commit finds its record
  // unclaimed, and the inbox never turns out empty after a refused close.
  lemma OnlyRealFailures(w: Worker, l: Log, a: Action)
    requires Sound(w, l) && Enabled(w, l, a) && ((a.Tick? && a.ok) || (a.Go? && a.ok))
    ensures Next(w, a).phase == Returned(false) ==>
              (w.phase.Branch? && w.failed) || (w.phase.Close? && !w.store.job.Running?)
  {
    hide IdsIn, DistinctIds, Complete, Outstanding, OrderOk, Claim;
    Sum(w);
    if a.Tick? {
      if w.claimedForTurn == [] && w.steered == [] && w.deferred == [] {
        assert Ids([]) == [];
        ClaimTakesOldest(w.store);
      }
    } else if w.phase.Drain? || w.phase.Reclaim? {
      assert Ids([]) == [];
      ClaimTakesOldest(w.store);
    } else if w.phase.CommitPrompt? {
      CommitPromptSound(w, l, true, a.removed);
    } else if w.phase.CommitSteer? {
      CommitSteerSound(w, l, true, a.removed);
    }
  }

  // ----- the loop itself -----

  class HeadlessLoop {
    const store: JobStore
    var phase: Phase
    var failed: bool
    var claimedForTurn: seq<Control>
    var steered: seq<Control>
    var deferred: seq<Control>

    ghost function View(): Worker
      reads this, store
    {
      Worker(store.View(), phase, failed, claimedForTurn, steered, deferred)
    }

    constructor (records: seq<Control>)
      ensures View() == Born(records) && fresh(store)
    {
      store := new JobStore(records);
      phase, failed := Begin, false;
      claimedForTurn, steered, deferred := [], [], [];
    }

    // A tick of the ticker while a turn runs.
    method PollInbox(ok: bool, taken: bool)
      requires phase.InTurn?
      modifies this, store
      ensures View() == OnTick(old(View()), ok, taken)
    {
      hide Claim;
      if steered != [] || deferred != [] || claimedForTurn != [] { return; }
      if !ok {
        phase := Returned(false);
        return;
      }
      ClaimOr(store.View());
      var reply := store.ClaimNextControl();
      match reply
      case Ambiguous(_) => phase := Returned(false);
      case Empty =>
      case Got(c) => if taken { steered := [c]; } else { deferred := [c]; }
    }

    // Outside a turn: the next message, if any, is the prompt of the next turn.
    method ClaimForNextTurn(ok: bool, next: Phase)
      modifies this, store
      ensures View() == OnDrain(old(View()), ok, next)
    {
      hide Claim;
      if !ok {
        phase := Returned(false);
        return;
      }
      ClaimOr(store.View());
      var reply := store.ClaimNextControl();
      match reply
      case Ambiguous(_) => phase := Returned(false);
      case Empty => phase := next;
      case Got(c) => claimedForTurn, deferred, phase := [c], [], Begin;
    }

    method Commit(id: string, ok: bool, removed: bool) returns (done: bool)
      modifies store
      ensures done == OnCommit(old(View()), id, ok, removed).0
      ensures store.View() == OnCommit(old(View()), id, ok, removed).1
    {
      hide Complete;
      assert Complete(store.View(), id, removed).0 || Complete(store.View(), id, removed).1 == store.View() by { NotFound(store.View(), id, removed); }
      done := false;
      if ok { done := store.CompleteControl(id, removed); }
    }

    method StartTurn(ok: bool)
      requires phase.Begin?
      modifies this
      ensures View() == Statement(old(View()), ok, false)
    {
      phase := if ok then InTurn else Returned(false);
    }

    method AfterTurn(ok: bool, removed: bool)
      requires phase in {MarkEnd, CommitPrompt, CommitSteer, Branch}
      modifies this, store
      ensures View() == Statement(old(View()), ok, removed)
    {
      hide OnCommit;
      match phase
      case MarkEnd => phase := if ok then CommitPrompt else Returned(false);
      case CommitPrompt =>
        if claimedForTurn == [] {
          phase := CommitSteer;
        } else {
          CommitOr(View(), claimedForTurn[0].id, ok, removed);
          var done := Commit(claimedForTurn[0].id, ok, removed);
          if done { claimedForTurn, phase := [], CommitSteer; } else { phase := Returned(false); }
        }
      case CommitSteer =>
        if steered == [] {
          phase := Branch;
        } else {
          CommitOr(View(), steered[0].id, ok, removed);
          var done := Commit(steered[0].id, ok, removed);
          if done { steered, phase := [], Branch; } else { phase := Returned(false); }
        }
      case Branch =>
        if failed {
          phase := Returned(false);
        } else if deferred != [] {
          claimedForTurn, deferred, phase := [deferred[0]], [], Begin;
        } else {
          phase := Drain;
        }
    }

    method CloseInbox(ok: bool)
      requires phase.Close?
      modifies this, store
      ensures View() == Statement(old(View()), ok, false)
    {
      hide BeginFinishing;
      BusyKeeps(store.View());
      if !ok {
        phase := Returned(false);
        return;
      }
      var reply := store.CloseAdmission();
      match reply
      case Refused => phase := Returned(false);
      case Closed => phase := Returned(true);
      case Busy => phase := Reclaim;
    }

    method Statements(ok: bool, removed: bool)
      requires !phase.InTurn? && !phase.Returned?
      modifies this, store
      ensures View() == Statement(old(View()), ok, removed)
    {
      hide OnDrain;
      if phase == Begin {
        StartTurn(ok);
      } else if phase == Drain {
        ClaimForNextTurn(ok, Close);
      } else if phase == Reclaim {
        ClaimForNextTurn(ok, Returned(false));
      } else if phase == Close {
        CloseInbox(ok);
      } else {
        AfterTurn(ok, removed);
      }
    }

    // One step of the loop, of its turn, of a sender or of the stop command.
    method Step(a: Action)
      requires Possible(View(), a)
      modifies this, store
      ensures View() == Next(old(View()), a)
    {
      hide Statement, OnTick, Enqueue;
      match a
      case Send(id, message, now) => var told := store.EnqueueControl(id, message, now);
      case Stop => store.job := Stopping;
      case Tick(ok, taken) => PollInbox(ok, taken);
      case TurnReturns(err) => phase, failed := MarkEnd, err;
      case Go(ok, removed) => Statements(ok, removed);
    }

    // Any schedule, from a worker that has just been launched; log is what an observer has seen of it.
    method Serve(ghost records: seq<Control>, schedule: seq<Action>) returns (ghost log: Log)
      requires Ripe(records) && View() == Born(records) && Playable(View(), BornLog(records), schedule)
      modifies this, store
      ensures (View(), log) == Play(Born(records), BornLog(records), schedule) && Sound(View(), log)
    {
      hide Sound, Next, Enabled, Born, BornLog, Ripe, Observed;
      BornSound(records);
      PlaySound(View(), BornLog(records), schedule);
      log := BornLog(records);
      assert schedule[0..] == schedule;
      for i := 0 to |schedule|
        invariant Playable(View(), log, schedule[i..])
        invariant Play(View(), log, schedule[i..]) == Play(old(View()), BornLog(records), schedule)
      {
        assert schedule[i..][1..] == schedule[i + 1..];
        assert Possible(View(), schedule[i]) by { PossibleIf(View(), log, schedule[i]); }
        ghost var w := View();
        Step(schedule[i]);
        log := Observed(log, w, schedule[i], View());
      }
    }
  }

  lemma PossibleIf(w: Worker, l: Log, a: Action)
    ensures Enabled(w, l, a) ==> Possible(w, a)
  {
  }

  lemma NotFound(s: Store, id: string, removed: bool)
    ensures Complete(s, id, removed).0 || Complete(s, id, removed).1 == s
  {
  }

  lemma CommitOr(w: Worker, id: string, ok: bool, removed: bool)
    ensures OnCommit(w, id, ok, removed).0 || OnCommit(w, id, ok, removed).1 == w.store
  {
  }

  lemma ClaimOr(s: Store)
    ensures Claim(s).0.Got? || Claim(s).1 == s
  {
  }

  lemma BusyKeeps(s: Store)
    ensures BeginFinishing(s).0.Closed? || BeginFinishing(s).1 == s
  {
  }
}
