// The stream-json connection loop (cmd/gokin/headless_control.go): one serialized turn, one control
// worker and a frame reader, multiplexed over bounded channels.

module StreamLoop {
  import opened Wrappers

  const LIMIT := 0x100_0000     // maxHeadlessStdinBytes, 16 MiB
  const MAX_PENDING := 32       // also the capacity of the controls channel
  const MAX_QUEUE := 64

  datatype Job = Job(id: string, size: nat)

  // One input record, after the reader's own checks and envelope decoding. A user record carries
  // what parseHeadlessStreamInput makes of it.
  datatype Frame =
    | Bad
    | Control(id: string, size: nat, interrupt: bool)
    | CancelControl(id: string)
    | Ignored
    | User(prompt: Option<string>)
    | Unknown

  datatype Outcome = Clean | InputFailed | Cancelled | TurnFailed | WriteFailed

  // What the connection writes.
  datatype Output = Reply(id: string) | TurnResult(turn: nat)

  // Histories: control requests by ID (all that were well-formed, and those admitted to the worker),
  // prompts accepted, started and finished, the output, and whether a failure envelope has closed it.
  datatype Log = Log(
    requests: seq<string>, admitted: seq<string>, served: seq<string>,
    accepted: seq<string>, started: seq<string>, finished: seq<string>,
    output: seq<Output>, failed: bool)

  datatype Conn = Conn(
    queue: seq<string>, queuedBytes: int, users: nat, received: nat,
    pending: map<string, bool>, pendingSizes: map<string, nat>, pendingBytes: int,
    controls: seq<Job>, worker: seq<Job>, results: seq<Job>,
    turn: Option<string>, turnCancelled: bool, turnDone: seq<bool>, interrupted: bool,
    open: bool, inputErr: bool, over: Option<Outcome>, log: Log)

  function Opened(): Conn {
    Conn([], 0, 0, 0, map[], map[], 0, [], [], [], None, false, [], false, true, false, None,
         Log([], [], [], [], [], [], [], false))
  }

  // Returning runs the deferred teardown: a running turn is cancelled and joined. On the
  // connection's own cancellation it is joined before the failure is written.
  function Return(c: Conn, o: Outcome): Conn {
    var joined := if c.turn.Some? && c.turnDone == [] then [TurnResult(|c.log.started|)] else [];
    c.(over := Some(o), turn := None, turnDone := [],
       log := c.log.(finished := if c.turn.Some? then c.log.finished + [c.turn.value] else c.log.finished,
                     output := c.log.output + joined,
                     failed := o.Cancelled? || o.InputFailed?))
  }

  // The top of the loop: start the next turn, or see that the connection has drained.
  function Top(c: Conn): Conn {
    if c.turn.None? && c.queue != [] && c.pending == map[] then
      c.(queue := c.queue[1..], queuedBytes := c.queuedBytes - |c.queue[0]|,
         turn := Some(c.queue[0]), turnCancelled := false, interrupted := false,
         log := c.log.(started := c.log.started + [c.queue[0]]))
    else if !c.open && c.turn.None? && c.queue == [] && c.pending == map[] then
      Return(c, if c.inputErr || (c.users == 0 && c.received == 0) then InputFailed else Clean)
    else c
  }

  function Shut(c: Conn): Conn { c.(open := false, inputErr := true) }

  function Say(c: Conn, o: Output): Conn { c.(log := c.log.(output := c.log.output + [o])) }

  predicate BadId(id: string) {
    id == "" || |id| > 256 || '\0' in id || '\n' in id || '\r' in id
  }

  function Interrupted(d: Conn): Conn {
    if d.turn.None? then d
    else d.(interrupted := true, turnCancelled := true)
  }

  function Asked(c: Conn, id: string): Conn {
    c.(log := c.log.(requests := c.log.requests + [id]))
  }

  function Admitted(d: Conn, id: string, size: nat): Conn {
    d.(pending := d.pending[id := false], pendingSizes := d.pendingSizes[id := size],
       pendingBytes := d.pendingBytes + size, controls := d.controls + [Job(id, size)],
       log := d.log.(admitted := d.log.admitted + [id]))
  }

  // A control_request record. written says whether the reply, if one is due now, can be written.
  function OnControl(c: Conn, id: string, size: nat, interrupt: bool, written: bool): Conn {
    if BadId(id) || id in c.pending then Shut(c)
    else if interrupt then Responded(Interrupted(Asked(c, id)), id, written)
    else if |c.pending| >= MAX_PENDING || c.pendingBytes + size > LIMIT then Responded(Asked(c, id), id, written)
    else Admitted(Asked(c, id), id, size)
  }

  function Responded(c: Conn, id: string, written: bool): Conn {
    if written then Say(c, Reply(id)) else Return(c, WriteFailed)
  }

  function OnUser(c: Conn, prompt: Option<string>): Conn {
    if prompt.None? || |c.queue| >= MAX_QUEUE || c.queuedBytes + |prompt.value| > LIMIT then Shut(c)
    else
      c.(users := c.users + 1, queue := c.queue + [prompt.value], queuedBytes := c.queuedBytes + |prompt.value|,
         log := c.log.(accepted := c.log.accepted + [prompt.value]))
  }

  function OnFrame(c: Conn, f: Frame, written: bool): Conn {
    if f.Bad? then Shut(c)
    else
      var d := c.(received := c.received + 1);
      match f
      case Control(id, size, interrupt) => OnControl(d, id, size, interrupt, written)
      case CancelControl(id) => if id in d.pending then d.(pending := d.pending[id := true]) else d
      case User(prompt) => OnUser(d, prompt)
      case Unknown => Shut(d)
      case _ => d
  }

  function Retired(c: Conn): Conn
    requires c.results != []
  {
    var id := c.results[0].id;
    c.(results := c.results[1..], pending := c.pending - {id}, pendingSizes := c.pendingSizes - {id},
       pendingBytes := c.pendingBytes - if id in c.pendingSizes then c.pendingSizes[id] else 0)
  }

  function OnResult(c: Conn, written: bool): Conn
    requires c.results != []
  {
    var d, id := Retired(c), c.results[0].id;
    Responded(if written then d.(log := d.log.(served := d.log.served + [id])) else d, id, written)
  }

  function OnTurnDone(c: Conn): Conn
    requires c.turnDone != [] && c.turn.Some?
  {
    var d := c.(turn := None, turnDone := c.turnDone[1..], log := c.log.(finished := c.log.finished + [c.turn.value]));
    if c.turnDone[0] && !c.interrupted then Return(d, TurnFailed) else d
  }

  datatype Action =
    // arms of the loop's select
    | GotResult(written: bool) | GotTurnDone | GotFrame(frame: Frame, written: bool) | GotEnd | GotCancel
    // the control worker and the turn
    | WorkerTakes | WorkerAnswers | TurnEnds(failed: bool)

  predicate Enabled(c: Conn, a: Action) {
    && c.over.None?
    && match a
       case GotResult(_) => c.results != []
       case GotTurnDone => c.turnDone != [] && c.turn.Some?
       case GotFrame(_, _) => c.open
       case GotEnd => c.open
       case GotCancel => true
       case WorkerTakes => c.controls != [] && c.worker == []
       case WorkerAnswers => c.worker != [] && c.results == []
       case TurnEnds(_) => c.turn.Some? && c.turnDone == []
  }

  function Settled(c: Conn): Conn { if c.over.Some? then c else Top(c) }

  function Next(c: Conn, a: Action): Conn
    requires Enabled(c, a)
  {
    match a
    case GotResult(written) => Settled(OnResult(c, written))
    case GotTurnDone => Settled(OnTurnDone(c))
    case GotFrame(f, written) => Settled(OnFrame(c, f, written))
    case GotEnd => Settled(c.(open := false))
    case GotCancel => Return(c, Cancelled)
    case WorkerTakes => c.(worker := [c.controls[0]], controls := c.controls[1..])
    case WorkerAnswers => c.(results := c.results + [c.worker[0]], worker := c.worker[1..])
    case TurnEnds(failed) => Say(c.(turnDone := [failed]), TurnResult(|c.log.started|))
  }

  // ----- the invariant -----

  function InFlight(c: Conn): seq<Job> { c.results + c.worker + c.controls }

  function JobIds(js: seq<Job>): (r: seq<string>)
    ensures |r| == |js| && forall i :: 0 <= i < |js| ==> r[i] == js[i].id
  {
    seq(|js|, i requires 0 <= i < |js| => js[i].id)
  }

  function Bytes(js: seq<Job>): nat {
    if js == [] then 0 else js[0].size + Bytes(js[1..])
  }

  function Chars(ps: seq<string>): nat {
    if ps == [] then 0 else |ps[0]| + Chars(ps[1..])
  }

  function IdSet(js: seq<Job>): set<string> {
    if js == [] then {} else {js[0].id} + IdSet(js[1..])
  }

  predicate Distinct(js: seq<Job>) {
    js == [] || (js[0].id !in IdSet(js[1..]) && Distinct(js[1..]))
  }

  // The table of pending requests lists the jobs js, each once, and the cached byte count is the
  // sum of their sizes.
  ghost predicate Tracks(js: seq<Job>, pending: map<string, bool>, sizes: map<string, nat>, bytes: int) {
    && Distinct(js) && pending.Keys == IdSet(js) && sizes.Keys == IdSet(js)
    && (forall i :: 0 <= i < |js| ==> js[i].id in sizes && sizes[js[i].id] == js[i].size)
    && bytes == Bytes(js)
  }

  // Every pending control request is in exactly one of results, the worker and controls.
  ghost predicate ControlsOk(c: Conn) {
    && Tracks(InFlight(c), c.pending, c.pendingSizes, c.pendingBytes)
    && |c.pending| <= MAX_PENDING && c.pendingBytes <= LIMIT
    && |c.worker| <= 1 && |c.results| <= 1
  }

  // Admitted requests are served in order, and every well-formed request has been replied to once
  // or is in flight.
  ghost predicate RepliesOk(c: Conn) {
    && c.log.admitted == c.log.served + JobIds(InFlight(c))
    && multiset(c.log.requests) == multiset(ReplyIds(c.log.output)) + multiset(JobIds(InFlight(c)))
  }

  function ReplyIds(out: seq<Output>): seq<string> {
    if out == [] then []
    else ReplyIds(out[..|out| - 1]) + if out[|out| - 1].Reply? then [out[|out| - 1].id] else []
  }

  function TurnResults(out: seq<Output>): seq<nat> {
    if out == [] then []
    else TurnResults(out[..|out| - 1]) + if out[|out| - 1].TurnResult? then [out[|out| - 1].turn] else []
  }

  function Ordinals(n: nat): seq<nat> { if n == 0 then [] else Ordinals(n - 1) + [n] }

  // The turns whose terminal result has been written.
  function Concluded(c: Conn): int { |c.log.started| - if c.turn.Some? && c.turnDone == [] then 1 else 0 }

  // One result for each turn, in order.
  ghost predicate OutputOk(c: Conn) {
    && Concluded(c) >= 0 && TurnResults(c.log.output) == Ordinals(Concluded(c))
    && (c.log.failed <==> c.over in {Some(Cancelled), Some(InputFailed)})
  }

  // One turn at a time, in the order the prompts were accepted; a turn that is interrupted is cancelled.
  ghost predicate TurnsOk(c: Conn) {
    && c.queuedBytes == Chars(c.queue) <= LIMIT && |c.queue| <= MAX_QUEUE
    && c.log.accepted == c.log.started + c.queue
    && c.log.started == c.log.finished + (if c.turn.Some? then [c.turn.value] else [])
    && |c.turnDone| <= (if c.turn.Some? then 1 else 0)
    && (c.turn.Some? ==> (c.turnCancelled <==> c.interrupted))
    && c.users == |c.log.accepted| && (c.inputErr ==> !c.open)
  }

  // What the top of the loop leaves.
  predicate AtSelect(c: Conn) {
    c.over.None? && c.turn.None? && (c.queue != [] || !c.open) ==> c.pending != map[]
  }

  predicate Drained(c: Conn) {
    !c.open && c.queue == [] && c.pending == map[] && c.turn.None?
  }

  ghost predicate Sound(c: Conn) {
    && TurnsOk(c) && OutputOk(c)
    && (c.over != Some(WriteFailed) ==> ControlsOk(c) && RepliesOk(c))
    && (c.over.Some? ==> c.turn.None?)
    && (c.over == Some(Clean) ==> Drained(c) && !c.inputErr && (c.users > 0 || c.received > 0))
    && (c.over == Some(InputFailed) ==> Drained(c) && (c.inputErr || (c.users == 0 && c.received == 0)))
  }

  lemma Appended(out: seq<Output>, o: Output)
    ensures ReplyIds(out + [o]) == ReplyIds(out) + if o.Reply? then [o.id] else []
    ensures TurnResults(out + [o]) == TurnResults(out) + if o.TurnResult? then [o.turn] else []
  {
    assert (out + [o])[..|out|] == out;
  }

  lemma {:induction false} CharsAppend(ps: seq<string>, p: string)
    ensures Chars(ps + [p]) == Chars(ps) + |p|
  {
    if ps != [] {
      CharsAppend(ps[1..], p);
      assert (ps + [p])[1..] == ps[1..] + [p];
    }
  }

  lemma {:induction false} BytesAppend(js: seq<Job>, j: Job)
    ensures Bytes(js + [j]) == Bytes(js) + j.size
  {
    if js != [] {
      BytesAppend(js[1..], j);
      assert (js + [j])[1..] == js[1..] + [j];
    }
  }

  lemma ReturnOutput(c: Conn, o: Outcome)
    requires OutputOk(c) && c.over.None?
    ensures OutputOk(Return(c, o))
  {
    hide Ordinals, TurnResults, Return;
    ReturnKeeps(c, o);
    var n := |c.log.started|;
    var joined := if c.turn.Some? && c.turnDone == [] then [TurnResult(n)] else [];
    if joined != [] {
      Appended(c.log.output, TurnResult(n));
      OrdinalsNext(n);
    } else {
      assert c.log.output + joined == c.log.output;
    }
  }

  lemma OrdinalsNext(n: nat)
    ensures n > 0 ==> Ordinals(n) == Ordinals(n - 1) + [n]
  {
  }

  lemma ReturnTurns(c: Conn, o: Outcome)
    requires TurnsOk(c) && OutputOk(c) && c.over.None?
    ensures TurnsOk(Return(c, o)) && OutputOk(Return(c, o))
  {
    hide OutputOk;
    ReturnOutput(c, o);
  }

  lemma ReturnControls(c: Conn, o: Outcome)
    requires ControlsOk(c) && RepliesOk(c)
    ensures ControlsOk(Return(c, o)) && RepliesOk(Return(c, o))
  {
    hide ControlsOk, RepliesOk, ReplyIds;
    var d := Return(c, o);
    var joined := if c.turn.Some? && c.turnDone == [] then [TurnResult(|c.log.started|)] else [];
    if joined != [] {
      Appended(c.log.output, joined[0]);
    } else {
      assert c.log.output + joined == c.log.output;
    }
    SameControls(c, d);
  }

  lemma StartTurns(c: Conn)
    requires TurnsOk(c) && OutputOk(c) && c.over.None? && c.turn.None? && c.queue != [] && c.pending == map[]
    ensures TurnsOk(Top(c)) && OutputOk(Top(c))
  {
    var d := Top(c);
    assert c.queue == [c.queue[0]] + c.queue[1..];
  }

  lemma TopSound(c: Conn)
    requires Sound(c) && c.over.None?
    ensures Sound(Top(c)) && AtSelect(Top(c))
    ensures |Top(c).log.started| > |c.log.started| ==> c.pending == map[] && c.turn.None?
  {
    hide TurnsOk, OutputOk, ControlsOk, RepliesOk, Return;
    if c.turn.None? && c.queue != [] && c.pending == map[] {
      StartTurns(c);
      SameControls(c, Top(c));
    } else if !c.open && c.turn.None? && c.queue == [] && c.pending == map[] {
      var o := if c.inputErr || (c.users == 0 && c.received == 0) then InputFailed else Clean;
      ReturnTurns(c, o);
      ReturnControls(c, o);
      ReturnKeeps(c, o);
    }
  }

  lemma ReturnKeeps(c: Conn, o: Outcome)
    ensures var d := Return(c, o);
      && d.over == Some(o) && d.turn.None? && d.open == c.open && d.queue == c.queue && d.pending == c.pending
      && d.inputErr == c.inputErr && d.users == c.users && d.received == c.received && d.log.started == c.log.started
      && d.log.failed == (o.Cancelled? || o.InputFailed?)
      && d.log.output == c.log.output + if c.turn.Some? && c.turnDone == [] then [TurnResult(|c.log.started|)] else []
  {
  }

  // Only the turn's side of the connection differs.
  lemma SameControls(c: Conn, d: Conn)
    requires ControlsOk(c) && RepliesOk(c)
    requires d.pending == c.pending && d.pendingSizes == c.pendingSizes && d.pendingBytes == c.pendingBytes
    requires d.controls == c.controls && d.worker == c.worker && d.results == c.results
    requires d.log.admitted == c.log.admitted && d.log.served == c.log.served && d.log.requests == c.log.requests
    requires ReplyIds(d.log.output) == ReplyIds(c.log.output)
    ensures ControlsOk(d) && RepliesOk(d)
  {
    assert InFlight(d) == InFlight(c);
  }

  // Only the controls' side of the connection differs.
  lemma SameTurns(c: Conn, d: Conn)
    requires TurnsOk(c) && OutputOk(c)
    requires d.queue == c.queue && d.queuedBytes == c.queuedBytes && d.users == c.users
    requires d.turn == c.turn && d.turnCancelled == c.turnCancelled && d.turnDone == c.turnDone && d.interrupted == c.interrupted
    requires d.open == c.open && d.inputErr == c.inputErr && d.over == c.over
    requires d.log.accepted == c.log.accepted && d.log.started == c.log.started && d.log.finished == c.log.finished
    requires d.log.output == c.log.output && d.log.failed == c.log.failed
    ensures TurnsOk(d) && OutputOk(d)
  {
  }

  lemma SayTurns(c: Conn, id: string)
    requires TurnsOk(c) && OutputOk(c) && c.over.None?
    ensures TurnsOk(Say(c, Reply(id))) && OutputOk(Say(c, Reply(id)))
  {
    Appended(c.log.output, Reply(id));
  }

  lemma Moved(c: Conn, a: Action)
    requires Enabled(c, a) && (a.WorkerTakes? || a.WorkerAnswers?)
    ensures InFlight(Next(c, a)) == InFlight(c)
  {
    var d := Next(c, a);
    if a.WorkerTakes? {
      assert c.controls == d.worker + d.controls;
    } else {
      assert d.results + d.worker == c.results + c.worker;
    }
  }

  lemma WorkerSound(c: Conn, a: Action)
    requires Sound(c) && Enabled(c, a) && (a.WorkerTakes? || a.WorkerAnswers?)
    ensures Sound(Next(c, a)) && Next(c, a).log == c.log && Next(c, a).pending == c.pending
  {
    hide TurnsOk, OutputOk, Tracks, InFlight, JobIds, ReplyIds;
    SameTurns(c, Next(c, a));
    Moved(c, a);
  }

  lemma TurnEndsSound(c: Conn, failed: bool)
    requires Sound(c) && Enabled(c, TurnEnds(failed))
    ensures Sound(Next(c, TurnEnds(failed)))
  {
    hide ControlsOk, RepliesOk;
    var d := Next(c, TurnEnds(failed));
    Appended(c.log.output, TurnResult(|c.log.started|));
    SameControls(c, d);
  }

  lemma TurnDoneSound(c: Conn)
    requires Sound(c) && Enabled(c, GotTurnDone)
    ensures Sound(OnTurnDone(c))
  {
    hide ControlsOk, RepliesOk;
    var d := c.(turn := None, turnDone := c.turnDone[1..], log := c.log.(finished := c.log.finished + [c.turn.value]));
    SameControls(c, d);
    if c.turnDone[0] && !c.interrupted {
      ReturnTurns(d, TurnFailed);
      ReturnControls(d, TurnFailed);
    }
  }

  lemma {:induction false} IdSetMember(js: seq<Job>, i: nat)
    requires i < |js|
    ensures js[i].id in IdSet(js)
  {
    if i > 0 { IdSetMember(js[1..], i - 1); }
  }

  lemma TracksFewer(js: seq<Job>, pending: map<string, bool>, sizes: map<string, nat>, bytes: int)
    requires Tracks(js, pending, sizes, bytes) && js != []
    ensures js[0].id in pending && js[0].id in sizes && sizes[js[0].id] == js[0].size
    ensures Tracks(js[1..], pending - {js[0].id}, sizes - {js[0].id}, bytes - js[0].size)
    ensures JobIds(js) == [js[0].id] + JobIds(js[1..])
  {
    forall i | 0 <= i < |js[1..]|
      ensures js[1..][i].id in sizes - {js[0].id} && sizes[js[1..][i].id] == js[1..][i].size
    {
      IdSetMember(js[1..], i);
      assert js[1..][i] == js[i + 1];
    }
    assert (pending - {js[0].id}).Keys == IdSet(js[1..]);
    assert (sizes - {js[0].id}).Keys == IdSet(js[1..]);
  }

  lemma {:induction false} IdSetAppend(js: seq<Job>, j: Job)
    ensures IdSet(js + [j]) == IdSet(js) + {j.id}
    ensures j.id !in IdSet(js) && Distinct(js) ==> Distinct(js + [j])
  {
    if js == [] {
      assert IdSet([j][1..]) == {};
    } else {
      IdSetAppend(js[1..], j);
      assert (js + [j])[1..] == js[1..] + [j];
    }
  }

  lemma TracksMore(js: seq<Job>, pending: map<string, bool>, sizes: map<string, nat>, bytes: int, j: Job)
    requires Tracks(js, pending, sizes, bytes) && j.id !in pending
    ensures Tracks(js + [j], pending[j.id := false], sizes[j.id := j.size], bytes + j.size)
    ensures JobIds(js + [j]) == JobIds(js) + [j.id]
  {
    hide Distinct, IdSet;
    BytesAppend(js, j);
    IdSetAppend(js, j);
    assert forall i :: 0 <= i < |js| ==> js[i].id != j.id by {
      forall i | 0 <= i < |js|
        ensures js[i].id in pending
      {
        IdSetMember(js, i);
      }
    }
  }

  lemma {:induction false} IdSetSize(js: seq<Job>)
    requires Distinct(js)
    ensures |IdSet(js)| == |js|
  {
    if js != [] { IdSetSize(js[1..]); }
  }

  lemma TracksSize(js: seq<Job>, pending: map<string, bool>, sizes: map<string, nat>, bytes: int)
    requires Tracks(js, pending, sizes, bytes)
    ensures |js| == |pending|
  {
    IdSetSize(js);
    assert |pending.Keys| == |pending|;
  }

  lemma Removed(pending: map<string, bool>, id: string)
    requires id in pending
    ensures |pending - {id}| == |pending| - 1
  {
    var rest := pending - {id};
    assert rest.Keys == pending.Keys - {id};
    assert |rest.Keys| == |rest| && |pending.Keys| == |pending|;
  }

  lemma InFlightMoves(c: Conn, d: Conn, j: Job)
    ensures d.results == c.results && d.worker == c.worker && d.controls == c.controls + [j] ==>
              InFlight(d) == InFlight(c) + [j]
    ensures c.results != [] && d.results == c.results[1..] && d.worker == c.worker && d.controls == c.controls ==>
              InFlight(c) != [] && InFlight(c)[0] == c.results[0] && InFlight(d) == InFlight(c)[1..]
  {
  }

  lemma ResultControls(c: Conn, d: Conn)
    requires ControlsOk(c) && c.results != []
    requires d.pending == c.pending - {c.results[0].id} && d.pendingSizes == c.pendingSizes - {c.results[0].id}
    requires d.pendingBytes == c.pendingBytes - c.results[0].size
    requires d.controls == c.controls && d.worker == c.worker && d.results == c.results[1..]
    ensures ControlsOk(d) && JobIds(InFlight(c)) == [c.results[0].id] + JobIds(InFlight(d))
  {
    hide Tracks, JobIds, InFlight;
    InFlightMoves(c, d, c.results[0]);
    TracksFewer(InFlight(c), c.pending, c.pendingSizes, c.pendingBytes);
    Removed(c.pending, c.results[0].id);
  }

  lemma OnResultSound(c: Conn, written: bool)
    requires Sound(c) && Enabled(c, GotResult(written))
    ensures Sound(OnResult(c, written))
  {
    hide TurnsOk, OutputOk, Tracks, JobIds, ReplyIds, Return;
    var id := c.results[0].id;
    assert InFlight(c)[0] == c.results[0];
    TracksFewer(InFlight(c), c.pending, c.pendingSizes, c.pendingBytes);
    var d := c.(results := c.results[1..], pending := c.pending - {id}, pendingSizes := c.pendingSizes - {id},
                pendingBytes := c.pendingBytes - c.results[0].size);
    assert c.pendingSizes[id] == c.results[0].size;
    SameTurns(c, d);
    if written {
      var e := d.(log := d.log.(served := d.log.served + [id]));
      ResultControls(c, Say(e, Reply(id)));
      assert InFlight(e) == InFlight(Say(e, Reply(id)));
      SameTurns(c, e);
      SayTurns(e, id);
      Appended(c.log.output, Reply(id));
      Answered(c.log.requests, ReplyIds(c.log.output), id, JobIds(InFlight(e)));
    } else {
      ReturnTurns(d, WriteFailed);
      ReturnKeeps(d, WriteFailed);
    }
  }

  lemma Answered(requests: seq<string>, replies: seq<string>, id: string, rest: seq<string>)
    requires multiset(requests) == multiset(replies) + multiset([id] + rest)
    ensures multiset(requests) == multiset(replies + [id]) + multiset(rest)
    ensures forall a: seq<string> :: a + ([id] + rest) == a + [id] + rest
  {
    assert multiset([id] + rest) == multiset{id} + multiset(rest);
  }

  lemma ControlsInFlight(c: Conn)
    ensures |c.controls| <= |InFlight(c)|
  {
  }

  lemma AdmitControls(c: Conn, d: Conn, id: string, size: nat)
    requires ControlsOk(c) && id !in c.pending && |c.pending| < MAX_PENDING && c.pendingBytes + size <= LIMIT
    requires d.pending == c.pending[id := false] && d.pendingSizes == c.pendingSizes[id := size]
    requires d.pendingBytes == c.pendingBytes + size
    requires d.controls == c.controls + [Job(id, size)] && d.worker == c.worker && d.results == c.results
    ensures ControlsOk(d) && JobIds(InFlight(d)) == JobIds(InFlight(c)) + [id]
    // There is room in the controls channel, so the send at line 291 does not block.
    ensures |c.controls| < MAX_PENDING
  {
    hide Tracks, JobIds, InFlight;
    TracksSize(InFlight(c), c.pending, c.pendingSizes, c.pendingBytes);
    ControlsInFlight(c);
    InFlightMoves(c, d, Job(id, size));
    TracksMore(InFlight(c), c.pending, c.pendingSizes, c.pendingBytes, Job(id, size));
  }

  lemma OnControlSound(c: Conn, id: string, size: nat, interrupt: bool, written: bool)
    requires Sound(c) && c.over.None? && c.open
    ensures Sound(OnControl(c, id, size, interrupt, written))
  {
    hide Bytes, JobIds, ReplyIds, Return, TurnsOk, OutputOk, ControlsOk, RepliesOk;
    if BadId(id) || id in c.pending {
      ShutSound(c);
    } else {
      var d := c.(log := c.log.(requests := c.log.requests + [id]));
      SameTurns(c, d);
      if interrupt {
        InterruptTurns(d);
        RepliedNow(c, Interrupted(d), id, written);
      } else if |d.pending| >= MAX_PENDING || d.pendingBytes + size > LIMIT {
        RepliedNow(c, d, id, written);
      } else {
        AdmitSound(c, id, size);
      }
    }
  }

  lemma KeepsOpen(c: Conn, id: string)
    ensures Asked(c, id).over == c.over && Interrupted(Asked(c, id)).over == c.over
  {
  }

  lemma RetiredIs(c: Conn)
    requires c.results != []
    ensures Retired(c).over == c.over
  {
  }

  lemma InterruptTurns(d: Conn)
    requires TurnsOk(d) && OutputOk(d)
    ensures TurnsOk(Interrupted(d)) && OutputOk(Interrupted(d))
  {
    hide Chars, TurnResults;
  }

  lemma ShutSound(c: Conn)
    requires Sound(c) && c.over.None?
    ensures Sound(Shut(c))
  {
    hide ControlsOk, RepliesOk, ReplyIds, Chars, TurnResults;
    SameControls(c, Shut(c));
  }

  // A request that is answered on the spot.
  lemma RepliedNow(c: Conn, e: Conn, id: string, written: bool)
    requires Sound(c) && c.over.None? && TurnsOk(e) && OutputOk(e) && e.over.None?
    requires e.pending == c.pending && e.pendingSizes == c.pendingSizes && e.pendingBytes == c.pendingBytes
    requires e.controls == c.controls && e.worker == c.worker && e.results == c.results
    requires e.log.admitted == c.log.admitted && e.log.served == c.log.served
    requires e.log.requests == c.log.requests + [id] && e.log.output == c.log.output
    ensures Sound(if written then Say(e, Reply(id)) else Return(e, WriteFailed))
  {
    hide TurnsOk, OutputOk, Return, ReplyIds, ControlsOk, RepliesOk;
    if written {
      var f := Say(e, Reply(id));
      SayTurns(e, id);
      Appended(c.log.output, Reply(id));
      SameJobs(c, f);
      MoreReplied(c, f, id);
    } else {
      ReturnTurns(e, WriteFailed);
      ReturnKeeps(e, WriteFailed);
    }
  }

  lemma SameJobs(c: Conn, f: Conn)
    requires ControlsOk(c)
    requires f.pending == c.pending && f.pendingSizes == c.pendingSizes && f.pendingBytes == c.pendingBytes
    requires f.controls == c.controls && f.worker == c.worker && f.results == c.results
    ensures ControlsOk(f) && InFlight(f) == InFlight(c)
  {
  }

  lemma MoreReplied(c: Conn, f: Conn, id: string)
    requires RepliesOk(c) && InFlight(f) == InFlight(c)
    requires f.log.admitted == c.log.admitted && f.log.served == c.log.served
    requires f.log.requests == c.log.requests + [id] && ReplyIds(f.log.output) == ReplyIds(c.log.output) + [id]
    ensures RepliesOk(f)
  {
    hide ReplyIds, InFlight, JobIds;
    assert multiset(f.log.requests) == multiset(c.log.requests) + multiset{id};
    assert multiset(ReplyIds(f.log.output)) == multiset(ReplyIds(c.log.output)) + multiset{id};
  }

  lemma AdmitSound(c: Conn, id: string, size: nat)
    requires Sound(c) && c.over.None? && id !in c.pending && |c.pending| < MAX_PENDING && c.pendingBytes + size <= LIMIT
    requires !BadId(id) && c.open
    ensures Sound(OnControl(c, id, size, false, true)) && Sound(OnControl(c, id, size, false, false))
    ensures |c.controls| < MAX_PENDING
  {
    hide TurnsOk, OutputOk, ReplyIds, Bytes, JobIds, ControlsOk;
    var d := OnControl(c, id, size, false, true);
    SameTurns(c, d);
    assert |c.pending| < MAX_PENDING && c.pendingBytes + size <= LIMIT;
    AdmitControls(c, d, id, size);
    assert multiset(d.log.requests) == multiset(c.log.requests) + multiset{id};
    assert multiset(JobIds(InFlight(d))) == multiset(JobIds(InFlight(c))) + multiset{id};
  }

  lemma OnUserSound(c: Conn, prompt: Option<string>)
    requires Sound(c) && c.over.None? && c.open
    ensures Sound(OnUser(c, prompt))
  {
    hide ControlsOk, RepliesOk, ReplyIds, TurnResults, Chars;
    if prompt.None? || |c.queue| >= MAX_QUEUE || c.queuedBytes + |prompt.value| > LIMIT {
      ShutSound(c);
    } else {
      CharsAppend(c.queue, prompt.value);
      SameControls(c, OnUser(c, prompt));
    }
  }

  lemma CancelledControls(c: Conn, id: string)
    requires ControlsOk(c) && RepliesOk(c) && id in c.pending
    ensures ControlsOk(c.(pending := c.pending[id := true])) && RepliesOk(c.(pending := c.pending[id := true]))
  {
    hide Distinct, JobIds, Bytes, ReplyIds, IdSet;
    var d := c.(pending := c.pending[id := true]);
    assert InFlight(d) == InFlight(c);
    assert d.pending.Keys == c.pending.Keys;
    assert |d.pending.Keys| == |d.pending| && |c.pending.Keys| == |c.pending|;
  }

  lemma OnFrameSound(c: Conn, f: Frame, written: bool)
    requires Sound(c) && Enabled(c, GotFrame(f, written))
    ensures Sound(OnFrame(c, f, written))
  {
    hide TurnsOk, OutputOk, ControlsOk, RepliesOk, OnControl, OnUser, Shut;
    ShutSound(c);
    var d := c.(received := c.received + 1);
    SameTurns(c, d);
    SameControls(c, d);
    ShutSound(d);
    match f
    case Control(id, size, interrupt) => OnControlSound(d, id, size, interrupt, written);
    case CancelControl(id) =>
      if id in d.pending {
        CancelledControls(d, id);
        SameTurns(d, d.(pending := d.pending[id := true]));
      }
    case User(prompt) => OnUserSound(d, prompt);
    case _ =>
  }

  // Every step of the connection keeps the invariant.
  lemma NextSound(c: Conn, a: Action)
    requires Sound(c) && Enabled(c, a)
    ensures Sound(Next(c, a))
  {
    hide Sound, Top, OnResult, OnFrame, OnTurnDone, Return;
    match a
    case GotResult(written) =>
      OnResultSound(c, written);
      SettledSound(OnResult(c, written));
    case GotTurnDone =>
      TurnDoneSound(c);
      SettledSound(OnTurnDone(c));
    case GotFrame(f, written) =>
      OnFrameSound(c, f, written);
      SettledSound(OnFrame(c, f, written));
    case GotEnd =>
      EndSound(c);
      SettledSound(c.(open := false));
    case GotCancel => ReturnSound(c);
    case TurnEnds(failed) => TurnEndsSound(c, failed);
    case _ => WorkerSound(c, a);
  }

  lemma SettledSound(c: Conn)
    requires Sound(c)
    ensures Sound(Settled(c)) && AtSelect(Settled(c))
  {
    hide Sound, Top;
    if c.over.None? { TopSound(c); }
  }

  lemma EndSound(c: Conn)
    requires Sound(c) && c.over.None?
    ensures Sound(c.(open := false))
  {
    hide ControlsOk, RepliesOk, ReplyIds, Chars, TurnResults;
    SameControls(c, c.(open := false));
  }

  lemma ReturnSound(c: Conn)
    requires Sound(c) && c.over.None?
    ensures Sound(Return(c, Cancelled))
  {
    hide TurnsOk, OutputOk, ControlsOk, RepliesOk, Return;
    ReturnTurns(c, Cancelled);
    ReturnControls(c, Cancelled);
    ReturnKeeps(c, Cancelled);
  }

  // ----- whole runs -----

  predicate Playable(c: Conn, acts: seq<Action>)
    decreases |acts|
  {
    acts == [] || (Enabled(c, acts[0]) && Playable(Next(c, acts[0]), acts[1..]))
  }

  function Play(c: Conn, acts: seq<Action>): Conn
    requires Playable(c, acts)
    decreases |acts|
  {
    if acts == [] then c else Play(Next(c, acts[0]), acts[1..])
  }

  lemma OpenedSound()
    ensures Sound(Opened()) && AtSelect(Opened())
  {
    assert InFlight(Opened()) == [];
  }

  lemma StaysAtSelect(c: Conn, a: Action)
    requires Sound(c) && AtSelect(c) && Enabled(c, a)
    ensures AtSelect(Next(c, a))
  {
    hide Sound, TurnsOk, OutputOk, ControlsOk, RepliesOk, OnResult, OnFrame, OnTurnDone, Return, Top;
    match a
    case GotResult(written) =>
      OnResultSound(c, written);
      SettledSound(OnResult(c, written));
    case GotTurnDone =>
      TurnDoneSound(c);
      SettledSound(OnTurnDone(c));
    case GotFrame(f, written) =>
      OnFrameSound(c, f, written);
      SettledSound(OnFrame(c, f, written));
    case GotEnd =>
      EndSound(c);
      SettledSound(c.(open := false));
    case GotCancel => ReturnKeeps(c, Cancelled);
    case _ =>
  }

  lemma {:induction false} PlaySound(c: Conn, acts: seq<Action>)
    requires Sound(c) && AtSelect(c) && Playable(c, acts)
    ensures Sound(Play(c, acts)) && AtSelect(Play(c, acts))
    decreases |acts|
  {
    hide Sound, AtSelect, Next, Enabled;
    if acts != [] {
      NextSound(c, acts[0]);
      StaysAtSelect(c, acts[0]);
      PlaySound(Next(c, acts[0]), acts[1..]);
    }
  }

  // Every well-formed control request has been replied to exactly once under its own ID or is in
  // flight in exactly one place, unless a reply could not be written. When the loop ends for want
  // of input, every request has its reply and every accepted prompt has run.
  lemma RepliedOnce(acts: seq<Action>)
    requires Playable(Opened(), acts)
    ensures var c := Play(Opened(), acts);
      && (c.over != Some(WriteFailed) ==>
            multiset(c.log.requests) == multiset(ReplyIds(c.log.output)) + multiset(JobIds(InFlight(c))))
      && (c.over in {Some(Clean), Some(InputFailed)} ==>
            && multiset(c.log.requests) == multiset(ReplyIds(c.log.output))
            && c.log.served == c.log.admitted && c.log.finished == c.log.accepted)
      && (c.over == Some(Clean) ==> !c.inputErr && !c.open && (c.users > 0 || c.received > 0))
  {
    hide Playable, Play, AtSelect, TurnsOk, OutputOk, ReplyIds;
    var c := Play(Opened(), acts);
    OpenedSound();
    PlaySound(Opened(), acts);
    if c.over in {Some(Clean), Some(InputFailed)} {
      NothingInFlight(c);
      DrainedTurns(c);
    }
  }

  lemma DrainedTurns(c: Conn)
    requires TurnsOk(c) && Drained(c)
    ensures c.log.finished == c.log.accepted
  {
  }

  lemma NothingInFlight(c: Conn)
    requires ControlsOk(c) && c.pending == map[]
    ensures InFlight(c) == [] && JobIds(InFlight(c)) == []
  {
    TracksSize(InFlight(c), c.pending, c.pendingSizes, c.pendingBytes);
  }

  // The state in which the loop's top finds the connection after an arm of the select.
  function Arm(c: Conn, a: Action): Conn
    requires Enabled(c, a) && (a.GotResult? || a.GotTurnDone? || a.GotFrame? || a.GotEnd?)
  {
    match a
    case GotResult(written) => OnResult(c, written)
    case GotTurnDone => OnTurnDone(c)
    case GotFrame(f, written) => OnFrame(c, f, written)
    case GotEnd => c.(open := false)
  }

  lemma ArmStartsNothing(c: Conn, a: Action)
    requires Enabled(c, a) && (a.GotResult? || a.GotTurnDone? || a.GotFrame? || a.GotEnd?)
    ensures Arm(c, a).log.started == c.log.started && Next(c, a) == Settled(Arm(c, a))
  {
    hide Settled, OnControl, Return;
    match a
    case GotFrame(Control(id, size, interrupt), written) =>
      ControlStartsNothing(c.(received := c.received + 1), id, size, interrupt, written);
    case GotResult(written) => ResultStartsNothing(c, written);
    case GotTurnDone => TurnDoneStartsNothing(c);
    case _ =>
  }

  lemma ControlStartsNothing(c: Conn, id: string, size: nat, interrupt: bool, written: bool)
    ensures OnControl(c, id, size, interrupt, written).log.started == c.log.started
  {
    hide BadId, Return;
    ReturnKeeps(Asked(c, id), WriteFailed);
    ReturnKeeps(Interrupted(Asked(c, id)), WriteFailed);
  }

  lemma ResultStartsNothing(c: Conn, written: bool)
    requires c.results != []
    ensures OnResult(c, written).log.started == c.log.started && OnResult(c, written).open == c.open
  {
  }

  lemma TurnDoneStartsNothing(c: Conn)
    requires c.turnDone != [] && c.turn.Some?
    ensures OnTurnDone(c).log.started == c.log.started && OnTurnDone(c).open == c.open
  {
  }

  lemma TopStarts(c: Conn)
    requires Sound(c) && c.over.None?
    ensures Top(c).log.started != c.log.started ==>
              && c.pending == map[] && Top(c).pending == map[] && c.turn.None? && Top(c).turn.Some?
              && |Top(c).log.started| == |c.log.started| + 1 && Top(c).log.finished == c.log.started
              && |c.log.started| + 1 <= |Top(c).log.accepted| && Top(c).log.started == Top(c).log.accepted[..|c.log.started| + 1]
  {
    hide ControlsOk, RepliesOk, OutputOk;
  }

  lemma ArmSound(c: Conn, a: Action)
    requires Sound(c) && Enabled(c, a) && (a.GotResult? || a.GotTurnDone? || a.GotFrame? || a.GotEnd?)
    ensures Sound(Arm(c, a))
  {
    hide Sound, OnResult, OnTurnDone, OnFrame;
    match a
    case GotResult(written) => OnResultSound(c, written);
    case GotTurnDone => TurnDoneSound(c);
    case GotFrame(f, written) => OnFrameSound(c, f, written);
    case GotEnd => EndSound(c);
  }

  // A step that starts a turn starts the one next in line, with no other turn and no control pending.
  ghost predicate StartsInOrder(c: Conn, d: Conn) {
    d.log.started != c.log.started ==>
      && |d.log.started| == |c.log.started| + 1 <= |d.log.accepted| && d.log.started == d.log.accepted[..|c.log.started| + 1]
      && d.log.finished == c.log.started && d.pending == map[] && d.turn.Some?
  }

  lemma StepStarts(c: Conn, a: Action)
    requires Sound(c) && Enabled(c, a)
    ensures StartsInOrder(c, Next(c, a))
  {
    hide Sound, Top, OnResult, OnTurnDone, OnFrame, Return;
    NextSound(c, a);
    AcceptedFirst(Next(c, a));
    if a.GotResult? || a.GotTurnDone? || a.GotFrame? || a.GotEnd? {
      ArmStartsNothing(c, a);
      ArmSound(c, a);
      if Arm(c, a).over.None? { TopStarts(Arm(c, a)); }
    } else if a.GotCancel? {
      ReturnKeeps(c, Cancelled);
    }
  }

  lemma AcceptedFirst(c: Conn)
    requires Sound(c)
    ensures c.log.started <= c.log.accepted && |c.log.started| <= |c.log.accepted|
    ensures |c.log.finished| <= |c.log.started| <= |c.log.finished| + 1
    ensures c.over.Some? ==> c.log.finished == c.log.started && TurnResults(c.log.output) == Ordinals(|c.log.started|)
  {
  }

  // Turns start in the order their prompts were accepted, one at a time, and only when no control
  // request is pending; whichever way the loop ends, every turn started has ended and its result
  // was written before any failure envelope.
  lemma TurnsInOrder(acts: seq<Action>, a: Action)
    requires Playable(Opened(), acts) && Enabled(Play(Opened(), acts), a)
    ensures var c, d := Play(Opened(), acts), Next(Play(Opened(), acts), a);
      && c.log.started <= c.log.accepted && |c.log.finished| <= |c.log.started| <= |c.log.finished| + 1
      && StartsInOrder(c, d)
      && (d.over.Some? ==> d.log.finished == d.log.started && TurnResults(d.log.output) == Ordinals(|d.log.started|))
  {
    hide Sound, Playable, Play, AtSelect, Next;
    var c := Play(Opened(), acts);
    OpenedSound();
    PlaySound(Opened(), acts);
    NextSound(c, a);
    StepStarts(c, a);
    AcceptedFirst(c);
    AcceptedFirst(Next(c, a));
  }

  // ----- draining -----

  function Remaining(c: Conn): nat {
    3 * |c.queue| + 3 * |c.controls| + 2 * |c.worker| + |c.results| +
    (if c.turn.None? then 0 else if c.turnDone == [] then 2 else 1)
  }

  lemma TopRemains(c: Conn)
    requires c.over.None?
    ensures Remaining(Top(c)) <= Remaining(c) && Top(c).open == c.open
  {
  }

  // Once the input has ended, every step brings the end nearer, and until the end some step of the
  // worker, of the turn or of the loop can be taken.
  lemma Drains(c: Conn, a: Action)
    requires Sound(c) && AtSelect(c) && !c.open && Enabled(c, a)
    ensures !Next(c, a).open && (Next(c, a).over.Some? || Remaining(Next(c, a)) < Remaining(c))
  {
    hide Sound, Top, OnFrame;
    if a.GotResult? || a.GotTurnDone? {
      ArmDrains(c, a);
      if Arm(c, a).over.None? { TopRemains(Arm(c, a)); }
    }
  }

  lemma ArmDrains(c: Conn, a: Action)
    requires Enabled(c, a) && (a.GotResult? || a.GotTurnDone?) && !c.open
    ensures !Arm(c, a).open && (Arm(c, a).over.Some? || Remaining(Arm(c, a)) < Remaining(c))
    ensures Next(c, a) == Settled(Arm(c, a))
  {
    hide Settled, OnResult, OnTurnDone, Remaining;
    if a.GotResult? { ResultDrains(c, a.written); } else { TurnDoneDrains(c); }
  }

  lemma ResultDrains(c: Conn, written: bool)
    requires c.results != [] && !c.open
    ensures !OnResult(c, written).open && (OnResult(c, written).over.Some? || Remaining(OnResult(c, written)) < Remaining(c))
  {
    hide Return;
    ReturnKeeps(Retired(c), WriteFailed);
  }

  lemma TurnDoneDrains(c: Conn)
    requires c.turnDone != [] && c.turn.Some? && !c.open
    ensures !OnTurnDone(c).open && (OnTurnDone(c).over.Some? || Remaining(OnTurnDone(c)) < Remaining(c))
  {
  }

  lemma DrainMoves(c: Conn)
    requires Sound(c) && AtSelect(c) && !c.open && c.over.None?
    ensures exists a :: Enabled(c, a) && !a.GotCancel?
  {
    if c.turn.Some? {
      assert if c.turnDone == [] then Enabled(c, TurnEnds(false)) else Enabled(c, GotTurnDone);
    } else {
      assert InFlight(c) != [] by {
        TracksSize(InFlight(c), c.pending, c.pendingSizes, c.pendingBytes);
      }
      assert if c.results != [] then Enabled(c, GotResult(true))
             else if c.worker != [] then Enabled(c, WorkerAnswers)
             else Enabled(c, WorkerTakes);
    }
  }

  // ----- the loop itself -----

  class Connection {
    var queue: seq<string>
    var queuedBytes: int
    var users: nat
    var received: nat
    var pending: map<string, bool>
    var pendingSizes: map<string, nat>
    var pendingBytes: int
    // The channels: requests on their way to the worker, the one it works on, its results, and the
    // ended turn's error.
    var controls: seq<Job>
    var worker: seq<Job>
    var results: seq<Job>
    var turnDone: seq<bool>
    var turn: Option<string>
    var turnCancelled: bool
    var interrupted: bool
    var framesOpen: bool
    var inputErr: bool
    var over: Option<Outcome>
    ghost var log: Log

    ghost function View(): Conn
      reads this
    {
      Conn(queue, queuedBytes, users, received, pending, pendingSizes, pendingBytes, controls, worker, results,
           turn, turnCancelled, turnDone, interrupted, framesOpen, inputErr, over, log)
    }

    constructor ()
      ensures View() == Opened()
    {
      queue, queuedBytes, users, received := [], 0, 0, 0;
      pending, pendingSizes, pendingBytes := map[], map[], 0;
      controls, worker, results, turnDone := [], [], [], [];
      turn, turnCancelled, interrupted, framesOpen, inputErr, over := None, false, false, true, false, None;
      log := Opened().log;
    }

    method Leave(o: Outcome)
      modifies this
      ensures View() == Return(old(View()), o)
    {
      log := Return(View(), o).log;
      over := Some(o);
      if turn.Some? { turn, turnDone := None, []; }
      turnDone := [];
    }

    method Dequeue() returns (prompt: string)
      requires queue != []
      modifies this`queue, this`queuedBytes
      ensures prompt == old(queue)[0] && queue == old(queue)[1..] && queuedBytes == old(queuedBytes) - |prompt|
    {
      prompt := queue[0];
      queue := queue[1..];
      queuedBytes := queuedBytes - |prompt|;
    }

    method StartTurn()
      requires turn.None? && queue != [] && pending == map[]
      modifies this
      ensures View() == Top(old(View()))
    {
      var prompt := Dequeue();
      turn, turnCancelled, interrupted := Some(prompt), false, false;
      log := log.(started := log.started + [prompt]);
    }

    method StartOrLeave()
      requires over.None?
      modifies this
      ensures View() == Top(old(View()))
    {
      hide Return;
      if turn.None? && |queue| > 0 && |pending| == 0 {
        StartTurn();
      } else if !framesOpen && turn.None? && |queue| == 0 && |pending| == 0 {
        if inputErr || (users == 0 && received == 0) {
          Leave(InputFailed);
        } else {
          Leave(Clean);
        }
      }
    }

    // The oldest result leaves the channel, and its request the table.
    method Retire() returns (id: string)
      requires results != []
      modifies this
      ensures View() == Retired(old(View())) && id == old(results)[0].id
    {
      id := results[0].id;
      results := results[1..];
      pending := pending - {id};
      pendingBytes := pendingBytes - if id in pendingSizes then pendingSizes[id] else 0;
      pendingSizes := pendingSizes - {id};
    }

    method StopReading()
      modifies this`inputErr, this`framesOpen
      ensures inputErr && !framesOpen
    {
      inputErr, framesOpen := true, false;
    }

    method Enqueue(prompt: string)
      modifies this`users, this`queue, this`queuedBytes
      ensures users == old(users) + 1 && queue == old(queue) + [prompt] && queuedBytes == old(queuedBytes) + |prompt|
    {
      users := users + 1;
      queue := queue + [prompt];
      queuedBytes := queuedBytes + |prompt|;
    }

    method Respond(id: string, written: bool)
      requires over.None?
      modifies this
      ensures View() == Responded(old(View()), id, written)
    {
      hide Return;
      if !written {
        Leave(WriteFailed);
        return;
      }
      log := log.(output := log.output + [Reply(id)]);
    }

    method HandleResult(written: bool)
      requires over.None? && results != []
      modifies this
      ensures View() == OnResult(old(View()), written)
    {
      hide Responded, Retired;
      assert Retired(View()).over.None? by { RetiredIs(View()); }
      var id := Retire();
      if written { log := log.(served := log.served + [id]); }
      Respond(id, written);
    }

    method HandleTurnDone()
      requires over.None? && turnDone != [] && turn.Some?
      modifies this
      ensures View() == OnTurnDone(old(View()))
    {
      hide Return;
      var failed := turnDone[0];
      log := log.(finished := log.finished + [turn.value]);
      turnDone := turnDone[1..];
      turn := None;
      if failed && !interrupted { Leave(TurnFailed); }
    }

    method Interrupt()
      modifies this
      ensures View() == Interrupted(old(View()))
    {
      if turn.Some? {
        interrupted, turnCancelled := true, true;
      }
    }

    method Track(id: string, size: nat)
      modifies this`pending, this`pendingSizes, this`pendingBytes
      ensures pending == old(pending)[id := false] && pendingSizes == old(pendingSizes)[id := size]
      ensures pendingBytes == old(pendingBytes) + size
    {
      pending := pending[id := false];
      pendingSizes := pendingSizes[id := size];
      pendingBytes := pendingBytes + size;
    }

    method Admit(id: string, size: nat)
      modifies this
      ensures View() == Admitted(old(View()), id, size)
    {
      Track(id, size);
      controls := controls + [Job(id, size)];
      log := log.(admitted := log.admitted + [id]);
    }

    method Ask(id: string)
      modifies this
      ensures View() == Asked(old(View()), id)
    {
      log := log.(requests := log.requests + [id]);
    }

    method HandleControl(id: string, size: nat, interrupt: bool, written: bool)
      requires over.None?
      modifies this
      ensures View() == OnControl(old(View()), id, size, interrupt, written)
    {
      hide Responded, BadId, Interrupted, Asked, Admitted;
      KeepsOpen(View(), id);
      if BadId(id) || id in pending {
        StopReading();
      } else if interrupt {
        Ask(id);
        Interrupt();
        Respond(id, written);
      } else if |pending| >= MAX_PENDING || pendingBytes + size > LIMIT {
        Ask(id);
        Respond(id, written);
      } else {
        Ask(id);
        Admit(id, size);
      }
    }

    method HandleUser(prompt: Option<string>)
      requires over.None?
      modifies this
      ensures View() == OnUser(old(View()), prompt)
    {
      if prompt.None? || |queue| >= MAX_QUEUE || queuedBytes + |prompt.value| > LIMIT {
        StopReading();
        return;
      }
      Enqueue(prompt.value);
      log := log.(accepted := log.accepted + [prompt.value]);
    }

    method HandleFrame(f: Frame, written: bool)
      requires over.None?
      modifies this
      ensures View() == OnFrame(old(View()), f, written)
    {
      hide OnControl, OnUser;
      if f == Bad {
        StopReading();
        return;
      }
      received := received + 1;
      match f
      case Control(id, size, interrupt) => HandleControl(id, size, interrupt, written);
      case CancelControl(id) => if id in pending { pending := pending[id := true]; }
      case User(prompt) => HandleUser(prompt);
      case Unknown => StopReading();
      case Ignored =>
      case Bad =>
    }

    method Settle()
      modifies this
      ensures View() == Settled(old(View()))
    {
      hide Top;
      if over.None? { StartOrLeave(); }
    }

    method WorkerStep()
      requires controls != [] && worker == []
      modifies this`worker, this`controls
      ensures worker == [old(controls)[0]] && controls == old(controls)[1..]
    {
      worker, controls := [controls[0]], controls[1..];
    }

    // One step of the worker or of the turn, which run beside the loop.
    method Beside(a: Action)
      requires Enabled(View(), a) && (a.WorkerTakes? || a.WorkerAnswers? || a.TurnEnds?)
      modifies this
      ensures View() == Next(old(View()), a)
    {
      match a
      case WorkerTakes => WorkerStep();
      case WorkerAnswers => results, worker := results + [worker[0]], worker[1..];
      case TurnEnds(failed) =>
        turnDone := [failed];
        log := log.(output := log.output + [TurnResult(|log.started|)]);
    }

    // One turn of the loop, or of the worker and turn beside it.
    method Advance(a: Action)
      requires Enabled(View(), a)
      modifies this
      ensures View() == Next(old(View()), a)
    {
      hide Settled, OnFrame, OnResult, OnTurnDone, Return;
      match a
      case GotResult(written) =>
        HandleResult(written);
        Settle();
      case GotTurnDone =>
        HandleTurnDone();
        Settle();
      case GotFrame(f, written) =>
        HandleFrame(f, written);
        Settle();
      case GotEnd =>
        framesOpen := false;
        Settle();
      case GotCancel => Leave(Cancelled);
      case _ => Beside(a);
    }

    // Any schedule of ready arms.
    method Serve(schedule: seq<Action>)
      requires View() == Opened() && Playable(View(), schedule)
      modifies this
      ensures View() == Play(Opened(), schedule) && Sound(View())
    {
      hide Sound, Next, Enabled, Opened, AtSelect;
      OpenedSound();
      PlaySound(View(), schedule);
      assert schedule[0..] == schedule;
      for i := 0 to |schedule|
        invariant Playable(View(), schedule[i..])
        invariant Play(View(), schedule[i..]) == Play(old(View()), schedule)
      {
        assert schedule[i..][1..] == schedule[i + 1..];
        Advance(schedule[i]);
      }
    }
  }
}
