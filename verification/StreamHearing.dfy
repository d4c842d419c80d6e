// What the connection does with what it hears (cmd/gokin/headless_control.go): the history is told from
// the schedule, not by the loop.

module StreamHearing {
  import opened Wrappers
  import opened StreamLoop

  // Control requests that were well-formed, those that went to the worker, prompts accepted, records
  // decoded, whether a record has ended the reading, the pending requests that were to be cancelled,
  // whether an interrupt has come since the running turn began, how the last turn to end ended, and the
  // outcome that the connection owes, if it does not drain.
  datatype Heard = Heard(
    requests: seq<string>, admitted: seq<string>, prompts: seq<string>, frames: nat, rejected: bool,
    cancels: set<string>, cut: bool, failed: bool, due: Option<Outcome>)

  const NOTHING := Heard([], [], [], 0, false, {}, false, false, None)

  // A control request with a usable ID that no pending one has.
  predicate Proper(c: Conn, f: Frame) { f.Control? && Usable(f.id) && f.id !in c.pending }

  // Neither empty nor overlong, and on one line.
  predicate Usable(id: string) {
    0 < |id| <= 256 && forall i :: 0 <= i < |id| ==> id[i] !in {'\0', '\n', '\r'}
  }

  // No room in the table of pending requests.
  predicate Full(c: Conn, size: nat) { |InFlight(c)| >= 32 || Bytes(InFlight(c)) + size > 0x100_0000 }

  predicate NoRoom(c: Conn, prompt: string) { |c.queue| >= 64 || Chars(c.queue) + |prompt| > 0x100_0000 }

  // A record after which nothing more is read.
  predicate Rejects(c: Conn, f: Frame) {
    match f
    case Bad => true
    case Unknown => true
    case Control(_, _, _) => !Proper(c, f)
    case User(prompt) => prompt.None? || NoRoom(c, prompt.value)
    case _ => false
  }

  // An interrupt that comes while a turn runs.
  predicate Cuts(c: Conn, a: Action) { a.GotFrame? && Proper(c, a.frame) && a.frame.interrupt && c.turn.Some? }

  // A reply is due at once, and cannot be written.
  predicate Unwritten(c: Conn, a: Action) {
    match a
    case GotResult(written) => !written
    case GotFrame(f, written) => !written && Proper(c, f) && (f.interrupt || Full(c, f.size))
    case _ => false
  }

  function Due(h: Heard, c: Conn, a: Action): Option<Outcome> {
    if a.GotCancel? then Some(Cancelled)
    else if Unwritten(c, a) then Some(WriteFailed)
    else if a.GotTurnDone? && h.failed && !h.cut then Some(TurnFailed)
    else h.due
  }

  // A record that does not end the reading.
  function Taken(n: Heard, c: Conn, f: Frame): Heard {
    match f
    case Control(id, size, interrupt) =>
      var r := n.(requests := n.requests + [id]);
      if interrupt then r.(cut := r.cut || c.turn.Some?)
      else if Full(c, size) then r
      else r.(admitted := r.admitted + [id], cancels := r.cancels - {id})
    case CancelControl(id) => if id in c.pending then n.(cancels := n.cancels + {id}) else n
    case User(prompt) => if prompt.Some? then n.(prompts := n.prompts + [prompt.value]) else n
    case _ => n
  }

  function Told(h: Heard, c: Conn, a: Action): Heard {
    var k := h.(due := Due(h, c, a));
    match a
    case TurnEnds(failed) => k.(failed := failed)
    case GotFrame(f, _) =>
      var n := k.(frames := if f.Bad? then k.frames else k.frames + 1);
      if Rejects(c, f) then n.(rejected := true) else Taken(n, c, f)
    case _ => k
  }

  // A turn has begun between c and d.
  predicate Begun(c: Conn, a: Action, d: Conn) { d.turn.Some? && (c.turn.None? || a.GotTurnDone?) }

  function Hear(h: Heard, c: Conn, a: Action, d: Conn): Heard {
    if Begun(c, a, d) then Told(h, c, a).(cut := false) else Told(h, c, a)
  }

  function Hearing(h: Heard, c: Conn, acts: seq<Action>): Heard
    requires Playable(c, acts)
    decreases |acts|
  {
    if acts == [] then h else Hearing(Hear(h, c, acts[0], Next(c, acts[0])), Next(c, acts[0]), acts[1..])
  }

  // The connection stands as what it has heard says.
  ghost predicate Follows(c: Conn, h: Heard) {
    && c.log.requests == h.requests && c.log.admitted == h.admitted && c.log.accepted == h.prompts
    && c.received == h.frames && c.inputErr == h.rejected
    && (c.over.None? ==> forall id :: id in c.pending ==> (c.pending[id] <==> id in h.cancels))
    && (c.turn.None? ==> c.turnDone == [])
    && (c.turn.Some? ==> c.interrupted == h.cut && c.turnCancelled == h.cut && (c.turnDone != [] ==> c.turnDone == [h.failed]))
    && (c.over.None? || c.over.value in {Clean, InputFailed} ==> h.due.None?)
    && (c.over.Some? && c.over.value !in {Clean, InputFailed} ==> h.due == c.over)
  }

  lemma UsableIs(id: string)
    ensures Usable(id) <==> !BadId(id)
  {
    if !Usable(id) && 0 < |id| <= 256 {
      var i :| 0 <= i < |id| && id[i] in {'\0', '\n', '\r'};
      assert id[i] in id;
    }
  }

  // The caches the guards look at hold what they should.
  lemma Caches(c: Conn)
    requires Sound(c) && c.over.None?
    ensures c.queuedBytes == Chars(c.queue) && |c.pending| == |InFlight(c)| && c.pendingBytes == Bytes(InFlight(c))
    ensures c.turn.Some? ==> |c.turnDone| <= 1
    ensures c.inputErr ==> !c.open
  {
    TracksSize(InFlight(c), c.pending, c.pendingSizes, c.pendingBytes);
  }

  lemma ReturnFollows(c: Conn, k: Heard, o: Outcome)
    requires c.log.requests == k.requests && c.log.admitted == k.admitted && c.log.accepted == k.prompts
    requires c.received == k.frames && c.inputErr == k.rejected
    requires k.due == if o in {Clean, InputFailed} then None else Some(o)
    ensures Follows(Return(c, o), k)
  {
  }

  // From the top of the loop on.
  lemma TopFollows(c: Conn, a: Action, e: Conn, h: Heard)
    requires e.over.None? && Follows(e, Told(h, c, a)) && (e.turn.Some? ==> c.turn.Some? && !a.GotTurnDone?)
    requires e.turn.None? ==> c.turn.None? || a.GotTurnDone?
    ensures Follows(Top(e), Hear(h, c, a, Top(e)))
  {
    hide Return, Told;
    var k := Told(h, c, a);
    if e.turn.None? && e.queue != [] && e.pending == map[] {
    } else if !e.open && e.turn.None? && e.queue == [] && e.pending == map[] {
      var o := if e.inputErr || (e.users == 0 && e.received == 0) then InputFailed else Clean;
      ReturnFollows(e, k, o);
      ReturnKeeps(e, o);
    }
  }

  // The fields that frames are about.
  lemma ControlFollows(c: Conn, h: Heard, id: string, size: nat, interrupt: bool, written: bool)
    requires Sound(c) && Follows(c, h) && c.over.None? && c.open
    ensures var a := GotFrame(Control(id, size, interrupt), written);
      var e := OnFrame(c, a.frame, written);
      && Follows(e, Told(h, c, a)) && (if e.over.None? then e.turn == c.turn else e.turn.None?)
  {
    hide Sound, Return, BadId, InFlight, Bytes, Chars, Follows, Told, Responded, Admitted, Interrupted, Asked;
    Caches(c);
    UsableIs(id);
    var a := GotFrame(Control(id, size, interrupt), written);
    if !Proper(c, a.frame) {
      ShutFollows(c, h, a);
    } else if interrupt {
      InterruptFollows(c, h, id, size, written);
    } else if Full(c, size) {
      AtOnceFollows(c, h, id, size, written);
    } else {
      AdmitFollows(c, h, id, size, written);
    }
  }

  lemma ShutFollows(c: Conn, h: Heard, a: Action)
    requires Follows(c, h) && c.over.None? && a.GotFrame? && Rejects(c, a.frame)
    ensures Follows(Shut(if a.frame.Bad? then c else c.(received := c.received + 1)), Told(h, c, a))
  {
    hide NoRoom, BadId;
  }

  lemma InterruptFollows(c: Conn, h: Heard, id: string, size: nat, written: bool)
    requires Follows(c, h) && c.over.None? && Proper(c, Control(id, size, true))
    ensures var e := Responded(Interrupted(Asked(c.(received := c.received + 1), id)), id, written);
      && Follows(e, Told(h, c, GotFrame(Control(id, size, true), written))) && (if e.over.None? then e.turn == c.turn else e.turn.None?)
  {
    hide Return, Told;
    NothingOwed(c, h);
    InterruptTold(c, h, id, size, written);
    var d := Interrupted(Asked(c.(received := c.received + 1), id));
    ReturnKeeps(d, WriteFailed);
    if !written { ReturnFollows(d, Told(h, c, GotFrame(Control(id, size, true), written)), WriteFailed); }
  }

  lemma InterruptTold(c: Conn, h: Heard, id: string, size: nat, written: bool)
    requires h.due.None? && Proper(c, Control(id, size, true))
    ensures Told(h, c, GotFrame(Control(id, size, true), written)) ==
              h.(due := if written then None else Some(WriteFailed), frames := h.frames + 1, requests := h.requests + [id],
                 cut := h.cut || c.turn.Some?)
  {
    hide BadId, Full;
  }

  lemma AtOnceFollows(c: Conn, h: Heard, id: string, size: nat, written: bool)
    requires Follows(c, h) && c.over.None? && Proper(c, Control(id, size, false)) && Full(c, size)
    ensures var e := Responded(Asked(c.(received := c.received + 1), id), id, written);
      && Follows(e, Told(h, c, GotFrame(Control(id, size, false), written))) && (if e.over.None? then e.turn == c.turn else e.turn.None?)
  {
    hide Return, BadId, Full;
    var d := Asked(c.(received := c.received + 1), id);
    ReturnKeeps(d, WriteFailed);
    if !written { ReturnFollows(d, Told(h, c, GotFrame(Control(id, size, false), written)), WriteFailed); }
  }

  lemma AdmitFollows(c: Conn, h: Heard, id: string, size: nat, written: bool)
    requires Follows(c, h) && c.over.None? && Proper(c, Control(id, size, false)) && !Full(c, size)
    ensures var e := Admitted(Asked(c.(received := c.received + 1), id), id, size);
      Follows(e, Told(h, c, GotFrame(Control(id, size, false), written))) && e.over.None? && e.turn == c.turn
  {
    hide BadId, Full;
  }

  lemma UserFollows(c: Conn, h: Heard, prompt: Option<string>, written: bool)
    requires Sound(c) && Follows(c, h) && c.over.None? && c.open
    ensures var e := OnFrame(c, User(prompt), written);
      && Follows(e, Told(h, c, GotFrame(User(prompt), written))) && e.turn == c.turn && e.over.None?
  {
    hide Sound, Chars, Follows;
    Caches(c);
    if Rejects(c, User(prompt)) {
      ShutFollows(c, h, GotFrame(User(prompt), written));
    } else {
      PromptFollows(c, h, prompt.value, written);
    }
  }

  lemma PromptFollows(c: Conn, h: Heard, prompt: string, written: bool)
    requires Follows(c, h) && c.over.None? && !NoRoom(c, prompt) && c.queuedBytes == Chars(c.queue)
    ensures Follows(OnUser(c.(received := c.received + 1), Some(prompt)), Told(h, c, GotFrame(User(Some(prompt)), written)))
  {
    hide Chars;
  }

  lemma FrameFollows(c: Conn, h: Heard, f: Frame, written: bool)
    requires Sound(c) && Follows(c, h) && c.over.None? && c.open
    ensures var e := OnFrame(c, f, written);
      && Follows(e, Told(h, c, GotFrame(f, written))) && (if e.over.None? then e.turn == c.turn else e.turn.None?)
  {
    if f.Control? {
      ControlFollows(c, h, f.id, f.size, f.interrupt, written);
    } else if f.User? {
      UserFollows(c, h, f.prompt, written);
    } else if Rejects(c, f) {
      RejectedFollows(c, h, f, written);
    } else {
      OtherFollows(c, h, f, written);
    }
  }

  lemma RejectedFollows(c: Conn, h: Heard, f: Frame, written: bool)
    requires Follows(c, h) && c.over.None? && (f.Bad? || f.Unknown?)
    ensures var e := OnFrame(c, f, written);
      Follows(e, Told(h, c, GotFrame(f, written))) && e.over.None? && e.turn == c.turn
  {
    hide OnControl, OnUser, Follows, Told;
    ShutFollows(c, h, GotFrame(f, written));
  }

  lemma OtherFollows(c: Conn, h: Heard, f: Frame, written: bool)
    requires Follows(c, h) && c.over.None? && (f.CancelControl? || f.Ignored?)
    ensures var e := OnFrame(c, f, written);
      Follows(e, Told(h, c, GotFrame(f, written))) && e.over.None? && e.turn == c.turn
  {
    hide OnControl, OnUser, NoRoom, Full, Proper, Unwritten;
    assert !Unwritten(c, GotFrame(f, written)) by { NothingDue(c, f, written); }
    if f.CancelControl? { CancelsOne(c, h, f, written); }
  }

  lemma NothingDue(c: Conn, f: Frame, written: bool)
    ensures !f.Control? ==> !Unwritten(c, GotFrame(f, written))
  {
  }

  lemma CancelsOne(c: Conn, h: Heard, f: Frame, written: bool)
    requires Follows(c, h) && c.over.None? && f.CancelControl? && !Unwritten(c, GotFrame(f, written))
    ensures Follows(OnFrame(c, f, written), Told(h, c, GotFrame(f, written)))
  {
    hide Follows, OnFrame, Told;
    NothingOwed(c, h);
    CancelFrame(c, f, written);
    CancelTold(c, h, f, written);
    CancelMarks(c, h, f.id);
  }

  lemma NothingOwed(c: Conn, h: Heard)
    requires Follows(c, h) && c.over.None?
    ensures h.due.None?
  {
  }

  lemma CancelFrame(c: Conn, f: Frame, written: bool)
    requires f.CancelControl?
    ensures OnFrame(c, f, written) ==
              c.(received := c.received + 1, pending := if f.id in c.pending then c.pending[f.id := true] else c.pending)
  {
    hide OnControl, OnUser;
  }

  lemma CancelTold(c: Conn, h: Heard, f: Frame, written: bool)
    requires f.CancelControl? && h.due.None? && !Unwritten(c, GotFrame(f, written))
    ensures Told(h, c, GotFrame(f, written)) ==
              h.(frames := h.frames + 1, cancels := if f.id in c.pending then h.cancels + {f.id} else h.cancels)
  {
    hide NoRoom, Full, Proper, Unwritten;
  }

  lemma CancelMarks(c: Conn, h: Heard, id: string)
    requires Follows(c, h) && c.over.None?
    ensures Follows(c.(received := c.received + 1, pending := if id in c.pending then c.pending[id := true] else c.pending),
                    h.(frames := h.frames + 1, cancels := if id in c.pending then h.cancels + {id} else h.cancels))
  {
  }

  lemma ResultFollows(c: Conn, h: Heard, written: bool)
    requires Follows(c, h) && c.over.None? && c.results != []
    ensures var e := OnResult(c, written);
      && Follows(e, Told(h, c, GotResult(written))) && (if e.over.None? then e.turn == c.turn else e.turn.None?)
  {
    hide Return;
    ReturnKeeps(Retired(c), WriteFailed);
    if !written { ReturnFollows(Retired(c), Told(h, c, GotResult(written)), WriteFailed); }
  }

  lemma TurnDoneFollows(c: Conn, h: Heard)
    requires Sound(c) && Follows(c, h) && c.over.None? && c.turnDone != [] && c.turn.Some?
    ensures var e := OnTurnDone(c); Follows(e, Told(h, c, GotTurnDone)) && e.turn.None?
  {
    hide Return, Sound;
    Caches(c);
    var d := c.(turn := None, turnDone := c.turnDone[1..], log := c.log.(finished := c.log.finished + [c.turn.value]));
    ReturnKeeps(d, TurnFailed);
    if c.turnDone[0] && !c.interrupted { ReturnFollows(d, Told(h, c, GotTurnDone), TurnFailed); }
  }

  lemma NextFollows(c: Conn, h: Heard, a: Action)
    requires Sound(c) && Follows(c, h) && Enabled(c, a)
    ensures Follows(Next(c, a), Hear(h, c, a, Next(c, a)))
  {
    hide Sound, Follows, Top, OnFrame, OnResult, OnTurnDone, Return, Told;
    match a
    case GotResult(written) =>
      ResultFollows(c, h, written);
      SettledFollows(c, a, OnResult(c, written), h);
    case GotTurnDone =>
      TurnDoneFollows(c, h);
      SettledFollows(c, a, OnTurnDone(c), h);
    case GotFrame(f, written) =>
      FrameFollows(c, h, f, written);
      SettledFollows(c, a, OnFrame(c, f, written), h);
    case GotEnd =>
      EndFollows(c, h);
      SettledFollows(c, a, c.(open := false), h);
    case GotCancel => CancelFollows(c, h);
    case _ => BesideFollows(c, h, a);
  }

  lemma SettledFollows(c: Conn, a: Action, e: Conn, h: Heard)
    requires Follows(e, Told(h, c, a))
    requires if e.over.Some? || a.GotTurnDone? then e.turn.None? else e.turn == c.turn
    ensures Follows(Settled(e), Hear(h, c, a, Settled(e)))
  {
    hide Told, Top;
    if e.over.None? { TopFollows(c, a, e, h); }
  }

  lemma EndFollows(c: Conn, h: Heard)
    requires Follows(c, h) && c.over.None? && c.open
    ensures Follows(c.(open := false), Told(h, c, GotEnd))
  {
  }

  lemma CancelFollows(c: Conn, h: Heard)
    requires Follows(c, h) && c.over.None?
    ensures Follows(Return(c, Cancelled), Hear(h, c, GotCancel, Return(c, Cancelled)))
  {
    hide Return;
    ReturnKeeps(c, Cancelled);
    ReturnFollows(c, Told(h, c, GotCancel), Cancelled);
  }

  lemma BesideFollows(c: Conn, h: Heard, a: Action)
    requires Follows(c, h) && Enabled(c, a) && (a.WorkerTakes? || a.WorkerAnswers? || a.TurnEnds?)
    ensures Follows(Next(c, a), Hear(h, c, a, Next(c, a)))
  {
  }

  lemma {:induction false} RunFollows(c: Conn, h: Heard, acts: seq<Action>)
    requires Sound(c) && AtSelect(c) && Follows(c, h) && Playable(c, acts)
    ensures Follows(Play(c, acts), Hearing(h, c, acts))
    decreases |acts|
  {
    hide Sound, Follows, Next, Enabled, Hear, AtSelect;
    if acts != [] {
      NextSound(c, acts[0]);
      StaysAtSelect(c, acts[0]);
      NextFollows(c, h, acts[0]);
      RunFollows(Next(c, acts[0]), Hear(h, c, acts[0], Next(c, acts[0])), acts[1..]);
    }
  }

  // Over any schedule the connection stands as what it has heard says.
  lemma AlwaysFollows(acts: seq<Action>)
    requires Playable(Opened(), acts)
    ensures Follows(Play(Opened(), acts), Hearing(NOTHING, Opened(), acts)) && Sound(Play(Opened(), acts))
  {
    hide Sound, Next, Enabled, Hear, AtSelect, Playable, Play;
    OpenedSound();
    PlaySound(Opened(), acts);
    RunFollows(Opened(), NOTHING, acts);
  }

  // A turn's error ends the connection exactly when no interrupt has come while that very turn ran.
  lemma InterruptIsLocal(acts: seq<Action>)
    requires Playable(Opened(), acts) && Enabled(Play(Opened(), acts), GotTurnDone)
    ensures var c, h := Play(Opened(), acts), Hearing(NOTHING, Opened(), acts);
      Next(c, GotTurnDone).over == Some(TurnFailed) <==> h.failed && !h.cut
  {
    hide Playable, Play, Sound, Return, Hearing;
    AlwaysFollows(acts);
    var c := Play(Opened(), acts);
    Caches(c);
    forall d: Conn, o: Outcome
      ensures Return(d, o).over == Some(o)
    {
      ReturnKeeps(d, o);
    }
  }

  // The interrupt cancels the turn that runs, is answered at once, and leaves the turn to end.
  lemma InterruptCancels(c: Conn, a: Action)
    requires Sound(c) && Enabled(c, a) && Cuts(c, a)
    ensures var d := Next(c, a);
      if a.written then
        && d.over.None? && d.turn == c.turn && d.turnDone == c.turnDone && d.turnCancelled && d.interrupted
        && d.log.output == c.log.output + [Reply(a.frame.id)] && d.pending == c.pending
      else d.over == Some(WriteFailed) && d.turn.None?
  {
    hide Sound, Return, BadId, Usable;
    UsableIs(a.frame.id);
    var d := Interrupted(Asked(c.(received := c.received + 1), a.frame.id));
    ReturnKeeps(d, WriteFailed);
  }

  // A request for the worker goes to it while there is room, and is answered at once when there is none.
  lemma RequestGoes(c: Conn, a: Action)
    requires Sound(c) && AtSelect(c) && Enabled(c, a) && a.GotFrame? && Proper(c, a.frame) && !a.frame.interrupt
    ensures var d := Next(c, a);
      if Full(c, a.frame.size) then
        && InFlight(d) == InFlight(c)
        && (if a.written then d.log.output == c.log.output + [Reply(a.frame.id)] else d.over == Some(WriteFailed))
      else InFlight(d) == InFlight(c) + [Job(a.frame.id, a.frame.size)] && d.log.output == c.log.output && d.over.None?
  {
    hide Sound, Return, BadId, Bytes, Top, OnFrame, InFlight, Full;
    var d, id, size := Asked(c.(received := c.received + 1), a.frame.id), a.frame.id, a.frame.size;
    ControlGoes(c, a);
    ReturnKeeps(d, WriteFailed);
    ReturnLeaves(d, WriteFailed);
    TopLeaves(Say(d, Reply(id)));
    TopLeaves(Admitted(d, id, size));
    AskedLeaves(c, id, size);
  }

  lemma ControlGoes(c: Conn, a: Action)
    requires Sound(c) && c.over.None? && a.GotFrame? && Proper(c, a.frame) && !a.frame.interrupt
    ensures var d := Asked(c.(received := c.received + 1), a.frame.id);
      OnFrame(c, a.frame, a.written) ==
        if Full(c, a.frame.size) then Responded(d, a.frame.id, a.written) else Admitted(d, a.frame.id, a.frame.size)
  {
    hide Sound, BadId, Usable, Bytes, InFlight, Responded, Admitted;
    Caches(c);
    UsableIs(a.frame.id);
  }

  lemma AskedLeaves(c: Conn, id: string, size: nat)
    ensures var d := Asked(c.(received := c.received + 1), id);
      && InFlight(d) == InFlight(c) && InFlight(Say(d, Reply(id))) == InFlight(c)
      && InFlight(Admitted(d, id, size)) == InFlight(c) + [Job(id, size)]
  {
  }

  lemma ReturnLeaves(c: Conn, o: Outcome)
    ensures InFlight(Return(c, o)) == InFlight(c)
  {
  }

  // The top of the loop touches no request, and writes nothing while one is pending or input is open.
  lemma TopLeaves(c: Conn)
    ensures InFlight(Top(c)) == InFlight(c)
    ensures c.open ==> Top(c).log.output == c.log.output && Top(c).over == c.over
  {
  }

  // However the connection ends, it ends as it owes: by cancellation, because a reply could not be
  // written, by the error of a turn that was not interrupted, or else when all is drained, with an
  // error exactly if a record was rejected or there was no input at all.
  lemma EndsAsItOwes(acts: seq<Action>)
    requires Playable(Opened(), acts) && Play(Opened(), acts).over.Some?
    ensures var c, h := Play(Opened(), acts), Hearing(NOTHING, Opened(), acts);
      if h.due.Some? then c.over == h.due
      else Drained(c) && c.over == Some(if h.rejected || (h.prompts == [] && h.frames == 0) then InputFailed else Clean)
  {
    hide Playable, Play, Hearing;
    AlwaysFollows(acts);
  }

  // Every proper request has its one reply or is in flight once, and the prompts accepted have been
  // started, one after another, or wait in their order; unless a reply could not be written.
  lemma HeardIsServed(acts: seq<Action>)
    requires Playable(Opened(), acts)
    ensures var c, h := Play(Opened(), acts), Hearing(NOTHING, Opened(), acts);
      && (h.due != Some(WriteFailed) ==>
            && multiset(h.requests) == multiset(ReplyIds(c.log.output)) + multiset(JobIds(InFlight(c)))
            && h.admitted == c.log.served + JobIds(InFlight(c)))
      && h.prompts == c.log.started + c.queue
      && (forall id :: c.over.None? && id in c.pending ==> (c.pending[id] <==> id in h.cancels))
  {
    hide Playable, Play, Hearing;
    AlwaysFollows(acts);
  }
}
