// The durable inbox of a detached job (internal/background/store.go). Every operation holds the job's
// metadata lease, so each is one atomic step.

module Inbox {

  const MAX_CONTROLS := 20
  const MAX_CONTROL_BYTES := 0x1_0000

  datatype ControlState = Pending | Claimed | Delivered

  datatype Control = Control(id: string, message: string, state: ControlState, createdAt: nat)

  datatype JobState = Starting | Running | Finishing | Stopping

  // records are the inbox's files in the order loadControlsLocked sorts them.
  datatype Store = Store(job: JobState, records: seq<Control>)

  // String order, as Go compares IDs.
  predicate Less(a: string, b: string) {
    b != [] && (a == [] || a[0] < b[0] || (a[0] == b[0] && Less(a[1..], b[1..])))
  }

  predicate Earlier(a: Control, b: Control) {
    a.createdAt < b.createdAt || (a.createdAt == b.createdAt && Less(a.id, b.id))
  }

  function Insert(rs: seq<Control>, c: Control): seq<Control> {
    if rs == [] || Earlier(c, rs[0]) then [c] + rs else [rs[0]] + Insert(rs[1..], c)
  }

  function Open(rs: seq<Control>): nat {
    if rs == [] then 0 else (if rs[0].state.Delivered? then 0 else 1) + Open(rs[1..])
  }

  // EnqueueControl; the rest of validateControlMessage is not modelled.
  function Enqueue(s: Store, id: string, message: string, now: nat): (r: (bool, Store)) {
    if message == "" || |message| > MAX_CONTROL_BYTES then (false, s)
    else if !s.job.Starting? && !s.job.Running? then (false, s)
    else if Open(s.records) >= MAX_CONTROLS then (false, s)
    else (true, s.(records := Insert(s.records, Control(id, message, Pending, now))))
  }

  // The first record that is not delivered.
  function FirstOpen(rs: seq<Control>): (i: nat)
    ensures i <= |rs| && (i < |rs| ==> !rs[i].state.Delivered?)
    ensures forall j :: 0 <= j < i ==> rs[j].state.Delivered?
  {
    if rs == [] || !rs[0].state.Delivered? then 0 else 1 + FirstOpen(rs[1..])
  }

  datatype ClaimReply = Empty | Ambiguous(id: string) | Got(control: Control)

  // ClaimNextControl
  function Claim(s: Store): (ClaimReply, Store) {
    var i := FirstOpen(s.records);
    if i == |s.records| then (Empty, s)
    else if s.records[i].state.Claimed? then (Ambiguous(s.records[i].id), s)
    else
      var c := s.records[i].(state := Claimed);
      (Got(c), s.(records := s.records[i := c]))
  }

  datatype FinishReply = Refused | Busy | Closed

  // BeginFinishing
  function BeginFinishing(s: Store): (FinishReply, Store) {
    if !s.job.Running? then (Refused, s)
    else if FirstOpen(s.records) < |s.records| then (Busy, s)
    else (Closed, s.(job := Finishing))
  }

  function Find(rs: seq<Control>, id: string): (i: nat)
    ensures i <= |rs| && (i < |rs| ==> rs[i].id == id)
    ensures forall j :: 0 <= j < i ==> rs[j].id != id
  {
    if rs == [] || rs[0].id == id then 0 else 1 + Find(rs[1..], id)
  }

  // CompleteControl: false when the record is missing or not claimed; removed says whether the
  // best-effort removal of the delivered record succeeds.
  function Complete(s: Store, id: string, removed: bool): (bool, Store) {
    var i := Find(s.records, id);
    if i == |s.records| || !s.records[i].state.Claimed? then (false, s)
    else if removed then (true, s.(records := s.records[..i] + s.records[i + 1..]))
    else (true, s.(records := s.records[i := s.records[i].(state := Delivered, message := "")]))
  }

  // The records in one state, in order.
  function IdsIn(rs: seq<Control>, st: ControlState): seq<string> {
    if rs == [] then [] else (if rs[0].state == st then [rs[0].id] else []) + IdsIn(rs[1..], st)
  }

  // The messages still to be claimed, oldest first.
  function PendingIds(rs: seq<Control>): seq<string> { IdsIn(rs, Pending) }

  function ClaimedIds(rs: seq<Control>): seq<string> { IdsIn(rs, Claimed) }

  predicate DistinctIds(rs: seq<Control>) {
    forall i, j :: 0 <= i < j < |rs| ==> rs[i].id != rs[j].id
  }

  // A new message goes to the end of the inbox exactly when it sorts after all those present.
  lemma {:induction false} ArrivalOrder(rs: seq<Control>, c: Control)
    requires c !in rs
    ensures Insert(rs, c) == rs + [c] <==> forall i :: 0 <= i < |rs| ==> !Earlier(c, rs[i])
  {
    if rs != [] {
      assert rs == [rs[0]] + rs[1..];
      if Earlier(c, rs[0]) {
        assert Insert(rs, c)[0] != (rs + [c])[0];
      } else {
        ArrivalOrder(rs[1..], c);
        assert Insert(rs, c)[1..] == Insert(rs[1..], c);
        assert (rs + [c])[1..] == rs[1..] + [c];
        forall i | 0 <= i < |rs[1..]|
          ensures rs[1..][i] == rs[i + 1]
        {
        }
        assert (forall i :: 0 <= i < |rs[1..]| ==> !Earlier(c, rs[1..][i])) <==> (forall i :: 0 <= i < |rs| ==> !Earlier(c, rs[i])) by {
          Shifted(rs, c);
        }
      }
    }
  }

  lemma Shifted(rs: seq<Control>, c: Control)
    requires rs != [] && !Earlier(c, rs[0])
    ensures (forall i :: 0 <= i < |rs[1..]| ==> !Earlier(c, rs[1..][i])) <==> (forall i :: 0 <= i < |rs| ==> !Earlier(c, rs[i]))
  {
    if forall i :: 0 <= i < |rs[1..]| ==> !Earlier(c, rs[1..][i]) {
      forall i | 0 <= i < |rs|
        ensures !Earlier(c, rs[i])
      {
        assert i > 0 ==> rs[1..][i - 1] == rs[i];
      }
    }
  }

  lemma {:induction false} Split(a: seq<Control>, b: seq<Control>, st: ControlState)
    ensures IdsIn(a + b, st) == IdsIn(a, st) + IdsIn(b, st)
  {
    if a == [] {
      assert a + b == b;
    } else {
      Split(a[1..], b, st);
      assert (a + b)[1..] == a[1..] + b;
    }
  }

  lemma {:induction false} NoneIn(rs: seq<Control>, st: ControlState)
    requires forall i :: 0 <= i < |rs| ==> rs[i].state != st
    ensures IdsIn(rs, st) == []
  {
    if rs != [] { NoneIn(rs[1..], st); }
  }

  function Own(c: Control, st: ControlState): seq<string> { if c.state == st then [c.id] else [] }

  // What a record contributes, wherever it stands.
  lemma Around(rs: seq<Control>, i: nat, c: Control, st: ControlState)
    requires i < |rs|
    ensures IdsIn(rs, st) == IdsIn(rs[..i], st) + Own(rs[i], st) + IdsIn(rs[i + 1..], st)
    ensures IdsIn(rs[i := c], st) == IdsIn(rs[..i], st) + Own(c, st) + IdsIn(rs[i + 1..], st)
    ensures IdsIn(rs[..i] + rs[i + 1..], st) == IdsIn(rs[..i], st) + IdsIn(rs[i + 1..], st)
  {
    hide IdsIn, Own;
    Apart(rs[..i], rs[i], rs[i + 1..], st);
    Apart(rs[..i], c, rs[i + 1..], st);
    Split(rs[..i], rs[i + 1..], st);
    assert rs == rs[..i] + ([rs[i]] + rs[i + 1..]);
    assert rs[i := c] == rs[..i] + ([c] + rs[i + 1..]);
  }

  lemma Apart(a: seq<Control>, c: Control, b: seq<Control>, st: ControlState)
    ensures IdsIn(a + ([c] + b), st) == IdsIn(a, st) + Own(c, st) + IdsIn(b, st)
  {
    Split(a, [c] + b, st);
    assert ([c] + b)[1..] == b;
    assert IdsIn([c] + b, st) == Own(c, st) + IdsIn(b, st);
  }

  // With no claim open, a claim takes the oldest pending message; it answers Empty exactly when
  // there is none.
  lemma ClaimTakesOldest(s: Store)
    requires ClaimedIds(s.records) == []
    ensures !Claim(s).0.Ambiguous?
    ensures Claim(s).0.Empty? <==> PendingIds(s.records) == []
    ensures Claim(s).0.Empty? ==> Claim(s).1 == s
    ensures Claim(s).0.Got? ==>
              && PendingIds(s.records) == [Claim(s).0.control.id] + PendingIds(Claim(s).1.records)
              && ClaimedIds(Claim(s).1.records) == [Claim(s).0.control.id]
              && Claim(s).1.job == s.job && SameIds(s.records, Claim(s).1.records)
  {
    hide IdsIn;
    var i := FirstOpen(s.records);
    if i == |s.records| {
      NoneIn(s.records, Pending);
    } else {
      var c := s.records[i].(state := Claimed);
      NoneIn(s.records[..i], Claimed);
      NoneIn(s.records[..i], Pending);
      Around(s.records, i, c, Claimed);
      Around(s.records, i, c, Pending);
    }
  }

  ghost predicate SameIds(a: seq<Control>, b: seq<Control>) {
    |a| == |b| && forall i :: 0 <= i < |a| ==> a[i].id == b[i].id && a[i].createdAt == b[i].createdAt
  }

  // A claimed ID names a claimed record.
  lemma {:induction false} ClaimedIsListed(rs: seq<Control>, id: string)
    requires id in ClaimedIds(rs)
    ensures exists i :: 0 <= i < |rs| && rs[i].id == id && rs[i].state.Claimed?
  {
    if rs[0].state.Claimed? && rs[0].id == id {
    } else {
      ClaimedIsListed(rs[1..], id);
      var i :| 0 <= i < |rs[1..]| && rs[1..][i].id == id && rs[1..][i].state.Claimed?;
      assert rs[i + 1] == rs[1..][i];
    }
  }

  // The one open claim can be completed, and completing it leaves the pending messages alone.
  lemma CompleteCommits(s: Store, id: string, removed: bool)
    requires DistinctIds(s.records) && ClaimedIds(s.records) == [id]
    ensures Complete(s, id, removed).0
    ensures var t := Complete(s, id, removed).1;
      && ClaimedIds(t.records) == [] && PendingIds(t.records) == PendingIds(s.records)
      && t.job == s.job && DistinctIds(t.records)
  {
    hide IdsIn;
    ClaimedIsListed(s.records, id);
    var i := Find(s.records, id);
    var c := s.records[i].(state := Delivered, message := "");
    Around(s.records, i, c, Claimed);
    Around(s.records, i, c, Pending);
    Shrunk(s.records, i, c, Complete(s, id, removed).1.records);
  }

  lemma Shrunk(rs: seq<Control>, i: nat, c: Control, t: seq<Control>)
    requires i < |rs| && c.id == rs[i].id && DistinctIds(rs)
    requires t == rs[i := c] || t == rs[..i] + rs[i + 1..]
    ensures DistinctIds(t)
  {
  }

  // Wherever a new message comes to stand, it is among the records once and they stay as they were.
  lemma {:induction false} InsertedSomewhere(rs: seq<Control>, c: Control) returns (k: nat)
    ensures k <= |rs| && Insert(rs, c) == rs[..k] + [c] + rs[k..]
  {
    if rs == [] || Earlier(c, rs[0]) {
      k := 0;
    } else {
      var j := InsertedSomewhere(rs[1..], c);
      k := j + 1;
      assert rs == [rs[0]] + rs[1..];
    }
  }

  // Admission closes exactly when the job runs and nothing is pending or claimed.
  lemma {:induction false} NothingOpen(rs: seq<Control>)
    ensures FirstOpen(rs) == |rs| <==> PendingIds(rs) == [] && ClaimedIds(rs) == []
  {
    if rs != [] { NothingOpen(rs[1..]); }
  }

  lemma {:induction false} OpenCounts(rs: seq<Control>)
    ensures Open(rs) == |PendingIds(rs)| + |ClaimedIds(rs)|
  {
    if rs != [] { OpenCounts(rs[1..]); }
  }

  // A message is accepted exactly when it is neither empty nor overlong, the job is starting or
  // running, and fewer than twenty messages are pending or claimed; then it alone is added.
  lemma EnqueueAdmits(s: Store, id: string, message: string, now: nat)
    ensures var (told, t) := Enqueue(s, id, message, now);
      && (told <==> 0 < |message| <= 65536 && (s.job.Starting? || s.job.Running?) && |PendingIds(s.records)| + |ClaimedIds(s.records)| < 20)
      && t.job == s.job
      && (if told then multiset(t.records) == multiset(s.records) + multiset{Control(id, message, Pending, now)} else t == s)
  {
    OpenCounts(s.records);
    var c := Control(id, message, Pending, now);
    var k := InsertedSomewhere(s.records, c);
    assert s.records == s.records[..k] + s.records[k..];
    assert multiset(s.records[..k] + [c] + s.records[k..]) == multiset(s.records[..k]) + multiset{c} + multiset(s.records[k..]);
  }

  // So no more than twenty are ever open: only a message accepted adds one.
  lemma InboxBounded(s: Store, id: string, message: string, now: nat, removed: bool)
    requires Open(s.records) <= MAX_CONTROLS
    ensures Open(Enqueue(s, id, message, now).1.records) <= MAX_CONTROLS
    ensures Open(Claim(s).1.records) <= MAX_CONTROLS
    ensures Open(Complete(s, id, removed).1.records) <= MAX_CONTROLS
    ensures Open(BeginFinishing(s).1.records) <= MAX_CONTROLS
  {
    hide Open;
    var k := InsertedSomewhere(s.records, Control(id, message, Pending, now));
    OpenAround(s.records[..k], Control(id, message, Pending, now), s.records[k..]);
    OpenAdds(s.records[..k], s.records[k..]);
    assert s.records == s.records[..k] + s.records[k..];
    var i := FirstOpen(s.records);
    if i < |s.records| { OpenReplaced(s.records, i, s.records[i].(state := Claimed)); }
    var j := Find(s.records, id);
    if j < |s.records| {
      OpenReplaced(s.records, j, s.records[j].(state := Delivered, message := ""));
      OpenAdds(s.records[..j], s.records[j + 1..]);
    }
  }

  function One(c: Control): nat { if c.state.Delivered? then 0 else 1 }

  lemma {:induction false} OpenAdds(a: seq<Control>, b: seq<Control>)
    ensures Open(a + b) == Open(a) + Open(b)
  {
    if a == [] {
      assert a + b == b;
    } else {
      OpenAdds(a[1..], b);
      assert (a + b)[1..] == a[1..] + b;
    }
  }

  lemma OpenAround(a: seq<Control>, c: Control, b: seq<Control>)
    ensures Open(a + [c] + b) == Open(a) + One(c) + Open(b)
  {
    OpenAdds(a + [c], b);
    OpenAdds(a, [c]);
    assert [c][1..] == [];
    assert Open([]) == 0;
  }

  // Putting one record for another, or taking it out, changes the count by that record.
  lemma OpenReplaced(rs: seq<Control>, i: nat, c: Control)
    requires i < |rs|
    ensures Open(rs[i := c]) == Open(rs) - One(rs[i]) + One(c)
    ensures Open(rs[..i]) + Open(rs[i + 1..]) == Open(rs) - One(rs[i])
  {
    OpenAround(rs[..i], rs[i], rs[i + 1..]);
    OpenAround(rs[..i], c, rs[i + 1..]);
    assert rs == rs[..i] + [rs[i]] + rs[i + 1..];
    assert rs[i := c] == rs[..i] + [c] + rs[i + 1..];
  }

  // Admission closes exactly when the job runs and nothing is pending or claimed, and is refused
  // exactly when it does not run.
  lemma ClosesWhenDone(s: Store)
    ensures var (reply, t) := BeginFinishing(s);
      && (reply.Closed? <==> s.job.Running? && PendingIds(s.records) == [] && ClaimedIds(s.records) == [])
      && (reply.Refused? <==> !s.job.Running?)
      && t == if reply.Closed? then s.(job := Finishing) else s
  {
    NothingOpen(s.records);
  }

  // The inbox in order of creation.
  ghost predicate ByTime(rs: seq<Control>) { forall i, j :: 0 <= i < j < |rs| ==> rs[i].createdAt <= rs[j].createdAt }

  // Accepting, claiming and committing keep that order, and the message claimed is one of the oldest of
  // those not yet delivered.
  lemma OldestFirst(s: Store, id: string, message: string, now: nat, removed: bool)
    requires ByTime(s.records)
    ensures ByTime(Enqueue(s, id, message, now).1.records) && ByTime(Claim(s).1.records)
    ensures ByTime(Complete(s, id, removed).1.records) && ByTime(BeginFinishing(s).1.records)
    ensures Claim(s).0.Got? ==> forall i :: 0 <= i < |s.records| && !s.records[i].state.Delivered? ==>
              Claim(s).0.control.createdAt <= s.records[i].createdAt
  {
    hide Insert, Earlier;
    InsertByTime(s.records, Control(id, message, Pending, now));
  }

  lemma {:induction false} InsertByTime(rs: seq<Control>, c: Control)
    requires ByTime(rs)
    ensures ByTime(Insert(rs, c))
  {
    if rs != [] && !Earlier(c, rs[0]) {
      InsertByTime(rs[1..], c);
      var k := InsertedSomewhere(rs[1..], c);
      var r := Insert(rs[1..], c);
      forall i | 0 <= i < |r|
        ensures rs[0].createdAt <= r[i].createdAt
      {
        assert r[i] == if i < k then rs[i + 1] else if i == k then c else rs[i];
      }
    }
  }

  // Two messages enqueued within one clock tick are ordered by their random IDs, not by arrival.
  lemma TieOvertakes()
    ensures var s := Enqueue(Store(Running, []), "b", "first", 7).1;
      var t := Enqueue(s, "a", "second", 7).1;
      Claim(t).0.Got? && Claim(t).0.control.message == "second"
  {
    assert Less("a", "b");
    var s := Enqueue(Store(Running, []), "b", "first", 7).1;
    assert s.records == [Control("b", "first", Pending, 7)];
    assert Open(s.records) == 1 by { assert s.records[1..] == []; }
    var t := Enqueue(s, "a", "second", 7).1;
    assert t.records == [Control("a", "second", Pending, 7), Control("b", "first", Pending, 7)];
  }

  // The store itself; each method runs under the job's metadata lease.
  class JobStore {
    var job: JobState
    var records: seq<Control>

    ghost function View(): Store
      reads this
    {
      Store(job, records)
    }

    constructor (records: seq<Control>)
      ensures View() == Store(Running, records)
    {
      job := Running;
      this.records := records;
    }

    method EnqueueControl(id: string, message: string, now: nat) returns (ok: bool)
      modifies this
      ensures (ok, View()) == Enqueue(old(View()), id, message, now)
    {
      if message == "" || |message| > MAX_CONTROL_BYTES { return false; }
      if job != Starting && job != Running { return false; }
      var open := 0;
      for i := 0 to |records|
        invariant open + Open(records[i..]) == Open(records)
      {
        assert records[i..][1..] == records[i + 1..];
        if records[i].state != Delivered { open := open + 1; }
      }
      assert records[|records|..] == [];
      if open >= MAX_CONTROLS { return false; }
      records := Insert(records, Control(id, message, Pending, now));
      ok := true;
    }

    method ScanOpen() returns (i: nat)
      ensures i == FirstOpen(records)
    {
      i := 0;
      while i < |records| && records[i].state == Delivered
        invariant i <= |records| && i + FirstOpen(records[i..]) == FirstOpen(records)
      {
        assert records[i..][1..] == records[i + 1..];
        i := i + 1;
      }
    }

    method ClaimNextControl() returns (reply: ClaimReply)
      modifies this
      ensures (reply, View()) == Claim(old(View()))
    {
      var i := ScanOpen();
      if i == |records| { return Empty; }
      if records[i].state == Claimed { return Ambiguous(records[i].id); }
      var c := records[i].(state := Claimed);
      records := records[i := c];
      reply := Got(c);
    }

    method CloseAdmission() returns (reply: FinishReply)
      modifies this
      ensures (reply, View()) == BeginFinishing(old(View()))
    {
      if job != Running { return Refused; }
      var i := ScanOpen();
      if i < |records| { return Busy; }
      job := Finishing;
      reply := Closed;
    }

    method CompleteControl(id: string, removed: bool) returns (ok: bool)
      modifies this
      ensures (ok, View()) == Complete(old(View()), id, removed)
    {
      var i := 0;
      while i < |records| && records[i].id != id
        invariant i <= |records| && i + Find(records[i..], id) == Find(records, id)
      {
        assert records[i..][1..] == records[i + 1..];
        i := i + 1;
      }
      if i == |records| || records[i].state != Claimed { return false; }
      records := if removed then records[..i] + records[i + 1..]
                 else records[i := records[i].(state := Delivered, message := "")];
      ok := true;
    }
  }
}
