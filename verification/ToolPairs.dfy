// What cleaning a history of orphaned tool parts does (internal/agent/agent.go, lines 4862 to 4948).

module ToolPairs {
  import opened Wrappers

  // A part may carry a function call, a function response, or both; an ID may be empty.
  datatype Part = NilPart | Part(call: Option<string>, response: Option<string>, text: string)

  datatype Message = NilMessage | Message(role: string, parts: seq<Part>)

  predicate Calls(p: Part, id: string) { p.Part? && id != "" && p.call == Some(id) }

  predicate Answers(p: Part, id: string) { p.Part? && id != "" && p.response == Some(id) }

  // The parts of a message, and of a whole history, without the nil ones.
  function Solid(ps: seq<Part>): seq<Part> {
    if ps == [] then [] else Solid(ps[..|ps| - 1]) + if ps[|ps| - 1].NilPart? then [] else [ps[|ps| - 1]]
  }

  function Parts(m: Message): seq<Part> { if m.NilMessage? then [] else Solid(m.parts) }

  function AllParts(h: seq<Message>): seq<Part> {
    if h == [] then [] else AllParts(h[..|h| - 1]) + Parts(h[|h| - 1])
  }

  function CallOf(p: Part): set<string> {
    if p.Part? && p.call.Some? && p.call.value != "" then {p.call.value} else {}
  }

  function ResponseOf(p: Part): set<string> {
    if p.Part? && p.response.Some? && p.response.value != "" then {p.response.value} else {}
  }

  function CallIds(ps: seq<Part>): set<string> {
    if ps == [] then {} else CallIds(ps[..|ps| - 1]) + CallOf(ps[|ps| - 1])
  }

  function ResponseIds(ps: seq<Part>): set<string> {
    if ps == [] then {} else ResponseIds(ps[..|ps| - 1]) + ResponseOf(ps[|ps| - 1])
  }

  // A call without a response anywhere, or a response without a call.
  predicate Orphan(p: Part, calls: set<string>, responses: set<string>) {
    !(CallOf(p) <= responses) || !(ResponseOf(p) <= calls)
  }

  function Kept(ps: seq<Part>, calls: set<string>, responses: set<string>): seq<Part> {
    if ps == [] then []
    else Kept(ps[..|ps| - 1], calls, responses) +
         if ps[|ps| - 1].NilPart? || Orphan(ps[|ps| - 1], calls, responses) then [] else [ps[|ps| - 1]]
  }

  function Orphans(ps: seq<Part>, calls: set<string>, responses: set<string>): nat {
    if ps == [] then 0
    else Orphans(ps[..|ps| - 1], calls, responses) + Weight(ps[|ps| - 1], calls, responses)
  }

  function Weight(p: Part, calls: set<string>, responses: set<string>): nat {
    (if CallOf(p) <= responses then 0 else 1) + (if ResponseOf(p) <= calls then 0 else 1)
  }

  // One message of the filtering pass.
  function Filtered(m: Message, calls: set<string>, responses: set<string>): seq<Message> {
    if m.NilMessage? then []
    else
      var kept := Kept(m.parts, calls, responses);
      if kept == [] then [] else if |kept| == |m.parts| then [m] else [Message(m.role, kept)]
  }

  function FilteredAll(h: seq<Message>, calls: set<string>, responses: set<string>): seq<Message> {
    if h == [] then [] else FilteredAll(h[..|h| - 1], calls, responses) + Filtered(h[|h| - 1], calls, responses)
  }

  // ensureToolPairConsistency
  function Cleaned(h: seq<Message>): seq<Message> {
    var ps := AllParts(h);
    if Orphans(ps, CallIds(ps), ResponseIds(ps)) == 0 then h else FilteredAll(h, CallIds(ps), ResponseIds(ps))
  }

  lemma {:induction false} IdsMember(ps: seq<Part>, id: string)
    ensures id in CallIds(ps) <==> exists p :: p in ps && Calls(p, id)
    ensures id in ResponseIds(ps) <==> exists p :: p in ps && Answers(p, id)
  {
    if ps != [] {
      IdsMember(ps[..|ps| - 1], id);
      assert ps == ps[..|ps| - 1] + [ps[|ps| - 1]];
      assert id in CallOf(ps[|ps| - 1]) <==> Calls(ps[|ps| - 1], id);
      assert id in ResponseOf(ps[|ps| - 1]) <==> Answers(ps[|ps| - 1], id);
    }
  }

  lemma {:induction false} KeptMember(ps: seq<Part>, calls: set<string>, responses: set<string>)
    ensures forall p :: p in Kept(ps, calls, responses) <==> p in ps && !p.NilPart? && !Orphan(p, calls, responses)
  {
    if ps != [] {
      KeptMember(ps[..|ps| - 1], calls, responses);
      assert ps == ps[..|ps| - 1] + [ps[|ps| - 1]];
    }
  }

  lemma {:induction false} KeptJoins(a: seq<Part>, b: seq<Part>, calls: set<string>, responses: set<string>)
    ensures Kept(a + b, calls, responses) == Kept(a, calls, responses) + Kept(b, calls, responses)
  {
    if b == [] {
      assert a + b == a;
    } else {
      KeptJoins(a, b[..|b| - 1], calls, responses);
      assert (a + b)[..|a + b| - 1] == a + b[..|b| - 1];
    }
  }

  lemma {:induction false} KeptSolid(ps: seq<Part>, calls: set<string>, responses: set<string>)
    ensures Kept(Solid(ps), calls, responses) == Kept(ps, calls, responses) == Solid(Kept(ps, calls, responses))
  {
    if ps != [] {
      var n := |ps| - 1;
      KeptSolid(ps[..n], calls, responses);
      KeptJoins(Solid(ps[..n]), if ps[n].NilPart? then [] else [ps[n]], calls, responses);
      KeptOne(ps[n], calls, responses);
      SolidJoins(Kept(ps[..n], calls, responses), if ps[n].NilPart? || Orphan(ps[n], calls, responses) then [] else [ps[n]]);
    }
  }

  lemma KeptOne(p: Part, calls: set<string>, responses: set<string>)
    ensures Kept([p], calls, responses) == if p.NilPart? || Orphan(p, calls, responses) then [] else [p]
    ensures Solid([p]) == if p.NilPart? then [] else [p]
  {
    assert [p][..0] == [];
  }

  lemma {:induction false} SolidJoins(a: seq<Part>, b: seq<Part>)
    ensures Solid(a + b) == Solid(a) + Solid(b)
  {
    if b == [] {
      assert a + b == a;
    } else {
      SolidJoins(a, b[..|b| - 1]);
      assert (a + b)[..|a + b| - 1] == a + b[..|b| - 1];
    }
  }

  lemma {:induction false} AllPartsJoins(a: seq<Message>, b: seq<Message>)
    ensures AllParts(a + b) == AllParts(a) + AllParts(b)
  {
    hide Parts;
    if b == [] {
      assert a + b == a;
    } else {
      var n := |b| - 1;
      AllPartsJoins(a, b[..n]);
      assert (a + b)[..|a + b| - 1] == a + b[..n] && (a + b)[|a + b| - 1] == b[n];
      assert AllParts(a + b) == AllParts(a + b[..n]) + Parts(b[n]);
    }
  }

  lemma AllPartsOne(m: Message)
    ensures AllParts([m]) == Parts(m)
  {
    assert [m][..0] == [];
  }

  lemma FilteredParts(m: Message, calls: set<string>, responses: set<string>)
    ensures AllParts(Filtered(m, calls, responses)) == Kept(Parts(m), calls, responses)
  {
    hide AllParts, Kept;
    assert AllParts([]) == [] by { Nothing(calls, responses); }
    Nothing(calls, responses);
    if m.Message? {
      var kept := Kept(m.parts, calls, responses);
      KeptSolid(m.parts, calls, responses);
      AllKept(m.parts, calls, responses);
      AllPartsOne(m);
      AllPartsOne(Message(m.role, kept));
      if kept == [] {
        assert Filtered(m, calls, responses) == [];
      } else if |kept| == |m.parts| {
        assert Filtered(m, calls, responses) == [m];
        assert kept == m.parts;
        assert Solid(m.parts) == kept;
        assert Kept(Solid(m.parts), calls, responses) == kept;
        assert Parts(m) == kept;
      } else {
        assert Filtered(m, calls, responses) == [Message(m.role, kept)];
        assert Parts(Message(m.role, kept)) == Solid(kept) == kept;
        assert Kept(Parts(m), calls, responses) == kept;
      }
    }
  }

  lemma Nothing(calls: set<string>, responses: set<string>)
    ensures AllParts([]) == [] && Kept([], calls, responses) == []
  {
  }

  // A message that loses no part keeps its own parts, none of them nil.
  lemma {:induction false} AllKept(ps: seq<Part>, calls: set<string>, responses: set<string>)
    ensures |Kept(ps, calls, responses)| <= |ps|
    ensures |Kept(ps, calls, responses)| == |ps| ==> Kept(ps, calls, responses) == ps
  {
    hide Orphan;
    if ps != [] {
      var n := |ps| - 1;
      AllKept(ps[..n], calls, responses);
      assert ps == ps[..n] + [ps[n]];
    }
  }

  lemma {:induction false} FilteredAllParts(h: seq<Message>, calls: set<string>, responses: set<string>)
    ensures AllParts(FilteredAll(h, calls, responses)) == Kept(AllParts(h), calls, responses)
  {
    if h != [] {
      var n := |h| - 1;
      FilteredAllParts(h[..n], calls, responses);
      FilteredParts(h[n], calls, responses);
      AllPartsJoins(FilteredAll(h[..n], calls, responses), Filtered(h[n], calls, responses));
      KeptJoins(AllParts(h[..n]), Parts(h[n]), calls, responses);
    }
  }

  lemma {:induction false} NoOrphans(ps: seq<Part>, calls: set<string>, responses: set<string>)
    ensures Orphans(ps, calls, responses) == 0 <==> forall p :: p in ps ==> !Orphan(p, calls, responses)
  {
    if ps != [] {
      var n := |ps| - 1;
      NoOrphans(ps[..n], calls, responses);
      assert forall p :: p in ps <==> p in ps[..n] || p == ps[n] by { assert ps == ps[..n] + [ps[n]]; }
      assert Weight(ps[n], calls, responses) == 0 <==> !Orphan(ps[n], calls, responses);
    }
  }

  lemma {:induction false} SolidAll(h: seq<Message>)
    ensures forall p :: p in AllParts(h) ==> !p.NilPart?
  {
    if h != [] {
      SolidAll(h[..|h| - 1]);
      if !h[|h| - 1].NilMessage? { SolidIsSolid(h[|h| - 1].parts); }
    }
  }

  lemma {:induction false} SolidIsSolid(ps: seq<Part>)
    ensures forall p :: p in Solid(ps) ==> !p.NilPart?
  {
    if ps != [] { SolidIsSolid(ps[..|ps| - 1]); }
  }

  lemma {:induction false} KeepsAll(ps: seq<Part>, calls: set<string>, responses: set<string>)
    requires forall p :: p in ps ==> !p.NilPart? && !Orphan(p, calls, responses)
    ensures Kept(ps, calls, responses) == ps
  {
    if ps != [] {
      KeepsAll(ps[..|ps| - 1], calls, responses);
      assert ps == ps[..|ps| - 1] + [ps[|ps| - 1]];
    }
  }

  // The history's parts afterwards are exactly the non-nil parts that were not orphaned, in order.
  lemma KeepsTheRest(h: seq<Message>)
    ensures var ps := AllParts(h);
      AllParts(Cleaned(h)) == Kept(ps, CallIds(ps), ResponseIds(ps))
  {
    var ps := AllParts(h);
    NoOrphans(ps, CallIds(ps), ResponseIds(ps));
    SolidAll(h);
    if Orphans(ps, CallIds(ps), ResponseIds(ps)) == 0 {
      KeepsAll(ps, CallIds(ps), ResponseIds(ps));
    } else {
      FilteredAllParts(h, CallIds(ps), ResponseIds(ps));
    }
  }

  predicate Stays(m: Message, calls: set<string>, responses: set<string>) {
    m.Message? && Kept(m.parts, calls, responses) != []
  }

  function Cut(m: Message, calls: set<string>, responses: set<string>): Message {
    if m.NilMessage? then m else Message(m.role, Kept(m.parts, calls, responses))
  }

  lemma FilteredIsCut(m: Message, calls: set<string>, responses: set<string>)
    ensures Filtered(m, calls, responses) == if Stays(m, calls, responses) then [Cut(m, calls, responses)] else []
  {
    hide Kept;
    if m.Message? { AllKept(m.parts, calls, responses); }
  }

  // r holds the messages of h at the places from, cut down to the parts kept: all that have one.
  ghost predicate InOrder(h: seq<Message>, r: seq<Message>, from: seq<nat>, calls: set<string>, responses: set<string>) {
    && |from| == |r| && (forall i, j :: 0 <= i < j < |from| ==> from[i] < from[j])
    && (forall i :: 0 <= i < |from| ==> from[i] < |h| && r[i] == Cut(h[from[i]], calls, responses))
    && (forall j :: 0 <= j < |h| ==> (j in from <==> Stays(h[j], calls, responses)))
  }

  lemma OneMore(h: seq<Message>, r: seq<Message>, from: seq<nat>, m: Message, calls: set<string>, responses: set<string>)
    requires InOrder(h, r, from, calls, responses)
    ensures if Stays(m, calls, responses) then InOrder(h + [m], r + [Cut(m, calls, responses)], from + [|h|], calls, responses)
            else InOrder(h + [m], r, from, calls, responses)
  {
    hide Stays, Cut;
    assert |h| !in from;
    assert forall j :: 0 <= j < |h| ==> (h + [m])[j] == h[j];
    assert forall j :: j in from + [|h|] <==> j in from || j == |h|;
  }

  // The messages that remain are those with a part to keep, in order and under their own roles.
  lemma {:induction false} MessagesInOrder(h: seq<Message>, calls: set<string>, responses: set<string>) returns (from: seq<nat>)
    ensures InOrder(h, FilteredAll(h, calls, responses), from, calls, responses)
  {
    hide Filtered, Stays, Cut, InOrder;
    if h == [] {
      from := [];
      NoneInOrder(calls, responses);
    } else {
      var n := |h| - 1;
      from := MessagesInOrder(h[..n], calls, responses);
      assert h == h[..n] + [h[n]];
      var rest := FilteredAll(h[..n], calls, responses);
      OneMore(h[..n], rest, from, h[n], calls, responses);
      FilteredIsCut(h[n], calls, responses);
      assert FilteredAll(h, calls, responses) == rest + Filtered(h[n], calls, responses);
      assert rest + [] == rest;
      if Stays(h[n], calls, responses) { from := from + [n]; }
    }
  }

  lemma NoneInOrder(calls: set<string>, responses: set<string>)
    ensures InOrder([], [], [], calls, responses)
  {
  }

  // Every call has its response and every response its call.
  ghost predicate Paired(h: seq<Message>) { CallIds(AllParts(h)) == ResponseIds(AllParts(h)) }

  // Some part that stays loses all its partners, every one of them being orphaned on its other side.
  ghost predicate Stranded(h: seq<Message>) {
    var ps := AllParts(h);
    exists id :: StrandedCall(ps, id) || StrandedResponse(ps, id)
  }

  ghost predicate StrandedCall(ps: seq<Part>, id: string) {
    && (exists q :: q in ps && Calls(q, id) && !Orphan(q, CallIds(ps), ResponseIds(ps)))
    && (forall p :: p in ps && Answers(p, id) ==> !(CallOf(p) <= ResponseIds(ps)))
  }

  ghost predicate StrandedResponse(ps: seq<Part>, id: string) {
    && (exists q :: q in ps && Answers(q, id) && !Orphan(q, CallIds(ps), ResponseIds(ps)))
    && (forall p :: p in ps && Calls(p, id) ==> !(ResponseOf(p) <= CallIds(ps)))
  }

  lemma PairedAt(h: seq<Message>, id: string)
    ensures id in CallIds(AllParts(Cleaned(h))) && id !in ResponseIds(AllParts(Cleaned(h))) <==> StrandedCall(AllParts(h), id)
    ensures id in ResponseIds(AllParts(Cleaned(h))) && id !in CallIds(AllParts(Cleaned(h))) <==> StrandedResponse(AllParts(h), id)
  {
    var ps := AllParts(h);
    var calls, responses := CallIds(ps), ResponseIds(ps);
    KeepsTheRest(h);
    var kept := Kept(ps, calls, responses);
    KeptMember(ps, calls, responses);
    SolidAll(h);
    IdsMember(kept, id);
    IdsMember(ps, id);
    forall p | p in ps && Answers(p, id)
      ensures ResponseOf(p) == {id}
    {
    }
    forall p | p in ps && Calls(p, id)
      ensures CallOf(p) == {id}
    {
    }
  }

  // The result is sound exactly when nothing is stranded; in particular whenever no part carries
  // both a call and a response.
  lemma PairedUnlessStranded(h: seq<Message>)
    ensures Paired(Cleaned(h)) <==> !Stranded(h)
  {
    var c, r := CallIds(AllParts(Cleaned(h))), ResponseIds(AllParts(Cleaned(h)));
    forall id
      ensures (id in c <==> id in r) <==> !StrandedCall(AllParts(h), id) && !StrandedResponse(AllParts(h), id)
    {
      PairedAt(h, id);
    }
    if !Stranded(h) {
      assert forall id :: id in c <==> id in r;
    }
  }

  lemma StrandedHasBoth(ps: seq<Part>, id: string)
    requires StrandedCall(ps, id) || StrandedResponse(ps, id)
    ensures exists p :: p in ps && CallOf(p) != {} && ResponseOf(p) != {}
  {
    IdsMember(ps, id);
    if StrandedCall(ps, id) {
      var q :| q in ps && Calls(q, id) && !Orphan(q, CallIds(ps), ResponseIds(ps));
      assert id in CallOf(q);
      var p :| p in ps && Answers(p, id);
      assert id in ResponseOf(p) && CallOf(p) != {};
    } else {
      var q :| q in ps && Answers(q, id) && !Orphan(q, CallIds(ps), ResponseIds(ps));
      assert id in ResponseOf(q);
      var p :| p in ps && Calls(p, id);
      assert id in CallOf(p) && ResponseOf(p) != {};
    }
  }

  lemma OneIdEach(h: seq<Message>)
    requires forall p :: p in AllParts(h) ==> CallOf(p) == {} || ResponseOf(p) == {}
    ensures Paired(Cleaned(h))
  {
    var ps := AllParts(h);
    if Stranded(h) {
      var id :| StrandedCall(ps, id) || StrandedResponse(ps, id);
      StrandedHasBoth(ps, id);
    }
    PairedUnlessStranded(h);
  }

  lemma PairedHasNoOrphans(h: seq<Message>)
    ensures Paired(h) <==> Orphans(AllParts(h), CallIds(AllParts(h)), ResponseIds(AllParts(h))) == 0
  {
    var ps := AllParts(h);
    NoOrphans(ps, CallIds(ps), ResponseIds(ps));
    forall id
      ensures id in CallIds(ps) <==> exists p :: p in ps && Calls(p, id)
      ensures id in ResponseIds(ps) <==> exists p :: p in ps && Answers(p, id)
    {
      IdsMember(ps, id);
    }
    if Paired(h) {
      forall p | p in ps
        ensures !Orphan(p, CallIds(ps), ResponseIds(ps))
      {
        forall id | id in CallOf(p)
          ensures id in CallIds(ps)
        {
          assert Calls(p, id);
        }
        forall id | id in ResponseOf(p)
          ensures id in ResponseIds(ps)
        {
          assert Answers(p, id);
        }
      }
    } else {
      if forall p :: p in ps ==> !Orphan(p, CallIds(ps), ResponseIds(ps)) {
        forall id
          ensures id in CallIds(ps) <==> id in ResponseIds(ps)
        {
          if id in CallIds(ps) {
            var p :| p in ps && Calls(p, id);
            assert id in CallOf(p);
          }
          if id in ResponseIds(ps) {
            var p :| p in ps && Answers(p, id);
            assert id in ResponseOf(p);
          }
        }
      }
    }
  }

  // A second pass changes nothing exactly when the first left the history sound.
  lemma Idempotent(h: seq<Message>)
    ensures Cleaned(Cleaned(h)) == Cleaned(h) <==> Paired(Cleaned(h))
  {
    var c := Cleaned(h);
    PairedHasNoOrphans(c);
    if !Paired(c) {
      var ps := AllParts(c);
      NoOrphans(ps, CallIds(ps), ResponseIds(ps));
      KeepsTheRest(c);
      KeptMember(ps, CallIds(ps), ResponseIds(ps));
    }
  }

  // A part that answers one call and makes another, unanswered, takes the first call's only answer
  // away with it.
  lemma StrandsACall()
    ensures !Paired(Cleaned([Message("model", [Part(Some("a"), None, "")]), Message("user", [Part(Some("b"), Some("a"), "")])]))
  {
    var p, q := Part(Some("a"), None, ""), Part(Some("b"), Some("a"), "");
    var h := [Message("model", [p]), Message("user", [q])];
    TwoParts(p, q);
    Crossed([p, q], p, q);
    PairedUnlessStranded(h);
  }

  lemma TwoParts(p: Part, q: Part)
    requires p.Part? && q.Part?
    ensures AllParts([Message("model", [p]), Message("user", [q])]) == [p, q]
  {
    var m, n := Message("model", [p]), Message("user", [q]);
    KeptOne(p, {}, {});
    KeptOne(q, {}, {});
    AllPartsOne(m);
    AllPartsOne(n);
    AllPartsJoins([m], [n]);
    assert [m, n] == [m] + [n];
  }

  lemma Crossed(ps: seq<Part>, p: Part, q: Part)
    requires ps == [p, q] && p == Part(Some("a"), None, "") && q == Part(Some("b"), Some("a"), "")
    ensures StrandedCall(ps, "a")
  {
    hide CallIds, ResponseIds;
    IdsMember(ps, "a");
    IdsMember(ps, "b");
    assert p in ps && q in ps && Calls(p, "a") && Answers(q, "a");
    assert "b" in CallOf(q);
  }
}
