// History compaction (internal/agent/agent.go, lines 4473 to 4637 and 4675 to 4948).

module Compaction {
  import opened Wrappers
  import opened ToolPairs

  // ensureToolPairConsistency, pass by pass.
  method CollectIds(history: seq<Message>) returns (calls: set<string>, responses: set<string>)
    ensures calls == CallIds(AllParts(history)) && responses == ResponseIds(AllParts(history))
  {
    hide CallIds, ResponseIds, AllParts, Solid;
    calls, responses := {}, {};
    NothingYet(history, {}, {});
    for i := 0 to |history|
      invariant calls == CallIds(AllParts(history[..i])) && responses == ResponseIds(AllParts(history[..i]))
    {
      NextMessage(history, i);
      if history[i].Message? {
        var parts := history[i].parts;
        for j := 0 to |parts|
          invariant calls == CallIds(AllParts(history[..i]) + Solid(parts[..j]))
          invariant responses == ResponseIds(AllParts(history[..i]) + Solid(parts[..j]))
        {
          NextPart(AllParts(history[..i]), parts, j);
          if parts[j].Part? {
            if parts[j].call.Some? && parts[j].call.value != "" { calls := calls + {parts[j].call.value}; }
            if parts[j].response.Some? && parts[j].response.value != "" { responses := responses + {parts[j].response.value}; }
          }
        }
        assert parts[..|parts|] == parts;
      }
    }
    assert history[..|history|] == history;
  }

  lemma NothingYet(h: seq<Message>, calls: set<string>, responses: set<string>)
    ensures CallIds(AllParts(h[..0])) == {} && ResponseIds(AllParts(h[..0])) == {}
    ensures Orphans(AllParts(h[..0]), calls, responses) == 0
  {
  }

  lemma NextMessage(h: seq<Message>, i: nat)
    requires i < |h|
    ensures AllParts(h[..i + 1]) == AllParts(h[..i]) + Parts(h[i])
    ensures h[i].Message? ==> AllParts(h[..i]) + Solid(h[i].parts[..0]) == AllParts(h[..i])
    ensures h[i].NilMessage? ==> AllParts(h[..i + 1]) == AllParts(h[..i])
  {
    assert h[..i + 1][..i] == h[..i];
  }

  // One more part, whether nil or not.
  lemma NextPart(ps: seq<Part>, parts: seq<Part>, j: nat)
    requires j < |parts|
    ensures CallIds(ps + Solid(parts[..j + 1])) == CallIds(ps + Solid(parts[..j])) + CallOf(parts[j])
    ensures ResponseIds(ps + Solid(parts[..j + 1])) == ResponseIds(ps + Solid(parts[..j])) + ResponseOf(parts[j])
  {
    assert parts[..j + 1][..j] == parts[..j];
    if parts[j].Part? {
      var q := ps + Solid(parts[..j]);
      assert ps + Solid(parts[..j + 1]) == q + [parts[j]];
      assert (q + [parts[j]])[..|q|] == q;
    } else {
      assert Solid(parts[..j + 1]) == Solid(parts[..j]);
    }
  }

  method CountOrphans(history: seq<Message>, calls: set<string>, responses: set<string>) returns (n: nat)
    ensures n == Orphans(AllParts(history), calls, responses)
  {
    hide Orphans, AllParts, Solid;
    n := 0;
    NothingYet(history, calls, responses);
    for i := 0 to |history|
      invariant n == Orphans(AllParts(history[..i]), calls, responses)
    {
      NextMessage(history, i);
      if history[i].Message? {
        var parts := history[i].parts;
        for j := 0 to |parts|
          invariant n == Orphans(AllParts(history[..i]) + Solid(parts[..j]), calls, responses)
        {
          NextOrphan(AllParts(history[..i]), parts, j, calls, responses);
          if parts[j].Part? {
            if parts[j].call.Some? && parts[j].call.value != "" && parts[j].call.value !in responses { n := n + 1; }
            if parts[j].response.Some? && parts[j].response.value != "" && parts[j].response.value !in calls { n := n + 1; }
          }
        }
        assert parts[..|parts|] == parts;
      }
    }
    assert history[..|history|] == history;
  }

  lemma NextOrphan(ps: seq<Part>, parts: seq<Part>, j: nat, calls: set<string>, responses: set<string>)
    requires j < |parts|
    ensures Orphans(ps + Solid(parts[..j + 1]), calls, responses) ==
              Orphans(ps + Solid(parts[..j]), calls, responses) + Weight(parts[j], calls, responses)
  {
    assert parts[..j + 1][..j] == parts[..j];
    if parts[j].Part? {
      var q := ps + Solid(parts[..j]);
      assert ps + Solid(parts[..j + 1]) == q + [parts[j]];
      assert (q + [parts[j]])[..|q|] == q;
    } else {
      assert Solid(parts[..j + 1]) == Solid(parts[..j]);
    }
  }

  method KeepParts(parts: seq<Part>, calls: set<string>, responses: set<string>) returns (kept: seq<Part>)
    ensures kept == Kept(parts, calls, responses)
  {
    kept := [];
    for j := 0 to |parts|
      invariant kept == Kept(parts[..j], calls, responses)
    {
      assert parts[..j + 1][..j] == parts[..j];
      if parts[j].Part? {
        var keep := true;
        if parts[j].call.Some? && parts[j].call.value != "" && parts[j].call.value !in responses { keep := false; }
        if parts[j].response.Some? && parts[j].response.value != "" && parts[j].response.value !in calls { keep := false; }
        if keep { kept := kept + [parts[j]]; }
      }
    }
    assert parts[..|parts|] == parts;
  }

  method EnsureToolPairConsistency(history: seq<Message>) returns (r: seq<Message>)
    ensures r == Cleaned(history)
  {
    var calls, responses := CollectIds(history);
    var orphans := CountOrphans(history, calls, responses);
    if orphans == 0 { return history; }
    r := [];
    for i := 0 to |history|
      invariant r == FilteredAll(history[..i], calls, responses)
    {
      assert history[..i + 1][..i] == history[..i];
      if history[i].Message? {
        var kept := KeepParts(history[i].parts, calls, responses);
        if |kept| > 0 {
          r := r + [if |kept| == |history[i].parts| then history[i] else Message(history[i].role, kept)];
        }
      }
    }
    assert history[..|history|] == history;
  }

  // ----- pre-emptive compaction -----

  const PRESERVED := 3

  // How many recent messages are protected, out of a snapshot long enough to be summarized.
  function Protected(n: nat, configured: nat): (p: nat)
    requires n > PRESERVED + 2
    ensures p <= n - PRESERVED - 1
  {
    if configured >= n - PRESERVED then n - PRESERVED - 1 else configured
  }

  // As many as are configured, as long as at least one message besides the first three is left to be
  // summarized.
  lemma ProtectedIsMost(n: nat, configured: nat, q: nat)
    requires n > 5
    ensures Protected(n, configured) <= configured && 3 + 1 + Protected(n, configured) <= n
    ensures q <= configured && 3 + 1 + q <= n ==> q <= Protected(n, configured)
  {
  }

  // The history that checkAndSummarize rebuilds before cleaning it, from the history now, the
  // snapshot it summarized and the length it noted.
  function Resummarized(now: seq<Message>, snapshot: seq<Message>, noted: nat, configured: nat, summary: Message): seq<Message>
    requires |snapshot| > PRESERVED + 2 && PRESERVED <= |now| && noted <= |now|
  {
    now[..PRESERVED] + [summary] + snapshot[|snapshot| - Protected(|snapshot|, configured)..] + now[noted..]
  }

  // When messages have only been appended since the snapshot, the rebuilt history is the first three
  // messages, the summary, and everything from the protected tail on, once, exactly when the noted
  // length is the snapshot's. If the snapshot is longer, the messages in between are there twice; if
  // it is shorter, because the history shrank between the two reads, they are missing.
  lemma ResummarizedKeepsTail(now: seq<Message>, snapshot: seq<Message>, noted: nat, configured: nat, summary: Message)
    requires |snapshot| > PRESERVED + 2 && snapshot <= now && noted <= |now|
    ensures Resummarized(now, snapshot, noted, configured, summary) ==
              now[..PRESERVED] + [summary] + now[|snapshot| - Protected(|snapshot|, configured)..|snapshot|] + now[noted..]
    ensures Resummarized(now, snapshot, noted, configured, summary) ==
              now[..PRESERVED] + [summary] + now[|snapshot| - Protected(|snapshot|, configured)..]
            <==> noted == |snapshot|
  {
    var k := |snapshot| - Protected(|snapshot|, configured);
    assert snapshot[k..] == now[k..|snapshot|];
    assert now[k..] == now[k..|snapshot|] + now[|snapshot|..];
    if noted == |snapshot| {
      assert now[..PRESERVED] + [summary] + now[k..|snapshot|] + now[|snapshot|..]
          == now[..PRESERVED] + [summary] + (now[k..|snapshot|] + now[|snapshot|..]);
    } else {
      assert |Resummarized(now, snapshot, noted, configured, summary)| != |now[..PRESERVED] + [summary] + now[k..]|;
    }
  }

  // checkAndSummarize from the summary on; now is the history when the write lock is taken. The
  // source slices off its first three messages without checking that there are so many: none stands
  // for a slice out of range.
  method CheckAndSummarize(now: seq<Message>, snapshot: seq<Message>, noted: nat, minimum: nat, configured: nat, summary: Message)
    returns (r: Option<seq<Message>>)
    ensures r == if |snapshot| <= minimum || |snapshot| <= PRESERVED + 2 || |now| < noted then Some(now)
                 else if |now| < PRESERVED then None
                 else Some(Cleaned(Resummarized(now, snapshot, noted, configured, summary)))
    // As long as messages are only appended, the slice is in range.
    ensures snapshot <= now ==> r.Some?
    ensures r.Some? && |snapshot| > minimum && |snapshot| > 5 && |now| >= noted ==>
              r.value == Cleaned(now[..3] + [summary] + snapshot[|snapshot| - Protected(|snapshot|, configured)..] + now[noted..])
  {
    if |snapshot| <= minimum || |snapshot| <= PRESERVED + 2 { return Some(now); }
    var protect := configured;
    if protect >= |snapshot| - PRESERVED { protect := |snapshot| - PRESERVED - 1; }
    var recent := snapshot[|snapshot| - protect..];
    if |now| < noted { return Some(now); }
    if |now| < PRESERVED { return None; }
    var rebuilt := now[..PRESERVED];
    rebuilt := rebuilt + [summary];
    rebuilt := rebuilt + recent;
    rebuilt := rebuilt + now[noted..];
    rebuilt := EnsureToolPairConsistency(rebuilt);
    r := Some(rebuilt);
  }

  // ----- forced compaction -----

  const TAIL := 6

  // forceCompactViaSummary: what was summarized of the history at first, and what is rebuilt from
  // the history later.
  function Summarized(first: seq<Message>): seq<Message>
    requires |first| > PRESERVED + TAIL + 2
  {
    first[PRESERVED..|first| - TAIL]
  }

  function ForceResummarized(now: seq<Message>, summary: Message): seq<Message>
    requires |now| > PRESERVED + TAIL + 2
  {
    now[..PRESERVED] + [summary] + now[|now| - TAIL..]
  }

  // The kept tail is counted from the later end, so as many messages as were appended meanwhile are
  // neither summarized nor kept; nothing is lost exactly when nothing was appended.
  lemma ForceResummarizedLoses(first: seq<Message>, now: seq<Message>, summary: Message)
    requires |first| > PRESERVED + TAIL + 2 && first <= now
    ensures var lost := now[|first| - TAIL..|now| - TAIL];
      && |lost| == |now| - |first|
      && now == now[..PRESERVED] + Summarized(first) + lost + now[|now| - TAIL..]
    ensures ForceResummarized(now, summary) == now[..PRESERVED] + [summary] + now[|first| - TAIL..] <==> |now| == |first|
  {
    var n, m := |now|, |first|;
    assert first[PRESERVED..m - TAIL] == now[PRESERVED..m - TAIL];
    assert now == now[..PRESERVED] + now[PRESERVED..m - TAIL] + now[m - TAIL..n - TAIL] + now[n - TAIL..];
    assert |ForceResummarized(now, summary)| == PRESERVED + 1 + TAIL;
    assert |now[..PRESERVED] + [summary] + now[m - TAIL..]| == PRESERVED + 1 + TAIL + n - m;
  }

  method ForceCompactViaSummary(first: seq<Message>, now: seq<Message>, summary: Message) returns (r: seq<Message>)
    ensures r == if |first| <= 11 || |now| < |first| then now else Cleaned(now[..3] + [summary] + now[|now| - 6..])
  {
    if |first| <= 10 || |first| <= PRESERVED + TAIL + 2 { return now; }
    if |now| < |first| { return now; }
    var rebuilt := now[..PRESERVED];
    rebuilt := rebuilt + [summary];
    rebuilt := rebuilt + now[|now| - TAIL..];
    r := EnsureToolPairConsistency(rebuilt);
  }

  // ----- truncation -----

  const MIDDLE := 4

  datatype Scored = Scored(idx: nat, score: real)

  // Every entry still names its own message's score, and no message is named twice.
  ghost predicate Ranked(a: seq<Scored>, scores: seq<real>) {
    && |a| == |scores|
    && (forall i :: 0 <= i < |a| ==> a[i].idx < |scores| && a[i].score == scores[a[i].idx])
    && (forall i, j :: 0 <= i < j < |a| ==> a[i].idx != a[j].idx)
  }

  // The first n entries outscore the rest.
  ghost predicate Leading(a: seq<Scored>, n: nat) {
    n <= |a| && forall i, j :: 0 <= i < n <= j < |a| ==> a[i].score >= a[j].score
  }

  lemma SwappedRanked(a: seq<Scored>, scores: seq<real>, i: nat, j: nat)
    requires Ranked(a, scores) && i < |a| && j < |a|
    ensures Ranked(a[i := a[j]][j := a[i]], scores)
  {
  }

  // Within the first n, a swap changes neither who leads nor by how much.
  lemma SwappedLeading(a: seq<Scored>, n: nat, i: nat, j: nat)
    requires Leading(a, n) && i < n && j < n
    ensures Leading(a[i := a[j]][j := a[i]], n)
  {
  }

  // The partial selection sort: the best of the rest goes to each of the first four places.
  method SelectTop(a: array<Scored>, scores: seq<real>)
    requires Ranked(a[..], scores) && a.Length >= MIDDLE
    modifies a
    ensures Ranked(a[..], scores) && Leading(a[..], MIDDLE)
  {
    var i := 0;
    while i < MIDDLE && i < a.Length
      invariant i <= MIDDLE && Ranked(a[..], scores)
      invariant forall k, j :: 0 <= k < i && k < j < a.Length ==> a[k].score >= a[j].score
    {
      var best := i;
      for j := i + 1 to a.Length
        invariant i <= best < a.Length && forall k :: i <= k < j ==> a[best].score >= a[k].score
      {
        if a[j].score > a[best].score { best := j; }
      }
      SwappedRanked(a[..], scores, i, best);
      ghost var before := a[..];
      a[i], a[best] := a[best], a[i];
      assert a[..] == before[i := before[best]][best := before[i]];
      i := i + 1;
    }
  }

  method Exchange(a: array<Scored>, scores: seq<real>, i: nat, j: nat)
    requires Ranked(a[..], scores) && Leading(a[..], MIDDLE) && a.Length >= MIDDLE && i < j < MIDDLE
    modifies a
    ensures Ranked(a[..], scores) && Leading(a[..], MIDDLE)
    ensures a[..] == if old(a[i].idx) > old(a[j].idx) then old(a[..])[i := old(a[j])][j := old(a[i])] else old(a[..])
  {
    SwappedRanked(a[..], scores, i, j);
    SwappedLeading(a[..], MIDDLE, i, j);
    ghost var before := a[..];
    if a[i].idx > a[j].idx {
      a[i], a[j] := a[j], a[i];
      assert a[..] == before[i := before[j]][j := before[i]];
    }
  }

  // The exchange sort that puts the four back into message order.
  method SortTop(a: array<Scored>, scores: seq<real>)
    requires Ranked(a[..], scores) && Leading(a[..], MIDDLE) && a.Length >= MIDDLE
    modifies a
    ensures Ranked(a[..], scores) && Leading(a[..], MIDDLE)
    ensures forall i, j :: 0 <= i < j < MIDDLE ==> a[i].idx < a[j].idx
  {
    hide Ranked, Leading;
    for i := 0 to MIDDLE
      invariant Ranked(a[..], scores) && Leading(a[..], MIDDLE)
      invariant forall k, j :: 0 <= k < i && k < j < MIDDLE ==> a[k].idx <= a[j].idx
    {
      for j := i + 1 to MIDDLE
        invariant Ranked(a[..], scores) && Leading(a[..], MIDDLE)
        invariant forall k, l :: 0 <= k < i && k < l < MIDDLE ==> a[k].idx <= a[l].idx
        invariant forall l :: i < l < j ==> a[i].idx <= a[l].idx
      {
        Exchange(a, scores, i, j);
      }
    }
    Unequal(a[..], scores);
    assert forall i, j :: 0 <= i < j < MIDDLE ==> a[..][i].idx != a[..][j].idx;
  }

  lemma Unequal(a: seq<Scored>, scores: seq<real>)
    requires Ranked(a, scores)
    ensures forall i, j :: 0 <= i < j < |a| ==> a[i].idx != a[j].idx
  {
  }

  // Four places in order, none of the others scoring higher than any of them.
  ghost predicate TopFour(kept: seq<nat>, scores: seq<real>) {
    && |kept| == MIDDLE && (forall i :: 0 <= i < MIDDLE ==> kept[i] < |scores|)
    && (forall i, j :: 0 <= i < j < MIDDLE ==> kept[i] < kept[j])
    && (forall i, d :: 0 <= i < MIDDLE && 0 <= d < |scores| && d !in kept ==> scores[d] <= scores[kept[i]])
  }

  lemma LeadersAreTop(a: seq<Scored>, scores: seq<real>, kept: seq<nat>)
    requires Ranked(a, scores) && Leading(a, MIDDLE) && |kept| == MIDDLE && |a| >= MIDDLE
    requires forall i :: 0 <= i < MIDDLE ==> kept[i] == a[i].idx
    requires forall i, j :: 0 <= i < j < MIDDLE ==> a[i].idx < a[j].idx
    ensures TopFour(kept, scores)
  {
    assert forall j :: 0 <= j < MIDDLE ==> a[j].idx in kept by {
      assert forall j :: 0 <= j < MIDDLE ==> kept[j] in kept;
    }
    forall i, d | 0 <= i < MIDDLE && 0 <= d < |scores| && d !in kept
      ensures scores[d] <= scores[kept[i]]
    {
      var j := Place(a, scores, d);
    }
  }

  // Distinct places among as many messages name every message.
  lemma Place(a: seq<Scored>, scores: seq<real>, d: nat) returns (j: nat)
    requires Ranked(a, scores) && d < |scores|
    ensures j < |a| && a[j].idx == d
  {
    Named(a, |a|);
    Counted(|scores|);
    forall x | x in Names(a, |a|)
      ensures x in Upto(|scores|)
    {
      var i := NameAt(a, |a|, x);
    }
    Filled(Names(a, |a|), Upto(|scores|));
    j := NameAt(a, |a|, d);
  }

  function Names(a: seq<Scored>, n: nat): set<nat>
    requires n <= |a|
  {
    if n == 0 then {} else Names(a, n - 1) + {a[n - 1].idx}
  }

  function Upto(n: nat): set<nat> { if n == 0 then {} else Upto(n - 1) + {n - 1} }

  lemma {:induction false} NameAt(a: seq<Scored>, n: nat, x: nat) returns (i: nat)
    requires n <= |a| && x in Names(a, n)
    ensures i < n && a[i].idx == x
  {
    if x == a[n - 1].idx { i := n - 1; } else { i := NameAt(a, n - 1, x); }
  }

  lemma {:induction false} Named(a: seq<Scored>, n: nat)
    requires n <= |a| && forall i, j :: 0 <= i < j < |a| ==> a[i].idx != a[j].idx
    ensures |Names(a, n)| == n
  {
    if n > 0 {
      Named(a, n - 1);
      if a[n - 1].idx in Names(a, n - 1) {
        var i := NameAt(a, n - 1, a[n - 1].idx);
      }
    }
  }

  lemma {:induction false} Counted(n: nat)
    ensures |Upto(n)| == n
    ensures forall x: nat :: x in Upto(n) <==> x < n
  {
    if n > 0 { Counted(n - 1); }
  }

  lemma Filled(a: set<nat>, b: set<nat>)
    requires a <= b && |a| == |b|
    ensures a == b
  {
    assert |b - a| == |b| - |a|;
  }

  method KeepMiddle(scores: seq<real>) returns (kept: seq<nat>)
    requires |scores| >= MIDDLE
    ensures TopFour(kept, scores)
  {
    var a := new Scored[|scores|](i requires 0 <= i < |scores| => Scored(i, scores[i]));
    SelectTop(a, scores);
    SortTop(a, scores);
    kept := [];
    for i := 0 to MIDDLE
      invariant |kept| == i && forall j :: 0 <= j < i ==> kept[j] == a[j].idx
    {
      kept := kept + [a[i].idx];
    }
    LeadersAreTop(a[..], scores, kept);
  }

  // Messages at the kept places of the middle, nil ones left out.
  function Picked(history: seq<Message>, kept: seq<nat>): seq<Message>
    requires forall i :: 0 <= i < |kept| ==> PRESERVED + kept[i] < |history|
  {
    if kept == [] then []
    else Picked(history, kept[..|kept| - 1]) +
         if history[PRESERVED + kept[|kept| - 1]].NilMessage? then [] else [history[PRESERVED + kept[|kept| - 1]]]
  }

  function NonNil(history: seq<Message>, kept: seq<nat>): nat
    requires forall i :: 0 <= i < |kept| ==> 3 + kept[i] < |history|
  {
    if kept == [] then 0
    else NonNil(history, kept[..|kept| - 1]) + if history[3 + kept[|kept| - 1]].NilMessage? then 0 else 1
  }

  // Each kept place that is not nil is there, behind those before it, and nothing else is.
  lemma {:induction false} PickedAt(history: seq<Message>, kept: seq<nat>, i: nat)
    requires i < |kept| && forall j :: 0 <= j < |kept| ==> 3 + kept[j] < |history|
    ensures |Picked(history, kept)| == NonNil(history, kept)
    ensures !history[3 + kept[i]].NilMessage? ==>
              NonNil(history, kept[..i]) < |Picked(history, kept)| && Picked(history, kept)[NonNil(history, kept[..i])] == history[3 + kept[i]]
  {
    var n := |kept| - 1;
    if n > 0 { PickedAt(history, kept[..n], if i < n then i else 0); }
    if i < n { assert kept[..n][..i] == kept[..i]; }
  }

  // forceCompactViaTruncation; scores are those of the middle messages.
  method Truncate(history: seq<Message>, scores: seq<real>, notice: Message) returns (r: seq<Message>, ghost kept: seq<nat>)
    requires |history| >= PRESERVED + TAIL + MIDDLE ==> |scores| == |history| - PRESERVED - TAIL
    ensures |history| < 13 ==> r == history
    ensures |history| >= 13 ==>
              && TopFour(kept, scores) && |kept| == 4 && (forall i :: 0 <= i < 4 ==> 3 + kept[i] < |history| - 6)
              && r == Cleaned(history[..3] + [notice] + Picked(history, kept) + history[|history| - 6..])
  {
    if |history| <= 10 || |history| < PRESERVED + TAIL + MIDDLE { return history, []; }
    var places := KeepMiddle(scores);
    kept := places;
    var middle := [];
    for i := 0 to MIDDLE
      invariant middle == Picked(history, places[..i])
    {
      assert places[..i + 1][..i] == places[..i];
      if history[PRESERVED + places[i]].Message? { middle := middle + [history[PRESERVED + places[i]]]; }
    }
    assert places[..MIDDLE] == places;
    r := EnsureToolPairConsistency(history[..PRESERVED] + [notice] + middle + history[|history| - TAIL..]);
  }
}
