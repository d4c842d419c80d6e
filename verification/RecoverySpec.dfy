// Automatic recovery from tool errors (internal/agent/recovery.go) as a small state machine with a
// budget.

module RecoverySpec {
  import opened Wrappers

  datatype Phase = Classify | FixChain | Alternative | Stop

  // A fix is known by its key; an empty key is never run.
  datatype Fix = Fix(key: string, retryWithArgs: bool)

  datatype State = State(phase: Phase, category: string, attempted: set<string>, chain: seq<Fix>, cursor: nat,
                         lastError: string, repeated: nat, budget: int, alternativeUsed: bool)

  // What executing a fix or the alternative comes to.
  datatype Outcome = Outcome(success: bool, handled: bool)

  function New(category: string, max: int): State {
    State(Classify, category, {}, [], 0, "", 0, if max <= 0 then 1 else max, false)
  }

  // ensureStateLocked; categories are normalized.
  function Ensured(found: Option<State>, category: string, max: int): State {
    if found.None? || found.value.category != category then New(category, max)
    else if found.value.budget <= 0 && found.value.phase.Classify? then found.value.(budget := if max > 1 then max else 1)
    else found.value
  }

  // Conservation: whatever the budget has lost has been spent on a fix or on the alternative.
  predicate Balanced(st: State, max: int) {
    && max >= 1 && st.budget >= 0 && st.budget + |st.attempted| + (if st.alternativeUsed then 1 else 0) == max
    && st.cursor <= |st.chain|
    && (st.phase.Classify? ==> st.attempted == {} && !st.alternativeUsed)
    && (st.phase.FixChain? ==> st.budget >= 1 && !st.alternativeUsed)
  }

  // updateErrorRepeat, with the error already reduced to its fingerprint.
  function Repeated(st: State, fingerprint: string): State {
    if fingerprint == "" then st
    else if st.lastError == fingerprint then st.(repeated := st.repeated + 1)
    else st.(lastError := fingerprint, repeated := 0)
  }

  function Stripped(chain: seq<Fix>): seq<Fix> {
    if chain == [] then []
    else (if chain[0].retryWithArgs then [] else [chain[0]]) + Stripped(chain[1..])
  }

  function Deduped(chain: seq<Fix>, seen: set<string>): seq<Fix>
    decreases |chain|
  {
    if chain == [] then []
    else if chain[0].key == "" || chain[0].key in seen then Deduped(chain[1..], seen)
    else [chain[0]] + Deduped(chain[1..], seen + {chain[0].key})
  }

  // prepareFixChain; offered is the reflection's own fix and the policy's chain.
  function Prepared(st: State, offered: seq<Fix>, repeat: nat): State {
    var chain := Deduped(if repeat >= 1 then Stripped(offered) else offered, {});
    if chain == [] then st.(phase := Alternative) else st.(chain := chain, cursor := 0, phase := FixChain)
  }

  // nextFixAction
  function NextFix(st: State, repeat: nat): (r: (State, Option<Fix>))
    requires st.cursor <= |st.chain|
    decreases |st.chain| - st.cursor
  {
    if !st.phase.FixChain? || st.chain == [] then (st, None)
    else if st.cursor == |st.chain| then (st.(phase := Alternative), None)
    else
      var fix, u := st.chain[st.cursor], st.(cursor := st.cursor + 1);
      if (repeat >= 1 && fix.retryWithArgs) || fix.key == "" || fix.key in st.attempted then NextFix(u, repeat)
      else if st.budget <= 0 then (u.(phase := Alternative), None)
      else (u.(attempted := u.attempted + {fix.key}, budget := u.budget - 1), Some(fix))
  }

  // What one turn of the state machine answers.
  datatype Reply = Again | Recovered | Reported | GaveUp

  // One turn. Recovered clears the state; out is the outcome of the action taken, if one is.
  function Turn(st: State, offered: seq<Fix>, repeat: nat, out: Outcome): (State, Reply)
    requires st.cursor <= |st.chain|
  {
    match st.phase
    case Classify => (Prepared(st, offered, repeat), Again)
    case FixChain =>
      var (u, fix) := NextFix(st, repeat);
      if fix.None? then (u.(phase := Alternative), Again)
      else
        var v := if u.budget <= 0 then u.(phase := Alternative) else u;
        if out.success then (u, Recovered)
        else if out.handled then (v, Reported)
        else (v, Again)
    case Alternative =>
      if st.alternativeUsed || st.budget <= 0 then (st.(phase := Stop), Again)
      else
        var u := st.(alternativeUsed := true, budget := st.budget - 1);
        if out.success then (u, Recovered)
        else if out.handled then (u.(phase := Stop), Reported)
        else (u.(phase := Stop), Again)
    case Stop => (st, GaveUp)
  }

  // How many more turns the machine can take.
  function TurnsLeft(st: State): int {
    match st.phase
    case Classify => st.budget + 3
    case FixChain => st.budget + 2
    case Alternative => 2
    case Stop => 1
  }

  lemma {:induction false} NextFixBalanced(st: State, repeat: nat, max: int)
    requires Balanced(st, max)
    ensures var (u, fix) := NextFix(st, repeat);
      && u.cursor <= |u.chain| && u.budget >= 0
      && u.budget + |u.attempted| + (if u.alternativeUsed then 1 else 0) == max
      && u.alternativeUsed == st.alternativeUsed
      && (fix.Some? ==> u.phase == st.phase && fix.value.key !in st.attempted && fix.value.key != ""
                        && u.attempted == st.attempted + {fix.value.key} && u.budget == st.budget - 1)
      && (fix.None? ==> u.attempted == st.attempted && u.budget == st.budget)
      && (fix.None? ==> if st.phase.FixChain? && st.chain != [] then u.phase.Alternative? else u == st)
    decreases |st.chain| - st.cursor
  {
    if st.phase.FixChain? && st.chain != [] && st.cursor < |st.chain| {
      var fix := st.chain[st.cursor];
      if (repeat >= 1 && fix.retryWithArgs) || fix.key == "" || fix.key in st.attempted {
        NextFixBalanced(st.(cursor := st.cursor + 1), repeat, max);
      }
    }
  }

  // A turn conserves the budget, runs no fix a second time, runs the alternative at most once, never
  // returns to classification, and leaves fewer turns unless it is the last.
  ghost predicate Spends(st: State, u: State, reply: Reply, max: int) {
    && (!reply.Recovered? ==> Balanced(u, max))
    && !u.phase.Classify? && u.attempted >= st.attempted && (st.alternativeUsed ==> u.alternativeUsed)
    && st.budget - u.budget == |u.attempted| - |st.attempted| + (if u.alternativeUsed && !st.alternativeUsed then 1 else 0) <= 1
    && (reply.Again? ==> TurnsLeft(u) < TurnsLeft(st))
  }

  lemma FixTurn(st: State, offered: seq<Fix>, repeat: nat, out: Outcome, max: int)
    requires Balanced(st, max) && st.phase.FixChain?
    ensures Spends(st, Turn(st, offered, repeat, out).0, Turn(st, offered, repeat, out).1, max)
  {
    hide NextFix;
    NextFixBalanced(st, repeat, max);
    var (u, fix) := NextFix(st, repeat);
    if fix.Some? {
      assert |u.attempted| == |st.attempted| + 1;
    } else {
      assert u.(phase := Alternative).budget == st.budget;
    }
  }

  lemma TurnBalanced(st: State, offered: seq<Fix>, repeat: nat, out: Outcome, max: int)
    requires Balanced(st, max)
    ensures Spends(st, Turn(st, offered, repeat, out).0, Turn(st, offered, repeat, out).1, max)
  {
    hide NextFix, Deduped, Stripped;
    if st.phase.FixChain? { FixTurn(st, offered, repeat, out, max); }
  }

  // outs is what the actions carried out come to, one after another.
  function First(outs: seq<Outcome>): Outcome { if outs == [] then Outcome(false, false) else outs[0] }

  function Unused(outs: seq<Outcome>, acts: seq<Act>): seq<Outcome> { if outs == [] || acts == [] then outs else outs[1..] }

  // The loop of AttemptAutoFix: at most cap turns.
  function Loop(st: State, offered: seq<Fix>, repeat: nat, outs: seq<Outcome>, cap: nat): (State, Reply)
    requires st.cursor <= |st.chain|
    decreases cap
  {
    if cap == 0 then (st, Again)
    else
      var out := First(outs);
      var (u, reply) := Turn(st, offered, repeat, out);
      if !reply.Again? || u.cursor > |u.chain| then (u, reply)
      else Loop(u, offered, repeat, Unused(outs, Acts(st, repeat)), cap - 1)
  }

  lemma {:induction false} LoopEnds(st: State, offered: seq<Fix>, repeat: nat, outs: seq<Outcome>, cap: nat, max: int)
    requires Balanced(st, max)
    ensures var (u, reply) := Loop(st, offered, repeat, outs, cap);
      && (!reply.Recovered? ==> Balanced(u, max))
      && u.attempted >= st.attempted && (st.alternativeUsed ==> u.alternativeUsed)
      && (TurnsLeft(st) <= cap ==> !reply.Again?)
    decreases cap
  {
    hide Turn, TurnsLeft, Balanced;
    LeftPositive(st, max);
    if cap > 0 {
      var out := First(outs);
      TurnBalanced(st, offered, repeat, out, max);
      var (u, reply) := Turn(st, offered, repeat, out);
      if !reply.Recovered? { LeftPositive(u, max); }
      if reply.Again? { LoopEnds(u, offered, repeat, Unused(outs, Acts(st, repeat)), cap - 1, max); }
    }
  }

  lemma LeftPositive(st: State, max: int)
    requires Balanced(st, max)
    ensures TurnsLeft(st) >= 1 && TurnsLeft(st) <= max + 3 && st.cursor <= |st.chain|
  {
  }

  // ----- what is carried out -----

  datatype Act = RanFix(key: string) | RanAlternative

  function Acts(st: State, repeat: nat): seq<Act>
    requires st.cursor <= |st.chain|
  {
    match st.phase
    case FixChain =>
      var fix := NextFix(st, repeat).1;
      if fix.Some? then [RanFix(fix.value.key)] else []
    case Alternative => if st.alternativeUsed || st.budget <= 0 then [] else [RanAlternative]
    case _ => []
  }

  function LoopActs(st: State, offered: seq<Fix>, repeat: nat, outs: seq<Outcome>, cap: nat): seq<Act>
    requires st.cursor <= |st.chain|
    decreases cap
  {
    if cap == 0 then []
    else
      var out := First(outs);
      var (u, reply) := Turn(st, offered, repeat, out);
      Acts(st, repeat) +
        if !reply.Again? || u.cursor > |u.chain| then []
        else LoopActs(u, offered, repeat, Unused(outs, Acts(st, repeat)), cap - 1)
  }

  // One turn more.
  lemma LoopNext(st: State, offered: seq<Fix>, repeat: nat, outs: seq<Outcome>, cap: nat)
    requires st.cursor <= |st.chain|
    ensures cap == 0 ==> Loop(st, offered, repeat, outs, cap) == (st, Again) && LoopActs(st, offered, repeat, outs, cap) == []
    ensures cap > 0 ==>
              var (u, reply) := Turn(st, offered, repeat, First(outs));
              var rest := Unused(outs, Acts(st, repeat));
              if !reply.Again? || u.cursor > |u.chain| then
                && Loop(st, offered, repeat, outs, cap) == (u, reply)
                && LoopActs(st, offered, repeat, outs, cap) == Acts(st, repeat)
              else
                && Loop(st, offered, repeat, outs, cap) == Loop(u, offered, repeat, rest, cap - 1)
                && LoopActs(st, offered, repeat, outs, cap) == Acts(st, repeat) + LoopActs(u, offered, repeat, rest, cap - 1)
  {
    hide Turn, Acts;
    if cap > 0 { assert Acts(st, repeat) + [] == Acts(st, repeat); }
  }

  // The acts lead from one state to the other: each is new, none comes twice, and each costs one.
  ghost predicate Accounted(st: State, acts: seq<Act>, u: State) {
    && (forall i, j :: 0 <= i < j < |acts| ==> acts[i] != acts[j])
    && (forall a :: a in acts ==> !Tried(st, a) && Tried(u, a))
    && st.attempted <= u.attempted && (st.alternativeUsed ==> u.alternativeUsed)
    && u.budget == st.budget - |acts| && u.budget >= 0
  }

  predicate Tried(st: State, a: Act) { if a.RanFix? then a.key in st.attempted else st.alternativeUsed }

  lemma AccountedOn(st: State, a: seq<Act>, m: State, b: seq<Act>, u: State)
    requires Accounted(st, a, m) && Accounted(m, b, u)
    ensures Accounted(st, a + b, u)
  {
    forall i, j | 0 <= i < j < |a + b|
      ensures (a + b)[i] != (a + b)[j]
    {
      if i < |a| <= j { assert Tried(m, a[i]) && !Tried(m, b[j - |a|]); }
    }
    forall x | x in a + b
      ensures !Tried(st, x) && Tried(u, x)
    {
      assert x in a || x in b;
    }
  }

  lemma TurnAccounted(st: State, offered: seq<Fix>, repeat: nat, out: Outcome, max: int)
    requires Balanced(st, max)
    ensures Accounted(st, Acts(st, repeat), Turn(st, offered, repeat, out).0)
  {
    hide NextFix, Deduped, Stripped;
    NextFixBalanced(st, repeat, max);
  }

  lemma {:induction false} LoopAccounted(st: State, offered: seq<Fix>, repeat: nat, outs: seq<Outcome>, cap: nat, max: int)
    requires Balanced(st, max)
    ensures Accounted(st, LoopActs(st, offered, repeat, outs, cap), Loop(st, offered, repeat, outs, cap).0)
    decreases cap
  {
    hide Turn, Acts, Balanced, Accounted;
    LeftPositive(st, max);
    NoActs(st, max);
    if cap > 0 {
      var out := First(outs);
      TurnBalanced(st, offered, repeat, out, max);
      TurnAccounted(st, offered, repeat, out, max);
      var (u, reply) := Turn(st, offered, repeat, out);
      var rest := Unused(outs, Acts(st, repeat));
      if reply.Again? {
        LeftPositive(u, max);
        LoopAccounted(u, offered, repeat, rest, cap - 1, max);
        AccountedOn(st, Acts(st, repeat), u, LoopActs(u, offered, repeat, rest, cap - 1), Loop(u, offered, repeat, rest, cap - 1).0);
      } else {
        assert Acts(st, repeat) + [] == Acts(st, repeat);
      }
    }
  }

  lemma NoActs(st: State, max: int)
    requires Balanced(st, max)
    ensures Accounted(st, [], st)
  {
  }

  // ----- what the answer means -----

  // What the i-th act comes to.
  function Came(outs: seq<Outcome>, i: nat): Outcome { if i < |outs| then outs[i] else Outcome(false, false) }

  // The answer says what the last act came to, and no act follows one that succeeded or was handled;
  // giving up, it has reached the end with the alternative used or nothing left to spend.
  ghost predicate Truthful(acts: seq<Act>, outs: seq<Outcome>, reply: Reply) {
    && (reply.Recovered? <==> acts != [] && Came(outs, |acts| - 1).success)
    && (reply.Reported? <==> acts != [] && !Came(outs, |acts| - 1).success && Came(outs, |acts| - 1).handled)
    && (forall i :: 0 <= i < |acts| - 1 ==> !Came(outs, i).success && !Came(outs, i).handled)
  }

  lemma TurnTruthful(st: State, offered: seq<Fix>, repeat: nat, outs: seq<Outcome>, max: int)
    requires Balanced(st, max)
    ensures |Acts(st, repeat)| <= 1
    ensures Truthful(Acts(st, repeat), outs, Turn(st, offered, repeat, First(outs)).1)
  {
    hide NextFix, Deduped, Stripped;
  }

  lemma CameLater(outs: seq<Outcome>, acts: seq<Act>, i: nat)
    ensures Came(Unused(outs, acts), i) == Came(outs, if acts == [] then i else i + 1)
  {
  }

  lemma TruthfulOn(acts: seq<Act>, outs: seq<Outcome>, more: seq<Act>, reply: Reply)
    requires |acts| <= 1 && Truthful(acts, outs, Again) && Truthful(more, Unused(outs, acts), reply)
    ensures Truthful(acts + more, outs, reply)
  {
    hide Came, Unused;
    if acts == [] {
      assert acts + more == more;
      assert Unused(outs, acts) == outs by { NoneUsed(outs); }
    } else {
      forall i | 0 <= i < |acts + more| - 1
        ensures !Came(outs, i).success && !Came(outs, i).handled
      {
        if i > 0 { CameLater(outs, acts, i - 1); }
      }
      if more != [] { CameLater(outs, acts, |more| - 1); } else { assert acts + more == acts; }
    }
  }

  lemma NoneUsed(outs: seq<Outcome>)
    ensures Unused(outs, []) == outs
  {
  }

  lemma {:induction false} LoopTruthful(st: State, offered: seq<Fix>, repeat: nat, outs: seq<Outcome>, cap: nat, max: int)
    requires Balanced(st, max)
    ensures Truthful(LoopActs(st, offered, repeat, outs, cap), outs, Loop(st, offered, repeat, outs, cap).1)
    ensures var (u, reply) := Loop(st, offered, repeat, outs, cap);
      reply.GaveUp? ==> u.phase.Stop? && (st.phase.Stop? || u.alternativeUsed || u.budget <= 0)
    decreases cap
  {
    hide Turn, Acts, Balanced, Truthful;
    LeftPositive(st, max);
    LoopNext(st, offered, repeat, outs, cap);
    if cap > 0 {
      TurnBalanced(st, offered, repeat, First(outs), max);
      TurnTruthful(st, offered, repeat, outs, max);
      StopsSpent(st, offered, repeat, First(outs), max);
      var (u, reply) := Turn(st, offered, repeat, First(outs));
      var rest := Unused(outs, Acts(st, repeat));
      if reply.Again? {
        LeftPositive(u, max);
        LoopTruthful(u, offered, repeat, rest, cap - 1, max);
        TruthfulOn(Acts(st, repeat), outs, LoopActs(u, offered, repeat, rest, cap - 1), Loop(u, offered, repeat, rest, cap - 1).1);
        LoopEnds(u, offered, repeat, rest, cap - 1, max);
        LoopSpends(u, offered, repeat, rest, cap - 1, max);
      }
    } else {
      assert Truthful([], outs, Again) by { NothingTold(outs); }
    }
  }

  lemma NothingTold(outs: seq<Outcome>)
    ensures Truthful([], outs, Again)
  {
  }

  lemma StopsSpent(st: State, offered: seq<Fix>, repeat: nat, out: Outcome, max: int)
    requires Balanced(st, max)
    ensures var (u, reply) := Turn(st, offered, repeat, out);
      && (reply.GaveUp? ==> u == st && st.phase.Stop?)
      && (u.phase.Stop? ==> st.phase.Stop? || u.alternativeUsed || u.budget <= 0)
  {
    hide NextFix, Deduped, Stripped, Balanced;
    if st.phase.FixChain? {
      NextFixBalanced(st, repeat, max);
      assert st.cursor <= |st.chain| by { LeftPositive(st, max); }
      var (v, fix) := NextFix(st, repeat);
      assert fix.Some? ==> v.phase.FixChain?;
    }
    assert st.cursor <= |st.chain| by { LeftPositive(st, max); }
  }

  // The budget never grows.
  lemma {:induction false} LoopSpends(st: State, offered: seq<Fix>, repeat: nat, outs: seq<Outcome>, cap: nat, max: int)
    requires Balanced(st, max)
    ensures Loop(st, offered, repeat, outs, cap).0.budget <= st.budget
  {
    hide LoopActs, Loop, Balanced;
    LoopAccounted(st, offered, repeat, outs, cap, max);
  }

  // ----- repeated errors -----

  // The errors of successive calls that find one state, each reduced to its fingerprint.
  function Noted(st: State, errors: seq<string>): State {
    if errors == [] then st else Repeated(Noted(st, errors[..|errors| - 1]), errors[|errors| - 1])
  }

  // How often the last of these has come in a row; those without a fingerprint do not count.
  function InARow(errors: seq<string>): nat {
    if errors == [] then 0
    else
      var before, e := errors[..|errors| - 1], errors[|errors| - 1];
      if e == "" then InARow(before) else if LastOf(before) == e then InARow(before) + 1 else 1
  }

  function LastOf(errors: seq<string>): string {
    if errors == [] then "" else if errors[|errors| - 1] != "" then errors[|errors| - 1] else LastOf(errors[..|errors| - 1])
  }

  // From a new state on, the count is that of the repetitions of the last error.
  lemma {:induction false} ErrorsCounted(category: string, max: int, errors: seq<string>)
    ensures var st := Noted(New(category, max), errors);
      && st.lastError == LastOf(errors) && (LastOf(errors) == "" <==> InARow(errors) == 0)
      && st.repeated == (if InARow(errors) == 0 then 0 else InARow(errors) - 1)
      && st == New(category, max).(lastError := st.lastError, repeated := st.repeated)
  {
    if errors != [] { ErrorsCounted(category, max, errors[..|errors| - 1]); }
  }

  // ----- the plain account of a call -----

  // Of these fixes, one after another, those that are run: not blank, not tried before, and, once the
  // error repeats, none that only retries with other arguments.
  function Eligible(chain: seq<Fix>, repeat: nat, tried: set<string>): seq<Fix> {
    if chain == [] then []
    else if (repeat >= 1 && chain[0].retryWithArgs) || chain[0].key == "" || chain[0].key in tried then Eligible(chain[1..], repeat, tried)
    else [chain[0]] + Eligible(chain[1..], repeat, tried + {chain[0].key})
  }

  // What a state has still to try.
  function Candidates(st: State, offered: seq<Fix>, repeat: nat): seq<Fix>
    requires st.cursor <= |st.chain|
  {
    match st.phase
    case Classify => Eligible(offered, repeat, {})
    case FixChain => Eligible(st.chain[st.cursor..], repeat, st.attempted)
    case _ => []
  }

  // Each candidate in turn, as long as the budget lasts and none succeeds or is handled; then the
  // alternative, if it is still there and can be paid; then giving up.
  function Tries(fixes: seq<Fix>, outs: seq<Outcome>, budget: int, alternative: bool): (seq<Act>, Reply)
    decreases |fixes|
  {
    if fixes != [] && budget > 0 then
      if First(outs).success then ([RanFix(fixes[0].key)], Recovered)
      else if First(outs).handled then ([RanFix(fixes[0].key)], Reported)
      else
        var (more, reply) := Tries(fixes[1..], if outs == [] then [] else outs[1..], budget - 1, alternative);
        ([RanFix(fixes[0].key)] + more, reply)
    else if alternative && budget > 0 then
      ([RanAlternative], if First(outs).success then Recovered else if First(outs).handled then Reported else GaveUp)
    else ([], GaveUp)
  }

  // Stripping and dropping duplicates beforehand changes nothing.
  lemma {:induction false} PreparedEligible(offered: seq<Fix>, repeat: nat, seen: set<string>)
    ensures Eligible(Deduped(if repeat >= 1 then Stripped(offered) else offered, seen), repeat, seen) == Eligible(offered, repeat, seen)
    decreases |offered|
  {
    if offered != [] {
      var f, rest := offered[0], offered[1..];
      var kept := if repeat >= 1 then Stripped(offered) else offered;
      PreparedEligible(rest, repeat, seen);
      PreparedEligible(rest, repeat, seen + {f.key});
      if repeat >= 1 {
        if f.retryWithArgs {
          assert Stripped(offered) == Stripped(rest);
        } else {
          assert Stripped(offered) == [f] + Stripped(rest);
          assert Stripped(offered)[1..] == Stripped(rest);
        }
      }
    }
  }

  lemma {:induction false} NextFixIs(st: State, repeat: nat)
    requires st.phase.FixChain? && st.cursor <= |st.chain|
    ensures var (u, fix) := NextFix(st, repeat);
      var left := Eligible(st.chain[st.cursor..], repeat, st.attempted);
      && u.chain == st.chain && u.cursor <= |u.chain| && u.alternativeUsed == st.alternativeUsed
      && (fix.None? <==> left == [] || st.budget <= 0)
      && (fix.None? ==> u.budget == st.budget)
      && (fix.Some? ==> left == [fix.value] + Eligible(u.chain[u.cursor..], repeat, u.attempted)
                        && u.phase.FixChain? && u.budget == st.budget - 1)
    decreases |st.chain| - st.cursor
  {
    if st.cursor < |st.chain| {
      var fix := st.chain[st.cursor];
      assert st.chain[st.cursor..][1..] == st.chain[st.cursor + 1..];
      if (repeat >= 1 && fix.retryWithArgs) || fix.key == "" || fix.key in st.attempted {
        NextFixIs(st.(cursor := st.cursor + 1), repeat);
      }
    }
  }

  function Planned(st: State, offered: seq<Fix>, repeat: nat, outs: seq<Outcome>): (seq<Act>, Reply)
    requires st.cursor <= |st.chain|
  {
    Tries(Candidates(st, offered, repeat), outs, st.budget, !st.alternativeUsed && !st.phase.Stop?)
  }

  // One turn of the machine is one step of the plain account, or none.
  lemma TurnIsPlanned(st: State, offered: seq<Fix>, repeat: nat, outs: seq<Outcome>, max: int)
    requires Balanced(st, max)
    ensures var (u, reply) := Turn(st, offered, repeat, First(outs));
      var acts := Acts(st, repeat);
      && u.cursor <= |u.chain|
      && (reply.Again? ==>
            var (more, last) := Planned(u, offered, repeat, Unused(outs, acts)); Planned(st, offered, repeat, outs) == (acts + more, last))
      && (!reply.Again? ==> Planned(st, offered, repeat, outs) == (acts, reply))
  {
    hide Deduped, Stripped, Eligible, NextFix;
    match st.phase
    case Classify =>
      ClassifyIsPlanned(st, offered, repeat, outs, max);
      NothingBefore(Planned(st, offered, repeat, outs).0);
    case FixChain =>
      NextFixIs(st, repeat);
      var (u, fix) := NextFix(st, repeat);
      var left := Eligible(st.chain[st.cursor..], repeat, st.attempted);
      if fix.Some? {
        var rest := if outs == [] then [] else outs[1..];
        assert left[0] == fix.value && left[1..] == Eligible(u.chain[u.cursor..], repeat, u.attempted);
        var v := if u.budget <= 0 then u.(phase := Alternative) else u;
        Unaffordable(left[1..], rest, u.budget, !st.alternativeUsed);
        Unaffordable([], rest, u.budget, !st.alternativeUsed);
        assert Planned(v, offered, repeat, rest) == Tries(left[1..], rest, u.budget, !st.alternativeUsed);
      } else {
        NothingBefore(Planned(u.(phase := Alternative), offered, repeat, outs).0);
      }
    case Alternative =>
      NothingBefore([]);
      assert [RanAlternative] + [] == [RanAlternative];
    case Stop =>
  }

  lemma Unaffordable(fixes: seq<Fix>, outs: seq<Outcome>, budget: int, alternative: bool)
    ensures budget <= 0 ==> Tries(fixes, outs, budget, alternative) == ([], GaveUp)
  {
  }

  lemma NothingBefore(acts: seq<Act>)
    ensures [] + acts == acts
  {
  }

  lemma ClassifyIsPlanned(st: State, offered: seq<Fix>, repeat: nat, outs: seq<Outcome>, max: int)
    requires Balanced(st, max) && st.phase.Classify?
    ensures var u := Prepared(st, offered, repeat);
      u.cursor <= |u.chain| && Planned(u, offered, repeat, outs) == Planned(st, offered, repeat, outs)
  {
    hide Deduped, Stripped, Tries;
    PreparedEligible(offered, repeat, {});
    var u := Prepared(st, offered, repeat);
    assert u.phase.FixChain? ==> u.chain[0..] == u.chain;
  }

  // With turns enough, a call does and answers just what the plain account says.
  lemma {:induction false} LoopIsPlanned(st: State, offered: seq<Fix>, repeat: nat, outs: seq<Outcome>, cap: nat, max: int)
    requires Balanced(st, max) && TurnsLeft(st) <= cap && st.cursor <= |st.chain|
    ensures (LoopActs(st, offered, repeat, outs, cap), Loop(st, offered, repeat, outs, cap).1) == Planned(st, offered, repeat, outs)
    decreases cap
  {
    hide Turn, Acts, Planned, Balanced, TurnsLeft;
    LeftPositive(st, max);
    LoopNext(st, offered, repeat, outs, cap);
    TurnBalanced(st, offered, repeat, First(outs), max);
    TurnIsPlanned(st, offered, repeat, outs, max);
    var (u, reply) := Turn(st, offered, repeat, First(outs));
    if reply.Again? { LoopIsPlanned(u, offered, repeat, Unused(outs, Acts(st, repeat)), cap - 1, max); }
  }

  const CAP := 8

  // With at most five attempts the cap is never what ends the loop.
  lemma CapIsSlack(st: State, offered: seq<Fix>, repeat: nat, outs: seq<Outcome>, max: int)
    requires Balanced(st, max) && max <= 5
    ensures !Loop(st, offered, repeat, outs, CAP).1.Again?
  {
    LeftPositive(st, max);
    LoopEnds(st, offered, repeat, outs, CAP, max);
  }

  // With six or more it can be: as many distinct fixes, none of which can be carried out.
  function Futile(n: nat): seq<Fix> { seq(n, i requires 0 <= i < n => Fix(seq(i + 1, _ => 'x'), false)) }

  lemma {:induction false} FutileDeduped(n: nat, k: nat, seen: set<string>)
    requires k <= n && forall i :: k <= i < n ==> Futile(n)[i].key !in seen
    ensures Deduped(Futile(n)[k..], seen) == Futile(n)[k..]
    decreases n - k
  {
    if k < n {
      var chain := Futile(n);
      assert chain[k..][1..] == chain[k + 1..];
      assert |chain[k].key| == k + 1;
      forall i | k + 1 <= i < n
        ensures chain[i].key !in seen + {chain[k].key}
      {
        assert |chain[i].key| == i + 1;
      }
      FutileDeduped(n, k + 1, seen + {chain[k].key});
    }
  }

  // A turn that runs the next futile fix.
  function FutileNext(st: State): State
    requires st.cursor < |st.chain|
  {
    st.(cursor := st.cursor + 1, attempted := st.attempted + {st.chain[st.cursor].key}, budget := st.budget - 1,
        phase := if st.budget <= 1 then Alternative else FixChain)
  }

  lemma FutileTurn(st: State, n: nat)
    requires st.phase.FixChain? && st.chain == Futile(n) && st.cursor < n && st.budget >= 1
    requires Futile(n)[st.cursor].key !in st.attempted
    ensures Turn(st, Futile(n), 0, Outcome(false, false)) == (FutileNext(st), Again)
  {
    var fix := st.chain[st.cursor];
    assert |fix.key| == st.cursor + 1;
    assert NextFix(st, 0) == (st.(cursor := st.cursor + 1, attempted := st.attempted + {fix.key}, budget := st.budget - 1), Some(fix));
  }

  lemma FutileEnd(st: State, n: nat)
    requires st.phase.Alternative? && st.budget == 0 && st.cursor <= |st.chain|
    ensures Turn(st, Futile(n), 0, Outcome(false, false)) == (st.(phase := Stop), Again)
  {
  }

  lemma {:induction false} FutileLoop(st: State, n: nat, cap: nat)
    requires st.phase.FixChain? && st.chain == Futile(n) && 1 <= st.budget <= n - st.cursor && cap <= st.budget + 1
    requires forall i :: st.cursor <= i < n ==> Futile(n)[i].key !in st.attempted
    ensures Loop(st, Futile(n), 0, [], cap).1.Again?
    decreases cap
  {
    hide Loop, LoopActs, Turn, Acts;
    LoopNext(st, Futile(n), 0, [], cap);
    if cap > 0 {
      FutileTurn(st, n);
      var u := FutileNext(st);
      forall i | u.cursor <= i < n
        ensures Futile(n)[i].key !in u.attempted
      {
        assert |Futile(n)[i].key| == i + 1 && |st.chain[st.cursor].key| == st.cursor + 1;
      }
      if st.budget > 1 {
        FutileLoop(u, n, cap - 1);
      } else {
        FutileEnd(u, n);
        LoopNext(u, Futile(n), 0, [], cap - 1);
        LoopNext(u.(phase := Stop), Futile(n), 0, [], 0);
      }
    }
  }

  lemma CapCanBind(max: int)
    requires max >= 6
    ensures Loop(New("c", max), Futile(max), 0, [], CAP).1.Again?
  {
    var st := New("c", max);
    assert Futile(max)[0..] == Futile(max);
    FutileDeduped(max, 0, {});
    FutileLoop(Prepared(st, Futile(max), 0), max, CAP - 1);
  }
}
