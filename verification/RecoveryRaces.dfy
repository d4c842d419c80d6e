// Calls of automatic recovery that interleave on one key (internal/agent/recovery.go): every helper
// takes the lock for itself, so between any two of them other calls may step in.

module RecoveryRaces {
  import opened Wrappers
  import opened RecoverySpec
  import opened Recovery

  // Where a call of AttemptAutoFix stands: the helper it calls next, or an action outside the lock.
  // Weigh asks for the budget left after a fix, Divert sets the phase; over says that the call then
  // returns.
  datatype Pc =
    | Enter | Force | Look | Prepare | Choose | Fixing | Weigh(over: bool) | Divert(phase: Phase, over: bool)
    | Claim | Trying | Clear | Over

  datatype Call = Call(at: Pc, fingerprint: string, attempt: int, offered: seq<Fix>, repeat: nat, left: nat)

  // life lists what has been carried out since the state was made.
  datatype Race = Race(found: Option<State>, calls: seq<Call>, life: seq<Act>)

  datatype Step = Arrive(fingerprint: string, attempt: int, offered: seq<Fix>) | Forget | Go(i: nat, out: Outcome)

  const CATEGORY := "category"

  // ensureStateLocked; a new state has a life of its own.
  function Met(r: Race, max: int): Race {
    r.(found := Some(Ensured(r.found, CATEGORY, max)),
       life := if r.found.None? || r.found.value.category != CATEGORY then [] else r.life)
  }

  function Put(r: Race, i: nat, st: State, c: Call, acts: seq<Act>): Race
    requires i < |r.calls|
  {
    r.(found := Some(st), calls := r.calls[i := c], life := r.life + acts)
  }

  // The helper that call i runs next, in one piece.
  function Helper(r: Race, i: nat, max: int): Race
    requires i < |r.calls| && r.found.Some? && r.found.value.cursor <= |r.found.value.chain|
  {
    var c, st := r.calls[i], r.found.value;
    match c.at
    case Enter =>
      var u := Repeated(st, c.fingerprint);
      Put(r, i, u, c.(at := if c.attempt >= max || u.repeated >= 2 then Force else Look, repeat := u.repeated, left := CAP), [])
    case Force => Put(r, i, st.(phase := Alternative), c.(at := Look), [])
    case Look =>
      var at := match st.phase case Classify => Prepare case FixChain => Choose case Alternative => Claim case Stop => Over;
      if c.left == 0 then Put(r, i, st, c.(at := Over), []) else Put(r, i, st, c.(at := at, left := c.left - 1), [])
    case Prepare => Put(r, i, Prepared(st, c.offered, c.repeat), c.(at := Look), [])
    case Choose =>
      var (u, fix) := NextFix(st, c.repeat);
      if fix.None? then Put(r, i, u, c.(at := Divert(Alternative, false)), [])
      else Put(r, i, u, c.(at := Fixing), [RanFix(fix.value.key)])
    case Weigh(over) =>
      Put(r, i, st, c.(at := if st.budget <= 0 then Divert(Alternative, over) else if over then Over else Look), [])
    case Divert(phase, over) => Put(r, i, if phase.Classify? then st else st.(phase := phase), c.(at := if over then Over else Look), [])
    case Claim =>
      if st.alternativeUsed || st.budget <= 0 then Put(r, i, st, c.(at := Divert(Stop, false)), [])
      else Put(r, i, st.(alternativeUsed := true, budget := st.budget - 1), c.(at := Trying), [RanAlternative])
    case _ => r
  }

  function Next(r: Race, s: Step, max: int): Race {
    match s
    case Arrive(fingerprint, attempt, offered) => r.(calls := r.calls + [Call(Enter, fingerprint, attempt, offered, 0, 0)])
    case Forget => r.(found := None)
    case Go(i, out) =>
      if i >= |r.calls| then r
      else
        var c := r.calls[i];
        match c.at
        case Over => r
        case Fixing => r.(calls := r.calls[i := c.(at := if out.success then Clear else Weigh(out.handled))])
        case Trying => r.(calls := r.calls[i := c.(at := if out.success then Clear else Divert(Stop, out.handled))])
        case Clear => r.(found := None, calls := r.calls[i := c.(at := Over)])
        case _ =>
          var m := Met(r, max);
          if m.found.value.cursor > |m.found.value.chain| then m else Helper(m, i, max)
  }

  function Play(r: Race, steps: seq<Step>, max: int): Race
    decreases |steps|
  {
    if steps == [] then r else Play(Next(r, steps[0], max), steps[1..], max)
  }

  // Whatever the budget has lost has been carried out, each act once.
  ghost predicate Paid(st: State, life: seq<Act>, max: int) {
    && st.category == CATEGORY && st.cursor <= |st.chain| && st.budget >= 0
    && st.budget + |life| == max && |life| == |st.attempted| + (if st.alternativeUsed then 1 else 0)
    && (forall i, j :: 0 <= i < j < |life| ==> life[i] != life[j])
    && (forall a :: a in life ==> Tried(st, a))
    && (st.phase.Classify? ==> st.attempted == {})
  }

  ghost predicate Fair(r: Race, max: int) { r.found.Some? ==> Paid(r.found.value, r.life, max) }

  lemma MetPaid(r: Race, max: int)
    requires Fair(r, max) && max >= 2
    ensures Met(r, max).found.Some? && Paid(Met(r, max).found.value, Met(r, max).life, max) && Met(r, max).calls == r.calls
  {
  }

  lemma {:induction false} NextFixPaid(st: State, repeat: nat, life: seq<Act>, max: int)
    requires Paid(st, life, max)
    ensures var (u, fix) := NextFix(st, repeat);
      Paid(u, life + if fix.Some? then [RanFix(fix.value.key)] else [], max)
    decreases |st.chain| - st.cursor
  {
    assert life + [] == life;
    if st.phase.FixChain? && st.chain != [] && st.cursor < |st.chain| {
      var fix, u := st.chain[st.cursor], st.(cursor := st.cursor + 1);
      if (repeat >= 1 && fix.retryWithArgs) || fix.key == "" || fix.key in st.attempted {
        NextFixPaid(u, repeat, life, max);
      } else if st.budget > 0 {
        ActPaid(u, u.(attempted := u.attempted + {fix.key}, budget := u.budget - 1), RanFix(fix.key), life, max);
      }
    }
  }

  lemma ActPaid(st: State, u: State, a: Act, life: seq<Act>, max: int)
    requires Paid(st, life, max) && st.budget > 0 && !Tried(st, a)
    requires u == if a.RanFix? then st.(attempted := st.attempted + {a.key}, budget := st.budget - 1)
                  else st.(alternativeUsed := true, budget := st.budget - 1)
    requires a.RanFix? ==> !st.phase.Classify?
    ensures Paid(u, life + [a], max)
  {
    assert a !in life;
    forall x | x in life + [a]
      ensures Tried(u, x)
    {
      assert x in life || x == a;
    }
  }

  lemma PaidCursor(st: State, life: seq<Act>, max: int)
    requires Paid(st, life, max)
    ensures st.cursor <= |st.chain|
  {
  }

  lemma HelperPaid(r: Race, i: nat, max: int)
    requires i < |r.calls| && r.found.Some? && Paid(r.found.value, r.life, max) && max >= 2
    ensures Fair(Helper(r, i, max), max)
  {
    hide NextFix, Deduped, Stripped, Tried, Paid;
    var c, st := r.calls[i], r.found.value;
    assert r.life + [] == r.life;
    PaidCursor(st, r.life, max);
    match c.at
    case Choose =>
      NextFixPaid(st, c.repeat, r.life, max);
      var (u, fix) := NextFix(st, c.repeat);
      if fix.Some? { assert Paid(u, r.life + [RanFix(fix.value.key)], max); } else { assert Paid(u, r.life + [], max); }
    case Claim =>
      if !st.alternativeUsed && st.budget > 0 {
        NotTried(st);
        ActPaid(st, st.(alternativeUsed := true, budget := st.budget - 1), RanAlternative, r.life, max);
      }
    case Enter => AsidePaid(st, Repeated(st, c.fingerprint), r.life, max);
    case Force => AsidePaid(st, st.(phase := Alternative), r.life, max);
    case Prepare =>
      PreparedPaid(st, c.offered, c.repeat);
      AsidePaid(st, Prepared(st, c.offered, c.repeat), r.life, max);
    case Divert(phase, _) => if !phase.Classify? { AsidePaid(st, st.(phase := phase), r.life, max); }
    case _ =>
  }

  // Steps that touch neither the budget nor what has been tried.
  lemma AsidePaid(st: State, u: State, life: seq<Act>, max: int)
    requires Paid(st, life, max)
    requires u.category == st.category && u.attempted == st.attempted && u.alternativeUsed == st.alternativeUsed && u.budget == st.budget
    requires (u.cursor == st.cursor && u.chain == st.chain) || u.cursor == 0
    requires u.phase == st.phase || !u.phase.Classify?
    ensures Paid(u, life, max)
  {
  }

  lemma PreparedPaid(st: State, offered: seq<Fix>, repeat: nat)
    ensures var u := Prepared(st, offered, repeat);
      && u.category == st.category && u.attempted == st.attempted && u.alternativeUsed == st.alternativeUsed && u.budget == st.budget
      && ((u.cursor == st.cursor && u.chain == st.chain) || u.cursor == 0) && !u.phase.Classify?
  {
    hide Deduped, Stripped;
  }

  lemma NotTried(st: State)
    ensures Tried(st, RanAlternative) == st.alternativeUsed
  {
  }

  lemma NextFair(r: Race, s: Step, max: int)
    requires Fair(r, max) && max >= 2
    ensures Fair(Next(r, s, max), max)
  {
    hide Helper, Paid, Met;
    if s.Go? && s.i < |r.calls| {
      MetPaid(r, max);
      PaidCursor(Met(r, max).found.value, Met(r, max).life, max);
      HelperPaid(Met(r, max), s.i, max);
    }
  }

  // With at least two attempts the budget is conserved however calls interleave: no act is carried out
  // twice in the life of a state, and never more of them than the maximum.
  lemma {:induction false} NeverOverspent(r: Race, steps: seq<Step>, max: int)
    requires Fair(r, max) && max >= 2
    ensures Fair(Play(r, steps, max), max)
    ensures Play(r, steps, max).found.Some? ==>
              var life := Play(r, steps, max).life;
              |life| <= max && forall i, j :: 0 <= i < j < |life| ==> life[i] != life[j]
    decreases |steps|
  {
    hide Next;
    if steps != [] {
      NextFair(r, steps[0], max);
      NeverOverspent(Next(r, steps[0], max), steps[1..], max);
    }
  }

  // With one attempt it is not: a call that has seen the alternative phase claims it from the state
  // that came after the one it saw; that leaves a state still to be classified without a budget, and
  // the next call to meet it fills it up again.
  const LONE := [Fix("k", false)]
  const WIN := Outcome(true, true)
  const LOSE := Outcome(false, false)

  function Nobody(): Race { Race(None, [], []) }

  function First(at: Pc, left: nat): Call { Call(at, "e", 1, [], 0, left) }

  function Second(at: Pc): Call { Call(at, "e", 1, [], 1, 7) }

  function Third(at: Pc, left: nat): Call { Call(at, "f", 0, LONE, 0, left) }

  function Left(phase: Phase, error: string, repeated: nat, budget: int, used: bool): State {
    State(phase, CATEGORY, {}, [], 0, error, repeated, budget, used)
  }

  // Two calls see the alternative phase.
  function Seeing(): seq<Step> { [Arrive("e", 1, []), Go(0, LOSE), Go(0, LOSE), Go(0, LOSE)] }

  function SeeingToo(): seq<Step> { [Arrive("e", 1, []), Go(1, LOSE), Go(1, LOSE), Go(1, LOSE)] }

  // The second one claims it, recovers and clears the state.
  function Winning(): seq<Step> { [Go(1, LOSE), Go(1, WIN), Go(1, LOSE)] }

  // A third makes a new one, and the first claims the alternative of that.
  function Claiming(): seq<Step> { [Arrive("f", 0, LONE), Go(2, LOSE), Go(0, LOSE)] }

  // The third goes on to classify and runs its fix.
  function Fixes(): seq<Step> { [Go(2, LOSE), Go(2, LOSE), Go(2, LOSE), Go(2, LOSE)] }

  lemma {:induction false} PlayOn(r: Race, a: seq<Step>, b: seq<Step>, max: int)
    ensures Play(r, a + b, max) == Play(Play(r, a, max), b, max)
    decreases |a|
  {
    hide Next;
    if a == [] {
      assert a + b == b;
    } else {
      assert (a + b)[1..] == a[1..] + b;
      PlayOn(Next(r, a[0], max), a[1..], b, max);
    }
  }

  // A run given by the races it passes through.
  ghost predicate Passes(rs: seq<Race>, steps: seq<Step>, max: int) {
    |rs| == |steps| + 1 && forall i, j :: 0 <= i < |steps| && j == i + 1 ==> rs[j] == Next(rs[i], steps[i], max)
  }

  lemma {:induction false} PassesPlays(rs: seq<Race>, steps: seq<Step>, max: int)
    requires Passes(rs, steps, max)
    ensures Play(rs[0], steps, max) == rs[|rs| - 1]
    decreases |steps|
  {
    hide Next;
    if steps != [] {
      forall i, j | 0 <= i < |steps[1..]| && j == i + 1
        ensures rs[1..][j] == Next(rs[1..][i], steps[1..][i], max)
      {
        assert rs[1..][j] == rs[j + 1] && rs[1..][i] == rs[j] && steps[1..][i] == steps[j];
      }
      PassesPlays(rs[1..], steps[1..], max);
    }
  }

  lemma SeenBy()
    ensures Play(Nobody(), Seeing(), 1) == Race(Some(Left(Alternative, "e", 0, 1, false)), [First(Claim, 7)], [])
  {
    hide Play, NextFix, Deduped, Stripped, Prepared, Paid, Tried;
    var rs := [
      Nobody(),
      Race(None, [First(Enter, 0)], []),
      Race(Some(Left(Classify, "e", 0, 1, false)), [First(Force, 8)], []),
      Race(Some(Left(Alternative, "e", 0, 1, false)), [First(Look, 8)], []),
      Race(Some(Left(Alternative, "e", 0, 1, false)), [First(Claim, 7)], [])];
    assert rs[1] == Next(rs[0], Seeing()[0], 1);
    assert rs[2] == Next(rs[1], Seeing()[1], 1);
    assert rs[3] == Next(rs[2], Seeing()[2], 1);
    assert rs[4] == Next(rs[3], Seeing()[3], 1);
    PassesPlays(rs, Seeing(), 1);
  }

  lemma SeenByBoth()
    ensures Play(Race(Some(Left(Alternative, "e", 0, 1, false)), [First(Claim, 7)], []), SeeingToo(), 1) ==
              Race(Some(Left(Alternative, "e", 1, 1, false)), [First(Claim, 7), Second(Claim)], [])
  {
    hide Play, NextFix, Deduped, Stripped, Prepared, Paid, Tried;
    var rs := [
      Race(Some(Left(Alternative, "e", 0, 1, false)), [First(Claim, 7)], []),
      Race(Some(Left(Alternative, "e", 0, 1, false)), [First(Claim, 7), First(Enter, 0)], []),
      Race(Some(Left(Alternative, "e", 1, 1, false)), [First(Claim, 7), Second(Force).(left := 8)], []),
      Race(Some(Left(Alternative, "e", 1, 1, false)), [First(Claim, 7), Second(Look).(left := 8)], []),
      Race(Some(Left(Alternative, "e", 1, 1, false)), [First(Claim, 7), Second(Claim)], [])];
    assert rs[1] == Next(rs[0], SeeingToo()[0], 1);
    assert rs[2] == Next(rs[1], SeeingToo()[1], 1);
    assert rs[3] == Next(rs[2], SeeingToo()[2], 1);
    assert rs[4] == Next(rs[3], SeeingToo()[3], 1);
    PassesPlays(rs, SeeingToo(), 1);
  }

  lemma WonBy()
    ensures Play(Race(Some(Left(Alternative, "e", 1, 1, false)), [First(Claim, 7), Second(Claim)], []), Winning(), 1) ==
              Race(None, [First(Claim, 7), Second(Over)], [RanAlternative])
  {
    hide Play, NextFix, Deduped, Stripped, Prepared, Paid, Tried;
    var rs := [
      Race(Some(Left(Alternative, "e", 1, 1, false)), [First(Claim, 7), Second(Claim)], []),
      Race(Some(Left(Alternative, "e", 1, 0, true)), [First(Claim, 7), Second(Trying)], [RanAlternative]),
      Race(Some(Left(Alternative, "e", 1, 0, true)), [First(Claim, 7), Second(Clear)], [RanAlternative]),
      Race(None, [First(Claim, 7), Second(Over)], [RanAlternative])];
    assert rs[1] == Next(rs[0], Winning()[0], 1);
    assert rs[2] == Next(rs[1], Winning()[1], 1);
    assert rs[3] == Next(rs[2], Winning()[2], 1);
    PassesPlays(rs, Winning(), 1);
  }

  lemma ClaimedBy()
    ensures Play(Race(None, [First(Claim, 7), Second(Over)], [RanAlternative]), Claiming(), 1) ==
              Race(Some(Left(Classify, "f", 0, 0, true)), [First(Trying, 7), Second(Over), Third(Look, 8)], [RanAlternative])
  {
    hide Play, NextFix, Deduped, Stripped, Prepared, Paid, Tried;
    var rs := [
      Race(None, [First(Claim, 7), Second(Over)], [RanAlternative]),
      Race(None, [First(Claim, 7), Second(Over), Third(Enter, 0)], [RanAlternative]),
      Race(Some(Left(Classify, "f", 0, 1, false)), [First(Claim, 7), Second(Over), Third(Look, 8)], []),
      Race(Some(Left(Classify, "f", 0, 0, true)), [First(Trying, 7), Second(Over), Third(Look, 8)], [RanAlternative])];
    PassesPlays(rs, Claiming(), 1);
  }

  lemma FixedBy()
    ensures var r := Play(Race(Some(Left(Classify, "f", 0, 0, true)), [First(Trying, 7), Second(Over), Third(Look, 8)], [RanAlternative]), Fixes(), 1);
      r.found.Some? && r.life == [RanAlternative, RanFix("k")]
  {
    var chained := Left(FixChain, "f", 0, 1, true).(chain := LONE);
    var rs := [
      Race(Some(Left(Classify, "f", 0, 0, true)), [First(Trying, 7), Second(Over), Third(Look, 8)], [RanAlternative]),
      Race(Some(Left(Classify, "f", 0, 1, true)), [First(Trying, 7), Second(Over), Third(Prepare, 7)], [RanAlternative]),
      Race(Some(chained), [First(Trying, 7), Second(Over), Third(Look, 7)], [RanAlternative]),
      Race(Some(chained), [First(Trying, 7), Second(Over), Third(Choose, 6)], [RanAlternative]),
      Race(Some(chained.(cursor := 1, attempted := {"k"}, budget := 0)), [First(Trying, 7), Second(Over), Third(Fixing, 6)],
           [RanAlternative, RanFix("k")])];
    assert Deduped(LONE, {}) == LONE by { assert LONE[1..] == []; }
    assert {} + {"k"} == {"k"};
    assert NextFix(chained, 0) == (chained.(cursor := 1, attempted := {"k"}, budget := 0), Some(LONE[0]));
    PassesPlays(rs, Fixes(), 1);
  }

  // One attempt allowed, and two acts carried out in the life of one state.
  lemma LoneBudgetOverspent()
    ensures var r := Play(Nobody(), Seeing() + SeeingToo() + Winning() + Claiming() + Fixes(), 1);
      Fair(Nobody(), 1) && r.found.Some? && r.life == [RanAlternative, RanFix("k")]
  {
    hide Play, Seeing, SeeingToo, Winning, Claiming, Fixes;
    PlayOn(Nobody(), Seeing() + SeeingToo() + Winning() + Claiming(), Fixes(), 1);
    PlayOn(Nobody(), Seeing() + SeeingToo() + Winning(), Claiming(), 1);
    PlayOn(Nobody(), Seeing() + SeeingToo(), Winning(), 1);
    PlayOn(Nobody(), Seeing(), SeeingToo(), 1);
    SeenBy();
    SeenByBoth();
    WonBy();
    ClaimedBy();
    FixedBy();
  }

  // ----- the cap -----

  // A call at the top of its loop, its state forgotten.
  function Bare(left: nat): Race { Race(None, [Call(Look, "e", 0, LONE, 0, left)], []) }

  // It finds a new state and prepares the chain, and the state is forgotten again.
  function Bouncing(n: nat): seq<Step> {
    if n == 0 then [] else [Go(0, LOSE), Go(0, LOSE), Forget] + Bouncing(n - 1)
  }

  lemma BouncedBy(left: nat, max: int)
    requires left > 0 && max >= 1
    ensures Play(Bare(left), [Go(0, LOSE), Go(0, LOSE), Forget], max) == Bare(left - 1)
  {
    hide Play, NextFix, Deduped, Stripped, Paid, Tried;
    var c, steps := Call(Look, "e", 0, LONE, 0, left), [Go(0, LOSE), Go(0, LOSE), Forget];
    var made := Ensured(None, CATEGORY, max);
    var rs := [
      Bare(left),
      Race(Some(made), [c.(at := Prepare, left := left - 1)], []),
      Race(Some(Prepared(made, LONE, 0)), [c.(left := left - 1)], []),
      Bare(left - 1)];
    assert rs[1] == Next(rs[0], steps[0], max);
    assert rs[2] == Next(rs[1], steps[1], max);
    assert rs[3] == Next(rs[2], steps[2], max);
    PassesPlays(rs, steps, max);
  }

  lemma {:induction false} BouncedAway(left: nat, max: int)
    requires max >= 1
    ensures Play(Bare(left), Bouncing(left), max) == Bare(0)
  {
    if left > 0 {
      hide Play;
      PlayOn(Bare(left), [Go(0, LOSE), Go(0, LOSE), Forget], Bouncing(left - 1), max);
      BouncedBy(left, max);
      BouncedAway(left - 1, max);
    } else {
      assert Bouncing(0) == [];
    }
  }

  // Whatever the maximum, the cap can end a call whose state others clear: nothing has been tried and
  // the whole budget is left.
  lemma CapBindsRaced(max: int)
    requires max >= 1
    ensures var r := Play(Nobody(), [Arrive("e", 0, LONE), Go(0, LOSE), Forget] + Bouncing(CAP) + [Go(0, LOSE)], max);
      && r.calls == [Call(Over, "e", 0, LONE, 0, 0)] && r.life == []
      && r.found.Some? && r.found.value.phase.Classify? && r.found.value.budget == max
  {
    hide Play, Bouncing, NextFix, Deduped, Stripped, Paid, Tried;
    var start := [Arrive("e", 0, LONE), Go(0, LOSE), Forget];
    PlayOn(Nobody(), start + Bouncing(CAP), [Go(0, LOSE)], max);
    PlayOn(Nobody(), start, Bouncing(CAP), max);
    BouncedAway(CAP, max);
    Starting(max);
    LastLook(max);
  }

  lemma Starting(max: int)
    requires max >= 1
    ensures Play(Nobody(), [Arrive("e", 0, LONE), Go(0, LOSE), Forget], max) == Bare(CAP)
  {
    hide Play, NextFix, Deduped, Stripped, Prepared, Paid, Tried;
    var steps := [Arrive("e", 0, LONE), Go(0, LOSE), Forget];
    var rs := [
      Nobody(),
      Race(None, [Call(Enter, "e", 0, LONE, 0, 0)], []),
      Race(Some(Repeated(Ensured(None, CATEGORY, max), "e")), [Call(Look, "e", 0, LONE, 0, CAP)], []),
      Bare(CAP)];
    assert rs[1] == Next(rs[0], steps[0], max);
    assert rs[2] == Next(rs[1], steps[1], max);
    assert rs[3] == Next(rs[2], steps[2], max);
    PassesPlays(rs, steps, max);
  }

  lemma LastLook(max: int)
    requires max >= 1
    ensures Play(Bare(0), [Go(0, LOSE)], max) ==
              Race(Some(Ensured(None, CATEGORY, max)), [Call(Over, "e", 0, LONE, 0, 0)], [])
    ensures Ensured(None, CATEGORY, max).phase.Classify? && Ensured(None, CATEGORY, max).budget == max
  {
    hide Play, NextFix, Deduped, Stripped, Prepared, Paid, Tried;
    var rs := [Bare(0), Race(Some(Ensured(None, CATEGORY, max)), [Call(Over, "e", 0, LONE, 0, 0)], [])];
    assert rs[1] == Next(rs[0], [Go(0, LOSE)][0], max);
    PassesPlays(rs, [Go(0, LOSE)], max);
  }
}
