// The agent's turn loop (internal/agent/agent.go, executeLoop): its turn budget, the repeated-plan
// guard and the shared loop intervention.

module AgentLoop {
  import opened Wrappers

  const MAX_TURN_LIMIT := 100
  const REPEATED_PLAN_THRESHOLD := 3
  const STAGNATION_THRESHOLD := 3
  const MAX_RECOVERY_TURNS := 3

  // What one turn brings. Idle is any turn that goes round again without function calls: a planned
  // step, a truncated answer, a nudge. In a tool turn, plan is the fingerprint of the calls, looping
  // says that a per-call detector would trip, textual and effective that the text or the tool
  // results show progress; cut says where such a turn ends the run, if its calls are not skipped.
  datatype Event =
    | Idle
    | Tools(plan: string, looping: bool, textual: bool, effective: bool, cut: Cut)
    | Finish
    | Abort

  // Uncut; the token budget refuses to execute; a hook, a permission or a cancellation stops the run
  // once the calls have been executed.
  datatype Cut = Uncut | Before | After

  // The history may be compacted before the model is asked, which resets the loop detection.
  datatype Turn = Turn(compacted: bool, event: Event)

  datatype End = Completed | Exhausted | Stalled | Failed

  // A tool turn as it went: its plan, and whether its calls were executed or skipped.
  datatype ToolTurn = ToolTurn(plan: string, executed: bool)

  datatype State = State(
    limit: int, recoveryTurns: nat,
    lastPlan: string, samePlanTurns: nat, planRecoveries: nat,
    noProgressTurns: nat, noProgressRecoveries: nat,
    intervened: bool, cooldown: nat,
    log: seq<ToolTurn>)

  function Capped(maxTurns: int): int { if maxTurns > MAX_TURN_LIMIT then MAX_TURN_LIMIT else maxTurns }

  // The intervention flag and its cooldown belong to the agent and outlast its runs.
  function Begin(maxTurns: int, intervened: bool, cooldown: nat): State {
    State(Capped(maxTurns), 0, "", 0, 0, 0, 0, intervened, cooldown, [])
  }

  // resetLoopDetection
  function Opened(s: State, turn: Turn): State {
    if turn.compacted then s.(intervened := false, cooldown := 0) else s
  }

  // One more turn for a recovery, at most three times and never past the absolute limit.
  function Granted(s: State): State {
    if s.recoveryTurns < MAX_RECOVERY_TURNS && s.limit < MAX_TURN_LIMIT
    then s.(recoveryTurns := s.recoveryTurns + 1, limit := s.limit + 1)
    else s
  }

  function Counted(s: State, plan: string): State {
    if plan != "" && plan == s.lastPlan then s.(samePlanTurns := s.samePlanTurns + 1)
    else s.(samePlanTurns := 1, lastPlan := plan)
  }

  // interveneOnLoop
  function Intervened(s: State): State { Granted(s.(intervened := true, cooldown := 0)) }

  function Cooled(s: State): State {
    if !s.intervened then s
    else if s.cooldown + 1 >= 3 then s.(intervened := false, cooldown := 0)
    else s.(cooldown := s.cooldown + 1)
  }

  function Logged(s: State, plan: string, executed: bool): State {
    s.(log := s.log + [ToolTurn(plan, executed)])
  }

  function Worked(s: State, effective: bool): State { s.(noProgressTurns := if effective then 0 else s.noProgressTurns + 1) }

  // The tools have run; the no-progress watchdog has the last word.
  function Executed(s: State, textual: bool, effective: bool): (State, bool) {
    var u := Worked(s, effective);
    if textual || effective || u.noProgressTurns < STAGNATION_THRESHOLD then (u, true)
    else if u.noProgressRecoveries < 2 then
      (Granted(u.(noProgressRecoveries := u.noProgressRecoveries + 1)).(noProgressTurns := 0), true)
    else (u, false)
  }

  // A tool turn; false when it ends the run as stalled.
  function OnTools(s: State, plan: string, looping: bool, textual: bool, effective: bool): (State, bool) {
    var c := Counted(s, plan);
    if c.samePlanTurns >= REPEATED_PLAN_THRESHOLD then
      if c.planRecoveries < 2 then
        (Logged(Granted(c.(planRecoveries := c.planRecoveries + 1)).(noProgressTurns := 0), plan, false), true)
      else (Logged(c, plan, false), false)
    else if looping && !c.intervened then (Logged(Intervened(c), plan, false), true)
    else Executed(Logged(Cooled(c), plan, true), textual, effective)
  }

  // Neither guard skips the calls of this turn.
  predicate Executes(s: State, plan: string, looping: bool) {
    Counted(s, plan).samePlanTurns < REPEATED_PLAN_THRESHOLD && !(looping && !s.intervened)
  }

  // A tool turn that ends the run without having been skipped.
  function CutOff(s: State, plan: string, effective: bool, cut: Cut): State {
    var u := Logged(Cooled(Counted(s, plan)), plan, cut.After?);
    if cut.After? then Worked(u, effective) else u
  }

  // The whole loop from turn i on; definition is the definition's own limit, none when not positive.
  function Run(s: State, env: nat -> Turn, definition: int, i: nat): (State, nat, End)
    decreases MAX_TURN_LIMIT - i
  {
    if i >= s.limit || (definition > 0 && i >= definition) || i >= MAX_TURN_LIMIT then (s, i, Exhausted)
    else
      var o := Opened(s, env(i));
      match env(i).event
      case Idle => Run(o, env, definition, i + 1)
      case Finish => (o, i, Completed)
      case Abort => (o, i, Failed)
      case Tools(plan, looping, textual, effective, cut) =>
        var (u, goesOn) := OnTools(o, plan, looping, textual, effective);
        if !cut.Uncut? && Executes(o, plan, looping) then (CutOff(o, plan, effective, cut), i, Failed)
        else if goesOn then Run(u, env, definition, i + 1)
        else (u, i, Stalled)
  }

  // ----- the turn budget -----

  predicate Budgeted(s: State, maxTurns: int) {
    && s.limit == Capped(maxTurns) + s.recoveryTurns && s.recoveryTurns <= MAX_RECOVERY_TURNS && s.limit <= MAX_TURN_LIMIT
    && s.planRecoveries <= 2 && s.noProgressRecoveries <= 2
  }

  lemma ToolsBudgeted(s: State, plan: string, looping: bool, textual: bool, effective: bool, maxTurns: int)
    requires Budgeted(s, maxTurns)
    ensures Budgeted(OnTools(s, plan, looping, textual, effective).0, maxTurns)
  {
  }

  lemma CutKeeps(s: State, plan: string, effective: bool, cut: Cut)
    ensures var u := CutOff(s, plan, effective, cut);
      u.(log := s.log, lastPlan := s.lastPlan, samePlanTurns := s.samePlanTurns, noProgressTurns := s.noProgressTurns,
         intervened := s.intervened, cooldown := s.cooldown) == s
  {
  }

  // However many recoveries ask for more, the turns taken stay within the limit plus three, within
  // the absolute limit and within the definition's own.
  lemma {:induction false} TurnBudget(s: State, env: nat -> Turn, definition: int, i: nat, maxTurns: int)
    requires Budgeted(s, maxTurns) && (i <= s.limit || i == 0) && (definition > 0 ==> i <= definition)
    ensures var (u, n, _) := Run(s, env, definition, i);
      && Budgeted(u, maxTurns)
      && (maxTurns >= 0 ==> n <= 100 && n <= maxTurns + 3)
      && (definition > 0 ==> n <= definition)
    decreases MAX_TURN_LIMIT - i
  {
    hide OnTools, CutOff, Executes;
    if !(i >= s.limit || (definition > 0 && i >= definition) || i >= MAX_TURN_LIMIT) {
      var o := Opened(s, env(i));
      match env(i).event
      case Idle => TurnBudget(o, env, definition, i + 1, maxTurns);
      case Tools(plan, looping, textual, effective, cut) =>
        ToolsBudgeted(o, plan, looping, textual, effective, maxTurns);
        LimitGrows(o, plan, looping, textual, effective);
        CutKeeps(o, plan, effective, cut);
        var (u, goesOn) := OnTools(o, plan, looping, textual, effective);
        if goesOn && (cut.Uncut? || !Executes(o, plan, looping)) { TurnBudget(u, env, definition, i + 1, maxTurns); }
      case _ =>
    }
  }

  lemma LimitGrows(s: State, plan: string, looping: bool, textual: bool, effective: bool)
    ensures OnTools(s, plan, looping, textual, effective).0.limit >= s.limit
  {
  }

  // ----- the repeated-plan guard -----

  // How often the last plan of the log has been repeated without a break.
  function Streak(log: seq<ToolTurn>): nat {
    if log == [] then 0
    else
      var n := |log| - 1;
      if n > 0 && log[n].plan != "" && log[n - 1].plan == log[n].plan then Streak(log[..n]) + 1 else 1
  }

  // The third repetition in a row, and any later one, is skipped; the counters read off the log.
  ghost predicate Guarded(s: State) {
    && (s.log == [] ==> s.lastPlan == "" && s.samePlanTurns == 0)
    && (s.log != [] ==> s.lastPlan == s.log[|s.log| - 1].plan && s.samePlanTurns == Streak(s.log))
    && (forall k :: 0 < k <= |s.log| && Streak(s.log[..k]) >= REPEATED_PLAN_THRESHOLD ==> !s.log[k - 1].executed)
    && (forall k :: 0 < k <= |s.log| ==> Streak(s.log[..k]) < REPEATED_PLAN_THRESHOLD + s.planRecoveries)
  }

  lemma StreakNext(s: State, plan: string, executed: bool)
    requires Guarded(s)
    ensures Streak(s.log + [ToolTurn(plan, executed)]) == Counted(s, plan).samePlanTurns
  {
    var log := s.log + [ToolTurn(plan, executed)];
    assert log[..|s.log|] == s.log;
    if s.log == [] && plan == "" {
      assert Streak(log) == 1;
    }
  }

  lemma ToolsFields(s: State, plan: string, looping: bool, textual: bool, effective: bool)
    ensures var (u, goesOn) := OnTools(s, plan, looping, textual, effective);
      var c := Counted(s, plan);
      && (u.log == s.log + [ToolTurn(plan, true)] || u.log == s.log + [ToolTurn(plan, false)])
      && u.lastPlan == c.lastPlan == plan && u.samePlanTurns == c.samePlanTurns
      && u.planRecoveries >= s.planRecoveries
      && (c.samePlanTurns >= REPEATED_PLAN_THRESHOLD ==> u.log == s.log + [ToolTurn(plan, false)])
      && (c.samePlanTurns >= REPEATED_PLAN_THRESHOLD && goesOn ==> u.planRecoveries == s.planRecoveries + 1)
  {
  }

  lemma ToolsGuarded(s: State, plan: string, looping: bool, textual: bool, effective: bool)
    requires Guarded(s)
    ensures var (u, goesOn) := OnTools(s, plan, looping, textual, effective);
      && u.log != [] && u.log[..|u.log| - 1] == s.log && u.log[|u.log| - 1].plan == plan
      && (Streak(u.log) >= REPEATED_PLAN_THRESHOLD ==> !u.log[|u.log| - 1].executed)
      && (goesOn ==> Guarded(u))
  {
    hide OnTools, Streak;
    var (u, goesOn) := OnTools(s, plan, looping, textual, effective);
    ToolsFields(s, plan, looping, textual, effective);
    StreakNext(s, plan, true);
    StreakNext(s, plan, false);
    assert s.log[..|s.log|] == s.log;
    assert u.log[..|u.log|] == u.log;
    assert forall k :: 0 < k <= |s.log| ==> u.log[..k] == s.log[..k];
  }

  lemma CutFields(s: State, plan: string, looping: bool, effective: bool, cut: Cut)
    requires Executes(s, plan, looping)
    ensures var u := CutOff(s, plan, effective, cut);
      var c := Counted(s, plan);
      && u.log == s.log + [ToolTurn(plan, cut.After?)] && u.planRecoveries == s.planRecoveries
      && u.lastPlan == plan && u.samePlanTurns == c.samePlanTurns < REPEATED_PLAN_THRESHOLD
  {
  }

  // A turn cut off was one that neither guard skips.
  lemma CutGuarded(s: State, plan: string, looping: bool, effective: bool, cut: Cut)
    requires Guarded(s) && Executes(s, plan, looping)
    ensures Guarded(CutOff(s, plan, effective, cut))
  {
    hide Streak, CutOff, Executes, Counted;
    var u := CutOff(s, plan, effective, cut);
    CutFields(s, plan, looping, effective, cut);
    StreakNext(s, plan, cut.After?);
    assert s.log[..|s.log|] == s.log;
    assert u.log[..|u.log|] == u.log;
    assert forall k :: 0 < k <= |s.log| ==> u.log[..k] == s.log[..k];
  }

  lemma OpenedGuarded(s: State, turn: Turn)
    requires Guarded(s)
    ensures Guarded(Opened(s, turn))
  {
  }

  // No plan is executed in three consecutive tool turns, and the run that goes on has seen no plan
  // five times in a row.
  ghost predicate NeverThrice(log: seq<ToolTurn>) {
    forall k {:trigger Third(log, k)} :: 2 <= k < |log| && Third(log, k) ==> !log[k].executed
  }

  // Turn k repeats the plan of the two before it.
  predicate Third(log: seq<ToolTurn>, k: int)
    requires 2 <= k < |log|
  {
    log[k].plan != "" && log[k - 1].plan == log[k].plan && log[k - 2].plan == log[k].plan
  }

  lemma StreakOfThree(log: seq<ToolTurn>)
    requires |log| >= 3 && Third(log, |log| - 1)
    ensures Streak(log) >= 3
  {
    var n := |log| - 1;
    assert log[..n][..n - 1] == log[..n - 1];
    assert Streak(log) == Streak(log[..n]) + 1;
    assert Streak(log[..n]) == Streak(log[..n - 1]) + 1;
  }

  lemma GuardedNeverThrice(s: State)
    requires Guarded(s)
    ensures NeverThrice(s.log)
  {
    forall k | 2 <= k < |s.log| && Third(s.log, k)
      ensures !s.log[k].executed
    {
      StreakOfThree(s.log[..k + 1]);
    }
  }

  lemma {:induction false} RunGuarded(s: State, env: nat -> Turn, definition: int, i: nat)
    requires Guarded(s)
    ensures var (u, n, end) := Run(s, env, definition, i);
      && NeverThrice(u.log) && (!end.Stalled? ==> Guarded(u))
    decreases MAX_TURN_LIMIT - i
  {
    hide OnTools, Guarded, NeverThrice, Executes, CutOff;
    GuardedNeverThrice(s);
    if !(i >= s.limit || (definition > 0 && i >= definition) || i >= MAX_TURN_LIMIT) {
      var o := Opened(s, env(i));
      OpenedGuarded(s, env(i));
      match env(i).event
      case Idle => RunGuarded(o, env, definition, i + 1);
      case Tools(plan, looping, textual, effective, cut) =>
        ToolsGuarded(o, plan, looping, textual, effective);
        var (u, goesOn) := OnTools(o, plan, looping, textual, effective);
        if !cut.Uncut? && Executes(o, plan, looping) {
          CutGuarded(o, plan, looping, effective, cut);
          GuardedNeverThrice(CutOff(o, plan, effective, cut));
        } else if goesOn {
          RunGuarded(u, env, definition, i + 1);
        } else {
          LastSkipped(o.log, u.log);
        }
      case _ =>
    }
  }

  lemma LastSkipped(log: seq<ToolTurn>, more: seq<ToolTurn>)
    requires NeverThrice(log) && more != [] && more[..|more| - 1] == log
    requires Streak(more) >= REPEATED_PLAN_THRESHOLD ==> !more[|more| - 1].executed
    ensures NeverThrice(more)
  {
    hide Streak, Third;
    forall k | 2 <= k < |more| && Third(more, k)
      ensures !more[k].executed
    {
      if k == |more| - 1 { StreakOfThree(more); } else { ThirdBefore(more, k); }
    }
  }

  lemma ThirdBefore(more: seq<ToolTurn>, k: int)
    requires 2 <= k < |more| - 1
    ensures Third(more[..|more| - 1], k) == Third(more, k) && more[..|more| - 1][k] == more[k]
  {
  }

  lemma BeginGuarded(maxTurns: int, intervened: bool, cooldown: nat)
    ensures Guarded(Begin(maxTurns, intervened, cooldown))
  {
  }

  // A fifth repetition in a row always ends the run.
  lemma FifthStalls(s: State, plan: string, looping: bool, textual: bool, effective: bool, maxTurns: int)
    requires Guarded(s) && Budgeted(s, maxTurns) && Counted(s, plan).samePlanTurns >= 5
    ensures !OnTools(s, plan, looping, textual, effective).1
  {
    assert s.log[..|s.log|] == s.log;
    assert Streak(s.log) >= 4;
  }

  // ----- what becomes of a tool turn -----

  lemma ThirdIsStreak(log: seq<ToolTurn>)
    requires log != [] && Streak(log) >= 3
    ensures |log| >= 3 && Third(log, |log| - 1)
  {
    var n := |log| - 1;
    assert log[..n][..n - 1] == log[..n - 1];
  }

  // The plan would repeat the two before it.
  predicate Repeats(log: seq<ToolTurn>, plan: string) {
    |log| >= 2 && plan != "" && log[|log| - 1].plan == plan && log[|log| - 2].plan == plan
  }

  lemma RepeatsIsThird(s: State, plan: string)
    requires Guarded(s)
    ensures Repeats(s.log, plan) <==> Counted(s, plan).samePlanTurns >= 3
  {
    hide Streak;
    var log := s.log + [ToolTurn(plan, false)];
    StreakNext(s, plan, false);
    if |log| >= 3 && Third(log, |log| - 1) { StreakOfThree(log); }
    if Streak(log) >= 3 { ThirdIsStreak(log); }
  }

  // A tool turn is executed exactly when its plan does not repeat the two before it and no detector
  // trips that is not already answered; and it ends the run exactly when the third repetition comes
  // after two recoveries from such, or its execution is the third without progress after two.
  lemma ToolTurnIs(s: State, plan: string, looping: bool, textual: bool, effective: bool)
    requires Guarded(s)
    ensures var (u, goesOn) := OnTools(s, plan, looping, textual, effective);
      var third, trips := Repeats(s.log, plan), looping && !s.intervened;
      && u.log == s.log + [ToolTurn(plan, !third && !trips)]
      && (goesOn <==> if third then s.planRecoveries < 2
                      else trips || textual || effective || s.noProgressTurns + 1 < 3 || s.noProgressRecoveries < 2)
  {
    RepeatsIsThird(s, plan);
    hide Streak, Third, Guarded, Repeats;
  }

  // Recoveries are counted where they happen, and turns without progress only where calls are executed.
  lemma RecoveriesCount(s: State, plan: string, looping: bool, textual: bool, effective: bool)
    requires Guarded(s)
    ensures var (u, goesOn) := OnTools(s, plan, looping, textual, effective);
      var third, trips, idle := Repeats(s.log, plan), looping && !s.intervened, if effective then 0 else s.noProgressTurns + 1;
      var stalls := !third && !trips && !textual && !effective && idle >= 3;
      && u.planRecoveries == s.planRecoveries + (if third && goesOn then 1 else 0)
      && u.noProgressRecoveries == s.noProgressRecoveries + (if stalls && goesOn then 1 else 0)
      && u.noProgressTurns == (if (third || stalls) && goesOn then 0 else if third || trips then s.noProgressTurns else idle)
  {
    RepeatsIsThird(s, plan);
    hide Streak, Third, Guarded, Repeats;
  }

  // Every recovery asks for one more turn and gets it, up to three times and a hundred turns.
  lemma TurnsGranted(s: State, plan: string, looping: bool, textual: bool, effective: bool)
    requires Guarded(s)
    ensures var (u, goesOn) := OnTools(s, plan, looping, textual, effective);
      var third, trips, idle := Repeats(s.log, plan), looping && !s.intervened, if effective then 0 else s.noProgressTurns + 1;
      var stalls := !third && !trips && !textual && !effective && idle >= 3;
      && u.limit - s.limit == u.recoveryTurns - s.recoveryTurns
      && u.limit - s.limit == if goesOn && (third || trips || stalls) && s.recoveryTurns < 3 && s.limit < 100 then 1 else 0
  {
    RepeatsIsThird(s, plan);
    hide Streak, Third, Guarded, Repeats;
  }

  // A detector that trips marks the agent as warned, and the mark lasts for three executed tool turns.
  lemma WarningLasts(s: State, plan: string, looping: bool, textual: bool, effective: bool)
    requires Guarded(s)
    ensures var u := OnTools(s, plan, looping, textual, effective).0;
      if Repeats(s.log, plan) then u.intervened == s.intervened && u.cooldown == s.cooldown
      else if looping && !s.intervened then u.intervened && u.cooldown == 0
      else if !s.intervened then !u.intervened && u.cooldown == s.cooldown
      else if s.cooldown >= 2 then !u.intervened && u.cooldown == 0
      else u.intervened && u.cooldown == s.cooldown + 1
  {
    RepeatsIsThird(s, plan);
    hide Streak, Third, Guarded, Repeats;
  }

  // A tool turn that is cut off ends the run exactly when its calls would have been executed, and is
  // logged as executed exactly when they have been.
  lemma CutTurnIs(s: State, plan: string, looping: bool, effective: bool, cut: Cut)
    requires Guarded(s)
    ensures Executes(s, plan, looping) <==> !Repeats(s.log, plan) && !(looping && !s.intervened)
    ensures CutOff(s, plan, effective, cut).log == s.log + [ToolTurn(plan, cut == After)]
  {
    hide Streak, Third;
    RepeatsIsThird(s, plan);
  }

  // A compaction clears the intervention, so that the next detector to trip intervenes again.
  lemma CompactionClears(s: State, turn: Turn)
    ensures Opened(s, turn).log == s.log && Opened(s, turn).limit == s.limit
    ensures Opened(s, turn).intervened <==> s.intervened && !turn.compacted
    ensures Opened(s, turn).cooldown == if turn.compacted then 0 else s.cooldown
  {
  }

  // ----- how it ends -----

  // How a turn that ends the run ends it.
  predicate EndOf(event: Event, end: End) {
    match event
    case Finish => end.Completed?
    case Abort => end.Failed?
    case Tools(_, _, _, _, cut) => end.Stalled? || (end.Failed? && !cut.Uncut?)
    case Idle => false
  }

  // Falling out of the loop is never reported as completion: completion is exactly a finishing turn.
  lemma {:induction false} EndsHonestly(s: State, env: nat -> Turn, definition: int, i: nat, maxTurns: int)
    requires Budgeted(s, maxTurns)
    ensures var (u, n, end) := Run(s, env, definition, i);
      && Budgeted(u, maxTurns)
      && (end.Exhausted? <==> n >= u.limit || (definition > 0 && n >= definition))
      && (!end.Exhausted? ==> EndOf(env(n).event, end))
      && (end.Exhausted? ==> n >= maxTurns || n >= 100 || (definition > 0 && n >= definition))
    decreases MAX_TURN_LIMIT - i
  {
    hide OnTools, CutOff, Executes;
    if !(i >= s.limit || (definition > 0 && i >= definition) || i >= MAX_TURN_LIMIT) {
      var o := Opened(s, env(i));
      match env(i).event
      case Idle => EndsHonestly(o, env, definition, i + 1, maxTurns);
      case Tools(plan, looping, textual, effective, cut) =>
        ToolsBudgeted(o, plan, looping, textual, effective, maxTurns);
        LimitGrows(o, plan, looping, textual, effective);
        CutKeeps(o, plan, effective, cut);
        var (u, goesOn) := OnTools(o, plan, looping, textual, effective);
        if cut.Uncut? || !Executes(o, plan, looping) {
          if goesOn { EndsHonestly(u, env, definition, i + 1, maxTurns); } else { StallIsNotLimit(o, plan, looping, textual, effective); }
        }
      case _ =>
    }
  }

  lemma StallIsNotLimit(s: State, plan: string, looping: bool, textual: bool, effective: bool)
    ensures !OnTools(s, plan, looping, textual, effective).1 ==> OnTools(s, plan, looping, textual, effective).0.limit == s.limit
  {
  }

  // ----- the loop itself -----

  // What follows the execution of the calls.
  method Watch(s: State, textual: bool, effective: bool, cut: Cut) returns (u: State, end: Option<End>)
    ensures cut.After? ==> u == Worked(s, effective) && end == Some(Failed)
    ensures !cut.After? ==> u == Executed(s, textual, effective).0
    ensures !cut.After? ==> end == if Executed(s, textual, effective).1 then None else Some(Stalled)
  {
    u := s.(noProgressTurns := if effective then 0 else s.noProgressTurns + 1);
    if cut.After? { return u, Some(Failed); }
    if !textual && !effective && u.noProgressTurns >= STAGNATION_THRESHOLD {
      if u.noProgressRecoveries >= 2 { return u, Some(Stalled); }
      u := u.(noProgressRecoveries := u.noProgressRecoveries + 1);
      if u.recoveryTurns < MAX_RECOVERY_TURNS && u.limit < MAX_TURN_LIMIT {
        u := u.(recoveryTurns := u.recoveryTurns + 1, limit := u.limit + 1);
      }
      u := u.(noProgressTurns := 0);
    }
    end := None;
  }

  // The tool branch of the loop body, statement by statement; end is how the run ends, if it does.
  method ToolBranch(s: State, plan: string, looping: bool, textual: bool, effective: bool, cut: Cut) returns (u: State, end: Option<End>)
    ensures !cut.Uncut? && Executes(s, plan, looping) ==> u == CutOff(s, plan, effective, cut) && end == Some(Failed)
    ensures cut.Uncut? || !Executes(s, plan, looping) ==>
              (u, end) == (OnTools(s, plan, looping, textual, effective).0,
                           if OnTools(s, plan, looping, textual, effective).1 then None else Some(Stalled))
  {
    hide Executed, Worked;
    u := s;
    if plan != "" && plan == u.lastPlan {
      u := u.(samePlanTurns := u.samePlanTurns + 1);
    } else {
      u := u.(samePlanTurns := 1, lastPlan := plan);
    }
    var loopDetected := false;
    if u.samePlanTurns >= REPEATED_PLAN_THRESHOLD {
      loopDetected := true;
      if u.planRecoveries >= 2 { return Logged(u, plan, false), Some(Stalled); }
      u := u.(planRecoveries := u.planRecoveries + 1);
      if u.recoveryTurns < MAX_RECOVERY_TURNS && u.limit < MAX_TURN_LIMIT {
        u := u.(recoveryTurns := u.recoveryTurns + 1, limit := u.limit + 1);
      }
      u := u.(noProgressTurns := 0);
    }
    if !loopDetected && looping && !u.intervened {
      loopDetected := true;
      u := Intervened(u);
    }
    if loopDetected { return Logged(u, plan, false), None; }
    if u.intervened {
      u := u.(cooldown := u.cooldown + 1);
      if u.cooldown >= 3 { u := u.(intervened := false, cooldown := 0); }
    }
    if cut.Before? { return Logged(u, plan, false), Some(Failed); }
    u, end := Watch(Logged(u, plan, true), textual, effective, cut);
  }

  // The for loop of executeLoop; env tells what each turn brings.
  method Turns(maxTurns: int, definition: int, env: nat -> Turn, intervened: bool, cooldown: nat)
    returns (s: State, turns: nat, end: End)
    ensures (s, turns, end) == Run(Begin(maxTurns, intervened, cooldown), env, definition, 0)
  {
    hide OnTools, Budgeted, CutOff, Executes;
    s := Begin(maxTurns, intervened, cooldown);
    BeginBudgeted(maxTurns, intervened, cooldown);
    Bounded(s, maxTurns);
    turns := 0;
    while turns < s.limit && (definition <= 0 || turns < definition)
      invariant Run(s, env, definition, turns) == Run(Begin(maxTurns, intervened, cooldown), env, definition, 0)
      invariant Budgeted(s, maxTurns) && s.limit <= MAX_TURN_LIMIT
      decreases MAX_TURN_LIMIT - turns
    {
      OpenedBudgeted(s, env(turns), maxTurns);
      if env(turns).compacted { s := s.(intervened := false, cooldown := 0); }
      match env(turns).event {
        case Idle =>
        case Finish => return s, turns, Completed;
        case Abort => return s, turns, Failed;
        case Tools(plan, looping, textual, effective, cut) =>
          ToolsBudgeted(s, plan, looping, textual, effective, maxTurns);
          var ended: Option<End>;
          s, ended := ToolBranch(s, plan, looping, textual, effective, cut);
          if ended.Some? { return s, turns, ended.value; }
          Bounded(s, maxTurns);
      }
      turns := turns + 1;
    }
    end := Exhausted;
  }

  lemma Bounded(s: State, maxTurns: int)
    ensures Budgeted(s, maxTurns) ==> s.limit <= MAX_TURN_LIMIT
  {
  }

  lemma BeginBudgeted(maxTurns: int, intervened: bool, cooldown: nat)
    ensures Budgeted(Begin(maxTurns, intervened, cooldown), maxTurns)
  {
  }

  lemma OpenedBudgeted(s: State, turn: Turn, maxTurns: int)
    requires Budgeted(s, maxTurns)
    ensures Budgeted(Opened(s, turn), maxTurns) && Opened(s, turn).limit == s.limit
  {
  }

  // executeLoop
  method ExecuteLoop(maxTurns: int, definition: int, env: nat -> Turn, intervened: bool, cooldown: nat)
    returns (s: State, turns: nat, end: End)
    ensures (s, turns, end) == Run(Begin(maxTurns, intervened, cooldown), env, definition, 0)
    ensures maxTurns >= 0 ==> turns <= 100 && turns <= maxTurns + 3
    ensures definition > 0 ==> turns <= definition
    ensures NeverThrice(s.log)
    ensures end.Exhausted? <==> turns >= s.limit || (definition > 0 && turns >= definition)
    ensures !end.Exhausted? ==> EndOf(env(turns).event, end)
    ensures end.Exhausted? ==> turns >= maxTurns || turns >= 100 || (definition > 0 && turns >= definition)
  {
    hide Run, Guarded, Budgeted, NeverThrice;
    ghost var b := Begin(maxTurns, intervened, cooldown);
    BeginGuarded(maxTurns, intervened, cooldown);
    BeginBudgeted(maxTurns, intervened, cooldown);
    TurnBudget(b, env, definition, 0, maxTurns);
    RunGuarded(b, env, definition, 0);
    EndsHonestly(b, env, definition, 0, maxTurns);
    s, turns, end := Turns(maxTurns, definition, env, intervened, cooldown);
  }
}
