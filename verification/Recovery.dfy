// The executor of automatic recovery (internal/agent/recovery.go): one state machine per failed call.

module Recovery {
  import opened Wrappers
  import opened RecoverySpec

  // The refill in ensureStateLocked is never taken: a state that still has to be classified has its
  // whole budget.
  lemma NeverRefilled(st: State, max: int)
    requires Balanced(st, max)
    ensures Ensured(Some(st), st.category, max) == st
  {
  }

  lemma NewBalanced(category: string, max: int)
    requires max >= 1
    ensures Balanced(New(category, max), max)
  {
  }

  lemma {:induction false} NextFixCategory(st: State, repeat: nat)
    requires st.cursor <= |st.chain|
    ensures NextFix(st, repeat).0.category == st.category
    decreases |st.chain| - st.cursor
  {
    if st.phase.FixChain? && st.chain != [] && st.cursor < |st.chain| {
      NextFixCategory(st.(cursor := st.cursor + 1), repeat);
    }
  }

  lemma TurnCategory(st: State, offered: seq<Fix>, repeat: nat, out: Outcome)
    requires st.cursor <= |st.chain|
    ensures Turn(st, offered, repeat, out).0.category == st.category
  {
    hide NextFix, Deduped, Stripped;
    NextFixCategory(st, repeat);
  }

  function Found(attempts: map<string, State>, key: string, stale: set<string>): Option<State> {
    if key in attempts && key !in stale then Some(attempts[key]) else None
  }

  // The state in which AttemptAutoFix enters its loop.
  function Entered(found: Option<State>, category: string, fingerprint: string, attempt: int, max: int): State {
    var seen := Repeated(Ensured(found, category, max), fingerprint);
    if attempt >= max || seen.repeated >= 2 then seen.(phase := Alternative) else seen
  }

  // Too many attempts, or the same error for the third time in a row, and no fix is tried any more.
  lemma TooOften(found: Option<State>, category: string, fingerprint: string, attempt: int, offered: seq<Fix>, max: int)
    requires var start := Entered(found, category, fingerprint, attempt, max); start.cursor <= |start.chain|
    ensures var seen, start := Repeated(Ensured(found, category, max), fingerprint), Entered(found, category, fingerprint, attempt, max);
      if attempt >= max || seen.repeated >= 2 then Candidates(start, offered, start.repeated) == [] && !start.phase.Stop?
      else start == seen
  {
  }

  // ----- a state's whole life -----

  // One call of AttemptAutoFix that finds the state of its key and category.
  datatype Visit = Visit(fingerprint: string, attempt: int, offered: seq<Fix>, outs: seq<Outcome>)

  // The acts of successive visits, up to the one that recovers and so clears the state.
  function Life(st: State, visits: seq<Visit>, max: int): (seq<Act>, State)
    decreases |visits|
  {
    if visits == [] then ([], st)
    else
      var v := visits[0];
      var start := Entered(Some(st), st.category, v.fingerprint, v.attempt, max);
      if start.cursor > |start.chain| then ([], st)
      else
        var (u, reply) := Loop(start, v.offered, start.repeated, v.outs, CAP);
        var acts := LoopActs(start, v.offered, start.repeated, v.outs, CAP);
        if reply.Recovered? then (acts, u)
        else
          var (more, last) := Life(u, visits[1..], max);
          (acts + more, last)
  }

  lemma EnteredBalanced(st: State, category: string, fingerprint: string, attempt: int, max: int)
    requires Balanced(st, max) && category == st.category
    ensures var start := Entered(Some(st), category, fingerprint, attempt, max);
      && Balanced(start, max) && start.cursor <= |start.chain|
      && start.attempted == st.attempted && start.alternativeUsed == st.alternativeUsed && start.budget == st.budget
  {
  }

  lemma SameAccount(st: State, start: State, acts: seq<Act>, u: State)
    requires Accounted(start, acts, u)
    requires start.attempted == st.attempted && start.alternativeUsed == st.alternativeUsed && start.budget == st.budget
    ensures Accounted(st, acts, u)
  {
    forall a | a in acts
      ensures !Tried(st, a) && Tried(u, a)
    {
      assert !Tried(start, a);
    }
  }

  // Over all the visits of a state's life, no fix is run twice, the alternative is run at most once,
  // and each act has cost one of the budget.
  lemma {:induction false} LifeAccounted(st: State, visits: seq<Visit>, max: int)
    requires Balanced(st, max)
    ensures Accounted(st, Life(st, visits, max).0, Life(st, visits, max).1)
    decreases |visits|
  {
    hide Loop, LoopActs, Entered, Balanced, Accounted;
    NoActs(st, max);
    if visits != [] {
      var v := visits[0];
      var start := Entered(Some(st), st.category, v.fingerprint, v.attempt, max);
      EnteredBalanced(st, st.category, v.fingerprint, v.attempt, max);
      LoopEnds(start, v.offered, start.repeated, v.outs, CAP, max);
      LoopAccounted(start, v.offered, start.repeated, v.outs, CAP, max);
      var (u, reply) := Loop(start, v.offered, start.repeated, v.outs, CAP);
      var acts := LoopActs(start, v.offered, start.repeated, v.outs, CAP);
      SameAccount(st, start, acts, u);
      if !reply.Recovered? {
        LifeAccounted(u, visits[1..], max);
        AccountedOn(st, acts, u, Life(u, visits[1..], max).0, Life(u, visits[1..], max).1);
      }
    }
  }

  // So a fresh state sees at most max acts, all different, however often it is visited.
  lemma AtMostMaxActs(category: string, visits: seq<Visit>, max: int)
    requires max >= 1
    ensures var acts := Life(New(category, max), visits, max).0;
      |acts| <= max && forall i, j :: 0 <= i < j < |acts| ==> acts[i] != acts[j]
  {
    hide Life;
    NewBalanced(category, max);
    LifeAccounted(New(category, max), visits, max);
  }

  class RecoveryExecutor {
    const maxAttempts: int
    var attempts: map<string, State>

    ghost predicate Valid()
      reads this
    {
      maxAttempts >= 1 && forall k :: k in attempts ==> Balanced(attempts[k], maxAttempts)
    }

    constructor (max: int)
      ensures Valid() && attempts == map[] && maxAttempts == if max <= 0 then 2 else max
    {
      maxAttempts := if max <= 0 then 2 else max;
      attempts := map[];
    }

    ghost function Lookup(key: string, category: string): State
      reads this
    {
      Ensured(if key in attempts then Some(attempts[key]) else None, category, maxAttempts)
    }

    // ensureStateLocked
    method EnsureState(key: string, category: string) returns (st: State)
      requires Valid()
      modifies this
      ensures Valid() && attempts == old(attempts)[key := st]
      ensures st == old(Lookup(key, category)) && st.category == category && Balanced(st, maxAttempts)
    {
      NewBalanced(category, maxAttempts);
      if key in attempts && attempts[key].category == category {
        st := attempts[key];
        NeverRefilled(st, maxAttempts);
        if st.budget <= 0 && st.phase == Classify { st := st.(budget := if maxAttempts > 1 then maxAttempts else 1); }
      } else {
        st := New(category, maxAttempts);
      }
      attempts := attempts[key := st];
    }

    method UpdateErrorRepeat(key: string, category: string, fingerprint: string) returns (repeat: nat)
      requires Valid()
      modifies this
      ensures Valid() && attempts == old(attempts)[key := Repeated(old(Lookup(key, category)), fingerprint)]
      ensures repeat == Repeated(old(Lookup(key, category)), fingerprint).repeated
      ensures attempts[key].category == category
    {
      var st := EnsureState(key, category);
      if fingerprint != "" {
        if st.lastError == fingerprint {
          st := st.(repeated := st.repeated + 1);
        } else {
          st := st.(lastError := fingerprint, repeated := 0);
        }
      }
      attempts := attempts[key := st];
      repeat := st.repeated;
    }

    // The scan of nextFixAction.
    method NextFixAction(st0: State, repeat: nat) returns (st: State, fix: Option<Fix>)
      requires st0.cursor <= |st0.chain|
      ensures (st, fix) == NextFix(st0, repeat)
    {
      st, fix := st0, None;
      if st.phase != FixChain || st.chain == [] { return; }
      while st.cursor < |st.chain|
        invariant st.cursor <= |st.chain| && st.phase == FixChain && st.chain != []
        invariant NextFix(st, repeat) == NextFix(st0, repeat)
        decreases |st.chain| - st.cursor
      {
        var f := st.chain[st.cursor];
        st := st.(cursor := st.cursor + 1);
        if repeat >= 1 && f.retryWithArgs { continue; }
        if f.key == "" || f.key in st.attempted { continue; }
        if st.budget <= 0 {
          st := st.(phase := Alternative);
          return st, None;
        }
        st := st.(attempted := st.attempted + {f.key}, budget := st.budget - 1);
        return st, Some(f);
      }
      st := st.(phase := Alternative);
    }

    // stripRetryWithArgsFixes and dedupeFixChain
    method Chain(offered: seq<Fix>, repeat: nat) returns (chain: seq<Fix>)
      ensures chain == Deduped(if repeat >= 1 then Stripped(offered) else offered, {})
    {
      var kept := offered;
      if repeat >= 1 { kept := Strip(offered); }
      chain := Dedupe(kept);
    }

    method Dedupe(kept: seq<Fix>) returns (chain: seq<Fix>)
      ensures chain == Deduped(kept, {})
    {
      var seen: set<string> := {};
      chain := [];
      assert kept[0..] == kept;
      for i := 0 to |kept|
        invariant chain + Deduped(kept[i..], seen) == Deduped(kept, {})
      {
        assert kept[i..][1..] == kept[i + 1..];
        if kept[i].key != "" && kept[i].key !in seen {
          seen := seen + {kept[i].key};
          chain := chain + [kept[i]];
        }
      }
    }

    method Strip(offered: seq<Fix>) returns (kept: seq<Fix>)
      ensures kept == Stripped(offered)
    {
      kept := [];
      assert offered[0..] == offered;
      for i := 0 to |offered|
        invariant kept + Stripped(offered[i..]) == Stripped(offered)
      {
        assert offered[i..][1..] == offered[i + 1..];
        if !offered[i].retryWithArgs { kept := kept + [offered[i]]; }
      }
    }

    // One turn of the state machine; out is what the action taken comes to, ran the action.
    method Step(key: string, category: string, offered: seq<Fix>, repeat: nat, out: Outcome)
      returns (reply: Reply, ran: seq<Act>)
      requires Valid() && key in attempts && attempts[key].category == category
      modifies this
      ensures Valid() && reply == Turn(old(attempts)[key], offered, repeat, out).1
      ensures ran == Acts(old(attempts)[key], repeat)
      ensures attempts == if reply.Recovered? then old(attempts) - {key}
                          else old(attempts)[key := Turn(old(attempts)[key], offered, repeat, out).0]
      ensures !reply.Recovered? ==> attempts[key].category == category
    {
      hide NextFix, Deduped;
      NeverRefilled(attempts[key], maxAttempts);
      TurnBalanced(attempts[key], offered, repeat, out, maxAttempts);
      TurnCategory(attempts[key], offered, repeat, out);
      var st := EnsureState(key, category);
      assert st == old(attempts)[key] && attempts == old(attempts);
      ran := [];
      match st.phase {
        case Classify =>
          var chain := Chain(offered, repeat);
          st := if chain == [] then st.(phase := Alternative) else st.(chain := chain, cursor := 0, phase := FixChain);
          reply := Again;
        case FixChain =>
          var fix: Option<Fix>;
          st, fix := NextFixAction(st, repeat);
          if fix.None? {
            st := st.(phase := Alternative);
            reply := Again;
          } else if out.success {
            attempts := attempts - {key};
            assert attempts == old(attempts) - {key};
            return Recovered, [RanFix(fix.value.key)];
          } else {
            ran := [RanFix(fix.value.key)];
            if st.budget <= 0 { st := st.(phase := Alternative); }
            reply := if out.handled then Reported else Again;
          }
        case Alternative =>
          if st.alternativeUsed || st.budget <= 0 {
            st := st.(phase := Stop);
            reply := Again;
          } else if out.success {
            attempts := attempts - {key};
            assert attempts == old(attempts) - {key};
            return Recovered, [RanAlternative];
          } else {
            ran := [RanAlternative];
            st := st.(alternativeUsed := true, budget := st.budget - 1, phase := Stop);
            reply := if out.handled then Reported else Again;
          }
        case Stop => reply := GaveUp;
      }
      attempts := attempts[key := st];
      assert st == Turn(old(attempts)[key], offered, repeat, out).0;
    }

    // AttemptAutoFix. stale are the states pruned for their age, outs what the actions come to.
    method AttemptAutoFix(key: string, category: string, fingerprint: string, offered: seq<Fix>, attempt: int,
                          outs: seq<Outcome>, stale: set<string>)
      returns (reply: Reply, ran: seq<Act>)
      requires Valid()
      modifies this
      ensures Valid()
      ensures var start := Entered(Found(old(attempts), key, stale), category, fingerprint, attempt, maxAttempts);
        && start.cursor <= |start.chain| && reply == Loop(start, offered, start.repeated, outs, CAP).1
        && ran == LoopActs(start, offered, start.repeated, outs, CAP)
        && attempts == if reply.Recovered? then old(attempts) - stale - {key}
                       else (old(attempts) - stale)[key := Loop(start, offered, start.repeated, outs, CAP).0]
      ensures maxAttempts <= 5 ==> !reply.Again?
      // The state is cleared exactly on recovery, the answer is that of the last act, and with at most
      // five attempts the call is the plain account of it.
      ensures key in attempts <==> !reply.Recovered?
      ensures Truthful(ran, outs, reply)
      ensures var start := Entered(Found(old(attempts), key, stale), category, fingerprint, attempt, maxAttempts);
        start.cursor <= |start.chain| && (maxAttempts <= 5 ==> (ran, reply) == Planned(start, offered, start.repeated, outs))
    {
      hide Loop, LoopActs, Entered, Found, Truthful, Planned;
      var repeat := Enter(key, category, fingerprint, attempt, stale);
      LeftPositive(attempts[key], maxAttempts);
      LoopTruthful(attempts[key], offered, repeat, outs, CAP, maxAttempts);
      if maxAttempts <= 5 { LoopIsPlanned(attempts[key], offered, repeat, outs, CAP, maxAttempts); }
      Rewritten(attempts, old(attempts) - stale, key, Loop(attempts[key], offered, repeat, outs, CAP).0);
      reply, ran := RunFsm(key, category, offered, repeat, outs);
    }

    // Up to the loop: forget stale states, count the repeat, and skip to the alternative when the
    // attempts or the repeats are too many.
    method Enter(key: string, category: string, fingerprint: string, attempt: int, stale: set<string>) returns (repeat: nat)
      requires Valid()
      modifies this
      ensures Valid() && key in attempts && attempts[key].category == category && repeat == attempts[key].repeated
      ensures attempts[key] == Entered(Found(old(attempts), key, stale), category, fingerprint, attempt, maxAttempts)
      ensures attempts == (old(attempts) - stale)[key := attempts[key]]
    {
      attempts := attempts - stale;
      repeat := UpdateErrorRepeat(key, category, fingerprint);
      if attempt >= maxAttempts || repeat >= 2 {
        NeverRefilled(attempts[key], maxAttempts);
        var st := EnsureState(key, category);
        attempts := attempts[key := st.(phase := Alternative)];
      }
    }

    lemma Rewritten(m: map<string, State>, base: map<string, State>, key: string, st: State)
      requires key in m && m == base[key := m[key]]
      ensures m - {key} == base - {key} && m[key := st] == base[key := st]
    {
      assert m - {key} == base - {key};
    }

    // The bounded loop.
    method RunFsm(key: string, category: string, offered: seq<Fix>, repeat: nat, outs: seq<Outcome>)
      returns (reply: Reply, ran: seq<Act>)
      requires Valid() && key in attempts && attempts[key].category == category
      modifies this
      ensures Valid() && reply == Loop(old(attempts)[key], offered, repeat, outs, CAP).1
      ensures ran == LoopActs(old(attempts)[key], offered, repeat, outs, CAP)
      ensures attempts == if reply.Recovered? then old(attempts) - {key}
                          else old(attempts)[key := Loop(old(attempts)[key], offered, repeat, outs, CAP).0]
      ensures maxAttempts <= 5 ==> !reply.Again?
    {
      hide Turn, Balanced, Acts, Loop, LoopActs;
      reply, ran := Again, [];
      var left := outs;
      ghost var st := attempts[key];
      LeftPositive(st, maxAttempts);
      if maxAttempts <= 5 { CapIsSlack(st, offered, repeat, outs, maxAttempts); }
      var fsmSteps := 0;
      while fsmSteps < CAP && reply == Again
        invariant fsmSteps <= CAP && Valid()
        invariant !reply.Recovered? ==> key in attempts && attempts[key].category == category && attempts[key].cursor <= |attempts[key].chain|
        invariant attempts == if reply.Recovered? then old(attempts) - {key} else old(attempts)[key := attempts[key]]
        invariant reply.Again? ==> Loop(attempts[key], offered, repeat, left, CAP - fsmSteps) == Loop(st, offered, repeat, outs, CAP)
        invariant reply.Again? ==>
                    ran + LoopActs(attempts[key], offered, repeat, left, CAP - fsmSteps) == LoopActs(st, offered, repeat, outs, CAP)
        invariant !reply.Again? ==> Loop(st, offered, repeat, outs, CAP).1 == reply && ran == LoopActs(st, offered, repeat, outs, CAP)
        invariant !reply.Again? && !reply.Recovered? ==> Loop(st, offered, repeat, outs, CAP).0 == attempts[key]
        decreases CAP - fsmSteps
      {
        var out := First(left);
        LoopNext(attempts[key], offered, repeat, left, CAP - fsmSteps);
        var acts: seq<Act>;
        reply, acts := Step(key, category, offered, repeat, out);
        ran := ran + acts;
        if acts != [] && left != [] { left := left[1..]; }
        if !reply.Recovered? { LeftPositive(attempts[key], maxAttempts); }
        fsmSteps := fsmSteps + 1;
      }
      if reply == Again { LoopNext(attempts[key], offered, repeat, left, 0); }
    }
  }
}
