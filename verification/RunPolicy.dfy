// The policy of a resumed session (cmd/gokin/run_policy.go), the canonical deny lists it is made of
// (internal/permission/tool_grants.go, lines 100 to 125), and what the program saves.

module RunPolicies {
  import opened Wrappers
  import opened ToolRules

  datatype Mode = Plan | DontAsk | Default | AcceptEdits | Bypass | Unknown

  // No ceiling means every tool.
  datatype Policy = Policy(ceiling: Option<seq<string>>, denies: seq<string>, mode: Mode)

  const MAX_RULES := 64
  const MAX_BYTES := 8192

  function Bytes(rules: seq<string>): nat {
    if rules == [] then 0 else Size(rules[0]) + Bytes(rules[1..])
  }

  // CanonicalizeTemporaryToolDenies from some way on; none stands for an error.
  function Collect(raw: seq<string>, canon: string -> Canon, acc: seq<string>): Option<seq<string>>
    decreases |raw|
  {
    if raw == [] then Some(acc)
    else
      match canon(raw[0])
      case Bad => None
      case Blank => Collect(raw[1..], canon, acc)
      case Rule(text) =>
        if text in acc then Collect(raw[1..], canon, acc)
        else if Bytes(acc) + Size(text) > MAX_BYTES then None
        else Collect(raw[1..], canon, acc + [text])
  }

  function Canonicalize(raw: seq<string>, canon: string -> Canon): Option<seq<string>> {
    if |raw| > MAX_RULES then None else Collect(raw, canon, [])
  }

  // permissionModeAuthority; none stands for an error.
  function Authority(m: Mode): Option<nat> {
    match m
    case Plan => Some(0)
    case Default => Some(1)
    case DontAsk => Some(1)
    case AcceptEdits => Some(2)
    case Bypass => Some(3)
    case Unknown => None
  }

  function Intersected(names: seq<string>, stored: seq<string>): seq<string> {
    if names == [] then []
    else Intersected(names[..|names| - 1], stored) + if names[|names| - 1] in stored then [names[|names| - 1]] else []
  }

  function LesserMode(stored: Mode, requested: Mode): Mode
    requires Authority(stored).Some? && Authority(requested).Some?
  {
    var s, r := Authority(stored).value, Authority(requested).value;
    if s < r || (s == r && stored == DontAsk) then stored else requested
  }

  function MetCeiling(stored: Option<seq<string>>, requested: Option<seq<string>>): Option<seq<string>> {
    if stored.None? then requested
    else if requested.None? then stored
    else Some(Intersected(requested.value, stored.value))
  }

  // effectiveSessionRunPolicy, without the flag it also returns.
  function Effective(stored: Option<Policy>, requested: Policy, reset: bool, canon: string -> Canon): Option<Policy> {
    var denies := Canonicalize(requested.denies, canon);
    if denies.None? || Authority(requested.mode).None? then None
    else if stored.None? || reset then Some(requested.(denies := denies.value))
    else if Authority(stored.value.mode).None? then None
    else
      var saved := Canonicalize(stored.value.denies, canon);
      if saved.None? then None
      else
        var all := Canonicalize(saved.value + denies.value, canon);
        if all.None? then None
        else Some(Policy(MetCeiling(stored.value.ceiling, requested.ceiling), all.value,
                         LesserMode(stored.value.mode, requested.mode)))
  }

  // ----- canonical lists -----

  // None of the rules is refused.
  predicate Accepted(l: seq<string>, canon: string -> Canon) { forall i :: 0 <= i < |l| ==> !canon(l[i]).Bad? }

  // Each of them is its own canonical form.
  predicate Fixed(l: seq<string>, canon: string -> Canon) { forall i :: 0 <= i < |l| ==> canon(l[i]) == Rule(l[i]) }

  // The canonical texts of those that are not blank.
  function Texts(l: seq<string>, canon: string -> Canon): seq<string> {
    if l == [] then []
    else (if canon(l[0]).Rule? then [canon(l[0]).text] else []) + Texts(l[1..], canon)
  }

  // A list with the rules of another that are new to it.
  function Merged(acc: seq<string>, more: seq<string>): seq<string>
    decreases |more|
  {
    if more == [] then acc
    else Merged(if more[0] in acc then acc else acc + [more[0]], more[1..])
  }

  lemma {:induction false} BytesJoin(a: seq<string>, b: seq<string>)
    ensures Bytes(a + b) == Bytes(a) + Bytes(b)
  {
    if a == [] {
      assert a + b == b;
    } else {
      BytesJoin(a[1..], b);
      assert (a + b)[1..] == a[1..] + b;
    }
  }

  lemma BytesOne(acc: seq<string>, x: string)
    ensures Bytes(acc + [x]) == Bytes(acc) + Size(x)
  {
    BytesJoin(acc, [x]);
    assert [x][1..] == [];
  }

  lemma {:induction false} MergedGrows(acc: seq<string>, more: seq<string>)
    ensures Bytes(Merged(acc, more)) >= Bytes(acc)
    decreases |more|
  {
    if more != [] {
      BytesOne(acc, more[0]);
      MergedGrows(if more[0] in acc then acc else acc + [more[0]], more[1..]);
    }
  }

  lemma {:induction false} MergedElements(acc: seq<string>, more: seq<string>)
    ensures Elements(Merged(acc, more)) == Elements(acc) + Elements(more)
    decreases |more|
  {
    if more != [] {
      var next := if more[0] in acc then acc else acc + [more[0]];
      MergedElements(next, more[1..]);
      ElementsJoin(acc, [more[0]]);
      ElementsJoin([more[0]], more[1..]);
      assert more == [more[0]] + more[1..];
      assert more[0] in acc ==> more[0] in Elements(acc);
      assert Elements([more[0]]) == {more[0]};
    }
  }

  lemma ElementsJoin(a: seq<string>, b: seq<string>)
    ensures Elements(a + b) == Elements(a) + Elements(b)
  {
    forall x | x in Elements(a) + Elements(b)
      ensures x in Elements(a + b)
    {
      if x in Elements(a) {
        var i :| 0 <= i < |a| && a[i] == x;
        assert (a + b)[i] == x;
      } else {
        var i :| 0 <= i < |b| && b[i] == x;
        assert (a + b)[|a| + i] == x;
      }
    }
  }

  lemma {:induction false} MergedAfter(a: seq<string>, b: seq<string>, c: seq<string>)
    ensures Merged(a, b + c) == Merged(Merged(a, b), c)
    decreases |b|
  {
    if b == [] {
      assert b + c == c;
    } else {
      assert (b + c)[1..] == b[1..] + c;
      MergedAfter(if b[0] in a then a else a + [b[0]], b[1..], c);
    }
  }

  lemma {:induction false} MergedNew(acc: seq<string>, more: seq<string>)
    requires forall i :: 0 <= i < |more| ==> more[i] !in acc
    requires forall i, j :: 0 <= i < j < |more| ==> more[i] != more[j]
    ensures Merged(acc, more) == acc + more
    decreases |more|
  {
    if more != [] {
      MergedNew(acc + [more[0]], more[1..]);
      assert acc + more == acc + [more[0]] + more[1..];
    }
  }

  lemma {:induction false} MergedOld(acc: seq<string>, more: seq<string>)
    requires forall i :: 0 <= i < |more| ==> more[i] in acc
    ensures Merged(acc, more) == acc
    decreases |more|
  {
    if more != [] { MergedOld(acc, more[1..]); }
  }

  lemma {:induction false} MergedDistinct(acc: seq<string>, more: seq<string>)
    requires Distinct(acc)
    ensures Distinct(Merged(acc, more)) && |acc| <= |Merged(acc, more)| <= |acc| + |more|
    decreases |more|
  {
    if more != [] { MergedDistinct(if more[0] in acc then acc else acc + [more[0]], more[1..]); }
  }

  predicate Distinct(l: seq<string>) { forall i, j :: 0 <= i < j < |l| ==> l[i] != l[j] }

  lemma {:induction false} TextsJoin(a: seq<string>, b: seq<string>, canon: string -> Canon)
    ensures Texts(a + b, canon) == Texts(a, canon) + Texts(b, canon)
  {
    if a == [] {
      assert a + b == b;
    } else {
      assert (a + b)[1..] == a[1..] + b && (a + b)[0] == a[0];
      TextsJoin(a[1..], b, canon);
      var first := if canon(a[0]).Rule? then [canon(a[0]).text] else [];
      calc {
        Texts(a + b, canon);
        first + Texts((a + b)[1..], canon);
        first + (Texts(a[1..], canon) + Texts(b, canon));
        Texts(a, canon) + Texts(b, canon);
      }
    }
  }

  lemma {:induction false} TextsAre(l: seq<string>, canon: string -> Canon)
    ensures |Texts(l, canon)| <= |l|
    ensures Fixed(l, canon) ==> Texts(l, canon) == l
    ensures forall x :: x in Elements(Texts(l, canon)) <==> exists i :: 0 <= i < |l| && canon(l[i]) == Rule(x)
  {
    if l != [] {
      var first := if canon(l[0]).Rule? then [canon(l[0]).text] else [];
      TextsAre(l[1..], canon);
      ElementsJoin(first, Texts(l[1..], canon));
      assert l == [l[0]] + l[1..];
      assert forall i :: 0 <= i < |l[1..]| ==> l[1..][i] == l[i + 1];
      forall x
        ensures x in Elements(Texts(l, canon)) <==> exists i :: 0 <= i < |l| && canon(l[i]) == Rule(x)
      {
        assert x in Elements(first) <==> canon(l[0]) == Rule(x) by {
          if canon(l[0]) == Rule(x) { assert first[0] == x; }
        }
        if i :| 0 <= i < |l| && canon(l[i]) == Rule(x) {
          if i > 0 { assert canon(l[1..][i - 1]) == Rule(x); }
        }
      }
    }
  }

  lemma {:induction false} CollectIs(raw: seq<string>, canon: string -> Canon, acc: seq<string>)
    requires Bytes(acc) <= MAX_BYTES
    ensures var all := Merged(acc, Texts(raw, canon));
      Collect(raw, canon, acc) == if Accepted(raw, canon) && Bytes(all) <= MAX_BYTES then Some(all) else None
    decreases |raw|
  {
    hide Bytes, Accepted;
    FirstAccepted(raw, canon);
    if raw != [] && !canon(raw[0]).Bad? {
      var more := Texts(raw[1..], canon);
      if canon(raw[0]).Blank? {
        assert Texts(raw, canon) == more;
        CollectIs(raw[1..], canon, acc);
      } else {
        var text := canon(raw[0]).text;
        assert ([text] + more)[1..] == more;
        BytesOne(acc, text);
        if text in acc {
          CollectIs(raw[1..], canon, acc);
        } else {
          MergedGrows(acc + [text], more);
          if Bytes(acc + [text]) <= MAX_BYTES { CollectIs(raw[1..], canon, acc + [text]); }
        }
      }
    }
  }

  lemma FirstAccepted(raw: seq<string>, canon: string -> Canon)
    ensures Accepted(raw, canon) <==> raw == [] || (!canon(raw[0]).Bad? && Accepted(raw[1..], canon))
  {
    if raw != [] {
      assert forall i :: 0 <= i < |raw[1..]| ==> raw[1..][i] == raw[i + 1];
      if !canon(raw[0]).Bad? && Accepted(raw[1..], canon) {
        forall i | 0 <= i < |raw|
          ensures !canon(raw[i]).Bad?
        {
          if i > 0 { assert !canon(raw[1..][i - 1]).Bad?; }
        }
      }
    }
  }

  // The canonical list, if there is one: the canonical texts of the rules that are not blank, each once,
  // in the order in which they first come.
  lemma CanonicalizeIs(raw: seq<string>, canon: string -> Canon)
    ensures var all := Merged([], Texts(raw, canon));
      && Canonicalize(raw, canon) ==
           (if |raw| <= 64 && Accepted(raw, canon) && Bytes(all) <= 8192 then Some(all) else None)
      && Elements(all) == Elements(Texts(raw, canon)) && Distinct(all) && |all| <= |raw|
  {
    NoBytes();
    CollectIs(raw, canon, []);
    MergedElements([], Texts(raw, canon));
    MergedDistinct([], Texts(raw, canon));
    TextsAre(raw, canon);
    assert Elements([]) + Elements(Texts(raw, canon)) == Elements(Texts(raw, canon));
  }

  lemma NoBytes()
    ensures Bytes([]) == 0 && Elements([]) == {}
  {
  }

  // A list of rules in their own form is its own canonical list.
  lemma FixedStays(l: seq<string>, canon: string -> Canon)
    requires Fixed(l, canon) && Distinct(l) && Bytes(l) <= MAX_BYTES && |l| <= MAX_RULES
    ensures Canonicalize(l, canon) == Some(l)
  {
    hide Collect, Bytes, Merged;
    CanonicalizeIs(l, canon);
    TextsAre(l, canon);
    MergedNew([], l);
    assert [] + l == l;
  }

  // ----- when a resume succeeds, and with what denies -----

  // The united list is limited before duplicates are dropped: what counts is the sum of the two
  // canonical lengths. The byte limit does count duplicates once. And every rule must be accepted again.
  lemma UnitedDenies(saved: seq<string>, asked: seq<string>, canon: string -> Canon)
    ensures var all := Merged([], Texts(saved, canon) + Texts(asked, canon));
      && Canonicalize(saved + asked, canon) ==
           (if |saved| + |asked| <= 64 && Accepted(saved, canon) && Accepted(asked, canon) && Bytes(all) <= 8192
            then Some(all) else None)
      && Elements(all) == Elements(Texts(saved, canon)) + Elements(Texts(asked, canon))
      && (Fixed(saved, canon) && Fixed(asked, canon) && Distinct(saved) ==> all == Merged(saved, asked))
  {
    hide Collect, Merged, Bytes, Canonicalize, Fixed, Distinct;
    CanonicalizeIs(saved + asked, canon);
    TextsJoin(saved, asked, canon);
    ElementsJoin(Texts(saved, canon), Texts(asked, canon));
    AcceptedBoth(saved, asked, canon);
    if Fixed(saved, canon) && Fixed(asked, canon) && Distinct(saved) {
      TextsAre(saved, canon);
      TextsAre(asked, canon);
      MergedAfter([], saved, asked);
      DistinctMerged(saved);
    }
  }

  lemma DistinctMerged(l: seq<string>)
    requires Distinct(l)
    ensures Merged([], l) == l
  {
    MergedNew([], l);
    assert [] + l == l;
  }

  lemma AcceptedBoth(a: seq<string>, b: seq<string>, canon: string -> Canon)
    ensures Accepted(a + b, canon) <==> Accepted(a, canon) && Accepted(b, canon)
  {
    if Accepted(a + b, canon) {
      assert forall i :: 0 <= i < |a| ==> (a + b)[i] == a[i];
      assert forall i :: 0 <= i < |b| ==> (a + b)[|a| + i] == b[i];
    }
  }

  // A resume succeeds exactly when both lists are in order, all their canonical rules are accepted
  // again, and the two together keep to the limits.
  lemma Succeeds(stored: Policy, requested: Policy, canon: string -> Canon)
    ensures Effective(Some(stored), requested, false, canon).Some? <==>
              var a, b := Canonicalize(stored.denies, canon), Canonicalize(requested.denies, canon);
              && a.Some? && b.Some? && !stored.mode.Unknown? && !requested.mode.Unknown?
              && Accepted(a.value, canon) && Accepted(b.value, canon) && |a.value| + |b.value| <= 64
              && Bytes(Merged([], Texts(a.value, canon) + Texts(b.value, canon))) <= 8192
  {
    hide Canonicalize, Accepted, Bytes, Merged, Texts;
    var a, b := Canonicalize(stored.denies, canon), Canonicalize(requested.denies, canon);
    if a.Some? && b.Some? { UnitedDenies(a.value, b.value, canon); }
  }

  // ----- rules given twice -----

  // A canonical text may change once more when it is given as a rule, and no more after that, except
  // that it may be refused.
  ghost predicate SettlesTwice(s: string, canon: string -> Canon) {
    canon(s).Rule? ==>
      var t := canon(s).text;
      !canon(t).Blank? && (canon(t).Rule? ==> canon(canon(t).text) == canon(t) || canon(canon(t).text).Bad?)
  }

  ghost predicate Settling(canon: string -> Canon) { forall s :: SettlesTwice(s, canon) }

  function DenyCanon(a: Script, scoped: (string, string) -> bool): string -> Canon { s => ToolRules.Canonical(s, a, scoped) }

  // So it is with the canonical form of deny rules.
  lemma DenyCanonSettles(a: Script, scoped: (string, string) -> bool)
    requires Lawful(a)
    ensures Settling(DenyCanon(a, scoped))
  {
    hide ToolRules.Canonical, Lawful;
    forall s
      ensures SettlesTwice(s, DenyCanon(a, scoped))
    {
      if DenyCanon(a, scoped)(s).Rule? { CanonicalSettles(s, a, scoped); }
    }
  }

  // A list whose rules are their own canonical forms or, having outgrown the limit, refused.
  ghost predicate Listed(l: seq<string>, canon: string -> Canon) {
    forall i :: 0 <= i < |l| ==> canon(l[i]) == Rule(l[i]) || canon(l[i]).Bad?
  }

  lemma SettlesAt(s: string, canon: string -> Canon)
    requires Settling(canon)
    ensures SettlesTwice(s, canon)
  {
  }

  // Such is the canonical list of a canonical list.
  lemma TwiceListed(raw: seq<string>, canon: string -> Canon)
    requires Settling(canon) && Canonicalize(raw, canon).Some?
    requires Canonicalize(Canonicalize(raw, canon).value, canon).Some?
    ensures Listed(Canonicalize(Canonicalize(raw, canon).value, canon).value, canon)
  {
    hide Canonicalize, Texts, Settling;
    var l := Canonicalize(raw, canon).value;
    var m := Canonicalize(l, canon).value;
    CanonicalizeIs(raw, canon);
    CanonicalizeIs(l, canon);
    TextsAre(raw, canon);
    TextsAre(l, canon);
    forall i | 0 <= i < |m|
      ensures canon(m[i]) == Rule(m[i]) || canon(m[i]).Bad?
    {
      assert m[i] in Elements(m);
      var j :| 0 <= j < |l| && canon(l[j]) == Rule(m[i]);
      assert l[j] in Elements(l);
      var k :| 0 <= k < |raw| && canon(raw[k]) == Rule(l[j]);
      SettlesAt(raw[k], canon);
    }
  }

  // ----- what a policy means -----

  // What a policy means: the tools it allows, the rules it denies, its mode.
  datatype Meaning = Meaning(tools: Option<set<string>>, denied: set<string>, mode: Mode)

  function Read(s: string, canon: string -> Canon): string { if canon(s).Rule? then canon(s).text else s }

  // The form in which a rule settles.
  function Final(s: string, canon: string -> Canon): string { if canon(s).Rule? then Read(canon(s).text, canon) else s }

  function Denied(l: seq<string>, canon: string -> Canon): set<string> {
    set i | 0 <= i < |l| && !canon(l[i]).Blank? :: Final(l[i], canon)
  }

  function Means(p: Policy, canon: string -> Canon): Meaning {
    Meaning(if p.ceiling.None? then None else Some(Elements(p.ceiling.value)), Denied(p.denies, canon), p.mode)
  }

  lemma FinalAgain(s: string, canon: string -> Canon)
    requires SettlesTwice(s, canon) && canon(s).Rule?
    ensures Final(canon(s).text, canon) == Final(s, canon) && !canon(canon(s).text).Blank?
  {
  }

  lemma DeniedBy(l: seq<string>, m: seq<string>, canon: string -> Canon)
    requires Elements(l) <= Elements(m)
    ensures Denied(l, canon) <= Denied(m, canon)
  {
    hide Final;
    forall x | x in Denied(l, canon)
      ensures x in Denied(m, canon)
    {
      var i :| 0 <= i < |l| && !canon(l[i]).Blank? && Final(l[i], canon) == x;
      assert l[i] in Elements(l);
      var j :| 0 <= j < |m| && m[j] == l[i];
    }
  }

  lemma DeniedJoin(a: seq<string>, b: seq<string>, canon: string -> Canon)
    ensures Denied(a + b, canon) == Denied(a, canon) + Denied(b, canon)
  {
    hide Final;
    ElementsJoin(a, b);
    DeniedBy(a, a + b, canon);
    DeniedBy(b, a + b, canon);
    forall x | x in Denied(a + b, canon)
      ensures x in Denied(a, canon) + Denied(b, canon)
    {
      var i :| 0 <= i < |a + b| && !canon((a + b)[i]).Blank? && Final((a + b)[i], canon) == x;
      if i < |a| { assert a[i] == (a + b)[i]; } else { assert b[i - |a|] == (a + b)[i]; }
    }
  }

  lemma DeniedTexts(l: seq<string>, canon: string -> Canon)
    requires Settling(canon) && Accepted(l, canon)
    ensures Denied(Texts(l, canon), canon) == Denied(l, canon)
  {
    hide Final, Settling, Texts;
    var ts := Texts(l, canon);
    TextsAre(l, canon);
    forall x | x in Denied(ts, canon)
      ensures x in Denied(l, canon)
    {
      var i :| 0 <= i < |ts| && !canon(ts[i]).Blank? && Final(ts[i], canon) == x;
      assert ts[i] in Elements(ts);
      var j :| 0 <= j < |l| && canon(l[j]) == Rule(ts[i]);
      SettlesAt(l[j], canon);
      FinalAgain(l[j], canon);
    }
    forall x | x in Denied(l, canon)
      ensures x in Denied(ts, canon)
    {
      var j :| 0 <= j < |l| && !canon(l[j]).Blank? && Final(l[j], canon) == x;
      SettlesAt(l[j], canon);
      FinalAgain(l[j], canon);
      assert canon(l[j]) == Rule(canon(l[j]).text);
      assert canon(l[j]).text in Elements(ts);
      var i :| 0 <= i < |ts| && ts[i] == canon(l[j]).text;
    }
  }

  // A canonical list denies what the list it comes from denies.
  lemma CanonicalMeans(raw: seq<string>, canon: string -> Canon)
    requires Settling(canon) && Canonicalize(raw, canon).Some?
    ensures Denied(Canonicalize(raw, canon).value, canon) == Denied(raw, canon)
  {
    hide Canonicalize, Denied, Settling, Texts, Accepted, Bytes;
    CanonicalizeIs(raw, canon);
    DeniedTexts(raw, canon);
    var l, ts := Canonicalize(raw, canon).value, Texts(raw, canon);
    DeniedBy(l, ts, canon);
    DeniedBy(ts, l, canon);
  }

  lemma ListedMeans(l: seq<string>, canon: string -> Canon)
    requires Listed(l, canon)
    ensures Denied(l, canon) == Elements(l)
  {
    assert forall i :: 0 <= i < |l| ==> Final(l[i], canon) == l[i];
  }

  function Height(m: Mode): nat {
    match m
    case Plan => 0
    case DontAsk => 1
    case Default => 2
    case AcceptEdits => 3
    case Bypass => 4
    case Unknown => 5
  }

  function Lower(a: Mode, b: Mode): Mode { if Height(a) <= Height(b) then a else b }

  function Meet(a: Meaning, b: Meaning): Meaning {
    Meaning(if a.tools.None? then b.tools else if b.tools.None? then a.tools else Some(a.tools.value * b.tools.value),
            a.denied + b.denied, Lower(a.mode, b.mode))
  }

  predicate AtMost(a: Meaning, b: Meaning) {
    && (b.tools.Some? ==> a.tools.Some? && a.tools.value <= b.tools.value)
    && b.denied <= a.denied && Height(a.mode) <= Height(b.mode)
  }

  lemma {:induction false} IntersectedElements(names: seq<string>, stored: seq<string>)
    ensures Elements(Intersected(names, stored)) == Elements(names) * Elements(stored)
    ensures Intersected(names, stored) == names <==> forall i :: 0 <= i < |names| ==> names[i] in stored
    ensures |Intersected(names, stored)| <= |names|
  {
    if names != [] {
      var n := |names| - 1;
      IntersectedElements(names[..n], stored);
      assert names == names[..n] + [names[n]];
      ElementsJoin(names[..n], [names[n]]);
      ElementsJoin(Intersected(names[..n], stored), if names[n] in stored then [names[n]] else []);
      assert Elements([names[n]]) == {names[n]} && Elements([]) == {};
      assert names[n] in stored <==> names[n] in Elements(stored);
    }
  }

  // A resumed session's policy is the meet of the saved one and the request. Its rules are all in their
  // own form if the canonical rules of both were, up to some being refused.
  lemma EffectiveIsMeet(stored: Policy, requested: Policy, canon: string -> Canon)
    requires Settling(canon) && Effective(Some(stored), requested, false, canon).Some?
    ensures var e := Effective(Some(stored), requested, false, canon).value;
      && Means(e, canon) == Meet(Means(stored, canon), Means(requested, canon))
      && (Listed(Canonicalize(stored.denies, canon).value, canon) && Listed(Canonicalize(requested.denies, canon).value, canon) ==>
            Fixed(e.denies, canon) && Canonicalize(e.denies, canon) == Some(e.denies))
  {
    hide Denied, Canonicalize, Listed, Fixed, Settling, Texts, Accepted, Bytes, Merged;
    var e := Effective(Some(stored), requested, false, canon).value;
    var a, b := Canonicalize(stored.denies, canon).value, Canonicalize(requested.denies, canon).value;
    CanonicalMeans(stored.denies, canon);
    CanonicalMeans(requested.denies, canon);
    CanonicalMeans(a + b, canon);
    DeniedJoin(a, b, canon);
    LesserIsLower(stored.mode, requested.mode);
    if stored.ceiling.Some? && requested.ceiling.Some? {
      var names, known := requested.ceiling.value, stored.ceiling.value;
      IntersectedElements(names, known);
      assert Elements(known) * Elements(names) == Elements(names) * Elements(known);
    }
    if Listed(a, canon) && Listed(b, canon) { UnitedFixed(a, b, canon); }
  }

  lemma UnitedFixed(a: seq<string>, b: seq<string>, canon: string -> Canon)
    requires Listed(a, canon) && Listed(b, canon) && Canonicalize(a + b, canon).Some?
    ensures Fixed(a, canon) && Fixed(b, canon)
    ensures Fixed(Canonicalize(a + b, canon).value, canon)
    ensures var l := Canonicalize(a + b, canon).value; Canonicalize(l, canon) == Some(l)
  {
    hide Canonicalize, Texts, Merged, Bytes;
    CanonicalizeIs(a + b, canon);
    AcceptedBoth(a, b, canon);
    assert Fixed(a + b, canon);
    TextsAre(a + b, canon);
    var l := Canonicalize(a + b, canon).value;
    forall i | 0 <= i < |l|
      ensures canon(l[i]) == Rule(l[i])
    {
      assert l[i] in Elements(l);
      assert l[i] in Elements(a + b);
    }
    FixedStays(l, canon);
  }

  lemma LesserIsLower(a: Mode, b: Mode)
    requires !a.Unknown? && !b.Unknown?
    ensures LesserMode(a, b) == Lower(a, b)
  {
  }

  lemma LowerLaws(a: Mode, b: Mode, c: Mode)
    ensures Height(a) == Height(b) ==> a == b
    ensures Lower(a, b) == Lower(b, a) && Lower(Lower(a, b), c) == Lower(a, Lower(b, c))
  {
    assert Height(a) == Height(b) ==> a == b;
    assert Height(a) == Height(c) ==> a == c;
    assert Height(b) == Height(c) ==> b == c;
  }

  lemma ToolsLaws(a: set<string>, b: set<string>, c: set<string>)
    ensures a * a == a && a * b == b * a && a * b * c == a * (b * c)
    ensures a + a == a && a + b == b + a && a + b + c == a + (b + c)
  {
  }

  lemma MeetLaws(a: Meaning, b: Meaning, c: Meaning)
    ensures Meet(a, a) == a && Meet(a, b) == Meet(b, a) && Meet(Meet(a, b), c) == Meet(a, Meet(b, c))
    ensures AtMost(Meet(a, b), a) && AtMost(Meet(a, b), b)
    ensures AtMost(c, a) && AtMost(c, b) ==> AtMost(c, Meet(a, b))
    ensures AtMost(a, b) && AtMost(b, c) ==> AtMost(a, c)
    ensures AtMost(a, a)
  {
    LowerLaws(a.mode, b.mode, c.mode);
    ToolsLaws(a.denied, b.denied, c.denied);
    if a.tools.Some? && b.tools.Some? {
      ToolsLaws(a.tools.value, b.tools.value, if c.tools.Some? then c.tools.value else {});
    } else if a.tools.Some? {
      ToolsLaws(a.tools.value, {}, {});
    }
  }

  // Without a saved policy, or with a reset, the request stands just as it means, and it is accepted
  // exactly when its denies can be made canonical and its mode is known.
  lemma FreshMeans(stored: Option<Policy>, requested: Policy, reset: bool, canon: string -> Canon)
    requires stored.None? || reset
    ensures Effective(stored, requested, reset, canon).Some? <==>
              Canonicalize(requested.denies, canon).Some? && !requested.mode.Unknown?
    ensures Settling(canon) && Effective(stored, requested, reset, canon).Some? ==>
              Means(Effective(stored, requested, reset, canon).value, canon) == Means(requested, canon)
  {
    hide Canonicalize, Settling, Denied;
    if Settling(canon) && Canonicalize(requested.denies, canon).Some? { CanonicalMeans(requested.denies, canon); }
  }

  // ----- resuming with the same policy -----

  lemma {:induction false} TextsStay(l: seq<string>, acc: seq<string>)
    requires Elements(l) <= Elements(acc)
    ensures Merged(acc, l) == acc
  {
    forall i | 0 <= i < |l|
      ensures l[i] in acc
    {
      assert l[i] in Elements(l);
      assert l[i] in Elements(acc);
    }
    MergedOld(acc, l);
  }

  // A canonical list can be doubled exactly when it has at most half as many rules as are allowed and
  // can be given again itself.
  lemma Doubled(d: seq<string>, canon: string -> Canon)
    ensures Canonicalize(d + d, canon).Some? <==> |d| <= 32 && Canonicalize(d, canon).Some?
    ensures Canonicalize(d + d, canon).Some? ==> Canonicalize(d + d, canon) == Canonicalize(d, canon)
  {
    hide Canonicalize, Merged, Texts, Bytes, Accepted;
    var ts := Texts(d, canon);
    UnitedDenies(d, d, canon);
    CanonicalizeIs(d, canon);
    MergedAfter([], ts, ts);
    TextsStay(ts, Merged([], ts));
  }

  // Resuming with the very policy that was saved keeps its meaning, but is accepted only up to half
  // the rule limit, beyond which the doubled list is refused, and only if the canonical rules are.
  lemma ResumeWithSame(p: Policy, canon: string -> Canon)
    requires Canonicalize(p.denies, canon).Some? && !p.mode.Unknown?
    ensures var d := Canonicalize(p.denies, canon).value;
      Effective(Some(p), p, false, canon).Some? <==> |d| <= 32 && Canonicalize(d, canon).Some?
    ensures Settling(canon) && Effective(Some(p), p, false, canon).Some? ==>
              Means(Effective(Some(p), p, false, canon).value, canon) == Means(p, canon)
  {
    hide Canonicalize, Means, Settling;
    Doubled(Canonicalize(p.denies, canon).value, canon);
    if Settling(canon) && Effective(Some(p), p, false, canon).Some? {
      EffectiveIsMeet(p, p, canon);
      MeetLaws(Means(p, canon), Means(p, canon), Means(p, canon));
    }
  }

  // ----- what the program saves -----

  // A start of the program: the policy asked for by its flags, whether the saved one is to be reset,
  // whether there were such flags, and whether all tools named are known.
  datatype Launch = Launch(asked: Policy, reset: bool, flags: bool, known: bool)

  // The flags are made canonical before the saved policy is looked at, and the rules in effect once
  // more when they are installed.
  function Started(saved: Option<Policy>, l: Launch, canon: string -> Canon): Option<Policy> {
    var denies := Canonicalize(l.asked.denies, canon);
    if denies.None? then None
    else
      var e := Effective(saved, l.asked.(denies := denies.value), l.reset, canon);
      if e.None? || !l.known || Canonicalize(e.value.denies, canon).None? then None else e
  }

  function SavedBy(saved: Option<Policy>, l: Launch, canon: string -> Canon): Option<Policy> {
    var e := Started(saved, l, canon);
    if e.Some? && (saved.Some? || l.flags || l.reset) then e else saved
  }

  function SavedAfter(saved: Option<Policy>, ls: seq<Launch>, canon: string -> Canon): Option<Policy>
    decreases |ls|
  {
    if ls == [] then saved else SavedAfter(SavedBy(saved, ls[0], canon), ls[1..], canon)
  }

  // Its rules are in their own form and can be given again.
  ghost predicate Kept(p: Policy, canon: string -> Canon) {
    !p.mode.Unknown? && Fixed(p.denies, canon) && Canonicalize(p.denies, canon) == Some(p.denies)
  }

  lemma FixedIfAccepted(l: seq<string>, canon: string -> Canon)
    requires Listed(l, canon) && Canonicalize(l, canon).Some?
    ensures Fixed(l, canon)
  {
    hide Texts, Merged, Bytes, Canonicalize;
    CanonicalizeIs(l, canon);
  }

  lemma TwiceDistinct(raw: seq<string>, canon: string -> Canon)
    requires Canonicalize(raw, canon).Some?
    ensures var l := Canonicalize(raw, canon).value; Distinct(l) && Bytes(l) <= MAX_BYTES && |l| <= MAX_RULES
  {
    hide Texts, Merged, Bytes, Collect;
    CanonicalizeIs(raw, canon);
  }

  lemma StartedIsKept(saved: Option<Policy>, l: Launch, canon: string -> Canon)
    requires Settling(canon) && (saved.Some? ==> Kept(saved.value, canon)) && Started(saved, l, canon).Some?
    ensures Kept(Started(saved, l, canon).value, canon)
    ensures Listed(Canonicalize(Canonicalize(l.asked.denies, canon).value, canon).value, canon)
  {
    hide Settling, Canonicalize, Fixed, Listed;
    var asked := Canonicalize(l.asked.denies, canon).value;
    TwiceListed(l.asked.denies, canon);
    var b := Canonicalize(asked, canon).value;
    var e := Started(saved, l, canon).value;
    if saved.None? || l.reset {
      FixedIfAccepted(b, canon);
      TwiceDistinct(asked, canon);
      FixedStays(b, canon);
    } else {
      FixedListed(saved.value.denies, canon);
      UnitedFixed(saved.value.denies, b, canon);
    }
  }

  lemma FixedListed(l: seq<string>, canon: string -> Canon)
    requires Fixed(l, canon)
    ensures Listed(l, canon)
  {
  }

  // Whatever the program has saved, however it was started, can be given again as it stands.
  lemma {:induction false} SavedIsKept(saved: Option<Policy>, ls: seq<Launch>, canon: string -> Canon)
    requires Settling(canon) && (saved.Some? ==> Kept(saved.value, canon))
    ensures var p := SavedAfter(saved, ls, canon); p.Some? ==> Kept(p.value, canon)
    decreases |ls|
  {
    hide Settling, Kept, Started;
    if ls != [] {
      if Started(saved, ls[0], canon).Some? { StartedIsKept(saved, ls[0], canon); }
      SavedIsKept(SavedBy(saved, ls[0], canon), ls[1..], canon);
    }
  }

  // So a saved session can always be resumed by a request that adds no denies, which keeps its rules;
  // and by one that repeats them exactly when they are at most thirty-two.
  lemma KeptResumes(p: Policy, l: Launch, canon: string -> Canon)
    requires Kept(p, canon) && l.known && !l.reset && !l.asked.mode.Unknown?
    ensures l.asked.denies == [] ==> Started(Some(p), l, canon).Some? && Started(Some(p), l, canon).value.denies == p.denies
    ensures l.asked.denies == p.denies ==> (Started(Some(p), l, canon).Some? <==> |p.denies| <= 32)
  {
    hide Canonicalize;
    assert Canonicalize([], canon) == Some([]) by { CanonicalizeIs([], canon); NoBytes(); }
    assert p.denies + [] == p.denies;
    Doubled(p.denies, canon);
  }

  // ----- where it cannot be resumed -----

  function Numbered(n: nat): seq<string> { seq(n, i requires 0 <= i < n => seq(i + 1, _ => '*')) }

  lemma StarsFixed(k: nat, a: Script, scoped: (string, string) -> bool)
    requires Lawful(a) && 0 < k <= 33
    ensures Canonical(seq(k, _ => '*'), a, scoped) == Rule(seq(k, _ => '*')) && Size(seq(k, _ => '*')) == k
  {
    hide Canonical, Size, ToolName, Camel, Lawful;
    var s := seq(k, _ => '*');
    Tables(a, '*');
    NoCamel(a, s, None);
    assert s[0] == '*' && ASK[0] == 'a' == AGENT[0];
    NameAgain(a, s);
    SizeAscii(s);
    TextRead(s, None, a, scoped);
  }

  lemma {:induction false} BytesBound(l: seq<string>, m: nat)
    requires forall i :: 0 <= i < |l| ==> Size(l[i]) <= m
    ensures Bytes(l) <= |l| * m
  {
    hide Size;
    if l != [] {
      BytesBound(l[1..], m);
      assert |l| * m == m + |l[1..]| * m;
    }
  }

  lemma NumberedKept(n: nat, a: Script, scoped: (string, string) -> bool)
    requires Lawful(a) && n <= 33
    ensures Kept(Policy(None, Numbered(n), Default), DenyCanon(a, scoped))
  {
    hide Canonical, Size, Lawful, Bytes, Canonicalize;
    var l, canon := Numbered(n), DenyCanon(a, scoped);
    forall i | 0 <= i < n
      ensures canon(l[i]) == Rule(l[i]) && Size(l[i]) <= 33
    {
      StarsFixed(i + 1, a, scoped);
      assert l[i] == seq(i + 1, _ => '*');
    }
    forall i, j | 0 <= i < j < n
      ensures l[i] != l[j]
    {
      assert |l[i]| == i + 1 && |l[j]| == j + 1;
    }
    BytesBound(l, 33);
    FixedStays(l, canon);
  }

  // Thirty-three denied rules are accepted and saved, and then no longer accepted with themselves.
  lemma CannotRepeatThirtyThree(a: Script, scoped: (string, string) -> bool)
    requires Lawful(a)
    ensures var p, canon := Policy(None, Numbered(33), Default), DenyCanon(a, scoped);
      var l := Launch(p, false, true, true);
      && Effective(None, p, false, canon) == Some(p) && Effective(Some(p), p, false, canon).None?
      && SavedBy(None, l, canon) == Some(p) && Started(Some(p), l, canon).None?
  {
    hide Numbered, Canonical, Canonicalize, Fixed;
    var p, canon := Policy(None, Numbered(33), Default), DenyCanon(a, scoped);
    NumberedKept(33, a, scoped);
    assert |p.denies| == 33 by { ThirtyThree(); }
    ResumeWithSame(p, canon);
    KeptResumes(p, Launch(p, false, true, true), canon);
  }

  lemma ThirtyThree()
    ensures |Numbered(33)| == 33
  {
  }

  // To the function alone: a rule of the greatest length allowed whose canonical text is longer is
  // accepted, and then resumed no more, neither with that rule nor with any other request. The program
  // refuses it at once, since it makes its rules canonical before.
  lemma OverlongSticks(a: Script, scoped: (string, string) -> bool, request: Policy)
    requires Lawful(a) && scoped("list_dir", Argument())
    ensures var canon, p := DenyCanon(a, scoped), Policy(None, [Overlong()], Default);
      && Effective(None, p, false, canon).Some?
      && Effective(Some(Effective(None, p, false, canon).value), request, false, canon).None?
      && (Canonicalize(p.denies, canon).Some? && !Accepted(Canonicalize(p.denies, canon).value, canon))
      && forall saved, l: Launch :: l.asked.denies == p.denies ==> Started(saved, l, canon).None?
  {
    hide ToolRules.Canonical, Overlong;
    var canon, rule := DenyCanon(a, scoped), Overlong();
    Outgrows(a, scoped);
    var text := canon(rule).text;
    OneCollected(rule, text, canon);
    assert [text][0] == text;
    assert !Accepted([text], canon);
    assert Canonicalize([text], canon).None? by { CanonicalizeIs([text], canon); }
  }

  lemma OneCollected(rule: string, text: string, canon: string -> Canon)
    requires canon(rule) == Rule(text) && Size(text) <= MAX_BYTES
    ensures Canonicalize([rule], canon) == Some([text])
  {
    hide Size;
    assert [rule][1..] == [];
    assert Collect([], canon, [text]) == Some([text]);
    assert [] + [text] == [text];
  }

  // A saved rule that has not settled is taken for one that the request lacks, though it denies the same.
  lemma NarrowedUnsettled(a: Script, c: char, scoped: (string, string) -> bool)
    requires Lawful(a) && a.letter(c) && a.upper(c) && a.lower(c) == c
    ensures var canon, p, q := DenyCanon(a, scoped), Policy(None, [['A', c]], Default), Policy(None, [['a', c]], Default);
      var e := Effective(Some(p), q, false, canon);
      && Canonicalize(p.denies, canon) == Some([['a', c]]) && Canonicalize(q.denies, canon) == Some([['a', '_', c]])
      && ['a', c] != ['a', '_', c] && e.Some? && Means(e.value, canon) == Means(q, canon)
  {
    hide ToolRules.Canonical, Lawful, Size, Canonicalize, Denied;
    var canon, s, t, u := DenyCanon(a, scoped), ['A', c], ['a', c], ['a', '_', c];
    var p, q := Policy(None, [s], Default), Policy(None, [t], Default);
    CapitalUnsettles(a, c, scoped);
    DenyCanonSettles(a, scoped);
    SizeAtMost(t);
    SizeAtMost(u);
    OneCollected(s, t, canon);
    OneCollected(t, u, canon);
    CanonicalSettles(s, a, scoped);
    TwoCollected(t, u, canon);
    EffectiveIsMeet(p, q, canon);
    DeniedOne(s, canon);
    DeniedOne(t, canon);
  }

  lemma {:induction false} SizeAtMost(s: string)
    ensures Size(s) <= 4 * |s|
  {
    if s != "" { SizeAtMost(s[1..]); }
  }

  lemma DeniedOne(s: string, canon: string -> Canon)
    requires canon(s).Rule?
    ensures Denied([s], canon) == {Final(s, canon)}
  {
    assert [s][0] == s;
  }

  lemma TwoCollected(t: string, u: string, canon: string -> Canon)
    requires canon(t) == Rule(u) && canon(u) == Rule(u) && Size(u) <= MAX_BYTES
    ensures Canonicalize([t] + [u], canon) == Some([u])
  {
    hide Size;
    assert ([t] + [u])[1..] == [u] && [u][1..] == [];
    assert [] + [u] == [u];
    assert u in [u];
    assert Collect([u], canon, [u]) == Collect([], canon, [u]);
  }

  // ----- a chain of starts -----

  // Without a reset the saved policy, whatever it was, only ever descends, below every request that
  // was accepted.
  lemma {:induction false} Descends(saved: Policy, ls: seq<Launch>, canon: string -> Canon)
    requires Settling(canon) && forall i :: 0 <= i < |ls| ==> !ls[i].reset
    ensures SavedAfter(Some(saved), ls, canon).Some?
    ensures AtMost(Means(SavedAfter(Some(saved), ls, canon).value, canon), Means(saved, canon))
    ensures ls != [] && Started(Some(saved), ls[0], canon).Some? ==>
              AtMost(Means(SavedAfter(Some(saved), ls, canon).value, canon), Means(ls[0].asked, canon))
    decreases |ls|
  {
    hide Meet, AtMost, Means, Started, Settling;
    var m := Means(saved, canon);
    MeetLaws(m, m, m);
    if ls != [] {
      assert forall i :: 0 <= i < |ls[1..]| ==> !ls[1..][i].reset;
      var e := Started(Some(saved), ls[0], canon);
      var next := if e.Some? then e.value else saved;
      Descends(next, ls[1..], canon);
      if e.Some? {
        StartedIsMeet(saved, ls[0], canon);
        var r := Means(ls[0].asked, canon);
        MeetLaws(m, r, r);
        var last := Means(SavedAfter(Some(saved), ls, canon).value, canon);
        MeetLaws(last, Meet(m, r), m);
        MeetLaws(last, Meet(m, r), r);
      }
    }
  }

  // A start that is accepted saves the meet of the saved policy and what its flags mean.
  lemma StartedIsMeet(saved: Policy, l: Launch, canon: string -> Canon)
    requires Settling(canon) && !l.reset && Started(Some(saved), l, canon).Some?
    ensures Means(Started(Some(saved), l, canon).value, canon) == Meet(Means(saved, canon), Means(l.asked, canon))
  {
    hide Effective, Meet, Settling, Canonicalize, Denied;
    CanonicalMeans(l.asked.denies, canon);
    EffectiveIsMeet(saved, l.asked.(denies := Canonicalize(l.asked.denies, canon).value), canon);
  }

  // The first one, or one with a reset, saves what its flags mean.
  lemma StartedAfresh(saved: Option<Policy>, l: Launch, canon: string -> Canon)
    requires Settling(canon) && (saved.None? || l.reset) && Started(saved, l, canon).Some?
    ensures Means(Started(saved, l, canon).value, canon) == Means(l.asked, canon)
  {
    hide Effective, Settling, Canonicalize, Denied;
    CanonicalMeans(l.asked.denies, canon);
    FreshMeans(saved, l.asked.(denies := Canonicalize(l.asked.denies, canon).value), l.reset, canon);
  }

  function Again(l: Option<seq<string>>, canon: string -> Canon): Option<seq<string>> {
    if l.None? then None else Canonicalize(l.value, canon)
  }

  // When the program starts afresh: all tools named are known, the mode too, and the rules can be made
  // canonical three times over, which after the second changes nothing.
  lemma FreshStarts(saved: Option<Policy>, l: Launch, canon: string -> Canon)
    requires saved.None? || l.reset
    ensures Started(saved, l, canon).Some? <==>
              && l.known && !l.asked.mode.Unknown?
              && Again(Again(Canonicalize(l.asked.denies, canon), canon), canon).Some?
    ensures Started(saved, l, canon).Some? ==>
              Started(saved, l, canon).value.(denies := l.asked.denies) == l.asked
  {
    hide Canonicalize;
  }

  // What is saved after a sequence of starts: each one accepted is met with what was saved, and the
  // first one and each with a reset begin anew.
  function Folded(saved: Option<Policy>, m: Option<Meaning>, ls: seq<Launch>, canon: string -> Canon): Option<Meaning>
    decreases |ls|
  {
    if ls == [] then m
    else
      var l := ls[0];
      var accepted := Started(saved, l, canon).Some? && (m.Some? || l.flags || l.reset);
      var asked := Means(l.asked, canon);
      Folded(SavedBy(saved, l, canon),
             if !accepted then m else if m.None? || l.reset then Some(asked) else Some(Meet(m.value, asked)),
             ls[1..], canon)
  }

  // Over any sequence of starts, with resets and refusals, the saved policy means exactly that.
  lemma {:induction false} SavedMeans(saved: Option<Policy>, ls: seq<Launch>, canon: string -> Canon)
    requires Settling(canon)
    ensures var q := SavedAfter(saved, ls, canon);
      Folded(saved, if saved.None? then None else Some(Means(saved.value, canon)), ls, canon)
        == if q.None? then None else Some(Means(q.value, canon))
    decreases |ls|
  {
    hide Started, Means, Meet, Settling;
    if ls != [] {
      if Started(saved, ls[0], canon).Some? {
        if saved.None? || ls[0].reset { StartedAfresh(saved, ls[0], canon); } else { StartedIsMeet(saved.value, ls[0], canon); }
      }
      SavedMeans(SavedBy(saved, ls[0], canon), ls[1..], canon);
    }
  }

  // ----- the function itself -----

  // CanonicalizeTemporaryToolDenies
  method CanonicalizeDenies(raw: seq<string>, canon: string -> Canon) returns (r: Option<seq<string>>)
    ensures r == Canonicalize(raw, canon)
  {
    if |raw| > MAX_RULES { return None; }
    var result: seq<string> := [];
    var total := 0;
    assert raw[0..] == raw;
    for i := 0 to |raw|
      invariant total == Bytes(result) && Collect(raw[i..], canon, result) == Collect(raw, canon, [])
    {
      assert raw[i..][1..] == raw[i + 1..];
      match canon(raw[i]) {
        case Bad => return None;
        case Blank =>
        case Rule(text) =>
          if text !in result {
            BytesOne(result, text);
            total := total + Size(text);
            if total > MAX_BYTES { return None; }
            result := result + [text];
          }
      }
    }
    r := Some(result);
  }

  method Intersect(names: seq<string>, stored: seq<string>) returns (r: seq<string>, narrowed: bool)
    ensures r == Intersected(names, stored) && (narrowed <==> r != names)
  {
    r, narrowed := [], false;
    for i := 0 to |names|
      invariant r == Intersected(names[..i], stored)
      invariant narrowed <==> exists j :: 0 <= j < i && names[j] !in stored
    {
      assert names[..i + 1][..i] == names[..i];
      if names[i] in stored {
        r := r + [names[i]];
      } else {
        narrowed := true;
      }
    }
    assert names[..|names|] == names;
    IntersectedElements(names, stored);
  }

  // effectiveSessionRunPolicy: the policy, and whether it is narrower than the request.
  method EffectiveSessionRunPolicy(stored: Option<Policy>, requested: Policy, reset: bool, canon: string -> Canon)
    returns (r: Option<Policy>, narrowed: bool)
    ensures r == Effective(stored, requested, reset, canon)
    ensures r.None? || stored.None? || reset ==> !narrowed
    ensures Settling(canon) && r.Some? && (stored.None? || reset) ==> Means(r.value, canon) == Means(requested, canon)
    // Told whenever the policy means something else than the request, and only then if the canonical
    // rules of both lists have settled.
    ensures Settling(canon) && r.Some? && stored.Some? && !reset ==>
              var a, b := Canonicalize(stored.value.denies, canon), Canonicalize(requested.denies, canon);
              && a.Some? && b.Some?
              && (Means(r.value, canon) != Means(requested, canon) ==> narrowed)
              && (Listed(a.value, canon) && Listed(b.value, canon) ==> (narrowed <==> Means(r.value, canon) != Means(requested, canon)))
  {
    narrowed := false;
    var denies := CanonicalizeDenies(requested.denies, canon);
    if denies.None? || Authority(requested.mode).None? { return None, false; }
    var effective := requested.(denies := denies.value);
    if stored.None? || reset {
      FreshMeans(stored, requested, reset, canon);
      return Some(effective), false;
    }
    if Authority(stored.value.mode).None? { return None, false; }
    var cut := false;
    if stored.value.ceiling.Some? {
      if effective.ceiling.None? {
        effective, cut := effective.(ceiling := stored.value.ceiling), true;
      } else {
        var names: seq<string>;
        names, cut := Intersect(effective.ceiling.value, stored.value.ceiling.value);
        effective := effective.(ceiling := Some(names));
      }
    }
    var saved := CanonicalizeDenies(stored.value.denies, canon);
    if saved.None? { return None, false; }
    var added := AnyNew(saved.value, denies.value);
    var all := CanonicalizeDenies(saved.value + denies.value, canon);
    if all.None? { return None, false; }
    var mode := LesserMode(stored.value.mode, requested.mode);
    effective := effective.(denies := all.value, mode := mode);
    narrowed := cut || added || mode != requested.mode;
    r := Some(effective);
    NarrowedMeans(stored.value, requested, canon, cut, added, saved.value, denies.value);
  }

  method AnyNew(saved: seq<string>, asked: seq<string>) returns (added: bool)
    ensures added <==> exists i :: 0 <= i < |saved| && saved[i] !in asked
  {
    added := false;
    for i := 0 to |saved|
      invariant added <==> exists j :: 0 <= j < i && saved[j] !in asked
    {
      if saved[i] !in asked { added := true; }
    }
  }

  lemma NarrowedMeans(stored: Policy, requested: Policy, canon: string -> Canon, cut: bool, added: bool, saved: seq<string>, asked: seq<string>)
    requires Effective(Some(stored), requested, false, canon).Some?
    requires Canonicalize(stored.denies, canon) == Some(saved) && Canonicalize(requested.denies, canon) == Some(asked)
    requires cut <==> MetCeiling(stored.ceiling, requested.ceiling) != requested.ceiling
    requires added <==> exists i :: 0 <= i < |saved| && saved[i] !in asked
    ensures var e := Effective(Some(stored), requested, false, canon).value;
      var narrowed := cut || added || e.mode != requested.mode;
      Settling(canon) ==>
        && (Means(e, canon) != Means(requested, canon) ==> narrowed)
        && (Listed(saved, canon) && Listed(asked, canon) ==> (narrowed <==> Means(e, canon) != Means(requested, canon)))
  {
    hide Effective, Canonicalize, Denied, Listed, Settling;
    if Settling(canon) {
      EffectiveIsMeet(stored, requested, canon);
      EffectiveMode(stored, requested, canon);
      if stored.ceiling.Some? && requested.ceiling.Some? { CutMeans(requested.ceiling.value, stored.ceiling.value); }
      AddedMeans(saved, asked);
      CanonicalMeans(stored.denies, canon);
      CanonicalMeans(requested.denies, canon);
      if Elements(saved) <= Elements(asked) { DeniedBy(saved, asked, canon); }
      if Listed(saved, canon) && Listed(asked, canon) {
        ListedMeans(saved, canon);
        ListedMeans(asked, canon);
      }
    }
  }

  lemma EffectiveMode(stored: Policy, requested: Policy, canon: string -> Canon)
    requires Effective(Some(stored), requested, false, canon).Some?
    ensures Effective(Some(stored), requested, false, canon).value.ceiling == MetCeiling(stored.ceiling, requested.ceiling)
  {
    hide Canonicalize;
  }

  lemma CutMeans(names: seq<string>, known: seq<string>)
    ensures Intersected(names, known) != names <==> Elements(known) * Elements(names) != Elements(names)
  {
    IntersectedElements(names, known);
    assert Elements(known) * Elements(names) == Elements(names) * Elements(known);
    if Elements(known) * Elements(names) == Elements(names) {
      forall i | 0 <= i < |names|
        ensures names[i] in known
      {
        assert names[i] in Elements(names);
        assert names[i] in Elements(known);
      }
    }
  }

  lemma AddedMeans(saved: seq<string>, asked: seq<string>)
    ensures (exists i :: 0 <= i < |saved| && saved[i] !in asked) <==> Elements(saved) + Elements(asked) != Elements(asked)
  {
    if i :| 0 <= i < |saved| && saved[i] !in asked {
      assert saved[i] in Elements(saved);
    } else {
      forall x | x in Elements(saved)
        ensures x in Elements(asked)
      {
        var i :| 0 <= i < |saved| && saved[i] == x;
        var j :| 0 <= j < |asked| && asked[j] == x;
      }
      assert Elements(saved) + Elements(asked) == Elements(asked);
    }
  }
}
