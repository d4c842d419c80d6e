// The session's cache of error fixes (internal/agent/fix_cache.go).

module FixCaches {
  import opened Wrappers

  datatype Signature = Signature(category: string, tool: string, tokens: seq<string>)

  datatype Call = Call(tool: string, args: string)

  datatype Fix = Fix(signature: Signature, message: string, calls: seq<Call>, hits: nat, successes: nat, failures: nat) {
    function Use(): nat { hits + successes }
  }

  datatype Pending = Pending(signature: Signature, message: string, buffer: seq<Call>)

  const MAX_PENDING := 10
  const MAX_FIXES := 50
  const WINDOW := 3

  function Joined(tokens: seq<string>): string {
    if tokens == [] then "" else if |tokens| == 1 then tokens[0] else tokens[0] + "," + Joined(tokens[1..])
  }

  function Key(s: Signature): (k: string)
    ensures k != ""
  {
    s.category + ":" + s.tool + ":" + Joined(s.tokens)
  }

  // A key tells category and tool apart wherever neither has a colon in it.
  lemma KeyTells(s: Signature, t: Signature)
    requires ':' !in s.category && ':' !in t.category && ':' !in s.tool && ':' !in t.tool && Key(s) == Key(t)
    ensures s.category == t.category && s.tool == t.tool && Joined(s.tokens) == Joined(t.tokens)
  {
    hide Joined;
    var x, y := s.tool + ":" + Joined(s.tokens), t.tool + ":" + Joined(t.tokens);
    assert Key(s) == s.category + ":" + x && Key(t) == t.category + ":" + y;
    SplitAtColon(s.category, x, t.category, y);
    SplitAtColon(s.tool, Joined(s.tokens), t.tool, Joined(t.tokens));
  }

  lemma SplitAtColon(a: string, x: string, b: string, y: string)
    requires ':' !in a && ':' !in b && a + ":" + x == b + ":" + y
    ensures a == b && x == y
  {
    var k := a + ":" + x;
    assert forall i :: 0 <= i < |a| ==> k[i] == a[i] && a[i] in a;
    assert forall i :: 0 <= i < |b| ==> k[i] == b[i] && b[i] in b;
    assert k[|a|] == ':' == k[|b|];
    assert |a| == |b|;
    assert a == k[..|a|] && b == k[..|b|] && x == k[|a| + 1..] && y == k[|b| + 1..];
  }

  // ----- similarity -----

  function Jaccard(a: seq<string>, b: seq<string>): real {
    if a == [] && b == [] then 1.0
    else if a == [] || b == [] then 0.0
    else
      assert a[0] in Elements(a);
      assert Elements(a) + Elements(b) != {};
      |Elements(a) * Elements(b)| as real / |Elements(a) + Elements(b)| as real
  }

  lemma UnionSize(a: set<string>, b: set<string>)
    ensures |a + b| == |a| + |b - a| && |a * b| <= |a| <= |a + b|
    ensures |a * b| == |a + b| <==> a == b
  {
    assert a + b == a + (b - a) && a !! (b - a);
    assert a == (a * b) + (a - b) && (a * b) !! (a - b);
    assert |a| == |a * b| + |a - b|;
    if |a * b| == |a + b| {
      assert a - b == {} && b - a == {};
      assert a == b;
    }
    if a == b { assert a * b == a + b; }
  }

  // The similarity is symmetric, lies in [0, 1], and is 1 exactly for equal token sets.
  lemma JaccardIsSimilarity(a: seq<string>, b: seq<string>)
    ensures Jaccard(a, b) == Jaccard(b, a) && 0.0 <= Jaccard(a, b) <= 1.0
    ensures Jaccard(a, b) == 1.0 <==> Elements(a) == Elements(b)
  {
    var x, y := Elements(a), Elements(b);
    UnionSize(x, y);
    assert x * y == y * x && x + y == y + x;
    if a != [] && b != [] {
      assert a[0] in x && b[0] in y;
      var n, d := |x * y| as real, |x + y| as real;
      assert |x + y| > 0 by { assert x + y != {}; }
      Ratio(n, d);
    } else if a != [] {
      assert a[0] in x;
    } else if b != [] {
      assert b[0] in y;
    }
  }

  lemma Ratio(n: real, d: real)
    requires 0.0 <= n <= d && d > 0.0
    ensures 0.0 <= n / d <= 1.0 && (n / d == 1.0 <==> n == d)
  {
  }

  lemma ElementsNext(ts: seq<string>, i: nat)
    requires i < |ts|
    ensures Elements(ts[..i + 1]) == Elements(ts[..i]) + {ts[i]}
  {
    assert forall j :: 0 <= j < i ==> ts[..i + 1][j] == ts[..i][j];
    assert ts[..i + 1][i] == ts[i];
    forall x | x in Elements(ts[..i])
      ensures x in Elements(ts[..i + 1])
    {
      var j :| 0 <= j < i && ts[..i][j] == x;
      assert ts[..i + 1][j] == x;
    }
  }

  method TokenSet(ts: seq<string>) returns (s: set<string>)
    ensures s == Elements(ts)
  {
    s := {};
    for i := 0 to |ts|
      invariant s == Elements(ts[..i])
    {
      ElementsNext(ts, i);
      s := s + {ts[i]};
    }
    assert ts[..|ts|] == ts;
  }

  // How many elements of s are in t, and how many are not.
  method CountIn(s: set<string>, t: set<string>) returns (within: nat, outside: nat)
    ensures within == |s * t| && outside == |s - t|
  {
    within, outside := 0, 0;
    var left := s;
    while left != {}
      invariant within + |left * t| == |s * t| && outside + |left - t| == |s - t|
      decreases left
    {
      var x :| x in left;
      OneOut(left, t, x);
      left := left - {x};
      if x in t { within := within + 1; } else { outside := outside + 1; }
    }
  }

  lemma OneOut(s: set<string>, t: set<string>, x: string)
    requires x in s
    ensures |s * t| == |(s - {x}) * t| + if x in t then 1 else 0
    ensures |s - t| == |(s - {x}) - t| + if x in t then 0 else 1
  {
    assert (s - {x}) * t == (s * t) - {x};
    assert (s - {x}) - t == (s - t) - {x};
  }

  // jaccardSimilarity
  method JaccardSimilarity(a: seq<string>, b: seq<string>) returns (r: real)
    ensures r == Jaccard(a, b)
  {
    if |a| == 0 && |b| == 0 { return 1.0; }
    if |a| == 0 || |b| == 0 { return 0.0; }
    var setA := TokenSet(a);
    var setB := TokenSet(b);
    var intersection, _ := CountIn(setA, setB);
    var _, more := CountIn(setB, setA);
    UnionSize(setA, setB);
    assert a[0] in setA;
    r := intersection as real / (|setA| + more) as real;
  }

  // What Lookup and RecordError take for the same error.
  predicate Matches(s: Signature, f: Fix) {
    f.signature.category == s.category && Jaccard(s.tokens, f.signature.tokens) >= 0.5
  }

  // A cached fix is the window of successes that followed its error.
  ghost predicate FixOk(k: string, f: Fix, mark: nat, successes: seq<Call>) {
    k == Key(f.signature) && mark + WINDOW <= |successes| && f.calls == successes[mark..mark + WINDOW]
  }

  // A pending error's buffer is exactly the successes recorded since it, fewer than the window.
  ghost predicate Heard(p: Pending, mark: nat, successes: seq<Call>) {
    mark <= |successes| < mark + WINDOW && p.buffer == successes[mark..]
  }

  function Fresh(p: Pending): Fix { Fix(p.signature, p.message, p.buffer, 0, 0, 0) }

  ghost predicate LeastUsed(fixes: map<string, Fix>, w: string) {
    w in fixes && forall k :: k in fixes ==> fixes[w].Use() <= fixes[k].Use()
  }

  // One graduation: the window becomes the calls of the error's cached fix; a new fix takes the place
  // of one of the least used when the cache is full.
  ghost predicate Graduated(before: map<string, Fix>, p: Pending, after: map<string, Fix>) {
    var key := Key(p.signature);
    if key in before then after == before[key := before[key].(calls := p.buffer)]
    else if |before| < MAX_FIXES then after == before[key := Fresh(p)]
    else exists w :: LeastUsed(before, w) && after == (before - {w})[key := Fresh(p)]
  }

  // Graduations one after another.
  ghost predicate Graduations(before: map<string, Fix>, ps: seq<Pending>, after: map<string, Fix>)
    decreases |ps|, 0
  {
    if ps == [] then after == before else GraduationLast(before, ps[..|ps| - 1], ps[|ps| - 1], after)
  }

  ghost predicate GraduationLast(before: map<string, Fix>, ps: seq<Pending>, p: Pending, after: map<string, Fix>)
    decreases |ps|, 1
  {
    exists mid :: Graduations(before, ps, mid) && Graduated(mid, p, after)
  }

  lemma GraduationsNext(before: map<string, Fix>, ps: seq<Pending>, mid: map<string, Fix>, p: Pending, after: map<string, Fix>)
    requires Graduations(before, ps, mid) && Graduated(mid, p, after)
    ensures Graduations(before, ps + [p], after)
  {
    assert (ps + [p])[..|ps|] == ps;
  }

  // One matching fix, whichever, is charged with the error's return.
  ghost predicate Blamed(before: map<string, Fix>, s: Signature, after: map<string, Fix>) {
    if forall k :: k in before ==> !Matches(s, before[k]) then after == before
    else exists k :: k in before && Matches(s, before[k])
                     && after == before[k := before[k].(failures := before[k].failures + 1)]
  }

  class FixCache {
    var fixes: map<string, Fix>
    var pending: seq<Pending>
    // Histories: every success recorded, how many there were when each pending error was recorded,
    // and when each cached fix's error was.
    ghost var successes: seq<Call>
    ghost var marks: seq<nat>
    ghost var born: map<string, nat>

    // Older errors come first.
    ghost predicate PendingOk()
      reads this`pending, this`marks, this`successes
    {
      && |marks| == |pending| <= MAX_PENDING
      && (forall i :: 0 <= i < |pending| ==> Heard(pending[i], marks[i], successes))
      && (forall i, j :: 0 <= i < j < |marks| ==> marks[i] <= marks[j])
    }

    ghost predicate FixesOk()
      reads this`fixes, this`born, this`successes
    {
      && |fixes| <= MAX_FIXES && born.Keys == fixes.Keys
      && (forall k :: k in fixes ==> FixOk(k, fixes[k], born[k], successes))
    }

    ghost predicate Valid()
      reads this`pending, this`marks, this`fixes, this`born, this`successes
    {
      PendingOk() && FixesOk()
    }

    constructor ()
      ensures Valid() && fixes == map[] && pending == [] && successes == []
    {
      fixes, pending := map[], [];
      successes, marks, born := [], [], map[];
    }

    // Lookup: the most similar fix of the same category, if one is similar enough.
    method Lookup(s: Signature) returns (key: Option<string>)
      ensures key.Some? ==> key.value in fixes && Matches(s, fixes[key.value]) && s.category != ""
      ensures key.Some? ==> forall k :: k in fixes && Matches(s, fixes[k]) ==>
                Jaccard(s.tokens, fixes[k].signature.tokens) <= Jaccard(s.tokens, fixes[key.value].signature.tokens)
      ensures key.None? ==> s.category == "" || forall k :: k in fixes ==> !Matches(s, fixes[k])
      // That is, of its own category and at least half alike; none only when no such fix is cached.
      ensures key.Some? ==> fixes[key.value].signature.category == s.category && Jaccard(s.tokens, fixes[key.value].signature.tokens) >= 0.5
      ensures key.None? && s.category != "" ==>
                forall k :: k in fixes && fixes[k].signature.category == s.category ==> Jaccard(s.tokens, fixes[k].signature.tokens) < 0.5
    {
      hide Jaccard;
      key := None;
      if s.category == "" { return; }
      var best := 0.0;
      var left := fixes.Keys;
      while left != {}
        invariant left <= fixes.Keys && best >= 0.0
        invariant key.None? ==> best == 0.0 && forall k :: k in fixes && k !in left ==> !Matches(s, fixes[k])
        invariant key.Some? ==> key.value in fixes && Matches(s, fixes[key.value]) && best == Jaccard(s.tokens, fixes[key.value].signature.tokens)
        invariant forall k :: k in fixes && k !in left && Matches(s, fixes[k]) ==> Jaccard(s.tokens, fixes[k].signature.tokens) <= best
        decreases left
      {
        var k :| k in left;
        left := left - {k};
        if fixes[k].signature.category == s.category {
          var score := JaccardSimilarity(s.tokens, fixes[k].signature.tokens);
          if score >= 0.5 && score > best { key, best := Some(k), score; }
        }
      }
    }

    // The blame that RecordError puts on one matching fix, whichever comes first.
    method Blame(s: Signature)
      requires Valid()
      modifies this`fixes, this`born
      ensures Valid() && fixes.Keys == old(fixes).Keys
      ensures Blamed(old(fixes), s, fixes)
    {
      hide PendingOk, FixesOk, Jaccard;
      var left := fixes.Keys;
      while left != {}
        invariant left <= fixes.Keys && fixes == old(fixes) && Valid()
        invariant forall k :: k in fixes && k !in left ==> !Matches(s, fixes[k])
        decreases left
      {
        var k :| k in left;
        left := left - {k};
        var score := JaccardSimilarity(s.tokens, fixes[k].signature.tokens);
        if fixes[k].signature.category == s.category && score >= 0.5 {
          Fail(k);
          return;
        }
      }
    }

    method Fail(k: string)
      requires FixesOk() && k in fixes
      modifies this`fixes, this`born
      ensures FixesOk() && fixes == old(fixes)[k := old(fixes)[k].(failures := old(fixes)[k].failures + 1)]
      ensures fixes.Keys == old(fixes).Keys
    {
      var f := fixes[k].(failures := fixes[k].failures + 1);
      assert FixOk(k, f, born[k], successes) by { assert FixOk(k, fixes[k], born[k], successes); }
      hide FixOk;
      Put(k, f, born[k]);
    }

    // RecordError: a new pending error, the oldest making room.
    method RecordError(s: Signature, message: string)
      requires Valid()
      modifies this
      ensures Valid() && successes == old(successes)
      ensures s.category == "" ==> pending == old(pending) && fixes == old(fixes)
      ensures s.category != "" ==>
                && Blamed(old(fixes), s, fixes)
                && pending == (if |old(pending)| >= MAX_PENDING then old(pending)[1..] else old(pending)) + [Pending(s, message, [])]
                && marks == (if |old(pending)| >= MAX_PENDING then old(marks)[1..] else old(marks)) + [|successes|]
    {
      hide FixesOk;
      if s.category == "" { return; }
      Blame(s);
      Push(Pending(s, message, []));
    }

    method Push(p: Pending)
      requires PendingOk() && p.buffer == []
      modifies this`pending, this`marks
      ensures PendingOk()
      ensures pending == (if |old(pending)| >= MAX_PENDING then old(pending)[1..] else old(pending)) + [p]
      ensures marks == (if |old(pending)| >= MAX_PENDING then old(marks)[1..] else old(marks)) + [|successes|]
    {
      if |pending| >= MAX_PENDING { pending, marks := pending[1..], marks[1..]; }
      pending := pending + [p];
      marks := marks + [|successes|];
    }

    // evictLeastUsed
    method EvictLeastUsed() returns (worst: string)
      requires FixesOk() && fixes != map[]
      modifies this`fixes, this`born
      ensures FixesOk() && LeastUsed(old(fixes), worst) && fixes == old(fixes) - {worst} && |fixes| == |old(fixes)| - 1
    {
      hide FixOk;
      var left := fixes.Keys;
      worst :| worst in left;
      left := left - {worst};
      while left != {}
        invariant left <= fixes.Keys && worst in fixes
        invariant forall j :: j in fixes && j !in left ==> fixes[worst].Use() <= fixes[j].Use()
        decreases left
      {
        var k :| k in left;
        left := left - {k};
        if fixes[k].Use() < fixes[worst].Use() { worst := k; }
      }
      Shrinks(fixes, worst);
      fixes := fixes - {worst};
      born := born - {worst};
    }

    lemma Shrinks(m: map<string, Fix>, k: string)
      requires k in m
      ensures |m - {k}| == |m| - 1
    {
      assert (m - {k}).Keys == m.Keys - {k};
      assert |(m - {k}).Keys| == |m - {k}| && |m.Keys| == |m|;
    }

    // graduateFix: the buffer becomes the cached fix of its error.
    method Graduate(p: Pending, ghost mark: nat)
      requires FixesOk() && mark + WINDOW <= |successes| && p.buffer == successes[mark..mark + WINDOW]
      modifies this`fixes, this`born
      ensures FixesOk() && Graduated(old(fixes), p, fixes)
      // A known fix takes the new calls and keeps its counts, and a new one starts with none; at most one
      // other fix makes room for it.
      ensures Key(p.signature) in fixes && fixes[Key(p.signature)].calls == p.buffer && |fixes| <= 50
      ensures if Key(p.signature) in old(fixes) then fixes[Key(p.signature)] == old(fixes)[Key(p.signature)].(calls := p.buffer)
              else fixes[Key(p.signature)] == Fix(p.signature, p.message, p.buffer, 0, 0, 0)
      ensures forall k :: k in fixes && k != Key(p.signature) ==> k in old(fixes) && fixes[k] == old(fixes)[k]
      ensures |fixes| >= |old(fixes)|
    {
      hide FixOk, Key, LeastUsed;
      var key := Key(p.signature);
      var f := Fresh(p);
      NewFixOk(p, mark, key);
      if key in fixes {
        f := fixes[key].(calls := p.buffer);
      } else if |fixes| >= MAX_FIXES {
        var evicted := EvictLeastUsed();
      }
      Put(key, f, mark);
    }

    method Put(key: string, f: Fix, ghost mark: nat)
      requires FixesOk() && FixOk(key, f, mark, successes) && (key in fixes || |fixes| < MAX_FIXES)
      modifies this`fixes, this`born
      ensures FixesOk() && fixes == old(fixes)[key := f]
    {
      hide FixOk;
      Resized(fixes, key, f);
      fixes := fixes[key := f];
      born := born[key := mark];
    }

    lemma NewFixOk(p: Pending, mark: nat, key: string)
      requires FixesOk() && key == Key(p.signature)
      requires mark + WINDOW <= |successes| && p.buffer == successes[mark..mark + WINDOW]
      ensures FixOk(key, Fresh(p), mark, successes)
      ensures key in fixes ==> FixOk(key, fixes[key].(calls := p.buffer), mark, successes)
    {
    }

    lemma Resized(m: map<string, Fix>, k: string, f: Fix)
      ensures |m[k := f]| == if k in m then |m| else |m| + 1
    {
      assert m[k := f].Keys == m.Keys + {k};
      assert |m[k := f].Keys| == |m[k := f]| && |m.Keys| == |m|;
    }

    // A pending error with one more success in its buffer.
    function Fed(p: Pending, c: Call): Pending { p.(buffer := p.buffer + [c]) }

    function FedAll(ps: seq<Pending>, c: Call): seq<Pending> { seq(|ps|, i requires 0 <= i < |ps| => Fed(ps[i], c)) }

    // The first loop of RecordSuccess: every buffer grows, and those that fill up graduate. They are
    // the oldest ones.
    method FeedAll(c: Call) returns (graduated: seq<nat>)
      requires PendingOk() && FixesOk()
      modifies this`pending, this`successes, this`fixes, this`born
      ensures FixesOk() && successes == old(successes) + [c] && pending == FedAll(old(pending), c)
      ensures |marks| == |pending| && Oldest(graduated, marks, |successes|, |pending|)
      ensures |graduated| <= |pending| && Graduations(old(fixes), pending[..|graduated|], fixes)
    {
      graduated := [];
      ghost var ps := pending;
      ghost var before := successes;
      Heards(c);
      FedNone(ps, c);
      OldestNone(marks, |before| + 1);
      hide FixesOk, PendingOk, Hears, Fed, FedAll, Oldest, Ascending, Graduated, Graduations;
      GrowSuccesses(c);
      for i := 0 to |pending|
        invariant FixesOk() && |pending| == |ps| && successes == before + [c]
        invariant pending == FedAll(ps[..i], c) + ps[i..]
        invariant Oldest(graduated, marks, |successes|, i) && |graduated| <= i
        invariant Graduations(old(fixes), FedAll(ps[..|graduated|], c), fixes)
      {
        assert Hears(ps[i], marks[i], before + [c], c);
        graduated := FeedAt(i, c, graduated, ps, old(fixes));
      }
      FedTake(ps, c, |graduated|);
    }

    method FeedAt(i: nat, c: Call, sofar: seq<nat>, ghost ps: seq<Pending>, ghost before: map<string, Fix>)
      returns (graduated: seq<nat>)
      requires FixesOk() && i < |pending| == |ps| == |marks| && pending == FedAll(ps[..i], c) + ps[i..]
      requires Ascending(marks) && Hears(ps[i], marks[i], successes, c)
      requires Oldest(sofar, marks, |successes|, i) && |sofar| <= i && Graduations(before, FedAll(ps[..|sofar|], c), fixes)
      modifies this`pending, this`fixes, this`born
      ensures FixesOk() && |pending| == |ps| && pending == FedAll(ps[..i + 1], c) + ps[i + 1..]
      ensures Oldest(graduated, marks, |successes|, i + 1) && |graduated| <= i + 1
      ensures Graduations(before, FedAll(ps[..|graduated|], c), fixes)
    {
      hide FixesOk, Hears, Fed, FedAll, Oldest, Ascending, Graduated, Graduations;
      FedStep(ps, c, i);
      OldestNext(sofar, marks, |successes|, i);
      ghost var mid := fixes;
      var full := Feed(i, c);
      graduated := if full then sofar + [i] else sofar;
      if full { GraduationsNext(before, FedAll(ps[..i], c), mid, Fed(ps[i], c), fixes); }
    }

    lemma FedTake(ps: seq<Pending>, c: Call, n: nat)
      requires n <= |ps|
      ensures FedAll(ps[..n], c) == FedAll(ps, c)[..n]
    {
    }

    // The graduates are the first ones, those of the first i whose window is full.
    ghost predicate Oldest(graduated: seq<nat>, ms: seq<nat>, n: nat, i: nat) {
      && |graduated| <= i <= |ms| && (forall j :: 0 <= j < |graduated| ==> graduated[j] == j)
      && forall j :: 0 <= j < i ==> (ms[j] + WINDOW <= n <==> j < |graduated|)
    }

    ghost predicate Ascending(ms: seq<nat>) {
      forall i, j :: 0 <= i < j < |ms| ==> ms[i] <= ms[j]
    }

    lemma OldestNext(graduated: seq<nat>, ms: seq<nat>, n: nat, i: nat)
      requires Oldest(graduated, ms, n, i) && i < |ms| && Ascending(ms)
      ensures Oldest(if ms[i] + WINDOW <= n then graduated + [i] else graduated, ms, n, i + 1)
      ensures ms[i] + WINDOW <= n ==> |graduated| == i
    {
      assert i > 0 ==> ms[i - 1] <= ms[i];
    }

    lemma OldestNone(ms: seq<nat>, n: nat)
      ensures Oldest([], ms, n, 0)
    {
    }

    lemma FedNone(ps: seq<Pending>, c: Call)
      ensures FedAll(ps[..0], c) + ps[0..] == ps && FedAll(ps[..|ps|], c) + ps[|ps|..] == FedAll(ps, c)
      ensures FedAll(ps[..0], c) == [] && forall m: map<string, Fix> :: Graduations(m, [], m)
    {
      assert ps[..|ps|] == ps;
    }

    lemma FedStep(ps: seq<Pending>, c: Call, i: nat)
      requires i < |ps|
      ensures var mid := FedAll(ps[..i], c) + ps[i..];
        && |mid| == |ps| && mid[i] == ps[i] && mid[i := Fed(ps[i], c)] == FedAll(ps[..i + 1], c) + ps[i + 1..]
        && FedAll(ps[..i + 1], c) == FedAll(ps[..i], c) + [Fed(ps[i], c)]
    {
    }

    method Feed(i: nat, c: Call) returns (full: bool)
      requires FixesOk() && i < |pending| && |marks| == |pending| && Hears(pending[i], marks[i], successes, c)
      modifies this`pending, this`fixes, this`born
      ensures FixesOk() && pending == old(pending)[i := Fed(old(pending)[i], c)]
      ensures full <==> marks[i] + WINDOW <= |successes|
      ensures if full then Graduated(old(fixes), pending[i], fixes) else fixes == old(fixes)
    {
      hide FixesOk, Graduated;
      pending := pending[i := Fed(pending[i], c)];
      full := |pending[i].buffer| >= WINDOW;
      if full {
        assert successes[marks[i]..] == successes[marks[i]..marks[i] + WINDOW];
        Graduate(pending[i], marks[i]);
      }
    }

    // What every buffer will hold after one more success.
    ghost predicate Hears(p: Pending, mark: nat, heard: seq<Call>, c: Call) {
      mark < |heard| <= mark + WINDOW && Fed(p, c).buffer == heard[mark..]
    }

    lemma Heards(c: Call)
      requires PendingOk()
      ensures |marks| == |pending| && Ascending(marks)
      ensures forall i :: 0 <= i < |pending| ==> Hears(pending[i], marks[i], successes + [c], c)
    {
      forall i | 0 <= i < |pending|
        ensures Hears(pending[i], marks[i], successes + [c], c)
      {
        assert Heard(pending[i], marks[i], successes);
      }
    }

    method GrowSuccesses(c: Call)
      requires FixesOk()
      modifies this`successes
      ensures FixesOk() && successes == old(successes) + [c]
    {
      forall k | k in fixes
        ensures FixOk(k, fixes[k], born[k], successes + [c])
      {
        assert FixOk(k, fixes[k], born[k], successes);
      }
      hide FixOk;
      successes := successes + [c];
    }

    // RecordSuccess: every pending error hears of the success; those with a full window leave. What
    // is left is exactly the errors whose window is still open.
    method RecordSuccess(c: Call)
      requires Valid()
      modifies this
      ensures Valid() && successes == old(successes) + [c]
      ensures exists g: nat :: g <= |old(pending)| && marks == old(marks)[g..] && pending == FedAll(old(pending), c)[g..]
                && Graduations(old(fixes), FedAll(old(pending), c)[..g], fixes)
                && forall i :: 0 <= i < |old(marks)| ==> (i < g <==> old(marks)[i] + WINDOW <= |successes|)
    {
      Heards(c);
      ghost var ps, ms := pending, marks;
      hide FixesOk, Heard, Hears, Graduations, Fed, FedAll, Oldest;
      var graduated := FeedAll(c);
      OldestMeans(graduated, ms, |successes|);
      RemoveAll(graduated);
      marks := marks[|graduated|..];
      StillOpen(ps, ms, successes, c, |graduated|);
    }

    lemma OldestMeans(graduated: seq<nat>, ms: seq<nat>, n: nat)
      requires Oldest(graduated, ms, n, |ms|)
      ensures |graduated| <= |ms| && forall i :: 0 <= i < |graduated| ==> graduated[i] == i
      ensures forall i :: 0 <= i < |ms| ==> (i < |graduated| <==> ms[i] + WINDOW <= n)
    {
    }

    // The errors whose window is still open have heard every success since.
    lemma StillOpen(ps: seq<Pending>, ms: seq<nat>, heard: seq<Call>, c: Call, g: nat)
      requires |ps| == |ms| && g <= |ps|
      requires forall i :: 0 <= i < |ps| ==> Hears(ps[i], ms[i], heard, c)
      requires forall i :: 0 <= i < |ms| ==> (i < g <==> ms[i] + WINDOW <= |heard|)
      ensures forall i :: 0 <= i < |ps| - g ==> Heard(FedAll(ps, c)[g..][i], ms[g..][i], heard)
    {
      forall i | 0 <= i < |ps| - g
        ensures Heard(FedAll(ps, c)[g..][i], ms[g..][i], heard)
      {
        assert FedAll(ps, c)[g..][i] == Fed(ps[g + i], c) && ms[g..][i] == ms[g + i];
        assert Hears(ps[g + i], ms[g + i], heard, c);
      }
    }

    // The second loop of RecordSuccess: delete by descending index.
    method RemoveAll(graduated: seq<nat>)
      requires |graduated| <= |pending| && forall i :: 0 <= i < |graduated| ==> graduated[i] == i
      modifies this`pending
      ensures pending == old(pending)[|graduated|..]
    {
      ghost var all := pending;
      var j := |graduated|;
      while j > 0
        invariant 0 <= j <= |graduated| && pending == all[..j] + all[|graduated|..]
        decreases j
      {
        j := j - 1;
        var idx := graduated[j];
        assert pending[..idx] + pending[idx + 1..] == all[..j] + all[|graduated|..];
        pending := pending[..idx] + pending[idx + 1..];
      }
    }
  }
}
