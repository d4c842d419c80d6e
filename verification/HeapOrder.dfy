// What the coordinator's priority queue (internal/agent/priority_queue.go) is proved against: lists
// sorted by priority (highest first) and then by arrival, and what sifting does to a binary heap laid
// out in a slice.

module SortedEntries {

  // What the heap compares: Less looks at the priority and then at the arrival number.
  datatype Entry = Entry(id: string, priority: int, arrival: nat)

  predicate Before(a: Entry, b: Entry) {
    a.priority > b.priority || (a.priority == b.priority && a.arrival < b.arrival)
  }

  ghost predicate Sorted(l: seq<Entry>) {
    forall i, j :: 0 <= i < j < |l| ==> Before(l[i], l[j])
  }

  ghost predicate DistinctArrivals(l: seq<Entry>) {
    forall i, j :: 0 <= i < j < |l| ==> l[i].arrival != l[j].arrival
  }

  function Ids(l: seq<Entry>): (r: seq<string>)
    ensures |r| == |l| && forall i :: 0 <= i < |l| ==> r[i] == l[i].id
  {
    seq(|l|, i requires 0 <= i < |l| => l[i].id)
  }

  function Insert(l: seq<Entry>, e: Entry): seq<Entry> {
    if l == [] || Before(e, l[0]) then [e] + l
    else [l[0]] + Insert(l[1..], e)
  }

  // The head has the highest priority, and of those with this priority it came first.
  lemma HeadIsBest(l: seq<Entry>)
    ensures Sorted(l) ==> forall i :: 0 <= i < |l| ==>
              l[i].priority < l[0].priority || (l[i].priority == l[0].priority && l[i].arrival >= l[0].arrival)
  {
    if Sorted(l) {
      forall i | 0 <= i < |l|
        ensures l[i].priority < l[0].priority || (l[i].priority == l[0].priority && l[i].arrival >= l[0].arrival)
      {
        if i > 0 { assert Before(l[0], l[i]); }
      }
    }
  }

  lemma {:induction false} InsertAdds(l: seq<Entry>, e: Entry)
    ensures multiset(Insert(l, e)) == multiset(l) + multiset{e}
  {
    if l != [] && !Before(e, l[0]) {
      InsertAdds(l[1..], e);
      assert l == [l[0]] + l[1..];
    }
  }

  function Without(l: seq<Entry>, id: string): seq<Entry> {
    if l == [] then []
    else if l[0].id == id then Without(l[1..], id)
    else [l[0]] + Without(l[1..], id)
  }

  lemma {:induction false} WithoutMembers(l: seq<Entry>, id: string)
    ensures forall e :: e in Without(l, id) <==> e in l && e.id != id
  {
    if l != [] {
      WithoutMembers(l[1..], id);
      assert l == [l[0]] + l[1..];
    }
  }

  // Every position of what is left holds an entry from later in the list.
  lemma WithoutFrom(l: seq<Entry>, id: string, i: nat) returns (k: nat)
    requires i < |Without(l, id)|
    ensures k < |l| && l[k] == Without(l, id)[i] && l[k].id != id
  {
    WithoutMembers(l, id);
    assert Without(l, id)[i] in Without(l, id);
    k :| 0 <= k < |l| && l[k] == Without(l, id)[i];
  }

  lemma {:induction false} InsertKeepsSorted(l: seq<Entry>, e: Entry)
    requires Sorted(l) && DistinctArrivals(l)
    requires forall x :: x in l ==> x.arrival != e.arrival
    ensures Sorted(Insert(l, e)) && DistinctArrivals(Insert(l, e))
  {
    if l != [] && !Before(e, l[0]) {
      assert forall x :: x in l[1..] ==> x in l;
      InsertKeepsSorted(l[1..], e);
      var r := Insert(l[1..], e);
      InsertAdds(l[1..], e);
      assert multiset(r) == multiset(l[1..]) + multiset{e};
      assert Before(l[0], e) && l[0].arrival != e.arrival by { assert l[0] in l; }
      forall i | 0 <= i < |r|
        ensures Before(l[0], r[i]) && l[0].arrival != r[i].arrival
      {
        assert r[i] in multiset(r);
        if r[i] != e {
          assert r[i] in l[1..];
          var k :| 0 <= k < |l[1..]| && l[1..][k] == r[i];
          assert l[k + 1] == r[i];
        }
      }
    }
  }

  // What held of every listed entry still holds after an insertion numbered by the counter.
  lemma AllHold(l: seq<Entry>, e: Entry, counter: nat)
    requires forall i :: 0 <= i < |l| ==> l[i].arrival <= counter && l[i].id != ""
    requires e.arrival <= counter && e.id != ""
    ensures forall i :: 0 <= i < |Insert(l, e)| ==> Insert(l, e)[i].arrival <= counter && Insert(l, e)[i].id != ""
  {
    var r := Insert(l, e);
    InsertAdds(l, e);
    forall i | 0 <= i < |r|
      ensures r[i].arrival <= counter && r[i].id != ""
    {
      assert r[i] in multiset(r);
      if r[i] != e { assert r[i] in l; }
    }
  }

  lemma {:induction false} WithoutKeepsSorted(l: seq<Entry>, id: string)
    requires Sorted(l) && DistinctArrivals(l)
    ensures Sorted(Without(l, id)) && DistinctArrivals(Without(l, id))
  {
    if l != [] {
      WithoutKeepsSorted(l[1..], id);
      var r := Without(l[1..], id);
      forall i | 0 <= i < |r|
        ensures Before(l[0], r[i]) && l[0].arrival != r[i].arrival
      {
        var k := WithoutFrom(l[1..], id, i);
        assert l[k + 1] == r[i];
      }
    }
  }

  // The head of a sorted list is the one entry that comes before all the others.
  lemma HeadIsTheOnlyFirst(l: seq<Entry>, e: Entry)
    requires Sorted(l) && l != []
    ensures e == l[0] <==> e in l && forall x :: x in l && x != e ==> Before(e, x)
  {
    if e == l[0] {
      forall x | x in l && x != e
        ensures Before(e, x)
      {
        var i :| 0 <= i < |l| && l[i] == x;
      }
    } else if e in l {
      var i :| 0 <= i < |l| && l[i] == e;
      assert Before(l[0], e) && l[0] in l;
    }
  }

  lemma SameHead(a: seq<Entry>, b: seq<Entry>)
    requires Sorted(a) && Sorted(b) && a != [] && b != [] && multiset(a) == multiset(b)
    ensures a[0] == b[0]
  {
    assert a[0] in multiset(b) && b[0] in multiset(a);
    var i :| 0 <= i < |a| && a[i] == b[0];
    var j :| 0 <= j < |b| && b[j] == a[0];
    assert i > 0 ==> Before(a[0], a[i]);
    assert j > 0 ==> Before(b[0], b[j]);
  }

  lemma Tail(a: seq<Entry>)
    requires Sorted(a) && a != []
    ensures Sorted(a[1..]) && multiset(a[1..]) == multiset(a) - multiset{a[0]}
    ensures a == [a[0]] + a[1..]
  {
    assert a == [a[0]] + a[1..];
  }

  // A strictly sorted list is determined by what it holds.
  lemma {:induction false} SortedUnique(a: seq<Entry>, b: seq<Entry>)
    requires Sorted(a) && Sorted(b) && multiset(a) == multiset(b)
    ensures a == b
  {
    hide Sorted;
    if a != [] && b != [] {
      SameHead(a, b);
      Tail(a);
      Tail(b);
      SortedUnique(a[1..], b[1..]);
    } else {
      assert |multiset(b)| == |b| && |multiset(a)| == |a|;
    }
  }

  lemma {:induction false} WithoutRemovesOne(l: seq<Entry>, e: Entry)
    requires e in l
    requires forall i, j :: 0 <= i < j < |l| ==> l[i].id != l[j].id
    ensures multiset(Without(l, e.id)) == multiset(l) - multiset{e}
  {
    assert l == [l[0]] + l[1..];
    assert multiset(l) == multiset{l[0]} + multiset(l[1..]);
    if l[0] == e {
      WithoutAbsent(l[1..], e.id);
    } else {
      assert e in l[1..];
      WithoutRemovesOne(l[1..], e);
      assert multiset([l[0]] + Without(l[1..], e.id)) == multiset{l[0]} + multiset(Without(l[1..], e.id));
      assert l[0].id != e.id;
    }
  }

  lemma {:induction false} WithoutAbsent(l: seq<Entry>, id: string)
    requires forall e :: e in l ==> e.id != id
    ensures Without(l, id) == l
  {
    if l != [] {
      assert l[0] in l;
      assert forall e :: e in l[1..] ==> e in l;
      WithoutAbsent(l[1..], id);
    }
  }
}

module HeapOrder {
  import opened SortedEntries

  function Parent(c: nat): (p: nat)
    requires c > 0
    ensures p < c
  {
    (c - 1) / 2
  }

  ghost predicate EdgeOk(ks: seq<Entry>, c: nat)
    requires 0 < c < |ks|
  {
    !Before(ks[c], ks[Parent(c)])
  }

  ghost predicate Heap(ks: seq<Entry>, n: nat)
    requires n <= |ks|
  {
    forall c :: 0 < c < n ==> EdgeOk(ks, c)
  }

  // Heap order except for the edges that touch position h; the children of h already sit correctly
  // under the parent of h.
  ghost predicate HeapBut(ks: seq<Entry>, n: nat, h: nat)
    requires n <= |ks|
  {
    && (forall c :: 0 < c < n && c != h && Parent(c) != h ==> EdgeOk(ks, c))
    && (forall c :: 0 < h && 0 < c < n && Parent(c) == h ==> !Before(ks[c], ks[Parent(h)]))
  }

  ghost predicate ChildrenOk(ks: seq<Entry>, n: nat, h: nat)
    requires n <= |ks|
  {
    forall c :: 0 < c < n && Parent(c) == h ==> EdgeOk(ks, c)
  }

  function Swapped<T>(s: seq<T>, i: nat, j: nat): (r: seq<T>)
    requires i < |s| && j < |s|
    ensures |r| == |s|
  {
    s[i := s[j]][j := s[i]]
  }

  // The root of a heap comes before everything else in it.
  lemma {:induction false} RootIsFirst(ks: seq<Entry>, n: nat, i: nat)
    requires i < n <= |ks| && Heap(ks, n)
    ensures !Before(ks[i], ks[0])
    decreases i
  {
    if i > 0 {
      var p := Parent(i);
      RootIsFirst(ks, n, p);
      assert EdgeOk(ks, i);
    }
  }

  lemma RootHeadsTheList(ks: seq<Entry>, l: seq<Entry>)
    requires |ks| > 0 && Heap(ks, |ks|)
    requires Sorted(l) && multiset(l) == multiset(ks)
    ensures l != [] && l[0] == ks[0]
  {
    assert |multiset(l)| == |l| == |ks|;
    assert l[0] in multiset(ks) && ks[0] in multiset(l);
    var i :| 0 <= i < |ks| && ks[i] == l[0];
    var j :| 0 <= j < |l| && l[j] == ks[0];
    RootIsFirst(ks, |ks|, i);
  }

  // What sifting up from position h does to the entries.
  function Lifted(ks: seq<Entry>, h: nat): (r: seq<Entry>)
    requires h < |ks|
    ensures |r| == |ks|
    decreases h
  {
    if h == 0 || !Before(ks[h], ks[Parent(h)]) then ks
    else Lifted(Swapped(ks, Parent(h), h), Parent(h))
  }

  // The child of h that comes first.
  function Favourite(ks: seq<Entry>, n: nat, h: nat): (m: nat)
    requires 2 * h + 1 < n <= |ks|
    ensures h < m < n && Parent(m) == h
  {
    if 2 * h + 2 < n && Before(ks[2 * h + 2], ks[2 * h + 1]) then 2 * h + 2 else 2 * h + 1
  }

  // What sifting down from position h, over the first n positions, does to the entries, and where
  // the entry at h ends up.
  function Sunk(ks: seq<Entry>, n: nat, h: nat): (r: (seq<Entry>, nat))
    requires n <= |ks|
    ensures |r.0| == |ks| && h <= r.1
    ensures r.1 == h ==> r.0 == ks
    decreases n - h
  {
    if 2 * h + 1 >= n || !Before(ks[Favourite(ks, n, h)], ks[h]) then (ks, h)
    else Sunk(Swapped(ks, h, Favourite(ks, n, h)), n, Favourite(ks, n, h))
  }

  lemma {:induction false} SunkIsHeap(ks: seq<Entry>, n: nat, h: nat)
    requires n <= |ks| && HeapBut(ks, n, h)
    ensures Sunk(ks, n, h).1 == h ==> ChildrenOk(ks, n, h)
    ensures Sunk(ks, n, h).1 > h || (0 < h < n ==> EdgeOk(ks, h)) ==> Heap(Sunk(ks, n, h).0, n)
    decreases n - h
  {
    if 2 * h + 1 < n {
      var m := Favourite(ks, n, h);
      FavouriteIsFirst(ks, n, h);
      if Before(ks[m], ks[h]) {
        SwapDown(ks, n, h, m);
        SunkIsHeap(Swapped(ks, h, m), n, m);
      }
    }
  }

  lemma FavouriteIsFirst(ks: seq<Entry>, n: nat, h: nat)
    requires 2 * h + 1 < n <= |ks|
    ensures forall c :: 0 < c < n && Parent(c) == h ==> !Before(ks[c], ks[Favourite(ks, n, h)])
  {
    assert forall c :: 0 < c && Parent(c) == h ==> c == 2 * h + 1 || c == 2 * h + 2;
  }

  // One step of sifting up: the entry at h trades places with its parent.
  lemma SwapUp(ks: seq<Entry>, n: nat, h: nat)
    requires 0 < h < n <= |ks| && HeapBut(ks, n, h) && ChildrenOk(ks, n, h) && Before(ks[h], ks[Parent(h)])
    ensures HeapBut(Swapped(ks, Parent(h), h), n, Parent(h)) && ChildrenOk(Swapped(ks, Parent(h), h), n, Parent(h))
  {
    var p := Parent(h);
    var r := Swapped(ks, p, h);
    forall c | 0 < c < n && c != p && Parent(c) != p
      ensures EdgeOk(r, c)
    {
      if Parent(c) == h {
        assert r[c] == ks[c] && r[h] == ks[p];
      } else {
        assert EdgeOk(ks, c);
      }
    }
    forall c | 0 < c < n && Parent(c) == p
      ensures EdgeOk(r, c)
      ensures 0 < p ==> !Before(r[c], r[Parent(p)])
    {
      if c != h {
        assert EdgeOk(ks, c);
      }
      if 0 < p {
        assert EdgeOk(ks, p);
        if c == h { assert r[c] == ks[p]; } else { assert EdgeOk(ks, c) && EdgeOk(ks, p); }
      }
    }
  }

  // One step of sifting down: h sinks below its earlier child m.
  lemma SwapDown(ks: seq<Entry>, n: nat, h: nat, m: nat)
    requires n <= |ks| && 0 < m < n && Parent(m) == h && Before(ks[m], ks[h])
    requires forall c :: 0 < c < n && Parent(c) == h ==> !Before(ks[c], ks[m])
    requires HeapBut(ks, n, h)
    ensures HeapBut(Swapped(ks, h, m), n, m)
    ensures EdgeOk(Swapped(ks, h, m), m)
    ensures h > 0 ==> EdgeOk(Swapped(ks, h, m), h)
  {
    var r := Swapped(ks, h, m);
    forall c | 0 < c < n && c != m && Parent(c) != m
      ensures EdgeOk(r, c)
    {
      if Parent(c) == h {
        assert r[c] == ks[c] && r[h] == ks[m];
      } else if c == h {
        assert !Before(ks[m], ks[Parent(h)]);
      } else {
        assert EdgeOk(ks, c);
      }
    }
    forall c | 0 < c < n && Parent(c) == m
      ensures !Before(r[c], r[Parent(m)])
    {
      assert c != h && Parent(c) != h;
      assert EdgeOk(ks, c);
    }
  }

  lemma {:induction false} LiftedIsHeap(ks: seq<Entry>, n: nat, h: nat)
    requires h < n <= |ks| && HeapBut(ks, n, h) && ChildrenOk(ks, n, h)
    ensures Heap(Lifted(ks, h), n)
    decreases h
  {
    if h > 0 && Before(ks[h], ks[Parent(h)]) {
      SwapUp(ks, n, h);
      LiftedIsHeap(Swapped(ks, Parent(h), h), n, Parent(h));
    }
  }

  // Replacing any one entry of a heap leaves a heap except at that position.
  lemma ReplacedEntry(ks: seq<Entry>, n: nat, h: nat, e: Entry)
    requires h < |ks| && n <= |ks| && Heap(ks, |ks|)
    ensures HeapBut(ks[h := e], n, h)
  {
    var r := ks[h := e];
    forall c | 0 < c < n && c != h && Parent(c) != h
      ensures EdgeOk(r, c)
    {
      assert EdgeOk(ks, c);
    }
    forall c | 0 < h && 0 < c < n && Parent(c) == h
      ensures !Before(r[c], r[Parent(h)])
    {
      assert EdgeOk(ks, c) && EdgeOk(ks, h);
    }
  }

  lemma AppendedEntry(ks: seq<Entry>, e: Entry)
    requires Heap(ks, |ks|)
    ensures Heap(Lifted(ks + [e], |ks|), |ks| + 1)
  {
    var r := ks + [e];
    forall c | 0 < c < |r| && c != |ks|
      ensures EdgeOk(r, c)
    {
      assert EdgeOk(ks, c);
    }
    LiftedIsHeap(r, |r|, |ks|);
  }

  // The repair that heap.Fix and heap.Remove make at position h: sift down, and if the entry did
  // not move sift up.
  function Repaired(ks: seq<Entry>, n: nat, h: nat): (r: seq<Entry>)
    requires h < n <= |ks|
    ensures |r| == |ks|
  {
    var s := Sunk(ks, n, h);
    if s.1 > h then s.0 else Lifted(ks, h)
  }

  lemma RepairedIsHeap(ks: seq<Entry>, n: nat, h: nat)
    requires h < n <= |ks| && HeapBut(ks, n, h)
    ensures Heap(Repaired(ks, n, h), n)
  {
    SunkIsHeap(ks, n, h);
    if Sunk(ks, n, h).1 == h {
      LiftedIsHeap(ks, n, h);
    }
  }

  // The last entry moved to position h and repaired there; the old entry of h is at the end.
  function Uprooted(ks: seq<Entry>, h: nat): (r: seq<Entry>)
    requires h < |ks|
    ensures |r| == |ks|
  {
    if h == |ks| - 1 then ks else Repaired(Swapped(ks, h, |ks| - 1), |ks| - 1, h)
  }

  function Taken(ks: seq<Entry>, h: nat): (r: seq<Entry>)
    requires h < |ks|
    ensures |r| == |ks| - 1
  {
    Uprooted(ks, h)[..|ks| - 1]
  }

  // Repairs over the first n positions leave the later ones alone.
  lemma {:induction false} SunkLeaves(ks: seq<Entry>, n: nat, h: nat, k: nat)
    requires n <= k < |ks|
    ensures Sunk(ks, n, h).0[k] == ks[k]
    decreases n - h
  {
    if 2 * h + 1 < n && Before(ks[Favourite(ks, n, h)], ks[h]) {
      SunkLeaves(Swapped(ks, h, Favourite(ks, n, h)), n, Favourite(ks, n, h), k);
    }
  }

  lemma {:induction false} LiftedLeaves(ks: seq<Entry>, h: nat, k: nat)
    requires h < k < |ks|
    ensures Lifted(ks, h)[k] == ks[k]
    decreases h
  {
    if h > 0 && Before(ks[h], ks[Parent(h)]) {
      LiftedLeaves(Swapped(ks, Parent(h), h), Parent(h), k);
    }
  }

  lemma SwappedOut(ks: seq<Entry>, n: nat, h: nat)
    requires h < n < |ks| && Heap(ks, |ks|)
    ensures HeapBut(Swapped(ks, h, n), n, h)
  {
    var w, r := Swapped(ks, h, n), ks[h := ks[n]];
    ReplacedEntry(ks, n, h, ks[n]);
    assert forall c :: 0 <= c < n ==> w[c] == r[c];
    forall c | 0 < c < n && c != h && Parent(c) != h
      ensures EdgeOk(w, c)
    {
      assert EdgeOk(r, c);
    }
  }

  lemma LastDropped(ks: seq<Entry>)
    requires ks != [] && Heap(ks, |ks| - 1)
    ensures Heap(ks[..|ks| - 1], |ks| - 1)
    ensures multiset(ks[..|ks| - 1]) == multiset(ks) - multiset{ks[|ks| - 1]}
  {
    var n := |ks| - 1;
    assert ks == ks[..n] + [ks[n]];
    forall c | 0 < c < n
      ensures EdgeOk(ks[..n], c)
    {
      assert EdgeOk(ks, c);
    }
  }

  lemma UprootedIsHeap(ks: seq<Entry>, h: nat)
    requires h < |ks| && Heap(ks, |ks|)
    ensures Heap(Uprooted(ks, h), |ks| - 1) && Uprooted(ks, h)[|ks| - 1] == ks[h]
  {
    hide HeapBut, Sunk, Lifted;
    var n := |ks| - 1;
    assert Heap(ks, n) by { assert forall c :: 0 < c < n ==> EdgeOk(ks, c); }
    if h < n {
      var w := Swapped(ks, h, n);
      SwappedOut(ks, n, h);
      RepairedIsHeap(w, n, h);
      SunkLeaves(w, n, h, n);
      LiftedLeaves(w, h, n);
    }
  }

  lemma TakenIsHeap(ks: seq<Entry>, h: nat)
    requires h < |ks| && Heap(ks, |ks|)
    ensures Heap(Taken(ks, h), |ks| - 1)
    ensures multiset(Taken(ks, h)) == multiset(ks) - multiset{ks[h]}
  {
    UprootedIsHeap(ks, h);
    UprootedPermutes(ks, h);
    LastDropped(Uprooted(ks, h));
  }

  // Sifting and swapping only rearrange.
  lemma {:induction false} LiftedPermutes(ks: seq<Entry>, h: nat)
    requires h < |ks|
    ensures multiset(Lifted(ks, h)) == multiset(ks)
    decreases h
  {
    if h > 0 && Before(ks[h], ks[Parent(h)]) {
      LiftedPermutes(Swapped(ks, Parent(h), h), Parent(h));
    }
  }

  lemma {:induction false} SunkPermutes(ks: seq<Entry>, n: nat, h: nat)
    requires n <= |ks|
    ensures multiset(Sunk(ks, n, h).0) == multiset(ks)
    decreases n - h
  {
    if 2 * h + 1 < n && Before(ks[Favourite(ks, n, h)], ks[h]) {
      SunkPermutes(Swapped(ks, h, Favourite(ks, n, h)), n, Favourite(ks, n, h));
    }
  }

  lemma RepairedPermutes(ks: seq<Entry>, n: nat, h: nat)
    requires h < n <= |ks|
    ensures multiset(Repaired(ks, n, h)) == multiset(ks)
  {
    SunkPermutes(ks, n, h);
    LiftedPermutes(ks, h);
  }

  lemma UprootedPermutes(ks: seq<Entry>, h: nat)
    requires h < |ks|
    ensures multiset(Uprooted(ks, h)) == multiset(ks)
  {
    var n := |ks| - 1;
    if h < n {
      RepairedPermutes(Swapped(ks, h, n), n, h);
    }
  }
}
