// The coordinator's priority queue (internal/agent/priority_queue.go): a heap with each task's own
// position kept in the task and an index from task ID to task. Its abstract value is a sorted list.

module TaskQueues {
  import opened SortedEntries
  import opened HeapOrder

  datatype Status = Pending | Blocked | Ready | Running | Completed | Failed

  // Why a task ended as it did (the part of AgentResult the scheduler itself writes or reads).
  datatype Verdict = NotYet | Succeeded | AgentFailed | AgentCancelled | SpawnFailed | Cancelled
    | DependencyMissing(dep: string) | DependencyCancelled(dep: string) | DependencyFailed(dep: string)

  class Task {
    const id: string
    const deps: seq<string>
    var priority: int
    var status: Status
    var verdict: Verdict
    var index: int
    var arrival: nat

    constructor (id: string, deps: seq<string>, priority: int)
      ensures this.id == id && this.deps == deps && this.priority == priority
      ensures status == Pending && verdict == NotYet && index == 0 && arrival == 0
    {
      this.id, this.deps, this.priority := id, deps, priority;
      status, verdict, index, arrival := Pending, NotYet, 0, 0;
    }

    function AsEntry(): (e: Entry)
      reads this`priority, this`arrival
    {
      Entry(id, priority, arrival)
    }
  }

  // How the heap's entries and the sorted list they stand for correspond.
  ghost predicate Stands(keys: seq<Entry>, list: seq<Entry>, counter: nat) {
    && Heap(keys, |keys|)
    && Sorted(list) && DistinctArrivals(list) && multiset(list) == multiset(keys)
    && (forall i :: 0 <= i < |list| ==> list[i].arrival <= counter && list[i].id != "")
  }

  lemma PushStands(keys: seq<Entry>, list: seq<Entry>, counter: nat, e: Entry)
    requires Stands(keys, list, counter) && e.arrival == counter + 1 && e.id != ""
    ensures Stands(Lifted(keys + [e], |keys|), Insert(list, e), counter + 1)
  {
    AppendedEntry(keys, e);
    forall x | x in list
      ensures x.arrival != e.arrival
    {
      var i :| 0 <= i < |list| && list[i] == x;
    }
    InsertKeepsSorted(list, e);
    InsertAdds(list, e);
    AllHold(list, e, counter + 1);
    LiftedPermutes(keys + [e], |keys|);
    assert multiset(Lifted(keys + [e], |keys|)) == multiset(keys + [e]) == multiset(keys) + multiset{e};
  }

  lemma PopStands(keys: seq<Entry>, list: seq<Entry>, counter: nat)
    requires Stands(keys, list, counter) && (keys != [] || list != [])
    ensures keys != [] && list != [] && keys[0] == list[0]
    ensures Stands(Taken(keys, 0), list[1..], counter)
  {
    assert |multiset(list)| == |list| && |multiset(keys)| == |keys|;
    RootHeadsTheList(keys, list);
    TakenIsHeap(keys, 0);
    assert list == [list[0]] + list[1..];
    assert multiset(list[1..]) == multiset(list) - multiset{list[0]};
  }

  ghost predicate DistinctIds(l: seq<Entry>) {
    forall i, j :: 0 <= i < j < |l| ==> l[i].id != l[j].id
  }

  lemma RemoveStands(keys: seq<Entry>, list: seq<Entry>, counter: nat, h: nat)
    requires Stands(keys, list, counter) && h < |keys| && DistinctIds(list)
    ensures Stands(Taken(keys, h), Without(list, keys[h].id), counter)
  {
    TakenIsHeap(keys, h);
    assert keys[h] in multiset(list);
    WithoutRemovesOne(list, keys[h]);
    WithoutKeepsSorted(list, keys[h].id);
    RestHolds(list, keys[h].id, counter);
  }

  lemma RestHolds(list: seq<Entry>, id: string, counter: nat)
    requires forall i :: 0 <= i < |list| ==> list[i].arrival <= counter && list[i].id != ""
    ensures forall i :: 0 <= i < |Without(list, id)| ==>
                Without(list, id)[i].arrival <= counter && Without(list, id)[i].id != ""
  {
    forall i | 0 <= i < |Without(list, id)|
      ensures Without(list, id)[i].arrival <= counter && Without(list, id)[i].id != ""
    {
      var k := WithoutFrom(list, id, i);
    }
  }

  // Arrival numbers are unique, so an entry that keeps its number can be re-inserted anywhere.
  lemma UpdateStands(keys: seq<Entry>, list: seq<Entry>, counter: nat, h: nat, priority: int)
    requires Stands(keys, list, counter) && h < |keys| && DistinctIds(list)
    ensures Stands(Repaired(keys[h := keys[h].(priority := priority)], |keys|, h),
                   Insert(Without(list, keys[h].id), keys[h].(priority := priority)), counter)
  {
    var o, e := keys[h], keys[h].(priority := priority);
    var k, l := keys[h := e], Without(list, o.id);
    ReplacedEntry(keys, |keys|, h, e);
    RepairedIsHeap(k, |k|, h);
    RepairedPermutes(k, |k|, h);
    assert o in multiset(list);
    WithoutRemovesOne(list, o);
    WithoutKeepsSorted(list, o.id);
    RestHolds(list, o.id, counter);
    WithoutMembers(list, o.id);
    forall x | x in l
      ensures x.arrival != e.arrival
    {
      var i :| 0 <= i < |list| && list[i] == x;
      var j :| 0 <= j < |list| && list[j] == o;
    }
    InsertKeepsSorted(l, e);
    InsertAdds(l, e);
    AllHold(l, e, counter);
    assert multiset(k) == multiset(keys) - multiset{o} + multiset{e};
  }

  class TaskQueue {
    var items: seq<Task>
    var byID: map<string, Task>
    var nextSequence: nat
    // The entries of items, position by position, and the sorted list the heap stands for.
    ghost var keys: seq<Entry>
    ghost var list: seq<Entry>

    // Everything but the heap order.
    ghost predicate Linked()
      reads this`items, this`byID, this`nextSequence, this`keys, this`list
      reads byID.Values`index, byID.Values`priority, byID.Values`arrival
    {
      && |keys| == |items| == |byID|
      && (forall i :: 0 <= i < |items| ==> keys[i].id in byID && byID[keys[i].id] == items[i])
      && (forall i :: 0 <= i < |items| ==> items[i].index == i && items[i].AsEntry() == keys[i])
    }

    ghost predicate Valid()
      reads this`items, this`byID, this`nextSequence, this`keys, this`list
      reads byID.Values`index, byID.Values`priority, byID.Values`arrival
    {
      Linked() && Stands(keys, list, nextSequence)
    }

    constructor ()
      ensures Valid() && items == [] && list == [] && byID == map[] && nextSequence == 0
    {
      items, byID, nextSequence := [], map[], 0;
      keys, list := [], [];
    }

    // Less of heap.Interface.
    method Less(i: nat, j: nat) returns (less: bool)
      requires Linked() && i < |items| && j < |items|
      ensures less == Before(keys[i], keys[j])
    {
      if items[i].priority != items[j].priority {
        return items[i].priority > items[j].priority;
      }
      return items[i].arrival < items[j].arrival;
    }

    // Swap of heap.Interface.
    method Swap(i: nat, j: nat)
      requires Linked() && i < |items| && j < |items|
      modifies this`items, this`keys, byID.Values`index
      ensures Linked()
      ensures items == Swapped(old(items), i, j) && keys == Swapped(old(keys), i, j)
    {
      assert forall a, b :: 0 <= a < b < |items| ==> items[a] != items[b];
      items := Swapped(items, i, j);
      keys := Swapped(keys, i, j);
      items[i].index := i;
      items[j].index := j;
    }

    // container/heap's up.
    method Up(start: nat)
      requires Linked() && start < |items|
      modifies this`items, this`keys, byID.Values`index
      ensures Linked() && keys == Lifted(old(keys), start)
    {
      var j := start;
      while j > 0
        invariant Linked() && 0 <= j < |items|
        invariant Lifted(keys, j) == Lifted(old(keys), start)
        decreases j
      {
        var i := Parent(j);
        var less := Less(j, i);
        if !less { break; }
        Swap(i, j);
        j := i;
      }
    }

    method EarlierChild(i: nat, n: nat) returns (j: nat)
      requires Linked() && 2 * i + 1 < n <= |items|
      ensures j == Favourite(keys, n, i)
    {
      j := 2 * i + 1;
      if j + 1 < n {
        var less := Less(j + 1, j);
        if less { j := j + 1; }
      }
    }

    // container/heap's down, over the first n positions.
    method Down(start: nat, n: nat) returns (moved: bool)
      requires Linked() && start <= n <= |items|
      modifies this`items, this`keys, byID.Values`index
      ensures Linked() && keys == Sunk(old(keys), n, start).0
      ensures moved == (Sunk(old(keys), n, start).1 > start)
    {
      var i := start;
      while 2 * i + 1 < n
        invariant Linked() && start <= i <= n <= |items| == |old(items)|
        invariant Sunk(keys, n, i) == Sunk(old(keys), n, start)
        decreases n - i
      {
        var j := EarlierChild(i, n);
        var less := Less(j, i);
        if !less { break; }
        Swap(i, j);
        i := j;
      }
      assert Sunk(keys, n, i) == (keys, i);
      moved := i > start;
    }

    // Push of heap.Interface: append and register.
    method Append(task: Task)
      requires Linked() && task !in items && task.id !in byID && task.id != ""
      modifies this`items, this`keys, this`byID, this`nextSequence, task`index, task`arrival
      ensures Linked()
      ensures nextSequence == old(nextSequence) + 1 && task.arrival == nextSequence
      ensures byID == old(byID)[task.id := task]
      ensures items == old(items) + [task] && keys == old(keys) + [task.AsEntry()]
    {
      nextSequence := nextSequence + 1;
      task.arrival := nextSequence;
      task.index := |items|;
      items := items + [task];
      keys := keys + [task.AsEntry()];
      byID := byID[task.id := task];
    }

    // Pop of heap.Interface: drop the last position.
    method Chop() returns (task: Task)
      requires Linked() && |items| > 0
      modifies this`items, this`keys, this`byID, byID.Values`index
      ensures Linked()
      ensures task == old(items[|items| - 1]) && task.index == -1
      ensures items == old(items[..|items| - 1]) && keys == old(keys[..|keys| - 1])
      ensures byID == old(byID) - {task.id}
    {
      var n := |items|;
      task := items[n - 1];
      assert forall a, b :: 0 <= a < b < |items| ==> items[a] != items[b] && keys[a].id != keys[b].id;
      assert items == items[..n - 1] + [task];
      task.index := -1;
      items := items[..n - 1];
      keys := keys[..n - 1];
      byID := byID - {task.id};
    }

    ghost predicate Holds(task: Task)
      reads this
    {
      task.id in byID && byID[task.id] == task
    }

    // The index holds exactly the listed IDs, each once.
    lemma IndexIsList()
      requires Valid()
      ensures forall id :: id in byID <==> id in Ids(list)
      ensures forall i, j :: 0 <= i < j < |list| ==> list[i].id != list[j].id
      ensures forall i :: 0 <= i < |list| ==> list[i].id in byID && byID[list[i].id].AsEntry() == list[i]
    {
      forall i | 0 <= i < |list|
        ensures exists k :: 0 <= k < |keys| && keys[k] == list[i]
      {
        assert list[i] in multiset(keys);
      }
      forall i, j | 0 <= i < j < |list|
        ensures list[i].id != list[j].id
      {
        var a :| 0 <= a < |keys| && keys[a] == list[i];
        var b :| 0 <= b < |keys| && keys[b] == list[j];
        assert Before(list[i], list[j]);
        assert items[a].index == a != b == items[b].index;
      }
      assert |multiset(list)| == |multiset(keys)|;
      DistinctCover(Ids(list), byID.Keys);
    }

    // heap.Push.
    method HeapPush(task: Task)
      requires Linked() && task !in items && task.id !in byID && task.id != ""
      modifies this`items, this`keys, this`byID, this`nextSequence, task`index, task`arrival, byID.Values`index
      ensures Linked()
      ensures nextSequence == old(nextSequence) + 1 && byID == old(byID)[task.id := task]
      ensures keys == Lifted(old(keys) + [Entry(task.id, task.priority, nextSequence)], |old(keys)|)
    {
      Append(task);
      assert forall t :: t in byID.Values ==> t == task || t in old(byID.Values);
      Up(|items| - 1);
    }

    lemma HeldIsPlaced(task: Task)
      requires Valid() && Holds(task)
      ensures 0 <= task.index < |items| && items[task.index] == task
    {
      IndexIsList();
      assert task.id in Ids(list);
      var k :| 0 <= k < |list| && Ids(list)[k] == task.id;
      assert list[k] in multiset(keys);
      var i :| 0 <= i < |keys| && keys[i] == list[k];
      assert byID[keys[i].id] == items[i];
    }

    // PushTask, priority_queue.go.
    method PushTask(task: Task)
      requires Valid()
      modifies this, task`index, task`arrival, byID.Values`index
      ensures Valid()
      ensures task.id == "" || task.id in old(byID) ==>
                && list == old(list) && byID == old(byID)
                && nextSequence == old(nextSequence) && task.arrival == old(task.arrival)
      ensures task.id != "" && task.id !in old(byID) ==>
                && nextSequence == old(nextSequence) + 1
                && list == Insert(old(list), Entry(task.id, task.priority, nextSequence))
                && byID == old(byID)[task.id := task]
    {
      hide Stands, Insert, Lifted;
      if task.id == "" { return; }
      if 0 <= task.index < |items| && items[task.index] == task { return; }
      if task.id in byID { return; }
      ghost var e := Entry(task.id, task.priority, nextSequence + 1);
      PushStands(keys, list, nextSequence, e);
      HeapPush(task);
      list := Insert(list, e);
    }

    // heap.Fix once the entry at i has been replaced.
    method Mend(i: nat)
      requires Linked() && i < |items|
      modifies this`items, this`keys, byID.Values`index
      ensures Linked() && keys == Repaired(old(keys), |old(keys)|, i)
    {
      var moved := Down(i, |items|);
      if !moved { Up(i); }
    }

    // UpdatePriority: false when the task is not queued.
    method UpdatePriority(task: Task, priority: int) returns (ok: bool)
      requires Valid()
      modifies this, task`priority, byID.Values`index
      ensures Valid() && byID == old(byID) && nextSequence == old(nextSequence)
      ensures ok == old(Holds(task))
      ensures !ok ==> list == old(list) && task.priority == old(task.priority)
      ensures ok ==> task.priority == priority && task.arrival == old(task.arrival)
      ensures ok ==> list == Insert(Without(old(list), task.id), Entry(task.id, priority, task.arrival))
    {
      if Holds(task) { HeldIsPlaced(task); }
      if task.index < 0 || task.index >= |items| { return false; }
      if items[task.index] != task { return false; }
      Reprioritize(task, task.index, priority);
      ok := true;
    }

    lemma UpdatedStands(i: nat, priority: int)
      requires Valid() && i < |items|
      ensures Stands(Repaired(keys[i := keys[i].(priority := priority)], |keys|, i),
                     Insert(Without(list, keys[i].id), keys[i].(priority := priority)), nextSequence)
    {
      IndexIsList();
      UpdateStands(keys, list, nextSequence, i, priority);
    }

    lemma RemovedStands(i: nat)
      requires Valid() && i < |items|
      ensures Stands(Taken(keys, i), Without(list, keys[i].id), nextSequence) && Heap(keys, |keys|)
    {
      IndexIsList();
      RemoveStands(keys, list, nextSequence, i);
    }

    method Reprioritize(task: Task, i: nat, priority: int)
      requires Valid() && i < |items| && items[i] == task
      modifies this`items, this`keys, this`list, task`priority, byID.Values`index
      ensures Valid() && task.priority == priority
      ensures list == Insert(Without(old(list), task.id), Entry(task.id, priority, task.arrival))
    {
      UpdatedStands(i, priority);
      list := Insert(Without(list, task.id), Entry(task.id, priority, task.arrival));
      ReplaceEntry(task, i, priority);
    }

    method ReplaceEntry(task: Task, i: nat, priority: int)
      requires Linked() && i < |items| && items[i] == task
      modifies this`items, this`keys, task`priority, byID.Values`index
      ensures Linked() && task.priority == priority
      ensures keys == Repaired(old(keys)[i := old(keys)[i].(priority := priority)], |old(keys)|, i)
    {
      assert forall j :: 0 <= j < |items| && j != i ==> items[j] != task;
      task.priority := priority;
      keys := keys[i := keys[i].(priority := priority)];
      Mend(i);
    }

    // RemoveTask: a scan by ID, then heap.Remove.
    method RemoveTask(id: string) returns (task: Task?)
      requires Valid()
      modifies this, byID.Values`index
      ensures Valid() && nextSequence == old(nextSequence)
      ensures list == Without(old(list), id) && byID == old(byID) - {id}
      ensures if id in old(byID) then task == old(byID)[id] else task == null
    {
      var i := Scan(id);
      if i == |items| {
        AbsentFromList(id);
        return null;
      }
      task := RemoveAt(i);
    }

    method RemoveAt(i: nat) returns (task: Task)
      requires Valid() && i < |items|
      modifies this`items, this`keys, this`list, this`byID, byID.Values`index
      ensures Valid()
      ensures old(keys)[i].id in old(byID) && task == old(byID)[old(keys)[i].id]
      ensures list == Without(old(list), task.id) && byID == old(byID) - {task.id}
    {
      RemovedStands(i);
      list := Without(list, keys[i].id);
      task := TakeOut(i);
    }

    method Scan(id: string) returns (i: nat)
      requires Linked()
      ensures i <= |items| && (i < |items| ==> keys[i].id == id)
      ensures i == |items| ==> forall j :: 0 <= j < |items| ==> keys[j].id != id
    {
      i := 0;
      while i < |items| && items[i].id != id
        invariant i <= |items|
        invariant forall j :: 0 <= j < i ==> keys[j].id != id
      {
        i := i + 1;
      }
    }

    lemma AbsentFromList(id: string)
      requires Valid() && forall j :: 0 <= j < |items| ==> keys[j].id != id
      ensures id !in byID && byID - {id} == byID && Without(list, id) == list
    {
      forall e | e in list
        ensures e.id != id
      {
        assert e in multiset(keys);
      }
      IndexIsList();
      assert id !in Ids(list);
      assert byID - {id} == byID;
      WithoutAbsent(list, id);
    }

    // heap.Remove up to its Pop: trade places with the last item, then repair what moved here.
    method Uproot(i: nat)
      requires Linked() && i < |items|
      modifies this`items, this`keys, byID.Values`index
      ensures Linked() && keys == Uprooted(old(keys), i)
    {
      var n := |items| - 1;
      if n != i {
        Swap(i, n);
        var moved := Down(i, n);
        if !moved { Up(i); }
      }
    }

    // heap.Remove. heap.Pop is this at the root, where sifting up does nothing.
    method TakeOut(i: nat) returns (task: Task)
      requires Linked() && i < |items| && Heap(keys, |keys|)
      modifies this`items, this`keys, this`byID, byID.Values`index
      ensures Linked() && keys == Taken(old(keys), i)
      ensures old(keys)[i].id in old(byID) && task == old(byID)[old(keys)[i].id]
      ensures byID == old(byID) - {task.id}
    {
      UprootedIsHeap(keys, i);
      Uproot(i);
      task := Chop();
    }

    // PopTask: the earliest-pushed task of highest priority, or null when the queue is empty.
    method PopTask() returns (task: Task?)
      requires Valid()
      modifies this, byID.Values`index
      ensures Valid() && nextSequence == old(nextSequence)
      ensures old(list) == [] ==> task == null && list == [] && byID == old(byID)
      ensures old(list) != [] ==>
                && task != null && old(list)[0].id in old(byID)
                && task == old(byID)[old(list)[0].id]
                && list == old(list)[1..] && byID == old(byID) - {task.id}
      // None queued has a higher priority, and none of the same priority came earlier.
      ensures forall i :: 0 <= i < |old(list)| ==>
                || old(list)[i].priority < old(list)[0].priority
                || (old(list)[i].priority == old(list)[0].priority && old(list)[i].arrival >= old(list)[0].arrival)
    {
      HeadIsBest(list);
      if keys != [] || list != [] { PopStands(keys, list, nextSequence); }
      if |items| == 0 { return null; }
      task := TakeOut(0);
      list := list[1..];
    }
  }

  // A sequence of distinct elements that fills a set of its own size covers the set.
  lemma {:induction false} DistinctCover(s: seq<string>, keys: set<string>)
    requires forall i, j :: 0 <= i < j < |s| ==> s[i] != s[j]
    requires forall i :: 0 <= i < |s| ==> s[i] in keys
    requires |keys| == |s|
    ensures forall x :: x in keys <==> x in s
  {
    if s != [] {
      var rest := keys - {s[0]};
      forall i | 0 <= i < |s[1..]|
        ensures s[1..][i] in rest
      {
        assert s[1..][i] == s[i + 1];
      }
      DistinctCover(s[1..], rest);
      assert s == [s[0]] + s[1..];
    }
  }
}
