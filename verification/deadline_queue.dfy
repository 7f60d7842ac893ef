/** The updatable deadline heap (kernel/src/time.rs:126-259) refines a map from event to deadline. */
module DeadlineQueues {
  import opened Base
  import opened SchedState
  import opened DeadlineOrder

  ghost predicate Has(a: seq<Entry>, e: TimedEvent) {
    exists i :: 0 <= i < |a| && a[i].event == e
  }

  /** The entries list each event of the map once, with its deadline. */
  ghost predicate Refines(a: seq<Entry>, m: map<TimedEvent, nat>) {
    && (forall i :: 0 <= i < |a| ==> a[i].event in m && m[a[i].event] == a[i].deadline)
    && (forall i, j :: 0 <= i < j < |a| ==> a[i].event != a[j].event)
    && (forall e :: e in m ==> Has(a, e))
  }

  lemma RefinesSwap(a: seq<Entry>, i: nat, j: nat, m: map<TimedEvent, nat>)
    requires Refines(a, m) && i < |a| && j < |a|
    ensures Refines(Swapped(a, i, j), m)
  {
    var b := Swapped(a, i, j);
    forall e | e in m ensures Has(b, e) {
      var k :| 0 <= k < |a| && a[k].event == e;
      assert b[if k == i then j else if k == j then i else k].event == e;
    }
  }

  lemma RefinesMove(a: seq<Entry>, i: nat, deadline: nat, m: map<TimedEvent, nat>)
    requires Refines(a, m) && i < |a|
    ensures Refines(a[i := Entry(deadline, a[i].event)], m[a[i].event := deadline])
  {
    var b := a[i := Entry(deadline, a[i].event)];
    forall e | e in m[a[i].event := deadline] ensures Has(b, e) {
      if e == a[i].event {
        assert b[i].event == e;
      } else {
        var k :| 0 <= k < |a| && a[k].event == e;
        assert b[k].event == e;
      }
    }
  }

  lemma RefinesPush(a: seq<Entry>, x: Entry, m: map<TimedEvent, nat>)
    requires Refines(a, m) && !Has(a, x.event)
    ensures Refines(a + [x], m[x.event := x.deadline])
  {
    var b := a + [x];
    assert forall i :: 0 <= i < |a| ==> a[i].event != x.event;
    forall e | e in m[x.event := x.deadline] ensures Has(b, e) {
      if e == x.event {
        assert b[|a|].event == e;
      } else {
        var k :| 0 <= k < |a| && a[k].event == e;
        assert b[k].event == e;
      }
    }
  }

  lemma RefinesPop(a: seq<Entry>, m: map<TimedEvent, nat>)
    requires Refines(a, m) && a != []
    ensures Refines(a[..|a| - 1], m - {a[|a| - 1].event})
  {
    var b := a[..|a| - 1];
    forall e | e in m - {a[|a| - 1].event} ensures Has(b, e) {
      var k :| 0 <= k < |a| && a[k].event == e;
      assert b[k].event == e;
    }
  }

  lemma {:induction false} RefinesSize(a: seq<Entry>, m: map<TimedEvent, nat>)
    requires Refines(a, m)
    ensures |m| == |a|
    decreases |a|
  {
    if a == [] {
      assert forall e :: e in m ==> Has(a, e);
      assert m == map[];
    } else {
      var e := a[|a| - 1].event;
      RefinesPop(a, m);
      RefinesSize(a[..|a| - 1], m - {e});
      assert m.Keys == (m - {e}).Keys + {e};
    }
  }

  /** Swap with the last entry and drop it: what is left, and the one place to repair. */
  lemma Removed(a: seq<Entry>, i: nat, m: map<TimedEvent, nat>)
    requires Refines(a, m) && Heap(a) && i < |a|
    ensures
      var last := |a| - 1;
      var b := Swapped(a, i, last)[..last];
      && Swapped(a, i, last)[last] == a[i] && Refines(b, m - {a[i].event})
      && (i == last ==> Heap(b))
      && (i < last ==> if i > 0 && Less(b[i], b[Parent(i)]) then UpFix(b, i) else DownFix(b, i))
  {
    hide Refines, UpFix, DownFix, Heap, Less;
    var last := |a| - 1;
    SwapPop(a, i);
    RefinesSwap(a, i, last, m);
    RefinesPop(Swapped(a, i, last), m);
    if i < last { Moved(a, i); } else { DropLast(a); }
  }

  class DeadlineQueue {
    const capacity: nat
    var entries: seq<Entry>
    ghost var queue: map<TimedEvent, nat>

    ghost predicate Valid()
      reads this
    {
      |entries| <= capacity && Refines(entries, queue) && Heap(entries)
    }

    constructor (capacity: nat)
      ensures Valid() && queue == map[] && this.capacity == capacity
    {
      this.capacity := capacity;
      entries, queue := [], map[];
    }

    method FindEventIndex(event: TimedEvent) returns (index: Option<nat>)
      requires Valid()
      ensures index.None? <==> event !in queue
      ensures index.Some? ==> index.value < |entries| && entries[index.value].event == event
    {
      var i := 0;
      while i < |entries|
        invariant i <= |entries| && forall k :: 0 <= k < i ==> entries[k].event != event
      {
        if entries[i].event == event { return Some(i); }
        i := i + 1;
      }
      assert !Has(entries, event);
      index := None;
    }

    method SiftUp(start: nat)
      requires start < |entries| && Refines(entries, queue) && UpFix(entries, start)
      modifies this`entries
      ensures Heap(entries) && Refines(entries, queue) && |entries| == old(|entries|)
    {
      var index: nat := start;
      while index > 0
        invariant index < |entries| == old(|entries|) && Refines(entries, queue) && UpFix(entries, index)
      {
        var parent := Parent(index);
        if !Less(entries[index], entries[parent]) { break; }
        SwapUp(entries, index);
        RefinesSwap(entries, index, parent, queue);
        entries := Swapped(entries, index, parent);
        index := parent;
      }
      forall k: nat ensures OrderedAt(entries, k) { assert SkipAt(entries, index, k); }
    }

    method SiftDown(start: nat)
      requires start < |entries| && Refines(entries, queue) && DownFix(entries, start)
      modifies this`entries
      ensures Heap(entries) && Refines(entries, queue) && |entries| == old(|entries|)
    {
      var index: nat := start;
      while true
        invariant index < |entries| == old(|entries|) && Refines(entries, queue) && DownFix(entries, index)
        decreases |entries| - index
      {
        var left := index * 2 + 1;
        if left >= |entries| {
          DownFixDone(entries, index);
          break;
        }
        var right := left + 1;
        var best := left;
        if right < |entries| && Less(entries[right], entries[left]) { best := right; }
        ChildrenOf(entries, index, best);
        if !Less(entries[best], entries[index]) {
          forall k | 0 < k < |entries| && Parent(k) == index ensures AtMost(entries[index], entries[k]) {
            AtMostTrans(entries[index], entries[best], entries[k]);
          }
          DownFixDone(entries, index);
          break;
        }
        SwapDown(entries, index, best);
        RefinesSwap(entries, index, best, queue);
        entries := Swapped(entries, index, best);
        index := best;
      }
    }

    method RemoveAt(index: nat) returns (removed: Entry)
      requires Valid() && index < |entries|
      modifies this
      ensures Valid() && removed == old(entries[index]) && queue == old(queue) - {removed.event}
    {
      hide Refines, UpFix, DownFix, Heap;
      var last := |entries| - 1;
      Removed(entries, index, queue);
      var a := Swapped(entries, index, last);
      removed := a[last];
      entries := a[..last];
      queue := queue - {removed.event};
      if index < |entries| {
        if index > 0 && Less(entries[index], entries[Parent(index)]) {
          SiftUp(index);
        } else {
          SiftDown(index);
        }
      }
    }

    /** Insert, or move an event that is already queued; a full queue is a panic in the source. */
    method Schedule(deadline: nat, event: TimedEvent)
      requires Valid() && (event in queue || |entries| < capacity)
      modifies this
      ensures Valid() && queue == old(queue)[event := deadline]
    {
      var found := FindEventIndex(event);
      if found.Some? {
        var index := found.value;
        var was := entries[index].deadline;
        ghost var before := entries;
        RefinesMove(entries, index, deadline, queue);
        queue := queue[event := deadline];
        entries := entries[index := Entry(deadline, event)];
        if deadline < was {
          Lowered(before, index, Entry(deadline, event));
          SiftUp(index);
        } else if deadline > was {
          Raised(before, index, Entry(deadline, event));
          SiftDown(index);
        } else {
          assert entries == before;
        }
        return;
      }
      assert |entries| != capacity;
      assert forall i :: 0 <= i < |entries| ==> entries[i].event in queue;
      RefinesPush(entries, Entry(deadline, event), queue);
      Pushed(entries, Entry(deadline, event));
      queue := queue[event := deadline];
      entries := entries + [Entry(deadline, event)];
      SiftUp(|entries| - 1);
    }

    method Cancel(event: TimedEvent) returns (canceled: bool)
      requires Valid()
      modifies this
      ensures Valid() && canceled == (event in old(queue)) && queue == old(queue) - {event}
    {
      var found := FindEventIndex(event);
      if found.None? {
        assert queue - {event} == queue;
        return false;
      }
      var removed := RemoveAt(found.value);
      canceled := true;
    }

    method NextDeadline() returns (deadline: Option<nat>)
      requires Valid()
      ensures deadline == Earliest(queue)
    {
      EarliestOfHeap(entries, queue);
      deadline := if entries == [] then None else Some(entries[0].deadline);
    }

    /** The least expired entry, if any. */
    method PopExpired(now: nat) returns (event: Option<TimedEvent>)
      requires Valid()
      modifies this
      ensures Valid()
      ensures event.None? ==> queue == old(queue) && forall e :: e in queue ==> queue[e] > now
      ensures event.Some? ==>
        && Minimal(old(queue), event.value) && old(queue)[event.value] <= now
        && queue == old(queue) - {event.value}
    {
      if entries == [] {
        assert forall e :: e in queue ==> Has(entries, e);
        return None;
      }
      if entries[0].deadline > now {
        forall e | e in queue ensures queue[e] > now {
          var k :| 0 <= k < |entries| && entries[k].event == e;
          RootLeast(entries, k);
        }
        return None;
      }
      RootMinimal(entries, queue);
      var removed := RemoveAt(0);
      event := Some(removed.event);
    }
  }

  /** Both children of a node are at least the smaller of them. */
  lemma ChildrenOf(a: seq<Entry>, index: nat, best: nat)
    requires index * 2 + 1 < |a|
    requires
      best == if index * 2 + 2 < |a| && Less(a[index * 2 + 2], a[index * 2 + 1]) then index * 2 + 2 else index * 2 + 1
    ensures 0 < best < |a| && Parent(best) == index
    ensures forall k :: 0 < k < |a| && Parent(k) == index ==> AtMost(a[best], a[k])
  {
    forall k | 0 < k < |a| && Parent(k) == index ensures AtMost(a[best], a[k]) {
      assert k == index * 2 + 1 || k == index * 2 + 2;
      if best == index * 2 + 2 { LessAtMost(a[index * 2 + 2], a[index * 2 + 1]); }
    }
  }

  // ----- the map -----

  /** No queued event comes before e. */
  ghost predicate Minimal(q: map<TimedEvent, nat>, e: TimedEvent) {
    e in q && forall x :: x in q ==> AtMost(Entry(q[e], e), Entry(q[x], x))
  }

  lemma RootMinimal(a: seq<Entry>, q: map<TimedEvent, nat>)
    requires Refines(a, q) && Heap(a) && a != []
    ensures Minimal(q, a[0].event)
  {
    forall x | x in q ensures AtMost(Entry(q[a[0].event], a[0].event), Entry(q[x], x)) {
      var k :| 0 <= k < |a| && a[k].event == x;
      RootLeast(a, k);
    }
  }

  ghost predicate IsEarliest(q: map<TimedEvent, nat>, d: nat) {
    (exists e :: e in q && q[e] == d) && forall e :: e in q ==> d <= q[e]
  }

  ghost function Earliest(q: map<TimedEvent, nat>): (r: Option<nat>)
    ensures r.None? ==> forall d :: !IsEarliest(q, d)
    ensures r.Some? ==> IsEarliest(q, r.value)
  {
    if d: nat :| IsEarliest(q, d) then Some(d) else None
  }

  lemma EarliestOfHeap(a: seq<Entry>, q: map<TimedEvent, nat>)
    requires Refines(a, q) && Heap(a)
    ensures Earliest(q) == if a == [] then None else Some(a[0].deadline)
  {
    if a == [] {
      assert forall e :: e in q ==> Has(a, e);
    } else {
      assert a[0].event in q && q[a[0].event] == a[0].deadline;
      forall e | e in q ensures a[0].deadline <= q[e] {
        var k :| 0 <= k < |a| && a[k].event == e;
        RootLeast(a, k);
      }
      assert IsEarliest(q, a[0].deadline);
    }
  }
}
