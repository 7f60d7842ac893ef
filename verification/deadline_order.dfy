/** Ordering and heap shape of the deadline queue (kernel/src/time.rs:113-123, 185-259). */
module DeadlineOrder {
  import opened Base
  import opened Waits
  import opened SchedState

  datatype Entry = Entry(deadline: nat, event: TimedEvent)

  /** Tie-break between events: waits before quanta, then thread, generation, sequence. */
  function SortKey(e: TimedEvent): (nat, nat, nat, nat) {
    match e
    case WaitDeadline(_, token) => (0, token.thread.index, token.thread.generation, token.sequence)
    case QuantumExpired(_, thread) => (1, thread.index, thread.generation, 0)
  }

  predicate KeyLess(a: (nat, nat, nat, nat), b: (nat, nat, nat, nat)) {
    || a.0 < b.0
    || (a.0 == b.0 && (a.1 < b.1 || (a.1 == b.1 && (a.2 < b.2 || (a.2 == b.2 && a.3 < b.3)))))
  }

  predicate Less(a: Entry, b: Entry) {
    a.deadline < b.deadline || (a.deadline == b.deadline && KeyLess(SortKey(a.event), SortKey(b.event)))
  }

  /** An event of one CPU: a wait deadline carries the CPU of its token. */
  predicate Owned(cpu: nat, e: TimedEvent) {
    e.cpu == cpu && (e.WaitDeadline? ==> e.token.cpu == cpu)
  }

  predicate AtMost(a: Entry, b: Entry) {
    !Less(b, a)
  }

  lemma AtMostTrans(a: Entry, b: Entry, c: Entry)
    requires AtMost(a, b) && AtMost(b, c)
    ensures AtMost(a, c)
  {
  }

  lemma LessAtMost(a: Entry, b: Entry)
    requires Less(a, b)
    ensures AtMost(a, b)
  {
  }

  /** On the events of one CPU the order is total: a tie is the same entry. */
  lemma OwnedTotal(cpu: nat, a: Entry, b: Entry)
    requires Owned(cpu, a.event) && Owned(cpu, b.event) && AtMost(a, b) && AtMost(b, a)
    ensures a == b
  {
  }

  // ----- binary heap in a sequence -----

  function Parent(i: nat): nat
    requires i > 0
  {
    (i - 1) / 2
  }

  predicate OrderedAt(a: seq<Entry>, k: nat) {
    0 < k < |a| ==> AtMost(a[Parent(k)], a[k])
  }

  ghost predicate Heap(a: seq<Entry>) {
    forall k: nat :: OrderedAt(a, k)
  }

  /** The parent of i, if it has one, is at most entry k below i. */
  predicate SkipAt(a: seq<Entry>, i: nat, k: nat) {
    0 < i < |a| && 0 < k < |a| && Parent(k) == i ==> AtMost(a[Parent(i)], a[k])
  }

  /** Heap order except that entry i may be smaller than its parent. */
  ghost predicate UpFix(a: seq<Entry>, i: nat) {
    forall k: nat {:trigger OrderedAt(a, k)} {:trigger SkipAt(a, i, k)} ::
      (k != i ==> OrderedAt(a, k)) && SkipAt(a, i, k)
  }

  /** Heap order except that entry i may be larger than its children. */
  ghost predicate DownFix(a: seq<Entry>, i: nat) {
    forall k: nat {:trigger OrderedAt(a, k)} {:trigger SkipAt(a, i, k)} ::
      (k > 0 && Parent(k) != i ==> OrderedAt(a, k)) && SkipAt(a, i, k)
  }

  function Swapped(a: seq<Entry>, i: nat, j: nat): seq<Entry>
    requires i < |a| && j < |a|
  {
    a[i := a[j]][j := a[i]]
  }

  lemma {:induction false} RootLeast(a: seq<Entry>, i: nat)
    requires Heap(a) && i < |a|
    ensures AtMost(a[0], a[i])
    decreases i
  {
    if i > 0 {
      RootLeast(a, Parent(i));
      assert OrderedAt(a, i);
      AtMostTrans(a[0], a[Parent(i)], a[i]);
    }
  }

  lemma SwapUp(a: seq<Entry>, i: nat)
    requires 0 < i < |a| && UpFix(a, i) && Less(a[i], a[Parent(i)])
    ensures UpFix(Swapped(a, i, Parent(i)), Parent(i))
  {
    var p, b := Parent(i), Swapped(a, i, Parent(i));
    LessAtMost(a[i], a[p]);
    forall k: nat ensures (k != p ==> OrderedAt(b, k)) && SkipAt(b, p, k) {
      assert OrderedAt(a, p) && SkipAt(a, i, k) && (k != i ==> OrderedAt(a, k));
      if 0 < k < |a| && k != i && Parent(k) == p {
        AtMostTrans(a[i], a[p], a[k]);
        if p > 0 { AtMostTrans(a[Parent(p)], a[p], a[k]); }
      }
    }
  }

  lemma SwapDown(a: seq<Entry>, i: nat, best: nat)
    requires DownFix(a, i) && 0 < best < |a| && Parent(best) == i && Less(a[best], a[i])
    requires forall k :: 0 < k < |a| && Parent(k) == i ==> AtMost(a[best], a[k])
    ensures DownFix(Swapped(a, i, best), best)
  {
    var b := Swapped(a, i, best);
    LessAtMost(a[best], a[i]);
    forall k: nat ensures (k > 0 && Parent(k) != best ==> OrderedAt(b, k)) && SkipAt(b, best, k) {
      assert SkipAt(a, i, k) && SkipAt(a, i, best) && (k > 0 && Parent(k) != i ==> OrderedAt(a, k));
      if i > 0 { assert OrderedAt(a, i); }
    }
  }

  lemma DownFixDone(a: seq<Entry>, i: nat)
    requires i < |a| && DownFix(a, i) && forall k :: 0 < k < |a| && Parent(k) == i ==> AtMost(a[i], a[k])
    ensures Heap(a)
  {
    forall k: nat ensures OrderedAt(a, k) { assert SkipAt(a, i, k); }
  }

  lemma Lowered(a: seq<Entry>, i: nat, e: Entry)
    requires Heap(a) && i < |a| && AtMost(e, a[i])
    ensures UpFix(a[i := e], i)
  {
    var b := a[i := e];
    forall k: nat ensures (k != i ==> OrderedAt(b, k)) && SkipAt(b, i, k) {
      assert OrderedAt(a, k) && OrderedAt(a, i);
      if 0 < k < |a| && Parent(k) == i {
        AtMostTrans(e, a[i], a[k]);
        if i > 0 { AtMostTrans(a[Parent(i)], a[i], a[k]); }
      }
    }
  }

  lemma Raised(a: seq<Entry>, i: nat, e: Entry)
    requires Heap(a) && i < |a| && AtMost(a[i], e)
    ensures DownFix(a[i := e], i)
  {
    var b := a[i := e];
    forall k: nat ensures (k > 0 && Parent(k) != i ==> OrderedAt(b, k)) && SkipAt(b, i, k) {
      assert OrderedAt(a, k) && OrderedAt(a, i);
      if k == i && i > 0 { AtMostTrans(a[Parent(i)], a[i], e); }
      if 0 < k < |a| && Parent(k) == i && i > 0 { AtMostTrans(a[Parent(i)], a[i], a[k]); }
    }
  }

  lemma Pushed(a: seq<Entry>, e: Entry)
    requires Heap(a)
    ensures UpFix(a + [e], |a|)
  {
    var b := a + [e];
    forall k: nat ensures (k != |a| ==> OrderedAt(b, k)) && SkipAt(b, |a|, k) { assert OrderedAt(a, k); }
  }

  lemma DropLast(a: seq<Entry>)
    requires Heap(a) && a != []
    ensures Heap(a[..|a| - 1])
  {
    var b := a[..|a| - 1];
    forall k: nat ensures OrderedAt(b, k) { assert OrderedAt(a, k); }
  }

  lemma SwapPop(a: seq<Entry>, i: nat)
    requires i < |a|
    ensures var last := |a| - 1;
      && Swapped(a, i, last)[last] == a[i]
      && Swapped(a, i, last)[..last] == if i < last then a[i := a[last]][..last] else a[..last]
  {
  }

  /** The last entry moved into the hole at i; which way it has to travel. */
  lemma Moved(a: seq<Entry>, i: nat)
    requires Heap(a) && i < |a| - 1
    ensures
      var b := a[i := a[|a| - 1]][..|a| - 1];
      if i > 0 && Less(b[i], b[Parent(i)]) then UpFix(b, i) else DownFix(b, i)
  {
    var b := a[i := a[|a| - 1]][..|a| - 1];
    var up := i > 0 && Less(b[i], b[Parent(i)]);
    if up { LessAtMost(b[i], a[Parent(i)]); }
    forall k: nat ensures (up && k != i) || (!up && k > 0 && Parent(k) != i) ==> OrderedAt(b, k) {
      assert OrderedAt(a, k) && OrderedAt(a, i);
      if up && 0 < k < |b| && Parent(k) == i {
        AtMostTrans(a[Parent(i)], a[i], a[k]);
        AtMostTrans(b[i], a[Parent(i)], a[k]);
      }
    }
    forall k: nat ensures SkipAt(b, i, k) {
      assert OrderedAt(a, k) && OrderedAt(a, i);
      if 0 < k < |b| && Parent(k) == i && i > 0 { AtMostTrans(a[Parent(i)], a[i], a[k]); }
    }
  }
}
