/**
  Framing for transitions: a step that touches the slots i and j and the CPUs k and l keeps the
  invariant when the touched parts are right and the untouched ones are not disturbed.
 */
module SchedFrame {
  import opened Base
  import opened Waits
  import opened SchedState
  import opened SchedInvariant

  /** Only slots i, j and CPUs k, l may differ. */
  ghost predicate Touches(s: Sched, s': Sched, i: nat, j: nat, k: nat, l: nat) {
    && s'.capacity == s.capacity
    && |s'.slots| == |s.slots| && |s'.cpus| == |s.cpus|
    && i < |s.slots| && j < |s.slots| && k < |s.cpus| && l < |s.cpus|
    && (forall n :: 0 <= n < |s.slots| && n != i && n != j ==> s'.slots[n] == s.slots[n])
    && (forall n :: 0 <= n < |s.cpus| && n != k && n != l ==> s'.cpus[n] == s.cpus[n])
  }

  /** An optional identity changes only between threads of the touched slots. */
  predicate Within(o: Option<ThreadId>, o': Option<ThreadId>, i: nat, j: nat) {
    o == o' || ((o.Some? ==> o.value.index == i || o.value.index == j)
                && (o'.Some? ==> o'.value.index == i || o'.value.index == j))
  }

  ghost predicate CpuKept(x: Cpu, x': Cpu, i: nat, j: nat) {
    && Within(x.current, x'.current, i, j)
    && Within(x.idle, x'.idle, i, j)
    && Within(x.retired, x'.retired, i, j)
    && (x.online ==> x'.online)
    && (forall id: ThreadId :: id.index != i && id.index != j ==> Count(x', id) == Count(x, id))
  }

  /** Thread data that a CPU's own conditions depend on. */
  predicate SlotKept(a: Slot, b: Slot) {
    && a.generation == b.generation
    && (a.thread.Some? <==> b.thread.Some?)
    && (a.thread.Some? ==>
          && a.thread.value.home == b.thread.value.home
          && a.thread.value.state == b.thread.value.state
          && a.thread.value.joinable == b.thread.value.joinable)
  }

  predicate HomeIn(x: Slot, k: nat, l: nat) {
    x.thread.Some? ==> x.thread.value.home == k || x.thread.value.home == l
  }

  /** A touched slot belongs to a touched CPU before and after, or kept what its CPU sees. */
  predicate SlotFits(s: Sched, s': Sched, i: nat, k: nat, l: nat)
    requires i < |s.slots| && i < |s'.slots|
  {
    SlotKept(s.slots[i], s'.slots[i]) || (HomeIn(s.slots[i], k, l) && HomeIn(s'.slots[i], k, l))
  }

  lemma FrameThreads(s: Sched, s': Sched, i: nat, j: nat, k: nat, l: nat)
    requires Inv(s) && Touches(s, s', i, j, k, l)
    requires CpuKept(s.cpus[k], s'.cpus[k], i, j) && CpuKept(s.cpus[l], s'.cpus[l], i, j)
    requires forall id: ThreadId :: Live(s', id) && At(s', id).joiner.Some? ==>
      JoinerBlocked(s', At(s', id).joiner.value)
    ensures forall id: ThreadId {:trigger ThreadOk(s', id)} :: Live(s', id) && id.index != i && id.index != j ==>
      ThreadOk(s', id)
  {
    forall id: ThreadId | Live(s', id) && id.index != i && id.index != j
      ensures ThreadOk(s', id)
    {
      assert s'.slots[id.index] == s.slots[id.index];
      assert Live(s, id) && ThreadOk(s, id);
    }
  }

  lemma FrameCpu(s: Sched, s': Sched, i: nat, j: nat, k: nat, l: nat, n: nat)
    requires Inv(s) && Touches(s, s', i, j, k, l)
    requires SlotFits(s, s', i, k, l) && SlotFits(s, s', j, k, l)
    requires n < |s.cpus| && n != k && n != l
    ensures CpuOk(s', n)
  {
    assert s'.cpus[n] == s.cpus[n];
    assert CpuOk(s, n);
    forall id: ThreadId | Live(s, id) && At(s, id).home == n
      ensures Live(s', id) && At(s', id).home == n && At(s', id).state == At(s, id).state
              && At(s', id).joinable == At(s, id).joinable
    {
      if id.index != i && id.index != j { assert s'.slots[id.index] == s.slots[id.index]; }
    }
  }

  lemma FrameQueue(s: Sched, s': Sched, i: nat, j: nat, k: nat, l: nat, n: nat)
    requires Inv(s) && Touches(s, s', i, j, k, l)
    requires SlotFits(s, s', i, k, l) && SlotFits(s, s', j, k, l)
    requires n < |s.cpus|
    requires n == k || n == l ==> CpuKept(s.cpus[n], s'.cpus[n], i, j)
    requires n == k || n == l ==> forall id: ThreadId :: id.index == i || id.index == j ==>
                                  Count(s'.cpus[n], id) == if Queued(s', n, id) then 1 else 0
    ensures QueuesExact(s', n)
  {
    assert QueuesExact(s, n);
    forall id: ThreadId ensures Count(s'.cpus[n], id) == if Queued(s', n, id) then 1 else 0 {
      if id.index != i && id.index != j {
        assert Live(s', id) <==> Live(s, id) by {
          if id.index < |s.slots| { assert s'.slots[id.index] == s.slots[id.index]; }
        }
        assert Queued(s', n, id) <==> Queued(s, n, id);
        assert Count(s'.cpus[n], id) == Count(s.cpus[n], id);
      } else if n != k && n != l {
        assert s'.cpus[n] == s.cpus[n];
        assert Count(s.cpus[n], id) == if Queued(s, n, id) then 1 else 0;
        assert Queued(s', n, id) <==> Queued(s, n, id);
      }
    }
  }

  /** Everything a step has to establish about the parts it touches. */
  ghost predicate TouchedOk(s: Sched, s': Sched, i: nat, j: nat, k: nat, l: nat)
    requires Touches(s, s', i, j, k, l)
  {
    && FreeExact(s')
    && (s'.slots[i].stackParked <==> s'.slots[i].thread.None?)
    && (s'.slots[j].stackParked <==> s'.slots[j].thread.None?)
    && (s'.slots[i].thread.Some? ==> ThreadOk(s', ThreadId(i, s'.slots[i].generation)))
    && (s'.slots[j].thread.Some? ==> ThreadOk(s', ThreadId(j, s'.slots[j].generation)))
    && CpuOk(s', k) && CpuOk(s', l)
  }

  ghost predicate JoinersOk(s: Sched) {
    && (forall id: ThreadId :: JoinerOf(s, id).Some? ==> JoinerBlocked(s, JoinerOf(s, id).value))
    && (forall a: ThreadId, b: ThreadId ::
          a != b && JoinerOf(s, a).Some? && JoinerOf(s, b).Some? ==> JoinerOf(s, a) != JoinerOf(s, b))
  }

  /** Counts of the touched threads in a touched CPU. */
  ghost predicate CountsOk(s: Sched, n: nat, i: nat)
    requires n < |s.cpus|
  {
    forall id: ThreadId :: id.index == i ==> Count(s.cpus[n], id) == if Queued(s, n, id) then 1 else 0
  }

  lemma FrameAllThreads(s: Sched, s': Sched, i: nat, j: nat, k: nat, l: nat)
    requires Inv(s) && Touches(s, s', i, j, k, l)
    requires CpuKept(s.cpus[k], s'.cpus[k], i, j) && CpuKept(s.cpus[l], s'.cpus[l], i, j)
    requires s'.slots[i].thread.Some? ==> ThreadOk(s', ThreadId(i, s'.slots[i].generation))
    requires s'.slots[j].thread.Some? ==> ThreadOk(s', ThreadId(j, s'.slots[j].generation))
    requires JoinersOk(s')
    ensures forall id: ThreadId {:trigger ThreadOk(s', id)} :: Live(s', id) ==> ThreadOk(s', id)
  {
    assert forall id: ThreadId :: Live(s', id) ==> JoinerOf(s', id) == At(s', id).joiner;
    FrameThreads(s, s', i, j, k, l);
    forall id: ThreadId | Live(s', id) ensures ThreadOk(s', id) {
      if id.index == i || id.index == j { assert id == ThreadId(id.index, s'.slots[id.index].generation); }
    }
  }

  lemma FrameAllCpus(s: Sched, s': Sched, i: nat, j: nat, k: nat, l: nat)
    requires Inv(s) && Touches(s, s', i, j, k, l)
    requires SlotFits(s, s', i, k, l) && SlotFits(s, s', j, k, l)
    requires CpuOk(s', k) && CpuOk(s', l)
    ensures forall n: nat {:trigger s'.cpus[n]} {:trigger CpuOk(s', n)} :: n < |s'.cpus| ==> CpuOk(s', n)
  {
    forall n: nat | n < |s'.cpus| ensures CpuOk(s', n) {
      if n != k && n != l { FrameCpu(s, s', i, j, k, l, n); }
    }
  }

  lemma FrameAllQueues(s: Sched, s': Sched, i: nat, j: nat, k: nat, l: nat)
    requires Inv(s) && Touches(s, s', i, j, k, l)
    requires CpuKept(s.cpus[k], s'.cpus[k], i, j) && CpuKept(s.cpus[l], s'.cpus[l], i, j)
    requires SlotFits(s, s', i, k, l) && SlotFits(s, s', j, k, l)
    requires CountsOk(s', k, i) && CountsOk(s', k, j) && CountsOk(s', l, i) && CountsOk(s', l, j)
    ensures forall n: nat :: n < |s'.cpus| ==> QueuesExact(s', n)
  {
    forall n: nat | n < |s'.cpus| ensures QueuesExact(s', n) {
      FrameQueue(s, s', i, j, k, l, n);
    }
  }

  lemma FrameInv(s: Sched, s': Sched, i: nat, j: nat, k: nat, l: nat)
    requires Inv(s) && Touches(s, s', i, j, k, l)
    requires CpuKept(s.cpus[k], s'.cpus[k], i, j) && CpuKept(s.cpus[l], s'.cpus[l], i, j)
    requires SlotFits(s, s', i, k, l) && SlotFits(s, s', j, k, l)
    requires TouchedOk(s, s', i, j, k, l)
    requires CountsOk(s', k, i) && CountsOk(s', k, j) && CountsOk(s', l, i) && CountsOk(s', l, j)
    requires JoinersOk(s')
    ensures Inv(s')
  {
    hide CpuKept, SlotFits, CountsOk, ThreadOk, CpuOk, QueuesExact, FreeExact;
    FrameAllThreads(s, s', i, j, k, l);
    FrameAllCpus(s, s', i, j, k, l);
    FrameAllQueues(s, s', i, j, k, l);
    assert forall n :: 0 <= n < |s'.slots| ==> (s'.slots[n].stackParked <==> s'.slots[n].thread.None?);
  }
}
