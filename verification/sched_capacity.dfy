/**
  Room in the fixed queues (kernel/src/sched/transition.rs:618-631, 818-840, 854-874).

  A ready queue and a remote ingress hold capacity - 1 entries. Queued threads own distinct
  slots, and the idle thread is never queued, so a push of one more thread always fits.
 */
module SchedCapacity {
  import opened Base
  import opened SchedState
  import opened SchedInvariant
  import opened Counting

  ghost function Indices(q: seq<ThreadId>): set<nat> {
    set id | id in q :: id.index
  }

  ghost predicate DistinctIndices(q: seq<ThreadId>) {
    forall i, j :: 0 <= i < j < |q| ==> q[i].index != q[j].index
  }

  lemma {:induction false} IndexCount(q: seq<ThreadId>)
    requires DistinctIndices(q)
    ensures |Indices(q)| == |q|
    decreases |q|
  {
    if q != [] {
      var rest := q[1..];
      IndexCount(rest);
      assert q == [q[0]] + rest;
      assert Indices(q) == {q[0].index} + Indices(rest);
      assert q[0].index !in Indices(rest);
    }
  }

  /** Pigeonhole: threads in distinct slots are no more than the slots. */
  lemma DistinctFit(q: seq<ThreadId>, n: nat)
    requires DistinctIndices(q) && forall id :: id in q ==> id.index < n
    ensures |q| <= n
  {
    IndexCount(q);
    SubsetCount(Indices(q), Below(n));
  }

  lemma CountTwice(q: seq<ThreadId>, i: nat, j: nat)
    requires i < j < |q| && q[i] == q[j]
    ensures multiset(q)[q[i]] >= 2
  {
    assert q == q[..i] + [q[i]] + q[i + 1..j] + [q[j]] + q[j + 1..];
  }

  /** Every entry of the two queues of a CPU names a queued thread, in a slot of its own. */
  lemma QueuedDistinct(s: Sched, c: nat)
    requires Inv(s) && c < |s.cpus|
    ensures var q := s.cpus[c].ready + s.cpus[c].remote;
      DistinctIndices(q) && forall id :: id in q ==> Queued(s, c, id)
  {
    var q := s.cpus[c].ready + s.cpus[c].remote;
    assert QueuesExact(s, c);
    assert multiset(q) == multiset(s.cpus[c].ready) + multiset(s.cpus[c].remote);
    forall id | id in q ensures Queued(s, c, id) {
      assert multiset(q)[id] > 0;
      assert Count(s.cpus[c], id) == multiset(q)[id];
    }
    forall i, j | 0 <= i < j < |q| ensures q[i].index != q[j].index {
      assert q[i] in q && q[j] in q;
      assert Count(s.cpus[c], q[i]) == multiset(q)[q[i]];
      if q[i] == q[j] { CountTwice(q, i, j); }
    }
  }

  /** With an idle thread and one further slot that is not queued, one more push fits. */
  lemma QueueRoom(s: Sched, c: nat, extra: nat)
    requires Inv(s) && c < |s.cpus| && s.cpus[c].idle.Some?
    requires extra < |s.slots| && extra != s.cpus[c].idle.value.index
    requires forall id: ThreadId :: id.index == extra ==> !Queued(s, c, id)
    ensures |s.cpus[c].ready| + |s.cpus[c].remote| + 2 <= s.capacity
    ensures forall id :: id in s.cpus[c].ready || id in s.cpus[c].remote ==> id.index != extra
  {
    var q := s.cpus[c].ready + s.cpus[c].remote;
    QueuedDistinct(s, c);
    assert CpuOk(s, c);
    forall id | id in s.cpus[c].ready || id in s.cpus[c].remote ensures id.index != extra { assert id in q; }
    assert forall id :: id in q ==> id.index != extra && id.index != s.cpus[c].idle.value.index;
    var full := q + [s.cpus[c].idle.value] + [ThreadId(extra, 0)];
    forall i, j | 0 <= i < j < |full| ensures full[i].index != full[j].index {
      if i < |q| { assert full[i] == q[i] && q[i] in q; }
    }
    DistinctFit(full, |s.slots|);
  }

  /** Room for a live thread that is not queued on c and is not the idle thread of c. */
  lemma ThreadRoom(s: Sched, c: nat, id: ThreadId)
    requires Inv(s) && c < |s.cpus| && s.cpus[c].idle.Some? && Live(s, id)
    requires !Queued(s, c, id) && s.cpus[c].idle != Some(id)
    ensures |s.cpus[c].ready| + |s.cpus[c].remote| + 2 <= s.capacity
    ensures forall x :: x in s.cpus[c].ready || x in s.cpus[c].remote ==> x.index != id.index
  {
    assert CpuOk(s, c);
    QueueRoom(s, c, id.index);
  }

  /** All queued threads of a CPU with an idle thread fit in its ready queue. */
  lemma QueueFit(s: Sched, c: nat)
    requires Inv(s) && c < |s.cpus| && s.cpus[c].idle.Some?
    ensures |s.cpus[c].ready| + |s.cpus[c].remote| + 1 <= s.capacity
  {
    var q := s.cpus[c].ready + s.cpus[c].remote;
    QueuedDistinct(s, c);
    assert CpuOk(s, c);
    var full := q + [s.cpus[c].idle.value];
    forall i, j | 0 <= i < j < |full| ensures full[i].index != full[j].index {
      assert full[i] == q[i] && q[i] in q;
    }
    DistinctFit(full, |s.slots|);
  }
}
