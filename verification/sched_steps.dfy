/**
  Every transition keeps the invariant: handoff, wait preparation, commit, completion, finish and
  cancel, release, publication of threads, first dispatch.
 */
module SchedSteps {
  import opened Base
  import opened Waits
  import opened SchedState
  import opened SchedInvariant
  import opened SchedFrame

  lemma SeqFront<T>(q: seq<T>)
    requires q != []
    ensures multiset(q) == multiset{q[0]} + multiset(q[1..])
  {
    assert q == [q[0]] + q[1..];
  }

  lemma FrontQueued(s: Sched, c: nat)
    requires Inv(s) && c < |s.cpus| && s.cpus[c].ready != []
    ensures Queued(s, c, s.cpus[c].ready[0])
  {
    var id := s.cpus[c].ready[0];
    assert QueuesExact(s, c);
    assert id in multiset(s.cpus[c].ready);
    assert Count(s.cpus[c], id) >= 1;
  }

  /** A step that leaves every joiner field and the waits of all joiners alone. */
  lemma JoinersKept(s: Sched, s': Sched)
    requires Inv(s)
    requires forall id: ThreadId :: JoinerOf(s', id) == JoinerOf(s, id)
    requires forall token: WaitToken :: JoinerBlocked(s, token) ==> JoinerBlocked(s', token)
    ensures JoinersOk(s')
  {
    forall id: ThreadId | JoinerOf(s', id).Some? ensures JoinerBlocked(s', JoinerOf(s', id).value) {
      assert Live(s, id) && ThreadOk(s, id);
    }
  }

  // ----- handoff -----

  /** The value t with which the current thread may leave the CPU. */
  predicate MayLeave(s: Sched, c: nat, t: Thread)
    requires HasCurrent(s, c)
  {
    var o := At(s, Current(s, c));
    && t == o.(state := t.state, exitCode := t.exitCode, wait := t.wait)
    && !t.state.Running?
    && WaitOk(Current(s, c), t)
    && (t.state.Exited? ==> t.exitCode.Some? && s.cpus[c].retired.None? && t.joinResult.None? && t.reaped.None?)
    && (t.state.Blocked? || t.state.Exited? ==> s.cpus[c].online && s.cpus[c].idle != Some(Current(s, c)))
  }

  lemma HandoffJoiners(s: Sched, c: nat, t: Thread)
    requires Inv(s) && HasCurrent(s, c) && HasNext(s, c) && Next(s, c).index != Current(s, c).index
    requires MayLeave(s, c, t)
    ensures JoinersOk(Handoff(s, c, t))
  {
    var s' := Handoff(s, c, t);
    var from, to := Current(s, c), Next(s, c);
    assert CpuOk(s, c) && ThreadOk(s, from);
    forall id: ThreadId ensures JoinerOf(s', id) == JoinerOf(s, id) {}
    forall token: WaitToken | JoinerBlocked(s, token) ensures JoinerBlocked(s', token) {
      assert ThreadOk(s, token.thread);
    }
    JoinersKept(s, s');
  }

  /** How a handoff moves the counts of its CPU: one thread out in front, perhaps one in behind. */
  lemma HandoffCount(s: Sched, c: nat, t: Thread, id: ThreadId)
    requires HasCurrent(s, c) && HasNext(s, c) && Next(s, c).index != Current(s, c).index
    ensures
      var x := s.cpus[c];
      Count(Handoff(s, c, t).cpus[c], id) == Count(x, id) - (if x.ready != [] && id == Next(s, c) then 1 else 0)
        + (if t.state.Ready? && x.idle != Some(Current(s, c)) && id == Current(s, c) then 1 else 0)
  {
    if s.cpus[c].ready != [] { SeqFront(s.cpus[c].ready); }
  }

  lemma HandoffQueued(s: Sched, c: nat, t: Thread, id: ThreadId)
    requires HasCurrent(s, c) && HasNext(s, c) && Next(s, c).index != Current(s, c).index && CpuOk(s, c)
    requires t.home == c && (s.cpus[c].ready != [] ==> Queued(s, c, Next(s, c)))
    requires id.index == Current(s, c).index || id.index == Next(s, c).index
    requires Count(s.cpus[c], id) == if Queued(s, c, id) then 1 else 0
    ensures
      var s' := Handoff(s, c, t);
      Count(s'.cpus[c], id) == if Queued(s', c, id) then 1 else 0
  {
    hide Count;
    HandoffCount(s, c, t, id);
  }

  lemma HandoffCounts(s: Sched, c: nat, t: Thread)
    requires Inv(s) && HasCurrent(s, c) && HasNext(s, c) && Next(s, c).index != Current(s, c).index
    requires MayLeave(s, c, t)
    ensures var s' := Handoff(s, c, t);
      CpuKept(s.cpus[c], s'.cpus[c], Current(s, c).index, Next(s, c).index)
      && CountsOk(s', c, Current(s, c).index) && CountsOk(s', c, Next(s, c).index)
  {
    hide Inv, WaitOk, Count, Queued, CpuOk, QueuesExact;
    if s.cpus[c].ready != [] { FrontQueued(s, c); }
    CpuFacts(s, c);
    CurrentHome(s, c);
    QueueFacts(s, c);
    var s', from, to := Handoff(s, c, t), Current(s, c), Next(s, c);
    forall id: ThreadId ensures
      if id.index == from.index || id.index == to.index
      then Count(s'.cpus[c], id) == if Queued(s', c, id) then 1 else 0
      else Count(s'.cpus[c], id) == Count(s.cpus[c], id)
    {
      HandoffCount(s, c, t, id);
      if id.index == from.index || id.index == to.index {
        CountFact(s, c, id);
        HandoffQueued(s, c, t, id);
      }
    }
  }

  lemma CurrentHome(s: Sched, c: nat)
    requires HasCurrent(s, c) && CpuOk(s, c)
    ensures At(s, Current(s, c)).home == c
  {
  }

  lemma HandoffTouched(s: Sched, s': Sched, c: nat, t: Thread)
    requires HasCurrent(s, c) && HasNext(s, c) && Next(s, c).index != Current(s, c).index
    requires CpuOk(s, c) && ThreadOk(s, Current(s, c)) && ThreadOk(s, Next(s, c)) && FreeExact(s)
    requires At(s, Next(s, c)).state.Ready? && At(s, Next(s, c)).home == c
    requires s.slots[Current(s, c).index].stackParked <==> s.slots[Current(s, c).index].thread.None?
    requires s.slots[Next(s, c).index].stackParked <==> s.slots[Next(s, c).index].thread.None?
    requires MayLeave(s, c, t)
    requires s' == Handoff(s, c, t)
    requires forall id: ThreadId :: JoinerOf(s', id).Some? ==> JoinerBlocked(s', JoinerOf(s', id).value)
    ensures Touches(s, s', Current(s, c).index, Next(s, c).index, c, c)
    ensures TouchedOk(s, s', Current(s, c).index, Next(s, c).index, c, c)
  {
    var from, to := Current(s, c), Next(s, c);
    hide WaitOk, JoinerBlocked;
    assert Live(s', from) && Live(s', to);
    assert JoinerOf(s', from) == t.joiner && JoinerOf(s', to) == At(s, to).joiner;
    assert ThreadOk(s', from);
    assert ThreadOk(s', to);
  }

  /** The thread that a handoff selects is ready at home. */
  lemma NextReady(s: Sched, c: nat)
    requires Inv(s) && HasNext(s, c) && (s.cpus[c].current.None? || Next(s, c).index != Current(s, c).index)
    requires s.cpus[c].current.Some? ==> HasCurrent(s, c)
    ensures At(s, Next(s, c)).state.Ready? && At(s, Next(s, c)).home == c
  {
    if s.cpus[c].ready != [] { FrontQueued(s, c); }
    assert CpuOk(s, c) && ThreadOk(s, Next(s, c));
  }

  lemma HandoffInv(s: Sched, c: nat, t: Thread)
    requires Inv(s) && HasCurrent(s, c) && HasNext(s, c) && Next(s, c).index != Current(s, c).index
    requires MayLeave(s, c, t)
    ensures Inv(Handoff(s, c, t))
  {
    hide Inv, CpuKept, CountsOk, ThreadOk, TouchedOk, Touches, FreeExact, WaitOk;
    var s' := Handoff(s, c, t);
    var from, to := Current(s, c), Next(s, c);
    NextReady(s, c);
    CpuFacts(s, c);
    CurrentHome(s, c);
    ThreadFacts(s, from);
    ThreadFacts(s, to);
    FreeFacts(s);
    StackFacts(s, from.index);
    StackFacts(s, to.index);
    HandoffJoiners(s, c, t);
    HandoffCounts(s, c, t);
    HandoffTouched(s, s', c, t);
    FrameInv(s, s', from.index, to.index, c, c);
  }

  // ----- updates of one thread or one CPU record -----

  lemma PutInv(s: Sched, id: ThreadId, t: Thread)
    requires Inv(s) && Live(s, id)
    requires t.home == At(s, id).home && t.state == At(s, id).state && t.joinable == At(s, id).joinable
    requires ThreadOk(Put(s, id, t), id) && JoinersOk(Put(s, id, t))
    ensures Inv(Put(s, id, t))
  {
    var s' := Put(s, id, t);
    assert ThreadOk(s, id) && CpuOk(s, t.home) && QueuesExact(s, t.home);
    assert forall x: ThreadId :: Live(s', x) <==> Live(s, x);
    forall x: ThreadId | x.index == id.index
      ensures Count(s'.cpus[t.home], x) == if Queued(s', t.home, x) then 1 else 0
    {
      assert Count(s.cpus[t.home], x) == if Queued(s, t.home, x) then 1 else 0;
    }
    FrameInv(s, s', id.index, id.index, t.home, t.home);
  }

  /** A CPU record may change in its flags and in the order or place of queued threads. */
  lemma PutCpuInv(s: Sched, c: nat, x: Cpu)
    requires Inv(s) && c < |s.cpus|
    requires x.current == s.cpus[c].current && x.idle == s.cpus[c].idle && x.retired == s.cpus[c].retired
    requires s.cpus[c].online ==> x.online
    requires forall id: ThreadId :: Count(x, id) == Count(s.cpus[c], id)
    requires CpuOk(PutCpu(s, c, x), c)
    ensures Inv(PutCpu(s, c, x))
  {
    var s' := PutCpu(s, c, x);
    assert forall id: ThreadId :: Live(s', id) <==> Live(s, id);
    forall id: ThreadId | Live(s', id) ensures ThreadOk(s', id) {
      assert ThreadOk(s, id);
    }
    forall n: nat | n < |s'.cpus| ensures CpuOk(s', n) {
      if n != c { assert CpuOk(s, n); }
    }
    forall n: nat | n < |s'.cpus| ensures QueuesExact(s', n) {
      assert QueuesExact(s, n);
      forall id: ThreadId ensures Count(s'.cpus[n], id) == if Queued(s', n, id) then 1 else 0 {
        assert Count(s.cpus[n], id) == if Queued(s, n, id) then 1 else 0;
      }
    }
    assert forall id: ThreadId :: JoinerOf(s', id) == JoinerOf(s, id);
  }

  // ----- wake -----

  /** No live thread waits for this token to deliver a join. */
  ghost predicate NotJoin(s: Sched, token: WaitToken) {
    forall id: ThreadId :: JoinerOf(s, id) != Some(token)
  }

  lemma WakeCounts(s: Sched, c: nat, id: ThreadId, w: WaitMetadata, notify: bool)
    requires Inv(s) && c < |s.cpus| && Live(s, id) && At(s, id).state.Blocked? && At(s, id).home < |s.cpus|
    ensures var s' := Wake(s, c, id, w, notify);
      CpuKept(s.cpus[At(s, id).home], s'.cpus[At(s, id).home], id.index, id.index)
      && CountsOk(s', At(s, id).home, id.index)
  {
    var s', h := Wake(s, c, id, w, notify), At(s, id).home;
    assert ThreadOk(s, id) && CpuOk(s, h) && QueuesExact(s, h);
    forall x: ThreadId ensures Count(s'.cpus[h], x) == Count(s.cpus[h], x) + (if x == id then 1 else 0) {}
    forall x: ThreadId | x.index == id.index ensures Count(s'.cpus[h], x) == if Queued(s', h, x) then 1 else 0 {
      assert Count(s.cpus[h], x) == if Queued(s, h, x) then 1 else 0;
    }
  }

  lemma WakeJoiners(s: Sched, c: nat, id: ThreadId, w: WaitMetadata, notify: bool)
    requires Inv(s) && c < |s.cpus| && Live(s, id) && At(s, id).home < |s.cpus|
    requires At(s, id).wait.active.Some? ==> NotJoin(s, At(s, id).wait.active.value.token)
    ensures JoinersOk(Wake(s, c, id, w, notify))
  {
    var s' := Wake(s, c, id, w, notify);
    assert forall x: ThreadId :: JoinerOf(s', x) == JoinerOf(s, x);
    forall x: ThreadId | JoinerOf(s', x).Some? ensures JoinerBlocked(s', JoinerOf(s', x).value) {
      assert ThreadOk(s, x);
      var token := JoinerOf(s, x).value;
      assert At(s, id).wait.active.Some? ==> JoinerOf(s, x) != Some(At(s, id).wait.active.value.token);
    }
  }

  lemma WakeTouched(s: Sched, s': Sched, c: nat, id: ThreadId, w: WaitMetadata, notify: bool)
    requires c < |s.cpus| && Live(s, id) && At(s, id).state.Blocked? && ThreadOk(s, id)
    requires CpuOk(s, At(s, id).home) && FreeExact(s)
    requires s.slots[id.index].stackParked <==> s.slots[id.index].thread.None?
    requires WaitOk(id, At(s, id).(state := Ready, wait := w))
    requires s' == Wake(s, c, id, w, notify) && JoinersOk(s')
    ensures var h := At(s, id).home;
      Touches(s, s', id.index, id.index, h, h) && TouchedOk(s, s', id.index, id.index, h, h)
  {
    hide WaitOk, JoinerBlocked;
    assert Live(s', id) && JoinerOf(s', id) == At(s, id).joiner;
    assert ThreadOk(s', id);
  }

  lemma WakeInv(s: Sched, c: nat, id: ThreadId, w: WaitMetadata, notify: bool)
    requires Inv(s) && c < |s.cpus| && Live(s, id) && At(s, id).state.Blocked? && At(s, id).home < |s.cpus|
    requires WaitOk(id, At(s, id).(state := Ready, wait := w))
    requires At(s, id).wait.active.Some? ==> NotJoin(s, At(s, id).wait.active.value.token)
    ensures Inv(Wake(s, c, id, w, notify))
  {
    var s', h := Wake(s, c, id, w, notify), At(s, id).home;
    assert ThreadOk(s, id) && CpuOk(s, h);
    WakeJoiners(s, c, id, w, notify);
    WakeCounts(s, c, id, w, notify);
    WakeTouched(s, s', c, id, w, notify);
    FrameInv(s, s', id.index, id.index, h, h);
  }

  lemma CompleteWaitInv(s: Sched, c: nat, token: WaitToken, cause: WaitCause, notify: bool)
    requires Inv(s) && c < |s.cpus| && NotJoin(s, token)
    requires Live(s, token.thread) ==> At(s, token.thread).home < |s.cpus|
    ensures Inv(CompleteWait(s, c, token, cause, notify).0)
  {
    if Live(s, token.thread) {
      assert ThreadOk(s, token.thread);
      var (w, r) := Complete(At(s, token.thread).wait, token, cause);
      if r.WokeBlocked? {
        WakeInv(s, c, token.thread, w, notify);
      } else {
        WaitUpdateInv(s, token.thread, w);
      }
    }
  }

  /** Wait metadata of a thread may change without moving it, unless it is a joiner's wait. */
  lemma WaitUpdateInv(s: Sched, id: ThreadId, w: WaitMetadata)
    requires Inv(s) && Live(s, id)
    requires w == At(s, id).wait || At(s, id).state.Running?
    requires WaitOk(id, At(s, id).(wait := w))
    ensures Inv(PutWait(s, id, w))
  {
    var s' := PutWait(s, id, w);
    assert ThreadOk(s, id);
    if w == At(s, id).wait {
      assert s'.slots == s.slots;
    } else {
      assert forall x: ThreadId :: JoinerOf(s', x) == JoinerOf(s, x);
      JoinersKept(s, s');
      assert Live(s', id) && JoinerOf(s', id) == At(s, id).joiner;
      PutInv(s, id, At(s, id).(wait := w));
    }
  }

  // ----- release -----

  lemma ReleaseInv(s: Sched, id: ThreadId)
    requires Inv(s) && Live(s, id) && At(s, id).state.Exited? && At(s, id).joiner.None? && At(s, id).home < |s.cpus|
    ensures Inv(Release(DropRetired(s, id), id))
  {
    hide Inv, JoinersOk, CpuKept, CountsOk, ThreadOk, CpuOk, FreeExact;
    var s', h := Release(DropRetired(s, id), id), At(s, id).home;
    ThreadFacts(s, id);
    CpuFacts(s, h);
    QueueFacts(s, h);
    FreeFacts(s);
    ReleaseJoiners(s, s', id);
    ReleaseCounts(s, s', id);
    ReleaseTouched(s, s', id);
    FrameInv(s, s', id.index, id.index, h, h);
  }

  /** The released thread was in no queue. */
  lemma ReleaseCounts(s: Sched, s': Sched, id: ThreadId)
    requires Live(s, id) && At(s, id).state.Exited? && At(s, id).home < |s.cpus| && QueuesExact(s, At(s, id).home)
    requires s' == Release(DropRetired(s, id), id)
    ensures var h := At(s, id).home;
      CpuKept(s.cpus[h], s'.cpus[h], id.index, id.index) && CountsOk(s', h, id.index)
  {
    var h := At(s, id).home;
    forall x: ThreadId | x.index == id.index ensures Count(s'.cpus[h], x) == if Queued(s', h, x) then 1 else 0 {
      assert Count(s.cpus[h], x) == if Queued(s, h, x) then 1 else 0;
    }
  }

  /** Its slot goes back to the free stack, and no CPU record names it any more. */
  lemma ReleaseTouched(s: Sched, s': Sched, id: ThreadId)
    requires Live(s, id) && At(s, id).state.Exited? && At(s, id).home < |s.cpus|
    requires ThreadOk(s, id) && CpuOk(s, At(s, id).home) && FreeExact(s)
    requires s' == Release(DropRetired(s, id), id)
    ensures var h := At(s, id).home;
      Touches(s, s', id.index, id.index, h, h) && TouchedOk(s, s', id.index, id.index, h, h)
  {
    hide ThreadOk;
    assert FreeExact(s');
    assert CpuOk(s', At(s, id).home);
  }

  lemma StackFacts(s: Sched, i: nat)
    requires Inv(s) && i < |s.slots|
    ensures s.slots[i].stackParked <==> s.slots[i].thread.None?
  {
  }

  lemma FreeFacts(s: Sched)
    requires Inv(s)
    ensures FreeExact(s)
  {
  }

  function DropRetired(s: Sched, id: ThreadId): Sched
    requires Live(s, id) && At(s, id).home < |s.cpus|
  {
    var x := s.cpus[At(s, id).home];
    PutCpu(s, At(s, id).home, x.(retired := if x.retired == Some(id) then None else x.retired))
  }

  lemma ReleaseJoiners(s: Sched, s': Sched, id: ThreadId)
    requires Inv(s) && Live(s, id) && At(s, id).state.Exited? && At(s, id).joiner.None? && At(s, id).home < |s.cpus|
    requires s' == Release(DropRetired(s, id), id)
    ensures JoinersOk(s')
  {
    assert ThreadOk(s, id);
    assert forall x: ThreadId :: JoinerOf(s', x) == JoinerOf(s, x);
    JoinersKept(s, s');
  }

  // ----- publication -----

  lemma FreeTopFree(s: Sched)
    requires Inv(s) && s.free != []
    ensures HasFree(s) && s.slots[FreeTop(s)].thread.None?
    ensures forall i :: multiset(s.free[..|s.free| - 1])[i] == multiset(s.free)[i] - (if i == FreeTop(s) then 1 else 0)
  {
    var n := |s.free| - 1;
    assert s.free == s.free[..n] + [s.free[n]];
    assert s.free[n] in multiset(s.free);
    assert multiset(s.free)[s.free[n] as int] > 0;
  }

  lemma GrowInv(s: Sched)
    requires Inv(s) && |s.slots| < s.capacity
    ensures Inv(Grow(s))
  {
    var s' := Grow(s);
    assert forall id: ThreadId :: Live(s', id) <==> Live(s, id);
    forall id: ThreadId | Live(s', id) ensures ThreadOk(s', id) {
      assert ThreadOk(s, id);
    }
    forall n: nat | n < |s'.cpus| ensures CpuOk(s', n) {
      assert CpuOk(s, n);
    }
    forall n: nat | n < |s'.cpus| ensures QueuesExact(s', n) {
      assert QueuesExact(s, n);
      forall id: ThreadId ensures Count(s'.cpus[n], id) == if Queued(s', n, id) then 1 else 0 {
        assert Count(s.cpus[n], id) == if Queued(s, n, id) then 1 else 0;
      }
    }
    assert forall id: ThreadId :: JoinerOf(s', id) == JoinerOf(s, id);
  }

  /** Slot i was free and now holds a fresh thread; no joiner can be concerned. */
  lemma FreshJoiners(s: Sched, s': Sched, i: nat)
    requires Inv(s) && i < |s.slots| == |s'.slots| && s.slots[i].thread.None?
    requires forall n :: 0 <= n < |s.slots| && n != i ==> s'.slots[n] == s.slots[n]
    requires s'.slots[i].thread.Some? ==> s'.slots[i].thread.value.joiner.None?
    ensures JoinersOk(s')
  {
    forall id: ThreadId ensures JoinerOf(s', id) == JoinerOf(s, id) {
      if id.index < |s.slots| && id.index != i { assert s'.slots[id.index] == s.slots[id.index]; }
    }
    forall token: WaitToken | JoinerBlocked(s, token) ensures JoinerBlocked(s', token) {
      assert s'.slots[token.thread.index] == s.slots[token.thread.index];
    }
    JoinersKept(s, s');
  }

  lemma SpawnInv(s: Sched, c: nat, home: nat, user: Option<User>, joinable: bool, generation: nat, bootstrap: bool)
    requires Inv(s) && c < |s.cpus| && home < |s.cpus| && HasFree(s)
    requires home != c ==> s.cpus[home].online
    requires user.Some? ==> joinable && user.value.owner == home
    ensures Inv(Spawn(s, c, home, user, joinable, generation, bootstrap))
  {
    hide Inv, CpuKept, CountsOk, JoinersOk;
    var s', i := Spawn(s, c, home, user, joinable, generation, bootstrap), FreeTop(s);
    FreeTopFree(s);
    CpuFacts(s, home);
    QueueFacts(s, home);
    FreshJoiners(s, s', i);
    SpawnCounts(s, s', c, home, user, joinable, generation, bootstrap);
    SpawnTouched(s, s', c, home, user, joinable, generation, bootstrap);
    FrameInv(s, s', i, i, home, home);
  }

  lemma SpawnTouched(s: Sched, s': Sched, c: nat, home: nat, user: Option<User>, joinable: bool, generation: nat,
                     bootstrap: bool)
    requires Inv(s) && c < |s.cpus| && home < |s.cpus| && HasFree(s) && CpuOk(s, home)
    requires s.slots[FreeTop(s)].thread.None? && (home != c ==> s.cpus[home].online)
    requires user.Some? ==> joinable && user.value.owner == home
    requires forall i :: multiset(s.free[..|s.free| - 1])[i] == multiset(s.free)[i] - (if i == FreeTop(s) then 1 else 0)
    requires s' == Spawn(s, c, home, user, joinable, generation, bootstrap)
    ensures
      var i := FreeTop(s);
      Touches(s, s', i, i, home, home) && TouchedOk(s, s', i, i, home, home) && SlotFits(s, s', i, home, home)
  {
    assert FreeExact(s);
    hide Inv;
    assert ThreadOk(s', ThreadId(FreeTop(s), generation));
  }

  /** The new thread is queued once, at home. */
  lemma SpawnCounts(s: Sched, s': Sched, c: nat, home: nat, user: Option<User>, joinable: bool, generation: nat,
                    bootstrap: bool)
    requires c < |s.cpus| && home < |s.cpus| && HasFree(s) && QueuesExact(s, home) && CpuOk(s, home)
    requires s.slots[FreeTop(s)].thread.None?
    requires s' == Spawn(s, c, home, user, joinable, generation, bootstrap)
    ensures CpuKept(s.cpus[home], s'.cpus[home], FreeTop(s), FreeTop(s)) && CountsOk(s', home, FreeTop(s))
  {
    hide Count, CpuOk, QueuesExact, Queued;
    forall x: ThreadId ensures
      if x.index == FreeTop(s) then Count(s'.cpus[home], x) == if Queued(s', home, x) then 1 else 0
      else Count(s'.cpus[home], x) == Count(s.cpus[home], x)
    {
      CountFact(s, home, x);
      SpawnCount(s, c, home, user, joinable, generation, bootstrap, x);
    }
  }

  lemma CountFact(s: Sched, c: nat, id: ThreadId)
    requires c < |s.cpus| && QueuesExact(s, c)
    ensures Count(s.cpus[c], id) == if Queued(s, c, id) then 1 else 0
  {
  }

  lemma SpawnCount(s: Sched, c: nat, home: nat, user: Option<User>, joinable: bool, generation: nat, bootstrap: bool,
                   x: ThreadId)
    requires c < |s.cpus| && home < |s.cpus| && HasFree(s) && CpuOk(s, home) && s.slots[FreeTop(s)].thread.None?
    requires Count(s.cpus[home], x) == if Queued(s, home, x) then 1 else 0
    ensures
      var s' := Spawn(s, c, home, user, joinable, generation, bootstrap);
      if x.index == FreeTop(s) then Count(s'.cpus[home], x) == if Queued(s', home, x) then 1 else 0
      else Count(s'.cpus[home], x) == Count(s.cpus[home], x)
  {
    var s', id := Spawn(s, c, home, user, joinable, generation, bootstrap), ThreadId(FreeTop(s), generation);
    assert s.cpus[home].idle != Some(id);
    hide CpuOk;
    AppendCount(s.cpus[home].ready, id, x);
    AppendCount(s.cpus[home].remote, id, x);
    assert Count(s'.cpus[home], x) == Count(s.cpus[home], x) + if x == id then 1 else 0;
  }

  lemma AppendCount(q: seq<ThreadId>, id: ThreadId, x: ThreadId)
    ensures multiset(q + [id])[x] == multiset(q)[x] + if x == id then 1 else 0
  {
  }

  lemma AddIdleInv(s: Sched, c: nat)
    requires Inv(s) && c < |s.cpus| && HasFree(s)
    requires s.cpus[c].idle.None?
    ensures Inv(AddIdle(s, c)) && HasNext(AddIdle(s, c), c)
  {
    var s', i := AddIdle(s, c), FreeTop(s);
    FreeTopFree(s);
    assert CpuOk(s, c) && QueuesExact(s, c);
    FreshJoiners(s, s', i);
    forall x: ThreadId | x.index == i ensures Count(s'.cpus[c], x) == if Queued(s', c, x) then 1 else 0 {
      assert Count(s.cpus[c], x) == if Queued(s, c, x) then 1 else 0;
    }
    assert ThreadOk(s', ThreadId(i, 1));
    FrameInv(s, s', i, i, c, c);
    if s'.cpus[c].ready != [] { FrontQueued(s', c); }
  }

  lemma InitialDispatchInv(s: Sched, c: nat)
    requires Inv(s) && HasNext(s, c) && s.cpus[c].current.None?
    ensures Inv(InitialDispatch(s, c))
  {
    hide Inv, JoinersOk, CpuKept, CountsOk, ThreadOk, CpuOk, FreeExact;
    var s', to := InitialDispatch(s, c), Next(s, c);
    NextReady(s, c);
    CpuFacts(s, c);
    QueueFacts(s, c);
    ThreadFacts(s, to);
    FreeFacts(s);
    StackFacts(s, to.index);
    DispatchJoiners(s, s', c);
    DispatchCounts(s, s', c);
    DispatchTouched(s, s', c);
    FrameInv(s, s', to.index, to.index, c, c);
  }

  lemma DispatchJoiners(s: Sched, s': Sched, c: nat)
    requires Inv(s) && HasNext(s, c) && s' == InitialDispatch(s, c)
    ensures JoinersOk(s')
  {
    assert forall id: ThreadId :: JoinerOf(s', id) == JoinerOf(s, id);
    JoinersKept(s, s');
  }

  lemma DispatchCounts(s: Sched, s': Sched, c: nat)
    requires HasNext(s, c) && s.cpus[c].current.None? && QueuesExact(s, c)
    requires At(s, Next(s, c)).state.Ready? && At(s, Next(s, c)).home == c
    requires s' == InitialDispatch(s, c)
    ensures CpuKept(s.cpus[c], s'.cpus[c], Next(s, c).index, Next(s, c).index)
    ensures CountsOk(s', c, Next(s, c).index)
  {
    var x, to := s.cpus[c], Next(s, c);
    if x.ready != [] { SeqFront(x.ready); }
    forall id: ThreadId ensures Count(s'.cpus[c], id) == Count(x, id) - (if x.ready != [] && id == to then 1 else 0) {}
    forall id: ThreadId | id.index == to.index ensures Count(s'.cpus[c], id) == if Queued(s', c, id) then 1 else 0 {
      CountFact(s, c, id);
    }
  }

  lemma DispatchTouched(s: Sched, s': Sched, c: nat)
    requires HasNext(s, c) && s.cpus[c].current.None? && CpuOk(s, c) && ThreadOk(s, Next(s, c)) && FreeExact(s)
    requires At(s, Next(s, c)).state.Ready? && At(s, Next(s, c)).home == c
    requires s.slots[Next(s, c).index].stackParked <==> s.slots[Next(s, c).index].thread.None?
    requires s' == InitialDispatch(s, c) && JoinersOk(s')
    ensures Touches(s, s', Next(s, c).index, Next(s, c).index, c, c)
    ensures TouchedOk(s, s', Next(s, c).index, Next(s, c).index, c, c)
  {
    hide JoinerBlocked;
    var to := Next(s, c);
    assert Live(s', to) && JoinerOf(s', to) == At(s, to).joiner;
    assert ThreadOk(s', to);
  }
}
