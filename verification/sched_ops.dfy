/**
  Scheduler entry points as atomic steps that keep the invariant.

  Every function here requires only the invariant and what the source demands of its caller
  (the condition whose violation it answers with a panic), and ensures the invariant again.
 */
module SchedOps {
  import opened Base
  import opened Waits
  import opened SchedState
  import opened SchedInvariant
  import opened SchedFrame
  import opened SchedSteps

  /** On an initialized CPU both the current and the next thread exist. */
  lemma CpuReady(s: Sched, c: nat)
    requires Inv(s) && c < |s.cpus| && s.cpus[c].initialized
    ensures HasCurrent(s, c) && HasNext(s, c)
    ensures s.cpus[c].ready != [] || s.cpus[c].idle != s.cpus[c].current ==> Next(s, c).index != Current(s, c).index
  {
    assert CpuOk(s, c);
    if s.cpus[c].ready != [] { FrontQueued(s, c); }
  }

  /** Interrupts are masked on a CPU between wait preparation and commit. */
  predicate IrqOpen(s: Sched, c: nat) {
    && c < |s.cpus|
    && (HasCurrent(s, c) ==>
          var a := At(s, Current(s, c)).wait.active; a.Some? ==> !a.value.phase.PhasePrepared?)
  }

  // ----- retirement -----

  lemma InvCanFinalize(s: Sched, c: nat)
    requires Inv(s) && c < |s.cpus|
    ensures CanFinalize(s, c)
  {
    assert CpuOk(s, c);
    if s.cpus[c].retired.Some? {
      var id := s.cpus[c].retired.value;
      assert ThreadOk(s, id);
      if At(s, id).joiner.Some? { assert ThreadOk(s, At(s, id).joiner.value.thread); }
    }
  }

  /** Clearing a joiner link leaves the other joins intact and the token unclaimed. */
  lemma ClearJoiner(s: Sched, id: ThreadId)
    requires Inv(s) && Live(s, id) && At(s, id).joiner.Some?
    ensures var s' := Put(s, id, At(s, id).(joiner := None)); Inv(s') && NotJoin(s', At(s, id).joiner.value)
  {
    var s' := Put(s, id, At(s, id).(joiner := None));
    assert ThreadOk(s, id);
    assert forall x: ThreadId :: Live(s', x) <==> Live(s, x);
    assert forall x: ThreadId :: JoinerOf(s', x) == if x == id then None else JoinerOf(s, x);
    assert JoinerOf(s, id).Some?;
    forall x: ThreadId | JoinerOf(s', x).Some? ensures JoinerBlocked(s', JoinerOf(s', x).value) {
      assert ThreadOk(s, x);
    }
    assert ThreadOk(s', id);
    PutInv(s, id, At(s, id).(joiner := None));
  }

  /** Join payload of a running or ready thread is inert. */
  lemma PayloadInv(s: Sched, id: ThreadId, r: Option<JoinResult>, u: Option<User>)
    requires Inv(s) && Live(s, id) && (At(s, id).state.Running? || At(s, id).state.Ready?)
    ensures Inv(Put(s, id, At(s, id).(joinResult := r, reaped := u)))
  {
    var s' := Put(s, id, At(s, id).(joinResult := r, reaped := u));
    assert ThreadOk(s, id);
    assert forall x: ThreadId :: JoinerOf(s', x) == JoinerOf(s, x);
    forall token: WaitToken | JoinerBlocked(s, token) ensures JoinerBlocked(s', token) {
      assert ThreadOk(s, token.thread);
    }
    JoinersKept(s, s');
    assert JoinerOf(s', id) == At(s, id).joiner;
    assert ThreadOk(s', id);
    PutInv(s, id, At(s, id).(joinResult := r, reaped := u));
  }

  lemma FinalizeInv(s: Sched, c: nat, notify: bool)
    requires Inv(s) && CanFinalize(s, c)
    ensures Inv(Finalize(s, c, notify))
  {
    if s.cpus[c].retired.Some? {
      var id := s.cpus[c].retired.value;
      var t := At(s, id);
      assert CpuOk(s, c) && ThreadOk(s, id);
      if t.joiner.Some? {
        DeliverInv(s, c, notify);
      } else if !t.joinable {
        ReleaseInv(s, id);
      } else {
        RetireKeepInv(s, c, id);
      }
    }
  }

  lemma DeliverInv(s: Sched, c: nat, notify: bool)
    requires Inv(s) && CanFinalize(s, c) && s.cpus[c].retired.Some?
    requires At(s, s.cpus[c].retired.value).joiner.Some?
    ensures Inv(Finalize(s, c, notify))
  {
    var id := s.cpus[c].retired.value;
    var t := At(s, id);
    var token := t.joiner.value;
    var j := token.thread;
    assert CpuOk(s, c) && ThreadOk(s, id) && ThreadOk(s, j);
    var s1 := Put(s, id, t.(joiner := None));
    ClearJoiner(s, id);
    var s2 := CompleteWait(s1, c, token, Notified, notify).0;
    CompleteWaitInv(s1, c, token, Notified, notify);
    var s3 := Put(s2, j, At(s2, j).(joinResult := Some(JoinOk(t.exitCode.value)), reaped := t.user));
    PayloadInv(s2, j, Some(JoinOk(t.exitCode.value)), t.user);
    ReleaseInv(s3, id);
    DeliverShape(s, c, notify, s3);
  }

  /** The order of the updates in Finalize does not matter. */
  lemma DeliverShape(s: Sched, c: nat, notify: bool, s3: Sched)
    requires CanFinalize(s, c) && s.cpus[c].retired.Some?
    requires At(s, s.cpus[c].retired.value).joiner.Some? && At(s, s.cpus[c].retired.value).home == c
    requires
      var id := s.cpus[c].retired.value;
      var t := At(s, id);
      var j := t.joiner.value.thread;
      var s2 := CompleteWait(Put(s, id, t.(joiner := None)), c, t.joiner.value, Notified, notify).0;
      s3 == Put(s2, j, At(s2, j).(joinResult := Some(JoinOk(t.exitCode.value)), reaped := t.user))
    ensures Live(s3, s.cpus[c].retired.value) && At(s3, s.cpus[c].retired.value).home == c
    ensures Finalize(s, c, notify) == Release(DropRetired(s3, s.cpus[c].retired.value), s.cpus[c].retired.value)
  {
    hide CompleteWait;
    var id := s.cpus[c].retired.value;
    var t := At(s, id);
    CompleteCommutes(s, id, t.(joiner := None), c, t.joiner.value, notify);
    CompleteCpuCommutes(s, c, t.joiner.value, notify);
    var r, f := Release(DropRetired(s3, id), id), Finalize(s, c, notify);
    assert f.slots == r.slots;
    assert f.cpus == r.cpus;
  }

  /** Completing one thread and writing another can be exchanged. */
  lemma CompleteCommutes(s: Sched, id: ThreadId, x: Thread, c: nat, token: WaitToken, notify: bool)
    requires c < |s.cpus| && Live(s, id) && Live(s, token.thread) && token.thread.index != id.index
    requires At(s, token.thread).home < |s.cpus|
    ensures
      var r := CompleteWait(s, c, token, Notified, notify).0;
      && Live(r, id) && Live(r, token.thread) && At(r, id) == At(s, id) && |r.slots| == |s.slots|
      && CompleteWait(Put(s, id, x), c, token, Notified, notify).0 == Put(r, id, x)
  {
    var a := CompleteWait(Put(s, id, x), c, token, Notified, notify).0;
    var b := Put(CompleteWait(s, c, token, Notified, notify).0, id, x);
    assert a.slots == b.slots;
  }

  /** So can completing a thread and clearing the retired record. */
  lemma CompleteCpuCommutes(s: Sched, c: nat, token: WaitToken, notify: bool)
    requires c < |s.cpus| && Live(s, token.thread) && At(s, token.thread).home < |s.cpus|
    ensures
      var r := CompleteWait(s, c, token, Notified, notify).0;
      && |r.cpus| == |s.cpus| && r.free == s.free && r.capacity == s.capacity && r.cpus[c].retired == s.cpus[c].retired
      && CompleteWait(PutCpu(s, c, s.cpus[c].(retired := None)), c, token, Notified, notify).0
         == PutCpu(r, c, r.cpus[c].(retired := None))
  {
    var s1, r := PutCpu(s, c, s.cpus[c].(retired := None)), CompleteWait(s, c, token, Notified, notify).0;
    var a, b := CompleteWait(s1, c, token, Notified, notify).0, PutCpu(r, c, r.cpus[c].(retired := None));
    assert a.cpus == b.cpus;
  }

  lemma RetireKeepInv(s: Sched, c: nat, id: ThreadId)
    requires Inv(s) && c < |s.cpus| && s.cpus[c].retired == Some(id) && Live(s, id)
    requires At(s, id).joinable && At(s, id).joiner.None? && At(s, id).state.Exited? && At(s, id).home == c
    ensures Inv(PutCpu(s, c, s.cpus[c].(retired := None)))
  {
    var s' := PutCpu(s, c, s.cpus[c].(retired := None));
    assert CpuOk(s, c) && ThreadOk(s, id) && QueuesExact(s, c);
    assert forall x: ThreadId :: JoinerOf(s', x) == JoinerOf(s, x);
    JoinersKept(s, s');
    forall x: ThreadId | x.index == id.index ensures Count(s'.cpus[c], x) == if Queued(s', c, x) then 1 else 0 {
      assert Count(s.cpus[c], x) == if Queued(s, c, x) then 1 else 0;
    }
    assert ThreadOk(s', id);
    FrameInv(s, s', id.index, id.index, c, c);
  }

  /** What a step on one CPU leaves alone everywhere: who is current, idle, online, the
      preemption depth, and the order of threads already queued. */
  predicate Steady(s: Sched, s': Sched) {
    && |s'.cpus| == |s.cpus|
    && (forall k: nat {:trigger s'.cpus[k]} :: k < |s.cpus| ==>
          && s'.cpus[k].current == s.cpus[k].current
          && s'.cpus[k].idle == s.cpus[k].idle
          && s'.cpus[k].online == s.cpus[k].online
          && s'.cpus[k].initialized == s.cpus[k].initialized
          && s'.cpus[k].disableDepth == s.cpus[k].disableDepth
          && s.cpus[k].ready <= s'.cpus[k].ready)
  }

  /** Running and ready threads are not changed at all by a completion or retirement. */
  ghost predicate ActiveSame(s: Sched, s': Sched) {
    forall x: ThreadId :: Live(s, x) && (At(s, x).state.Running? || At(s, x).state.Ready?) ==>
      Live(s', x) && At(s', x) == At(s, x)
  }

  lemma FinalizeKeeps(s: Sched, c: nat, notify: bool)
    requires Inv(s) && CanFinalize(s, c)
    ensures Steady(s, Finalize(s, c, notify)) && ActiveSame(s, Finalize(s, c, notify))
    ensures Finalize(s, c, notify).cpus[c].retired.None?
    ensures forall x: ThreadId :: JoinerOf(Finalize(s, c, notify), x) in {None, JoinerOf(s, x)}
  {
    hide Inv, CompleteWait, ThreadOk;
    if s.cpus[c].retired.Some? {
      CpuFacts(s, c);
      if At(s, s.cpus[c].retired.value).joiner.Some? { DeliverKeeps(s, c, notify); }
    }
  }

  lemma DeliverKeeps(s: Sched, c: nat, notify: bool)
    requires Inv(s) && CanFinalize(s, c) && s.cpus[c].retired.Some?
    requires At(s, s.cpus[c].retired.value).joiner.Some?
    ensures Steady(s, Finalize(s, c, notify)) && ActiveSame(s, Finalize(s, c, notify))
    ensures Finalize(s, c, notify).cpus[c].retired.None?
    ensures forall x: ThreadId :: JoinerOf(Finalize(s, c, notify), x) in {None, JoinerOf(s, x)}
  {
    hide Inv, WaitOk, CompleteWait, ThreadOk;
    var id := s.cpus[c].retired.value;
    var token, s1 := At(s, id).joiner.value, PutCpu(s, c, s.cpus[c].(retired := None));
    CpuFacts(s, c);
    JoinerFacts(s, id);
    CompleteKeeps(s1, c, token, notify);
    CompleteCpuCommutes(s, c, token, notify);
    var s2, f := CompleteWait(s1, c, token, Notified, notify).0, Finalize(s, c, notify);
    forall x: ThreadId
      ensures Live(s, x) && x != id && x != token.thread ==> Live(f, x) && At(f, x) == At(s, x)
      ensures JoinerOf(f, x) in {None, JoinerOf(s, x)}
    {
      assert Live(s2, x) <==> Live(s1, x);
      assert Live(f, x) ==> Live(s2, x);
    }
  }

  lemma JoinerFacts(s: Sched, id: ThreadId)
    requires Inv(s) && Live(s, id) && At(s, id).joiner.Some?
    ensures var token := At(s, id).joiner.value; JoinerBlocked(s, token) && At(s, token.thread).state.Blocked?
  {
    hide Inv;
    ThreadFacts(s, id);
    ThreadFacts(s, At(s, id).joiner.value.thread);
  }

  /** Waking a blocked joiner moves no other thread. */
  lemma CompleteKeeps(s: Sched, c: nat, token: WaitToken, notify: bool)
    requires c < |s.cpus| && JoinerBlocked(s, token) && At(s, token.thread).home < |s.cpus|
    ensures
      var r := CompleteWait(s, c, token, Notified, notify).0;
      && Steady(s, r) && |r.slots| == |s.slots|
      && (forall k :: 0 <= k < |s.cpus| ==> r.cpus[k].retired == s.cpus[k].retired)
      && (forall x: ThreadId :: Live(r, x) <==> Live(s, x))
      && (forall x: ThreadId :: Live(s, x) && x != token.thread ==> At(r, x) == At(s, x))
      && Live(r, token.thread) && At(r, token.thread).joiner == At(s, token.thread).joiner
  {
  }

  function Retire(s: Sched, c: nat, notify: bool): (r: Sched)
    requires Inv(s) && c < |s.cpus|
    ensures Inv(r) && Steady(s, r) && ActiveSame(s, r) && r.cpus[c].retired.None?
    ensures forall x: ThreadId :: JoinerOf(r, x) in {None, JoinerOf(s, x)}
  {
    InvCanFinalize(s, c);
    FinalizeInv(s, c, notify);
    FinalizeKeeps(s, c, notify);
    Finalize(s, c, notify)
  }

  // ----- completion -----

  function CompleteAt(s: Sched, c: nat, token: WaitToken, cause: WaitCause, notify: bool)
    : (r: (Sched, CompletionResult))
    requires Inv(s) && c < |s.cpus|
  {
    assert Live(s, token.thread) ==> ThreadOk(s, token.thread);
    CompleteWait(s, c, token, cause, notify)
  }

  // ----- CPU flags -----

  lemma FlagsInv(s: Sched, c: nat, depth: nat, pending: bool)
    requires Inv(s) && c < |s.cpus|
    ensures Inv(PutCpu(s, c, s.cpus[c].(disableDepth := depth, reschedulePending := pending)))
  {
    assert CpuOk(s, c);
    PutCpuInv(s, c, s.cpus[c].(disableDepth := depth, reschedulePending := pending));
  }

  lemma AcknowledgeInv(s: Sched, c: nat)
    requires Inv(s) && c < |s.cpus|
    ensures Inv(Acknowledge(s, c))
  {
    FlagsInv(s, c, s.cpus[c].disableDepth, false);
  }

  lemma RequestInv(s: Sched, c: nat)
    requires Inv(s) && c < |s.cpus|
    ensures Inv(Request(s, c)) && Inv(NotePeer(s, c))
  {
    FlagsInv(s, c, s.cpus[c].disableDepth, true);
  }

  lemma OnlineInv(s: Sched, c: nat)
    requires Inv(s) && c < |s.cpus| && s.cpus[c].initialized
    ensures Inv(PutCpu(s, c, s.cpus[c].(online := true)))
  {
    assert CpuOk(s, c);
    PutCpuInv(s, c, s.cpus[c].(online := true));
  }

  lemma DrainInv(s: Sched, c: nat)
    requires Inv(s) && c < |s.cpus|
    ensures Inv(DrainRemote(s, c))
  {
    assert CpuOk(s, c);
    PutCpuInv(s, c, s.cpus[c].(ipiPending := false, ready := s.cpus[c].ready + s.cpus[c].remote, remote := []));
  }

  // ----- checkpoints -----

  lemma CheckpointInv(s: Sched, c: nat)
    requires Inv(s) && IrqOpen(s, c) && HasCurrent(s, c) && HasNext(s, c)
    requires s.cpus[c].ready != [] ==> Next(s, c).index != Current(s, c).index
    ensures Inv(Checkpoint(s, c))
  {
    if CheckpointDue(s.cpus[c]) {
      AcknowledgeInv(s, c);
      var s1 := Acknowledge(s, c);
      if s1.cpus[c].ready != [] {
        assert CpuOk(s1, c) && ThreadOk(s1, Current(s1, c));
        HandoffInv(s1, c, At(s1, Current(s1, c)).(state := Ready));
      }
    }
  }

  /** The scheduler IPI: finalize, drain the ingress, and serve one checkpoint. */
  function SchedulerIpi(s: Sched, c: nat): (r: Sched)
    requires Inv(s) && IrqOpen(s, c)
    ensures Inv(r)
  {
    var s1 := Retire(s, c, true);
    if !s1.cpus[c].online then s1
    else
      assert CpuOk(s, c) && CpuOk(s1, c);
      DrainInv(s1, c);
      var s2 := DrainRemote(s1, c);
      RequestInv(s2, c);
      var s3 := NotePeer(s2, c);
      CpuReady(s3, c);
      CheckpointInv(s3, c);
      Checkpoint(s3, c)
  }

  function PreemptCheckpoint(s: Sched, c: nat): (r: Sched)
    requires Inv(s) && IrqOpen(s, c)
    ensures Inv(r)
  {
    var s1 := Retire(s, c, true);
    if !CheckpointDue(s1.cpus[c]) then s1
    else
      assert CpuOk(s, c) && CpuOk(s1, c);
      CpuReady(s1, c);
      CheckpointInv(s1, c);
      Checkpoint(s1, c)
  }

  // ----- blocking and exit -----

  /** A running, non-idle thread on an online CPU with preemption enabled. */
  predicate MayBlock(s: Sched, c: nat) {
    && c < |s.cpus| && s.cpus[c].online && s.cpus[c].disableDepth == 0
    && s.cpus[c].current != s.cpus[c].idle
  }

  /** The running thread may hand over: the selected thread is ready at home. */
  predicate CanHandoff(s: Sched, c: nat) {
    && HasCurrent(s, c) && HasNext(s, c) && Next(s, c).index != Current(s, c).index
    && At(s, Current(s, c)).state.Running? && At(s, Current(s, c)).home == c
    && At(s, Next(s, c)).state.Ready? && At(s, Next(s, c)).home == c
    && s.cpus[c].current != s.cpus[c].idle
    && (s.cpus[c].ready != [] ==> s.cpus[c].idle != Some(s.cpus[c].ready[0]))
  }

  lemma HandoffReady(s: Sched, c: nat)
    requires Inv(s) && MayBlock(s, c)
    ensures CanHandoff(s, c)
  {
    hide Inv;
    CpuFacts(s, c);
    CpuReady(s, c);
    ThreadFacts(s, s.cpus[c].idle.value);
    if s.cpus[c].ready != [] { FrontQueued(s, c); }
  }

  lemma CommitInv(s: Sched, c: nat, prepared: PreparedWait)
    requires Inv(s) && MayBlock(s, c) && HasCurrent(s, c) && HasNext(s, c) && Next(s, c).index != Current(s, c).index
    ensures Inv(CommitWait(s, c, prepared).0)
  {
    var from := Current(s, c);
    assert CpuOk(s, c) && ThreadOk(s, from);
    var (w, r) := Commit(At(s, from).wait, prepared);
    if r.Block? {
      HandoffInv(s, c, At(s, from).(state := Blocked, wait := w));
    } else {
      WaitUpdateInv(s, from, w);
    }
  }

  function CommitPrepared(s: Sched, c: nat, prepared: PreparedWait): (r: (Sched, CommitState))
    requires Inv(s) && MayBlock(s, c)
    ensures Inv(r.0)
  {
    assert CpuOk(s, c);
    CpuReady(s, c);
    CommitInv(s, c, prepared);
    var (s1, r) := CommitWait(s, c, prepared);
    AcknowledgeInv(s1, c);
    (if r.Block? then Acknowledge(s1, c) else s1, r)
  }

  lemma ExitInv(s: Sched, c: nat, code: nat)
    requires Inv(s) && MayBlock(s, c) && HasCurrent(s, c) && HasNext(s, c) && Next(s, c).index != Current(s, c).index
    requires Settled(At(s, Current(s, c))) && s.cpus[c].retired.None?
    ensures Inv(ExitCurrent(s, c, code))
  {
    var t := At(s, Current(s, c)).(exitCode := Some(code), state := Exited);
    assert CpuOk(s, c) && ThreadOk(s, Current(s, c));
    HandoffInv(s, c, t);
    var s1 := Handoff(s, c, t);
    assert CpuOk(s1, c);
    PutCpuInv(s1, c, s1.cpus[c].(ipiPending := true));
  }

  predicate Settled(t: Thread) {
    t.wait.active.None? && t.joinResult.None? && t.reaped.None?
  }

  /** A thread exits only after its waits are finished and its join results are taken. */
  predicate MayExit(s: Sched, c: nat) {
    MayBlock(s, c) && (HasCurrent(s, c) ==> Settled(At(s, Current(s, c))))
  }

  function ExitThread(s: Sched, c: nat, code: nat): (r: Sched)
    requires Inv(s) && MayExit(s, c)
    ensures Inv(r)
  {
    assert CpuOk(s, c);
    CpuReady(s, c);
    var s1 := Retire(s, c, true);
    CpuReady(s1, c);
    ExitInv(s1, c, code);
    var s2 := ExitCurrent(s1, c, code);
    AcknowledgeInv(s2, c);
    Acknowledge(s2, c)
  }

  // ----- join -----

  /** Join retires first; then the target decides whether the caller has to block. */
  predicate JoinWouldBlock(s: Sched, c: nat, target: ThreadId) {
    && CanFinalize(s, c)
    && var s1 := Finalize(s, c, true);
       && HasCurrent(s1, c)
       && (Live(s1, target) ==> At(s1, target).home < |s1.cpus|)
       && JoinPathOf(s1, c, target).JoinBlocks?
  }

  /** The caller has consumed its previous join handoff; to block it must have no unfinished
      wait and preemption enabled. */
  predicate MayJoin(s: Sched, c: nat, target: ThreadId) {
    && c < |s.cpus| && s.cpus[c].online
    && (HasCurrent(s, c) ==> At(s, Current(s, c)).joinResult.None? && At(s, Current(s, c)).reaped.None?)
    && (JoinWouldBlock(s, c, target) ==> s.cpus[c].disableDepth == 0 && MayPrepare(s, c))
  }

  lemma PrepareInv(s: Sched, c: nat, consumption: WaitConsumption)
    requires Inv(s) && MayPrepare(s, c)
    ensures Inv(PrepareWait(s, c, consumption).0)
  {
    var id := Current(s, c);
    assert CpuOk(s, c) && ThreadOk(s, id);
    WaitUpdateInv(s, id, Prepare(At(s, id).wait, id, c, consumption).0);
  }

  /** Prepare, publish the joiner and block: never early, because it is one critical section. */
  function JoinBlock(s: Sched, c: nat, target: ThreadId): (r: Sched)
    requires MayPrepare(s, c) && HasNext(s, c) && Next(s, c).index != Current(s, c).index
    requires Live(s, target) && target.index != Current(s, c).index
  {
    var (s1, p) := PrepareWait(s, c, Explicit);
    var s2 := Put(s1, target, At(s1, target).(joiner := Some(p.token)));
    CommitWait(s2, c, p).0
  }

  /** The same state reached by blocking first and publishing the joiner afterwards. */
  lemma JoinBlockShape(s: Sched, c: nat, target: ThreadId)
    requires MayPrepare(s, c) && HasNext(s, c) && Next(s, c).index != Current(s, c).index
    requires Live(s, target) && target.index != Current(s, c).index
    ensures
      var (s1, p) := PrepareWait(s, c, Explicit);
      var (s2, r) := CommitWait(s1, c, p);
      && r == Block(p.token)
      && Live(s2, target)
      && JoinBlock(s, c, target) == Put(s2, target, At(s2, target).(joiner := Some(p.token)))
  {
    var (s1, p) := PrepareWait(s, c, Explicit);
    var (s2, r) := CommitWait(s1, c, p);
    var a, b := JoinBlock(s, c, target), Put(s2, target, At(s2, target).(joiner := Some(p.token)));
    assert a.slots == b.slots;
    assert a.cpus == b.cpus;
  }

  lemma JoinBlockInv(s: Sched, c: nat, target: ThreadId)
    requires Inv(s) && MayBlock(s, c) && MayPrepare(s, c) && HasNext(s, c) && Next(s, c).index != Current(s, c).index
    requires At(s, Current(s, c)).joinResult.None? && At(s, Current(s, c)).reaped.None?
    requires Live(s, target) && At(s, target).home < |s.cpus| && JoinPathOf(s, c, target).JoinBlocks?
    ensures Inv(JoinBlock(s, c, target))
  {
    hide Inv, CommitWait, PrepareWait, ThreadOk;
    JoinBlockShape(s, c, target);
    JoinBlockEffect(s, c, target);
    var (s1, p) := PrepareWait(s, c, Explicit);
    PrepareInv(s, c, Explicit);
    var s2 := CommitWait(s1, c, p).0;
    CommitInv(s1, c, p);
    var x := At(s2, target).(joiner := Some(p.token));
    JoinPublished(s, s2, Put(s2, target, x), target, p.token);
    JoinedThread(s2, target, p.token);
    PutInv(s2, target, x);
  }

  /** What a blocking join does to threads and joiners. */
  lemma JoinBlockEffect(s: Sched, c: nat, target: ThreadId)
    requires Inv(s) && MayBlock(s, c) && MayPrepare(s, c) && HasNext(s, c) && Next(s, c).index != Current(s, c).index
    requires At(s, Current(s, c)).joinResult.None? && At(s, Current(s, c)).reaped.None?
    requires Live(s, target) && At(s, target).home < |s.cpus| && JoinPathOf(s, c, target).JoinBlocks?
    ensures
      var (s1, p) := PrepareWait(s, c, Explicit);
      && HasCurrent(s1, c) && HasNext(s1, c) && Next(s1, c).index != Current(s1, c).index && MayBlock(s1, c)
      && var s2 := CommitWait(s1, c, p).0;
         && Live(s, p.token.thread) && At(s, p.token.thread).state.Running?
         && Live(s2, target) && At(s2, target).joinable && At(s2, target).joiner.None?
         && (At(s2, target).state.Exited? ==>
               At(s2, target).home < |s2.cpus| && s2.cpus[At(s2, target).home].retired == Some(target))
         && JoinerBlocked(Put(s2, target, At(s2, target).(joiner := Some(p.token))), p.token)
         && (forall x: ThreadId :: JoinerOf(s2, x) == JoinerOf(s, x))
  {
    hide Inv;
    ThreadFacts(s, Current(s, c));
    ThreadFacts(s, target);
    CpuFacts(s, c);
  }

  lemma JoinedThread(s: Sched, target: ThreadId, token: WaitToken)
    requires Inv(s) && Live(s, target) && At(s, target).joinable
    requires At(s, target).state.Exited? ==>
      At(s, target).home < |s.cpus| && s.cpus[At(s, target).home].retired == Some(target)
    requires JoinerBlocked(Put(s, target, At(s, target).(joiner := Some(token))), token)
    ensures ThreadOk(Put(s, target, At(s, target).(joiner := Some(token))), target)
  {
    hide Inv;
    ThreadFacts(s, target);
  }

  /** One more joiner, whose token belongs to a thread that was running before. */
  lemma JoinPublished(s: Sched, s2: Sched, s3: Sched, target: ThreadId, token: WaitToken)
    requires Inv(s) && Inv(s2) && Live(s, token.thread) && At(s, token.thread).state.Running?
    requires JoinerOf(s, target).None? && JoinerBlocked(s3, token)
    requires forall x: ThreadId :: JoinerOf(s3, x) == if x == target then Some(token) else JoinerOf(s, x)
    requires forall x: ThreadId :: JoinerOf(s2, x) == JoinerOf(s, x)
    requires Live(s2, target) && s3 == Put(s2, target, At(s2, target).(joiner := Some(token)))
    ensures JoinersOk(s3)
  {
    assert ThreadOk(s, token.thread);
    forall x: ThreadId | JoinerOf(s, x).Some?
      ensures JoinerOf(s, x) != Some(token) && JoinerBlocked(s3, JoinerOf(s, x).value)
    {
      assert ThreadOk(s, x) && JoinerOf(s2, x).Some? && ThreadOk(s2, x);
    }
  }

  lemma JoinReapInv(s: Sched, c: nat, target: ThreadId)
    requires Inv(s) && HasCurrent(s, c) && Live(s, target) && At(s, target).home < |s.cpus|
    requires JoinPathOf(s, c, target).JoinReaps?
    ensures At(s, target).exitCode.Some? && Live(Release(s, target), Current(s, c))
    ensures
      var code, user := At(s, target).exitCode.value, At(s, target).user;
      Inv(SetJoinResult(Release(s, target), Current(s, c), JoinOk(code), user))
  {
    assert ThreadOk(s, target) && CpuOk(s, c);
    ReleaseInv(s, target);
    assert DropRetired(s, target).cpus == s.cpus;
    var s1 := Release(s, target);
    PayloadInv(s1, Current(s, c), Some(JoinOk(At(s, target).exitCode.value)), At(s, target).user);
  }

  /** What join relies on after retirement. */
  lemma JoinReady(s: Sched, c: nat, target: ThreadId)
    requires Inv(s) && MayJoin(s, c, target)
    ensures
      var s1 := Retire(s, c, true);
      && HasCurrent(s, c) && HasCurrent(s1, c) && HasNext(s1, c)
      && Current(s1, c) == Current(s, c) && At(s1, Current(s, c)) == At(s, Current(s, c))
      && At(s1, Current(s1, c)).state.Running?
      && At(s1, Current(s1, c)).joinResult.None? && At(s1, Current(s1, c)).reaped.None?
      && (Live(s1, target) ==> At(s1, target).home < |s1.cpus|)
      && (JoinPathOf(s1, c, target).JoinBlocks? ==>
            MayBlock(s1, c) && MayPrepare(s1, c) && Next(s1, c).index != Current(s1, c).index)
  {
    hide Inv;
    var s1 := Retire(s, c, true);
    CpuFacts(s, c);
    CpuReady(s, c);
    CpuFacts(s1, c);
    CpuReady(s1, c);
    InvCanFinalize(s, c);
    if Live(s1, target) { ThreadFacts(s1, target); }
  }

  function JoinThread(s: Sched, c: nat, target: ThreadId): (r: Sched)
    requires Inv(s) && MayJoin(s, c, target)
    ensures Inv(r)
  {
    JoinReady(s, c, target);
    var s1 := Retire(s, c, true);
    var current := Current(s1, c);
    match JoinPathOf(s1, c, target)
    case JoinFails(error) =>
      PayloadInv(s1, current, Some(JoinErr(error)), None);
      SetJoinResult(s1, current, JoinErr(error), None)
    case JoinReaps =>
      JoinReapInv(s1, c, target);
      SetJoinResult(Release(s1, target), current, JoinOk(At(s1, target).exitCode.value), At(s1, target).user)
    case JoinBlocks =>
      JoinBlockInv(s1, c, target);
      var s2 := JoinBlock(s1, c, target);
      AcknowledgeInv(s2, c);
      Acknowledge(s2, c)
  }

  function TakeJoinResult(s: Sched, c: nat): (r: (Sched, Option<(JoinResult, Option<User>)>))
    requires Inv(s) && HasCurrent(s, c)
    ensures Inv(r.0)
  {
    assert CpuOk(s, c);
    PayloadInv(s, Current(s, c), None, None);
    TakeJoin(s, Current(s, c))
  }
}
