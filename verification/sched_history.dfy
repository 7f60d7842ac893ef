/**
  What every step does to wait sequences, ready queues and retired slots, and the theorems
  about whole runs that follow.
 */
module SchedHistory {
  import opened Base
  import opened Waits
  import opened SchedState
  import opened SchedInvariant
  import opened SchedSteps
  import opened SchedOps
  import opened SchedTimer
  import opened SchedRuns

  /** The last wait sequence issued in a slot; it survives release and reuse. */
  function Sequence(slot: Slot): nat {
    if slot.thread.Some? then slot.thread.value.wait.nextSequence else slot.nextSequence
  }

  /** Queue order: nothing overtakes. Without a handoff the queue only grows at the back; a
      handoff runs the front and keeps the rest in order. */
  predicate QueueStep(x: Cpu, x': Cpu) {
    if x'.current == x.current then x.ready <= x'.ready
    else x.ready == [] || (x'.current == Some(x.ready[0]) && x.ready[1..] <= x'.ready)
  }

  /** A retired thread keeps its slot, code and resources. */
  predicate RetiredKept(s: Sched, s': Sched, k: nat)
    requires k < |s.cpus| && k < |s'.cpus|
  {
    s.cpus[k].retired.Some? ==>
      var id := s.cpus[k].retired.value;
      && s'.cpus[k].retired == Some(id)
      && (Live(s, id) ==>
            Live(s', id) && At(s', id).exitCode == At(s, id).exitCode && At(s', id).user == At(s, id).user)
  }

  /** The step on CPU c, which finalizes the retired thread of c only when `retires`. */
  ghost predicate Moves(s: Sched, s': Sched, c: nat, retires: bool) {
    && |s'.slots| == |s.slots| && |s'.cpus| == |s.cpus|
    && (forall i {:trigger s'.slots[i]} :: 0 <= i < |s.slots| ==> Sequence(s.slots[i]) <= Sequence(s'.slots[i]))
    && (forall k: nat {:trigger s'.cpus[k]} :: k < |s.cpus| ==> QueueStep(s.cpus[k], s'.cpus[k]))
    && (forall k: nat {:trigger RetiredKept(s, s', k)} ::
          k < |s.cpus| && !(retires && k == c) ==> RetiredKept(s, s', k))
  }

  predicate SameCurrent(s: Sched, s': Sched) {
    |s'.cpus| == |s.cpus| && forall k :: 0 <= k < |s.cpus| ==> s'.cpus[k].current == s.cpus[k].current
  }

  lemma Compose(s: Sched, m: Sched, s': Sched, c: nat, r1: bool, r2: bool)
    requires Moves(s, m, c, r1) && Moves(m, s', c, r2)
    requires SameCurrent(s, m) || SameCurrent(m, s')
    ensures Moves(s, s', c, r1 || r2)
  {
    forall k: nat | k < |s.cpus| ensures QueueStep(s.cpus[k], s'.cpus[k]) {
      assert QueueStep(s.cpus[k], m.cpus[k]) && QueueStep(m.cpus[k], s'.cpus[k]);
    }
    forall k: nat | k < |s.cpus| && !((r1 || r2) && k == c) ensures RetiredKept(s, s', k) {
      assert RetiredKept(s, m, k) && RetiredKept(m, s', k);
    }
    forall i | 0 <= i < |s.slots| ensures Sequence(s.slots[i]) <= Sequence(s'.slots[i]) {
      assert Sequence(s.slots[i]) <= Sequence(m.slots[i]);
    }
  }

  // ----- primitive transitions -----

  lemma HandoffMoves(s: Sched, c: nat, t: Thread)
    requires Inv(s) && HasCurrent(s, c) && HasNext(s, c) && Next(s, c).index != Current(s, c).index
    requires MayLeave(s, c, t) && t.wait.nextSequence >= At(s, Current(s, c)).wait.nextSequence
    ensures Moves(s, Handoff(s, c, t), c, false)
  {
    var s' := Handoff(s, c, t);
    forall k: nat | k < |s.cpus| ensures RetiredKept(s, s', k) {
      assert CpuOk(s, k) && CpuOk(s, c);
      if s.cpus[c].ready != [] { FrontQueued(s, c); }
    }
  }

  lemma CompleteMoves(s: Sched, c: nat, token: WaitToken, cause: WaitCause, notify: bool)
    requires c < |s.cpus|
    requires Live(s, token.thread) ==> At(s, token.thread).home < |s.cpus|
    ensures Moves(s, CompleteWait(s, c, token, cause, notify).0, c, false)
    ensures SameCurrent(s, CompleteWait(s, c, token, cause, notify).0)
  {
  }

  lemma PutMoves(s: Sched, id: ThreadId, t: Thread, c: nat)
    requires Live(s, id) && t.wait.nextSequence >= At(s, id).wait.nextSequence
    requires t.exitCode == At(s, id).exitCode
    requires t.user == At(s, id).user || forall k: nat :: k < |s.cpus| ==> s.cpus[k].retired != Some(id)
    ensures Moves(s, Put(s, id, t), c, false)
  {
  }

  lemma ReleaseMoves(s: Sched, id: ThreadId, c: nat)
    requires Live(s, id) && forall k: nat :: k < |s.cpus| ==> s.cpus[k].retired != Some(id)
    ensures Moves(s, Release(s, id), c, false)
  {
    var s' := Release(s, id);
    forall k: nat | k < |s.cpus| ensures RetiredKept(s, s', k) {
      assert s.cpus[k].retired != Some(id);
    }
  }

  /** Flags change; threads queue up at the back. */
  lemma PutCpuMoves(s: Sched, k: nat, x: Cpu, c: nat, retires: bool)
    requires k < |s.cpus| && x.current == s.cpus[k].current && s.cpus[k].ready <= x.ready
    requires x.retired == s.cpus[k].retired || (retires && k == c)
    ensures Moves(s, PutCpu(s, k, x), c, retires)
  {
  }

  lemma RetireMoves(s: Sched, c: nat, notify: bool)
    requires Inv(s) && c < |s.cpus|
    ensures Moves(s, Retire(s, c, notify), c, true) && SameCurrent(s, Retire(s, c, notify))
  {
    hide Moves, Inv, CompleteWait, ThreadOk;
    InvCanFinalize(s, c);
    PutCpuMoves(s, c, s.cpus[c], c, true);
    assert PutCpu(s, c, s.cpus[c]) == s;
    if s.cpus[c].retired.Some? {
      var id, s1 := s.cpus[c].retired.value, PutCpu(s, c, s.cpus[c].(retired := None));
      CpuFacts(s, c);
      PutCpuMoves(s, c, s.cpus[c].(retired := None), c, true);
      OneRetired(s, c, id);
      if At(s, id).joiner.Some? {
        DeliveryMoves(s, c, notify);
      } else if !At(s, id).joinable {
        ReleaseMoves(s1, id, c);
        Compose(s, s1, Release(s1, id), c, true, false);
      }
    }
  }

  lemma DeliveryMoves(s: Sched, c: nat, notify: bool)
    requires Inv(s) && CanFinalize(s, c) && s.cpus[c].retired.Some?
    requires At(s, s.cpus[c].retired.value).joiner.Some?
    ensures Moves(s, Finalize(s, c, notify), c, true) && SameCurrent(s, Finalize(s, c, notify))
  {
    hide Moves, Inv, CompleteWait, ThreadOk, WaitOk;
    var id := s.cpus[c].retired.value;
    var t, s1 := At(s, id), PutCpu(s, c, s.cpus[c].(retired := None));
    var token := t.joiner.value;
    PutCpuMoves(s, c, s.cpus[c].(retired := None), c, true);
    OneRetired(s, c, id);
    JoinerFacts(s, id);
    CompleteKeeps(s1, c, token, notify);
    CompleteMoves(s1, c, token, Notified, notify);
    var s2 := CompleteWait(s1, c, token, Notified, notify).0;
    Compose(s, s1, s2, c, true, false);
    var r := JoinOk(t.exitCode.value);
    var s3 := Put(s2, token.thread, At(s2, token.thread).(joinResult := Some(r), reaped := t.user));
    PutMoves(s2, token.thread, At(s3, token.thread), c);
    Compose(s, s2, s3, c, true, false);
    assert Live(s1, id) && Live(s2, id) && Live(s3, id);
    forall k: nat | k < |s3.cpus| ensures s3.cpus[k].retired != Some(id) {
      assert s2.cpus[k].retired == s1.cpus[k].retired;
    }
    ReleaseMoves(s3, id, c);
    Compose(s, s3, Release(s3, id), c, true, false);
  }

  /** A thread is retired on its home CPU only. */
  lemma OneRetired(s: Sched, c: nat, id: ThreadId)
    requires Inv(s) && c < |s.cpus| && s.cpus[c].retired == Some(id)
    ensures forall k: nat :: k < |s.cpus| && k != c ==> s.cpus[k].retired != Some(id)
  {
    assert CpuOk(s, c);
    forall k: nat | k < |s.cpus| && k != c ensures s.cpus[k].retired != Some(id) {
      assert CpuOk(s, k);
    }
  }

  lemma NeverRetired(s: Sched, id: ThreadId)
    requires Inv(s) && Live(s, id) && !At(s, id).state.Exited?
    ensures forall k: nat :: k < |s.cpus| ==> s.cpus[k].retired != Some(id)
  {
    forall k: nat | k < |s.cpus| ensures s.cpus[k].retired != Some(id) {
      assert CpuOk(s, k);
    }
  }

  lemma CheckpointMoves(s: Sched, c: nat)
    requires Inv(s) && IrqOpen(s, c) && HasCurrent(s, c) && HasNext(s, c)
    requires s.cpus[c].ready != [] ==> Next(s, c).index != Current(s, c).index
    ensures Moves(s, Checkpoint(s, c), c, false)
  {
    AcknowledgeMoves(s, c);
    if CheckpointDue(s.cpus[c]) {
      AcknowledgeInv(s, c);
      var s1 := Acknowledge(s, c);
      if s1.cpus[c].ready != [] {
        assert CpuOk(s1, c) && ThreadOk(s1, Current(s1, c));
        var t := At(s1, Current(s1, c)).(state := Ready);
        HandoffMoves(s1, c, t);
        Compose(s, s1, Handoff(s1, c, t), c, false, false);
      }
    }
  }

  lemma AcknowledgeMoves(s: Sched, c: nat)
    requires c < |s.cpus|
    ensures Moves(s, Acknowledge(s, c), c, false) && SameCurrent(s, Acknowledge(s, c))
    ensures Moves(s, Request(s, c), c, false) && SameCurrent(s, Request(s, c))
    ensures Moves(s, s, c, false)
  {
    PutCpuMoves(s, c, s.cpus[c].(reschedulePending := false), c, false);
    PutCpuMoves(s, c, s.cpus[c].(reschedulePending := true), c, false);
    PutCpuMoves(s, c, s.cpus[c], c, false);
    assert PutCpu(s, c, s.cpus[c]) == s;
  }

  // ----- entry points -----

  lemma IpiMoves(s: Sched, c: nat)
    requires Inv(s) && IrqOpen(s, c)
    ensures Moves(s, SchedulerIpi(s, c), c, true)
  {
    hide Moves;
    var s1 := Retire(s, c, true);
    RetireMoves(s, c, true);
    if s1.cpus[c].online {
      assert CpuOk(s, c) && CpuOk(s1, c);
      DrainInv(s1, c);
      var s2 := DrainRemote(s1, c);
      PutCpuMoves(s1, c, s2.cpus[c], c, false);
      Compose(s, s1, s2, c, true, false);
      RequestInv(s2, c);
      var s3 := NotePeer(s2, c);
      AcknowledgeMoves(s2, c);
      Compose(s, s2, s3, c, true, false);
      CpuReady(s3, c);
      CheckpointMoves(s3, c);
      Compose(s, s3, Checkpoint(s3, c), c, true, false);
    }
  }

  lemma PreemptMoves(s: Sched, c: nat)
    requires Inv(s) && IrqOpen(s, c)
    ensures Moves(s, PreemptCheckpoint(s, c), c, true)
  {
    var s1 := Retire(s, c, true);
    RetireMoves(s, c, true);
    if CheckpointDue(s1.cpus[c]) {
      assert CpuOk(s, c) && CpuOk(s1, c);
      CpuReady(s1, c);
      CheckpointMoves(s1, c);
      Compose(s, s1, Checkpoint(s1, c), c, true, false);
    }
  }

  lemma DispatchMoves(s: Sched, c: nat, events: seq<TimedEvent>)
    requires Inv(s) && c < |s.cpus| && BatchOk(s, c, events)
    ensures Moves(s, DispatchAll(s, c, events), c, false) && SameCurrent(s, DispatchAll(s, c, events))
    decreases |events|
  {
    AcknowledgeMoves(s, c);
    if events != [] {
      assert events[0] in events;
      var s1 := Dispatch(s, c, events[0]);
      if events[0].WaitDeadline? && Live(s, events[0].token.thread) {
        assert ThreadOk(s, events[0].token.thread);
        CompleteMoves(s, c, events[0].token, Timeout, false);
      }
      assert forall x :: NotJoin(s, x) ==> NotJoin(s1, x);
      StillRunning(s, s1);
      DispatchMoves(s1, c, events[1..]);
      Compose(s, s1, DispatchAll(s1, c, events[1..]), c, false, false);
    }
  }

  lemma TimerMoves(s: Sched, c: nat, events: seq<TimedEvent>)
    requires Inv(s) && IrqOpen(s, c) && BatchOk(s, c, events)
    ensures Moves(s, TimerInterrupt(s, c, events), c, true)
  {
    hide Moves;
    var s1 := Retire(s, c, false);
    RetireMoves(s, c, false);
    if s.cpus[c].online {
      TimerInterruptIsQueued(s, c, events);
      var s2 := DispatchAll(s1, c, events);
      DispatchMoves(s1, c, events);
      Compose(s, s1, s2, c, true, false);
      assert CpuOk(s1, c) && CpuOk(s2, c);
      RequestInv(s2, c);
      var s3 := if s2.cpus[c].idle == s2.cpus[c].current && s2.cpus[c].ready != [] then Request(s2, c) else s2;
      AcknowledgeMoves(s2, c);
      Compose(s, s2, s3, c, true, false);
      CpuReady(s3, c);
      CheckpointMoves(s3, c);
      Compose(s, s3, Checkpoint(s3, c), c, true, false);
    }
  }

  lemma CommitMoves(s: Sched, c: nat, prepared: PreparedWait)
    requires Inv(s) && MayBlock(s, c)
    ensures Moves(s, CommitPrepared(s, c, prepared).0, c, false)
  {
    assert CpuOk(s, c);
    CpuReady(s, c);
    CommitInv(s, c, prepared);
    var from := Current(s, c);
    assert ThreadOk(s, from);
    var (w, r) := Waits.Commit(At(s, from).wait, prepared);
    if r.Block? {
      var s1 := CommitWait(s, c, prepared).0;
      HandoffMoves(s, c, At(s, from).(state := Blocked, wait := w));
      AcknowledgeMoves(s1, c);
      Compose(s, s1, Acknowledge(s1, c), c, false, false);
    } else {
      PutMoves(s, from, At(s, from).(wait := w), c);
    }
  }

  lemma ExitMoves(s: Sched, c: nat, code: nat)
    requires Inv(s) && MayExit(s, c)
    ensures Moves(s, ExitThread(s, c, code), c, true)
  {
    assert CpuOk(s, c);
    CpuReady(s, c);
    var s1 := Retire(s, c, true);
    RetireMoves(s, c, true);
    CpuReady(s1, c);
    assert CpuOk(s1, c) && ThreadOk(s1, Current(s1, c));
    var t := At(s1, Current(s1, c)).(exitCode := Some(code), state := Exited);
    var s2 := Handoff(s1, c, t);
    HandoffMoves(s1, c, t);
    Compose(s, s1, s2, c, true, false);
    var s3 := PutCpu(s2, c, s2.cpus[c].(ipiPending := true));
    PutCpuMoves(s2, c, s2.cpus[c].(ipiPending := true), c, false);
    Compose(s, s2, s3, c, true, false);
    AcknowledgeMoves(s3, c);
    Compose(s, s3, Acknowledge(s3, c), c, true, false);
  }

  lemma JoinBlockMoves(s: Sched, c: nat, target: ThreadId)
    requires Inv(s) && MayBlock(s, c) && MayPrepare(s, c) && HasNext(s, c) && Next(s, c).index != Current(s, c).index
    requires Live(s, target) && At(s, target).home < |s.cpus| && JoinPathOf(s, c, target).JoinBlocks?
    ensures Moves(s, JoinBlock(s, c, target), c, false)
  {
    JoinBlockShape(s, c, target);
    var (s1, p) := PrepareWait(s, c, Explicit);
    PrepareInv(s, c, Explicit);
    var from := Current(s, c);
    PutMoves(s, from, At(s1, from), c);
    var s2 := CommitWait(s1, c, p).0;
    assert CpuOk(s1, c) && ThreadOk(s1, from);
    HandoffMoves(s1, c, At(s1, from).(state := Blocked, wait := Waits.Commit(At(s1, from).wait, p).0));
    Compose(s, s1, s2, c, false, false);
    PutMoves(s2, target, At(s2, target).(joiner := Some(p.token)), c);
    Compose(s, s2, Put(s2, target, At(s2, target).(joiner := Some(p.token))), c, false, false);
  }

  lemma JoinMoves(s: Sched, c: nat, target: ThreadId)
    requires Inv(s) && MayJoin(s, c, target)
    ensures Moves(s, JoinThread(s, c, target), c, true)
  {
    hide Inv, Moves, Retire, MayJoin;
    JoinReady(s, c, target);
    var s1 := Retire(s, c, true);
    RetireMoves(s, c, true);
    var current := Current(s1, c);
    var r := JoinThread(s, c, target);
    match JoinPathOf(s1, c, target)
    case JoinFails(error) =>
      PutMoves(s1, current, At(r, current), c);
      Compose(s, s1, r, c, true, false);
    case JoinReaps =>
      JoinReapInv(s1, c, target);
      NotRetired(s1, target);
      var s2 := Release(s1, target);
      ReleaseMoves(s1, target, c);
      Compose(s, s1, s2, c, true, false);
      PutMoves(s2, current, At(r, current), c);
      Compose(s, s2, r, c, true, false);
    case JoinBlocks =>
      JoinBlockMoves(s1, c, target);
      var s2 := JoinBlock(s1, c, target);
      Compose(s, s1, s2, c, true, false);
      AcknowledgeMoves(s2, c);
      Compose(s, s2, r, c, true, false);
  }

  lemma NotRetired(s: Sched, id: ThreadId)
    requires Inv(s) && Live(s, id) && At(s, id).home < |s.cpus| && s.cpus[At(s, id).home].retired != Some(id)
    ensures forall k: nat :: k < |s.cpus| ==> s.cpus[k].retired != Some(id)
  {
    forall k: nat | k < |s.cpus| ensures s.cpus[k].retired != Some(id) {
      assert CpuOk(s, k);
    }
  }

  lemma PublishMoves(s: Sched, c: nat, home: nat, user: Option<User>, joinable: bool, generation: nat)
    requires c < |s.cpus| && home < |s.cpus| && HasFree(s) && s.slots[FreeTop(s)].thread.None?
    requires forall k :: 0 <= k < |s.cpus| && s.cpus[k].retired.Some? ==> Live(s, s.cpus[k].retired.value)
    ensures Moves(s, Spawn(s, c, home, user, joinable, generation, false), c, false)
  {
  }

  lemma RetiredLive(s: Sched)
    requires Inv(s)
    ensures forall k :: 0 <= k < |s.cpus| && s.cpus[k].retired.Some? ==> Live(s, s.cpus[k].retired.value)
  {
    forall k | 0 <= k < |s.cpus| ensures s.cpus[k].retired.Some? ==> Live(s, s.cpus[k].retired.value) {
      assert CpuOk(s, k);
    }
  }

  lemma SpawnMoves(s: Sched, c: nat, home: nat, user: Option<User>, joinable: bool)
    requires Inv(s) && c < |s.cpus|
    requires user.Some? ==> joinable && user.value.owner == home
    ensures Moves(s, SpawnOn(s, c, home, user, joinable), c, false)
  {
    AcknowledgeMoves(s, c);
    if CanSpawn(s, home) {
      FreeTopFree(s);
      RetiredLive(s);
      PublishMoves(s, c, home, user, joinable, NextGeneration(s.slots[FreeTop(s)].generation));
    }
  }

  lemma StartIdleMoves(s: Sched, c: nat)
    requires Inv(s) && c < |s.cpus|
    ensures Moves(s, StartIdle(s, c), c, false)
  {
    hide Inv, ThreadOk;
    AcknowledgeMoves(s, c);
    if !(s.cpus[c].initialized || s.cpus[c].current.Some? || s.cpus[c].idle.Some? || s.free == []) {
      FreeTopFree(s);
      AddIdleInv(s, c);
      var s1, s' := AddIdle(s, c), StartIdle(s, c);
      CpuFacts(s1, c);
      if s1.cpus[c].ready != [] { FrontQueued(s1, c); }
      forall k: nat | k < |s.cpus| ensures RetiredKept(s, s', k) { CpuFacts(s, k); }
    }
  }

  lemma ExecMoves(s: Sched, c: nat, user: User)
    requires Inv(s) && c < |s.cpus|
    ensures Moves(s, ExecUser(s, c, user), c, false)
  {
    AcknowledgeMoves(s, c);
    if CanExec(s, c, user) {
      assert CpuOk(s, c);
      NeverRetired(s, Current(s, c));
      PutMoves(s, Current(s, c), At(s, Current(s, c)).(user := Some(user)), c);
    }
  }

  lemma CompleteStepMoves(s: Sched, c: nat, token: WaitToken, cause: WaitCause)
    requires Inv(s) && c < |s.cpus| && NotJoin(s, token)
    ensures Moves(s, Apply(s, Complete(c, token, cause)), c, false)
  {
    AcknowledgeMoves(s, c);
    if Live(s, token.thread) {
      assert ThreadOk(s, token.thread);
      CompleteMoves(s, c, token, cause, true);
    }
  }

  /** Steps that touch one thread or one CPU record. */
  lemma SmallMoves(s: Sched, op: Op)
    requires Inv(s) && Enabled(s, op)
    requires op.Prepare? || op.Finish? || op.Cancel? || op.TakeJoined? || op.RequestReschedule? || op.GuardEnter?
             || op.GuardLeave?
    ensures Moves(s, Apply(s, op), op.c, false)
  {
    hide Moves, Inv;
    var c := op.c;
    AcknowledgeMoves(s, c);
    match op
    case Prepare(_, consumption) =>
      PutMoves(s, Current(s, c), At(PrepareWait(s, c, consumption).0, Current(s, c)), c);
    case Finish(_, token) =>
      if IsCurrentOfHome(s, token.thread) {
        PutMoves(s, token.thread, At(FinishWait(s, token).0, token.thread), c);
      }
    case Cancel(_, prepared) =>
      if IsCurrentOfHome(s, prepared.token.thread) {
        PutMoves(s, prepared.token.thread, At(CancelWait(s, prepared).0, prepared.token.thread), c);
      }
    case TakeJoined(_) => PutMoves(s, Current(s, c), At(Apply(s, op), Current(s, c)), c);
    case GuardEnter(_) => PutCpuMoves(s, c, Apply(s, op).cpus[c], c, false);
    case GuardLeave(_) => PutCpuMoves(s, c, Apply(s, op).cpus[c], c, false);
    case RequestReschedule(_) =>
  }

  lemma SpawnKernelMoves(s: Sched, c: nat, home: nat, joinable: bool)
    requires Inv(s) && c < |s.cpus|
    ensures Moves(s, SpawnOn(Retire(s, c, true), c, home, None, joinable), c, true)
  {
    hide Moves, Inv, Retire, SpawnOn;
    var s1 := Retire(s, c, true);
    RetireMoves(s, c, true);
    SpawnMoves(s1, c, home, None, joinable);
    Compose(s, s1, SpawnOn(s1, c, home, None, joinable), c, true, false);
  }

  lemma StepMoves(s: Sched, op: Op)
    requires Inv(s) && Enabled(s, op)
    ensures Moves(s, Apply(s, op), op.c, Enters(op))
  {
    hide Moves, Inv, Retire, StartIdle, SpawnOn, ExecUser, CommitPrepared, ExitThread, JoinThread, SchedulerIpi,
         TimerInterrupt, PreemptCheckpoint, CompleteWait, FinishWait, CancelWait, PrepareWait, TakeJoinResult, MayJoin;
    var c := op.c;
    match op
    case InitIdle(_) => StartIdleMoves(s, c);
    case Enter(_) => PutCpuMoves(s, c, s.cpus[c].(online := true), c, false);
    case SpawnKernel(_, home, joinable) => SpawnKernelMoves(s, c, home, joinable);
    case SpawnUser(_, user) => SpawnMoves(s, c, user.owner, Some(user), true);
    case Exec(_, user) => ExecMoves(s, c, user);
    case Commit(_, prepared) => CommitMoves(s, c, prepared);
    case Complete(_, token, cause) => CompleteStepMoves(s, c, token, cause);
    case Exit(_, code) => ExitMoves(s, c, code);
    case Join(_, target) => JoinMoves(s, c, target);
    case Ipi(_) => IpiMoves(s, c);
    case Timer(_, events) => TimerMoves(s, c, events);
    case PreemptPoint(_) => PreemptMoves(s, c);
    case _ => SmallMoves(s, op);
  }

  // ----- theorems over runs -----

  lemma RunMoves(states: seq<Sched>, ops: seq<Op>, i: nat)
    requires IsRun(states, ops) && i < |ops|
    ensures Moves(states[i], states[i + 1], ops[i].c, Enters(ops[i]))
  {
    RunKeepsInv(states, ops, i);
    assert Step(states[i], ops[i], states[i + 1]);
    StepMoves(states[i], ops[i]);
  }

  lemma {:induction false} RunShape(states: seq<Sched>, ops: seq<Op>, n: nat)
    requires IsRun(states, ops) && n < |states|
    ensures |states[n].cpus| == |states[0].cpus| && |states[n].slots| == |states[0].slots|
  {
    if n > 0 {
      RunShape(states, ops, n - 1);
      RunMoves(states, ops, n - 1);
    }
  }

  /** The threads handed one CPU in turn, from the successive records of that CPU. */
  function Selected(xs: seq<Cpu>): seq<Option<ThreadId>> {
    if |xs| <= 1 then []
    else (if xs[1].current == xs[0].current then [] else [xs[1].current]) + Selected(xs[1..])
  }

  predicate Stepped(xs: seq<Cpu>, i: nat) {
    i + 1 < |xs| ==> QueueStep(xs[i], xs[i + 1])
  }

  lemma {:induction false} QueueOrder(xs: seq<Cpu>, p: nat)
    requires |xs| > 0 && p < |xs[0].ready|
    requires forall i: nat :: Stepped(xs, i)
    ensures
      var n := |Selected(xs)|;
      if n <= p
      then p - n < |xs[|xs| - 1].ready| && xs[|xs| - 1].ready[p - n] == xs[0].ready[p]
      else Selected(xs)[p] == Some(xs[0].ready[p])
    decreases |xs|
  {
    if |xs| > 1 {
      var ys := xs[1..];
      assert Stepped(xs, 0);
      QueueOne(xs[0], xs[1], p);
      forall i: nat ensures Stepped(ys, i) { assert Stepped(xs, i + 1); }
      hide QueueStep, Stepped;
      assert ys[0] == xs[1] && ys[|ys| - 1] == xs[|xs| - 1];
      if xs[1].current == xs[0].current {
        QueueOrder(ys, p);
        assert Selected(xs) == Selected(ys);
      } else {
        assert Selected(xs) == [xs[1].current] + Selected(ys);
        if p > 0 { QueueOrder(ys, p - 1); }
      }
    }
  }

  /** One step moves a queued thread forward exactly when it hands over. */
  lemma QueueOne(x: Cpu, x': Cpu, p: nat)
    requires QueueStep(x, x') && p < |x.ready|
    ensures x'.current == x.current ==> p < |x'.ready| && x'.ready[p] == x.ready[p]
    ensures x'.current != x.current && p == 0 ==> x'.current == Some(x.ready[0])
    ensures x'.current != x.current && p > 0 ==> p - 1 < |x'.ready| && x'.ready[p - 1] == x.ready[p]
  {
    if x'.current != x.current && p > 0 { assert x.ready[1..][p - 1] == x.ready[p]; }
  }

  /** Round robin: the thread at position p of a ready queue is the one that handoff number p on
      that CPU selects, whatever is woken, spawned or drained in the meantime; until then it has
      moved forward by exactly the number of handoffs. */
  lemma RoundRobin(states: seq<Sched>, ops: seq<Op>, k: nat, p: nat, xs: seq<Cpu>)
    requires IsRun(states, ops) && k < |states[0].cpus| && p < |states[0].cpus[k].ready|
    requires |xs| == |states| && forall i :: 0 <= i < |xs| ==> k < |states[i].cpus| && xs[i] == states[i].cpus[k]
    ensures
      var n, id, last := |Selected(xs)|, states[0].cpus[k].ready[p], states[|ops|].cpus[k];
      if n <= p then p - n < |last.ready| && last.ready[p - n] == id else Selected(xs)[p] == Some(id)
  {
    forall i: nat ensures Stepped(xs, i) {
      if i + 1 < |xs| {
        RunMoves(states, ops, i);
        assert QueueStep(states[i].cpus[k], states[i + 1].cpus[k]);
      }
    }
    QueueOrder(xs, p);
  }

  /** Between exit and the next scheduler entry on its own CPU, an exited thread keeps its slot:
      it stays live with its code and resources, its stack is not parked, its slot not free. */
  lemma {:induction false} RetiredSlotHeld(states: seq<Sched>, ops: seq<Op>, k: nat, id: ThreadId, n: nat)
    requires IsRun(states, ops) && n < |states| && k < |states[0].cpus| && states[0].cpus[k].retired == Some(id)
    requires forall i :: 0 <= i < n ==> !(Enters(ops[i]) && ops[i].c == k)
    ensures
      var s, s' := states[0], states[n];
      && k < |s'.cpus| && s'.cpus[k].retired == Some(id)
      && Live(s, id) && Live(s', id)
      && At(s', id).state.Exited? && At(s', id).exitCode == At(s, id).exitCode && At(s', id).user == At(s, id).user
      && !s'.slots[id.index].stackParked && id.index !in s'.free
  {
    RunKeepsInv(states, ops, n);
    RunShape(states, ops, n);
    assert CpuOk(states[0], k);
    if n > 0 {
      RetiredSlotHeld(states, ops, k, id, n - 1);
      RunMoves(states, ops, n - 1);
      assert RetiredKept(states[n - 1], states[n], k);
    }
    HeldSlot(states[n], k, id);
  }

  lemma HeldSlot(s: Sched, k: nat, id: ThreadId)
    requires Inv(s) && k < |s.cpus| && s.cpus[k].retired == Some(id)
    ensures Live(s, id) && At(s, id).state.Exited? && !s.slots[id.index].stackParked && id.index !in s.free
  {
    assert CpuOk(s, k);
    assert multiset(s.free)[id.index as int] == 0;
    assert id.index !in multiset(s.free);
  }

  /** The token a step issues, if it prepares a wait. */
  ghost function IssuedBy(s: Sched, op: Op): Option<WaitToken>
    requires Inv(s) && Enabled(s, op)
  {
    match op
    case Prepare(c, consumption) => Some(PrepareWait(s, c, consumption).1.token)
    case Join(c, target) => JoinIssues(s, c, target)
    case _ => None
  }

  ghost function JoinIssues(s: Sched, c: nat, target: ThreadId): Option<WaitToken>
    requires Inv(s) && MayJoin(s, c, target)
  {
    var s1 := Retire(s, c, true);
    JoinReady(s, c, target);
    if JoinPathOf(s1, c, target).JoinBlocks? then Some(PrepareWait(s1, c, Explicit).1.token) else None
  }

  lemma IssueAdvances(s: Sched, op: Op)
    requires Inv(s) && Enabled(s, op) && IssuedBy(s, op).Some?
    ensures
      var token := IssuedBy(s, op).value;
      var i := token.thread.index;
      && i < |s.slots| && i < |Apply(s, op).slots|
      && Sequence(s.slots[i]) < token.sequence == Sequence(Apply(s, op).slots[i])
  {
    hide Inv, Retire, MayJoin;
    if op.Join? {
      var c, s1 := op.c, Retire(s, op.c, true);
      JoinReady(s, c, op.target);
      RetireMoves(s, c, true);
      JoinBlockShape(s1, c, op.target);
      var p := PrepareWait(s1, c, Explicit).1;
      assert Sequence(s.slots[p.token.thread.index]) <= Sequence(s1.slots[p.token.thread.index]);
      var s2 := JoinBlock(s1, c, op.target);
      assert Apply(s, op) == Acknowledge(s2, c);
      assert Sequence(s2.slots[p.token.thread.index]) == p.token.sequence;
    }
  }

  lemma {:induction false} SequenceMonotone(states: seq<Sched>, ops: seq<Op>, i: nat, m: nat, n: nat)
    requires IsRun(states, ops) && m <= n < |states| && i < |states[m].slots|
    ensures i < |states[n].slots| && Sequence(states[m].slots[i]) <= Sequence(states[n].slots[i])
    decreases n - m
  {
    if m < n {
      RunMoves(states, ops, m);
      assert Sequence(states[m].slots[i]) <= Sequence(states[m + 1].slots[i]);
      SequenceMonotone(states, ops, i, m + 1, n);
    }
  }

  /** No wait token is issued twice in any run, across release, slot reuse and generation wrap. The
      invariant is named only because IssuedBy needs it; RunKeepsInv has it for every state. */
  lemma TokensUnique(states: seq<Sched>, ops: seq<Op>, m: nat, n: nat)
    requires IsRun(states, ops) && m < n < |ops|
    requires Inv(states[m]) && Inv(states[n])
    requires IssuedBy(states[m], ops[m]).Some? && IssuedBy(states[n], ops[n]).Some?
    ensures IssuedBy(states[m], ops[m]) != IssuedBy(states[n], ops[n])
  {
    var a, b := IssuedBy(states[m], ops[m]).value, IssuedBy(states[n], ops[n]).value;
    StepIssues(states, ops, m);
    StepIssues(states, ops, n);
    SequenceMonotone(states, ops, a.thread.index, m + 1, n);
  }

  lemma StepIssues(states: seq<Sched>, ops: seq<Op>, n: nat)
    requires IsRun(states, ops) && n < |ops| && Inv(states[n]) && IssuedBy(states[n], ops[n]).Some?
    ensures
      var token := IssuedBy(states[n], ops[n]).value;
      var i := token.thread.index;
      && i < |states[n].slots| && i < |states[n + 1].slots|
      && Sequence(states[n].slots[i]) < token.sequence == Sequence(states[n + 1].slots[i])
  {
    assert Step(states[n], ops[n], states[n + 1]);
    IssueAdvances(states[n], ops[n]);
  }
}
