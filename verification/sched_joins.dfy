/**
  Joins over whole runs (kernel/src/sched/thread.rs:627-697, transition.rs:695-753): which result a join
  reports, and that a blocked join is answered by the exit of its target and by nothing else.
 */
module SchedJoins {
  import opened Base
  import opened Waits
  import opened SchedState
  import opened SchedInvariant
  import opened SchedSteps
  import opened SchedOps
  import opened SchedTimer
  import opened SchedRuns
  import opened SchedQuiet
  import opened SchedHistory
  import SchedEstates

  /** The target can be joined by the running thread of CPU c. */
  predicate Joinable(s: Sched, c: nat, target: ThreadId)
    requires HasCurrent(s, c)
  {
    && s.cpus[c].current != s.cpus[c].idle && Live(s, target) && target != Current(s, c)
    && At(s, target).joinable && At(s, target).joiner.None?
  }

  /** Exited and already switched away from for good. */
  predicate Reapable(s: Sched, target: ThreadId)
    requires Live(s, target)
  {
    At(s, target).state.Exited? && forall k :: 0 <= k < |s.cpus| ==> s.cpus[k].retired != Some(target)
  }

  /** What a join leaves behind, in terms of the state s after retirement: each error with its exact
      condition, the exit of a reapable target, or a blocked caller recorded as the joiner. */
  ghost predicate JoinOutcome(s: Sched, r: Sched, c: nat, target: ThreadId)
    requires HasCurrent(s, c)
  {
    var me, idle := Current(s, c), s.cpus[c].current == s.cpus[c].idle;
    && Live(r, me)
    && var result, reaped := At(r, me).joinResult, At(r, me).reaped;
       && (result == Some(JoinErr(InvalidThread)) <==> !idle && !Live(s, target))
       && (result == Some(JoinErr(SelfJoin)) <==> !idle && target == me)
       && (result == Some(JoinErr(NotJoinable)) <==>
             idle || (Live(s, target) && target != me && !At(s, target).joinable))
       && (result == Some(JoinErr(JoinInProgress)) <==>
             !idle && Live(s, target) && target != me && At(s, target).joinable && At(s, target).joiner.Some?)
       && (!Joinable(s, c, target) ==>
             reaped.None? && r == Put(s, me, At(s, me).(joinResult := result, reaped := reaped)))
       && (Joinable(s, c, target) ==>
             if Reapable(s, target) then
               && At(s, target).exitCode.Some? && result == Some(JoinOk(At(s, target).exitCode.value))
               && reaped == At(s, target).user && !Live(r, target) && target.index in r.free
             else
               && result.None? && At(r, me).state.Blocked? && At(r, me).wait.active.Some?
               && JoinerOf(r, target) == Some(At(r, me).wait.active.value.token))
  }

  lemma RetiredAtHome(s: Sched, target: ThreadId)
    requires Inv(s) && Live(s, target) && At(s, target).home < |s.cpus|
    ensures (exists k :: 0 <= k < |s.cpus| && s.cpus[k].retired == Some(target))
            <==> s.cpus[At(s, target).home].retired == Some(target)
  {
    forall k | 0 <= k < |s.cpus| && s.cpus[k].retired == Some(target) ensures k == At(s, target).home {
      assert CpuOk(s, k);
    }
  }

  lemma IdleUnjoinable(s: Sched, target: ThreadId)
    requires Inv(s) && Live(s, target) && At(s, target).home < |s.cpus|
    ensures s.cpus[At(s, target).home].idle == Some(target) ==> !At(s, target).joinable
  {
    assert CpuOk(s, At(s, target).home);
  }

  /** Every join ends in its outcome. */
  lemma JoinIsOutcome(s: Sched, c: nat, target: ThreadId)
    requires Inv(s) && MayJoin(s, c, target)
    ensures HasCurrent(Retire(s, c, true), c)
    ensures JoinOutcome(Retire(s, c, true), JoinThread(s, c, target), c, target)
  {
    hide Inv, Retire, MayJoin, JoinBlock;
    JoinReady(s, c, target);
    var s1, r := Retire(s, c, true), JoinThread(s, c, target);
    if Live(s1, target) {
      RetiredAtHome(s1, target);
      IdleUnjoinable(s1, target);
    }
    CpuFacts(s1, c);
    ThreadFacts(s1, Current(s1, c));
    match JoinPathOf(s1, c, target)
    case JoinFails(error) =>
    case JoinReaps =>
      JoinReapInv(s1, c, target);
      assert r.free[|r.free| - 1] == target.index;
    case JoinBlocks => JoinBlockOutcome(s1, c, target);
  }

  lemma JoinBlockOutcome(s: Sched, c: nat, target: ThreadId)
    requires Inv(s) && MayBlock(s, c) && MayPrepare(s, c) && HasNext(s, c) && Next(s, c).index != Current(s, c).index
    requires At(s, Current(s, c)).joinResult.None?
    requires Live(s, target) && At(s, target).home < |s.cpus| && JoinPathOf(s, c, target).JoinBlocks?
    ensures
      var r, me := JoinBlock(s, c, target), Current(s, c);
      && Live(r, me) && At(r, me).joinResult.None? && At(r, me).state.Blocked?
      && At(r, me).wait.active.Some? && JoinerOf(r, target) == Some(At(r, me).wait.active.value.token)
  {
  }

  // ----- what a step keeps of a slot -----

  /** No thread is born and no identity changes; a thread with a joiner keeps both, and a join result
      that is not the acting thread's own stays with its owner. */
  predicate SlotContinues(a: Slot, b: Slot, own: bool) {
    && b.generation == a.generation && (a.thread.None? ==> b.thread.None?)
    && (a.thread.Some? ==>
          var x := a.thread.value;
          && (x.joiner.Some? ==> b.thread.Some? && b.thread.value.joiner == x.joiner)
          && (!own && x.joinResult.Some? ==>
                b.thread.Some? && b.thread.value.joinResult == x.joinResult && b.thread.value.reaped == x.reaped))
  }

  ghost predicate Continues(s: Sched, s': Sched, own: int) {
    && |s'.slots| == |s.slots|
    && forall i {:trigger s'.slots[i]} :: 0 <= i < |s.slots| ==> SlotContinues(s.slots[i], s'.slots[i], i == own)
  }

  /** The slot of the running thread of a CPU. */
  function OwnSlot(s: Sched, c: nat): int {
    if c < |s.cpus| && s.cpus[c].current.Some? then s.cpus[c].current.value.index else -1
  }

  lemma SameSlots(s: Sched, s': Sched, own: int)
    requires s'.slots == s.slots
    ensures Continues(s, s', own)
  {
  }

  lemma PutContinues(s: Sched, id: ThreadId, t: Thread, own: int)
    requires Live(s, id)
    requires At(s, id).joiner.Some? ==> t.joiner == At(s, id).joiner
    requires id.index != own && At(s, id).joinResult.Some? ==>
      t.joinResult == At(s, id).joinResult && t.reaped == At(s, id).reaped
    ensures Continues(s, Put(s, id, t), own)
  {
  }

  lemma HandoffContinues(s: Sched, c: nat, t: Thread)
    requires HasCurrent(s, c) && HasNext(s, c) && Next(s, c).index != Current(s, c).index
    requires t.joiner == At(s, Current(s, c)).joiner
    ensures Continues(s, Handoff(s, c, t), OwnSlot(s, c))
  {
  }

  lemma CompleteContinues(s: Sched, c: nat, token: WaitToken, cause: WaitCause, notify: bool, own: int)
    requires c < |s.cpus| && (Live(s, token.thread) ==> At(s, token.thread).home < |s.cpus|)
    ensures Continues(s, CompleteWait(s, c, token, cause, notify).0, own)
  {
  }

  lemma CheckpointContinues(s: Sched, c: nat)
    requires HasCurrent(s, c) && HasNext(s, c) && (s.cpus[c].ready != [] ==> Next(s, c).index != Current(s, c).index)
    ensures Continues(s, Checkpoint(s, c), OwnSlot(s, c))
  {
  }

  lemma ContinuesTrans(s: Sched, m: Sched, s': Sched, own: int)
    requires Continues(s, m, own) && Continues(m, s', own)
    ensures Continues(s, s', own)
  {
    forall i | 0 <= i < |s.slots| ensures SlotContinues(s.slots[i], s'.slots[i], i == own) {
      assert SlotContinues(s.slots[i], m.slots[i], i == own);
    }
  }

  // ----- retirement -----

  /** The exit of a joined thread has reached its joiner. */
  predicate Answered(s: Sched, s': Sched, target: ThreadId, token: WaitToken) {
    && Live(s, target) && At(s, target).exitCode.Some? && !Live(s', target) && Live(s', token.thread)
    && At(s', token.thread).joinResult == Some(JoinOk(At(s, target).exitCode.value))
    && At(s', token.thread).reaped == At(s, target).user
  }

  /** Delivery to the joiner: other slots continue, and the retired thread leaves its slot. */
  lemma DeliveryContinues(s: Sched, c: nat, notify: bool)
    requires Inv(s) && CanFinalize(s, c) && s.cpus[c].retired.Some?
    requires At(s, s.cpus[c].retired.value).joiner.Some?
    ensures
      var id, r := s.cpus[c].retired.value, Finalize(s, c, notify);
      var j := At(s, id).joiner.value.thread;
      && |r.slots| == |s.slots| && r.slots[id.index].generation == id.generation && r.slots[id.index].thread.None?
      && forall i {:trigger r.slots[i]} :: 0 <= i < |s.slots| && i != id.index ==>
           SlotContinues(s.slots[i], r.slots[i], i == j.index)
  {
    hide Inv, CompleteWait;
    var id := s.cpus[c].retired.value;
    var t, s1 := At(s, id), PutCpu(s, c, s.cpus[c].(retired := None));
    var token := t.joiner.value;
    var j := token.thread;
    JoinerFacts(s, id);
    CompleteKeeps(s1, c, token, notify);
    CompleteContinues(s1, c, token, Notified, notify, j.index);
    var s2 := CompleteWait(s1, c, token, Notified, notify).0;
    var y := At(s2, j).(joinResult := Some(JoinOk(t.exitCode.value)), reaped := t.user);
    PutContinues(s2, j, y, j.index);
    SameSlots(s, s1, j.index);
    ContinuesTrans(s, s1, s2, j.index);
    ContinuesTrans(s, s2, Put(s2, j, y), j.index);
    assert Finalize(s, c, notify) == Release(Put(s2, j, y), id);
  }

  /** Retirement answers the joiner of the retired thread and leaves every other join alone. */
  lemma RetireContinues(s: Sched, c: nat, notify: bool, x: ThreadId)
    requires Inv(s) && c < |s.cpus|
    ensures
      var r := Retire(s, c, notify);
      && SameGenerations(s, r)
      && (JoinerOf(s, x).Some? ==>
            if s.cpus[c].retired == Some(x) then
              Answered(s, r, x, JoinerOf(s, x).value) && At(r, JoinerOf(s, x).value.thread).state.Ready?
            else JoinerOf(r, x) == JoinerOf(s, x))
  {
    hide Inv, CompleteWait, ThreadOk, SlotContinues;
    InvCanFinalize(s, c);
    if s.cpus[c].retired.Some? {
      var id, r := s.cpus[c].retired.value, Retire(s, c, notify);
      CpuFacts(s, c);
      if At(s, id).joiner.Some? {
        SchedEstates.DeliverMoves(s, c, notify, SchedEstates.Estate(0, None));
        DeliveryContinues(s, c, notify);
        forall i | 0 <= i < |s.slots| ensures SameIdentity(s.slots[i], r.slots[i]) {
          if i != id.index { Unborn(s.slots[i], r.slots[i], i == At(s, id).joiner.value.thread.index); }
        }
        if JoinerOf(s, x).Some? && x != id {
          Unborn(s.slots[x.index], r.slots[x.index], x.index == At(s, id).joiner.value.thread.index);
        }
      }
    }
  }

  /** No thread was born in the slot, and its identity is the same. */
  predicate SameIdentity(a: Slot, b: Slot) {
    b.generation == a.generation && (a.thread.None? ==> b.thread.None?)
  }

  ghost predicate SameGenerations(s: Sched, s': Sched) {
    && |s'.slots| == |s.slots|
    && forall i {:trigger s'.slots[i]} :: 0 <= i < |s.slots| ==> SameIdentity(s.slots[i], s'.slots[i])
  }

  lemma Unborn(a: Slot, b: Slot, own: bool)
    requires SlotContinues(a, b, own)
    ensures SameIdentity(a, b)
    ensures a.thread.Some? && a.thread.value.joiner.Some? ==>
      b.thread.Some? && b.thread.value.joiner == a.thread.value.joiner
  {
  }

  // ----- steps -----

  lemma {:induction false} DispatchContinues(s: Sched, c: nat, events: seq<TimedEvent>, own: int)
    requires Inv(s) && c < |s.cpus| && BatchOk(s, c, events)
    ensures Continues(s, DispatchAll(s, c, events), own)
    decreases |events|
  {
    hide Inv, Continues, Dispatch;
    SameSlots(s, s, own);
    if events != [] {
      assert events[0] in events;
      var s1 := Dispatch(s, c, events[0]);
      assert forall x :: NotJoin(s, x) ==> NotJoin(s1, x);
      OneContinues(s, c, events[0], own);
      DispatchContinues(s1, c, events[1..], own);
      ContinuesTrans(s, s1, DispatchAll(s1, c, events[1..]), own);
    }
  }

  lemma OneContinues(s: Sched, c: nat, e: TimedEvent, own: int)
    requires Inv(s) && c < |s.cpus| && BatchOk(s, c, [e])
    ensures Continues(s, Dispatch(s, c, e), own)
  {
    hide Inv, Continues;
    SameSlots(s, Request(s, c), own);
    SameSlots(s, s, own);
    if e.WaitDeadline? {
      if Live(s, e.token.thread) { ThreadFacts(s, e.token.thread); }
      CompleteContinues(s, c, e.token, Timeout, false, own);
    }
  }

  lemma TimerContinues(s: Sched, c: nat, events: seq<TimedEvent>)
    requires Inv(s) && IrqOpen(s, c) && BatchOk(s, c, events)
    ensures Continues(Retire(s, c, false), TimerInterrupt(s, c, events), OwnSlot(Retire(s, c, false), c))
  {
    hide Inv, Continues, DispatchAll, Retire;
    var s1 := Retire(s, c, false);
    var own := OwnSlot(s1, c);
    SameSlots(s1, s1, own);
    if s.cpus[c].online {
      TimerInterruptIsQueued(s, c, events);
      var s2 := DispatchAll(s1, c, events);
      DispatchContinues(s1, c, events, own);
      CpuFacts(s1, c);
      CpuFacts(s2, c);
      RequestInv(s2, c);
      var s3 := if s2.cpus[c].idle == s2.cpus[c].current && s2.cpus[c].ready != [] then Request(s2, c) else s2;
      SameSlots(s2, s3, own);
      CpuReady(s3, c);
      CheckpointContinues(s3, c);
      ContinuesTrans(s1, s2, s3, own);
      ContinuesTrans(s1, s3, Checkpoint(s3, c), own);
    }
  }

  lemma IpiContinues(s: Sched, c: nat)
    requires Inv(s) && IrqOpen(s, c)
    ensures Continues(Retire(s, c, true), SchedulerIpi(s, c), OwnSlot(Retire(s, c, true), c))
  {
    hide Inv, Continues, Retire;
    var s1 := Retire(s, c, true);
    var own := OwnSlot(s1, c);
    SameSlots(s1, s1, own);
    if s1.cpus[c].online {
      CpuFacts(s1, c);
      DrainInv(s1, c);
      var s2 := DrainRemote(s1, c);
      RequestInv(s2, c);
      var s3 := NotePeer(s2, c);
      SameSlots(s1, s3, own);
      CpuReady(s3, c);
      CheckpointContinues(s3, c);
      ContinuesTrans(s1, s3, Checkpoint(s3, c), own);
    }
  }

  lemma PreemptContinues(s: Sched, c: nat)
    requires Inv(s) && IrqOpen(s, c)
    ensures Continues(Retire(s, c, true), PreemptCheckpoint(s, c), OwnSlot(Retire(s, c, true), c))
  {
    hide Inv, Continues, Retire;
    var s1 := Retire(s, c, true);
    SameSlots(s1, s1, OwnSlot(s1, c));
    if CheckpointDue(s1.cpus[c]) {
      CpuFacts(s1, c);
      CpuReady(s1, c);
      CheckpointContinues(s1, c);
    }
  }

  lemma CommitContinues(s: Sched, c: nat, prepared: PreparedWait)
    requires Inv(s) && MayBlock(s, c)
    ensures Continues(s, CommitPrepared(s, c, prepared).0, OwnSlot(s, c))
  {
    hide Inv, Continues;
    CpuFacts(s, c);
    CpuReady(s, c);
    var from, own := Current(s, c), OwnSlot(s, c);
    var (w, o) := Waits.Commit(At(s, from).wait, prepared);
    var s1 := CommitWait(s, c, prepared).0;
    if o.Block? {
      HandoffContinues(s, c, At(s, from).(state := Blocked, wait := w));
    } else {
      PutContinues(s, from, At(s, from).(wait := w), own);
    }
    SameSlots(s1, CommitPrepared(s, c, prepared).0, own);
    ContinuesTrans(s, s1, CommitPrepared(s, c, prepared).0, own);
  }

  lemma ExitContinues(s: Sched, c: nat, code: nat)
    requires Inv(s) && MayExit(s, c)
    ensures Continues(Retire(s, c, true), ExitThread(s, c, code), OwnSlot(Retire(s, c, true), c))
  {
    hide Inv, Continues, Retire;
    CpuFacts(s, c);
    CpuReady(s, c);
    var s1 := Retire(s, c, true);
    CpuReady(s1, c);
    var t := At(s1, Current(s1, c)).(exitCode := Some(code), state := Exited);
    HandoffContinues(s1, c, t);
    SameSlots(Handoff(s1, c, t), ExitThread(s, c, code), OwnSlot(s1, c));
    ContinuesTrans(s1, Handoff(s1, c, t), ExitThread(s, c, code), OwnSlot(s1, c));
  }

  lemma JoinContinues(s: Sched, c: nat, target: ThreadId)
    requires Inv(s) && MayJoin(s, c, target)
    ensures Continues(Retire(s, c, true), JoinThread(s, c, target), OwnSlot(Retire(s, c, true), c))
  {
    hide Inv, Continues, Retire, MayJoin, JoinBlock;
    JoinReady(s, c, target);
    var s1, r := Retire(s, c, true), JoinThread(s, c, target);
    var me, own := Current(s1, c), OwnSlot(s1, c);
    match JoinPathOf(s1, c, target)
    case JoinFails(error) => PutContinues(s1, me, At(r, me), own);
    case JoinReaps =>
      JoinReapInv(s1, c, target);
      ThreadFacts(s1, target);
      var s2 := Release(s1, target);
      ReleaseContinues(s1, target, own);
      PutContinues(s2, me, At(r, me), own);
      ContinuesTrans(s1, s2, r, own);
    case JoinBlocks =>
      BlockContinues(s1, c, target);
      SameSlots(JoinBlock(s1, c, target), r, own);
      ContinuesTrans(s1, JoinBlock(s1, c, target), r, own);
  }

  lemma ReleaseContinues(s: Sched, id: ThreadId, own: int)
    requires Live(s, id) && At(s, id).joiner.None? && At(s, id).joinResult.None?
    ensures Continues(s, Release(s, id), own)
  {
  }

  lemma BlockContinues(s: Sched, c: nat, target: ThreadId)
    requires MayPrepare(s, c) && HasNext(s, c) && Next(s, c).index != Current(s, c).index
    requires Live(s, target) && target.index != Current(s, c).index && At(s, target).joiner.None?
    ensures Continues(s, JoinBlock(s, c, target), OwnSlot(s, c))
  {
    hide Continues;
    JoinBlockShape(s, c, target);
    var (s1, p) := PrepareWait(s, c, Explicit);
    var from, own := Current(s, c), OwnSlot(s, c);
    PutContinues(s, from, At(s1, from), own);
    var t := At(s1, from).(state := Blocked, wait := Waits.Commit(At(s1, from).wait, p).0);
    var s2 := Handoff(s1, c, t);
    HandoffContinues(s1, c, t);
    PutContinues(s2, target, At(s2, target).(joiner := Some(p.token)), own);
    ContinuesTrans(s, s1, s2, own);
    ContinuesTrans(s, s2, JoinBlock(s, c, target), own);
  }

  /** The state in which the own effect of a step begins. */
  function Begun(s: Sched, op: Op): Sched
    requires Inv(s) && op.c < |s.cpus|
  {
    if Enters(op) then Retire(s, op.c, !op.Timer?) else s
  }

  lemma StepContinues(s: Sched, op: Op)
    requires Inv(s) && Enabled(s, op) && !op.InitIdle? && !op.SpawnKernel? && !op.SpawnUser?
    ensures Continues(Begun(s, op), Apply(s, op), OwnSlot(Begun(s, op), op.c))
  {
    hide Inv, Continues, Retire, CommitPrepared, ExitThread, JoinThread, SchedulerIpi, TimerInterrupt,
         PreemptCheckpoint, MayJoin;
    var c, own := op.c, OwnSlot(s, op.c);
    match op
    case Commit(_, prepared) => CommitContinues(s, c, prepared);
    case Exit(_, code) => ExitContinues(s, c, code);
    case Join(_, target) => JoinContinues(s, c, target);
    case Ipi(_) => IpiContinues(s, c);
    case Timer(_, events) => TimerContinues(s, c, events);
    case PreemptPoint(_) => PreemptContinues(s, c);
    case Enter(_) => SameSlots(s, Apply(s, op), own);
    case RequestReschedule(_) => SameSlots(s, Apply(s, op), own);
    case GuardEnter(_) => SameSlots(s, Apply(s, op), own);
    case GuardLeave(_) => SameSlots(s, Apply(s, op), own);
    case _ => OwnContinues(s, op);
  }

  /** Steps that update one thread. */
  lemma OwnContinues(s: Sched, op: Op)
    requires Inv(s) && Enabled(s, op)
    requires op.Exec? || op.Prepare? || op.Complete? || op.Finish? || op.Cancel? || op.TakeJoined?
    ensures Continues(s, Apply(s, op), OwnSlot(s, op.c))
  {
    hide Inv, Continues;
    var c, own := op.c, OwnSlot(s, op.c);
    SameSlots(s, s, own);
    match op
    case Exec(_, user) =>
      if CanExec(s, c, user) { PutContinues(s, Current(s, c), At(Apply(s, op), Current(s, c)), own); }
    case Prepare(_, _) => PutContinues(s, Current(s, c), At(Apply(s, op), Current(s, c)), own);
    case Complete(_, token, cause) =>
      if Live(s, token.thread) {
        ThreadFacts(s, token.thread);
        CompleteContinues(s, c, token, cause, true, own);
      }
    case Finish(_, token) =>
      if IsCurrentOfHome(s, token.thread) {
        PutContinues(s, token.thread, At(FinishWait(s, token).0, token.thread), own);
      }
    case Cancel(_, prepared) =>
      if IsCurrentOfHome(s, prepared.token.thread) {
        PutContinues(s, prepared.token.thread, At(CancelWait(s, prepared).0, prepared.token.thread), own);
      }
    case TakeJoined(_) => PutContinues(s, Current(s, c), At(Apply(s, op), Current(s, c)), own);
  }

  // ----- births -----

  /** A spawn publishes one ready thread with the attributes it was given, in a slot that was free, under
      an identity that differs from the last one of the slot and never has generation 0. */
  lemma SpawnBirth(s: Sched, c: nat, home: nat, user: Option<User>, joinable: bool)
    requires Inv(s) && c < |s.cpus| && (user.Some? ==> joinable && user.value.owner == home)
    ensures
      var r := SpawnOn(s, c, home, user, joinable);
      && (r == s || CanSpawn(s, home))
      && (CanSpawn(s, home) ==>
            && HasFree(s) && |r.slots| == |s.slots|
            && var i := FreeTop(s);
               var id, a := ThreadId(i, r.slots[i].generation), s.slots[i];
               && a.thread.None? && id.generation != a.generation && id.generation != 0 && Live(r, id)
               && (forall k :: 0 <= k < |s.slots| && k != i ==> r.slots[k] == s.slots[k])
               && var t := At(r, id);
                  && t.home == home && t.user == user && t.joinable == joinable && t.state.Ready?
                  && t.exitCode.None? && t.joiner.None? && t.joinResult.None? && t.reaped.None?
                  && t.wait.active.None? && t.wait.nextSequence == a.nextSequence)
  {
    if CanSpawn(s, home) { FreeTopFree(s); }
    hide Inv;
  }

  /** The start of a CPU adds its idle thread in a free slot and lets one thread run. */
  lemma StartBirth(s: Sched, c: nat, i: nat)
    requires Inv(s) && c < |s.cpus| && i < |s.slots|
    ensures
      var r := StartIdle(s, c);
      && |r.slots| == |s.slots|
      && (if s.slots[i].thread.None? then r.slots[i] == s.slots[i] || r.slots[i].thread.Some?
          else SlotContinues(s.slots[i], r.slots[i], false))
  {
    if !(s.cpus[c].initialized || s.cpus[c].current.Some? || s.cpus[c].idle.Some? || s.free == []) {
      FreeTopFree(s);
      AddIdleInv(s, c);
    }
    hide Inv;
  }

  /** The identity of a slot changes only when a thread is born in it. A thread that is spawned there
      gets an identity the slot did not have before, never of generation 0. */
  lemma StepIdentities(s: Sched, op: Op, i: nat)
    requires Inv(s) && Enabled(s, op) && i < |s.slots|
    ensures
      var s' := Apply(s, op);
      && |s'.slots| == |s.slots|
      && var g, g' := s.slots[i].generation, s'.slots[i].generation;
         && (g' != g ==> s'.slots[i].thread.Some? && (s.slots[i].thread.None? || op.SpawnKernel?))
         && ((op.SpawnKernel? || op.SpawnUser?) && s.slots[i].thread.None? && s'.slots[i].thread.Some? ==>
               g' != g && g' != 0)
  {
    hide Inv, Retire, StartIdle, SpawnOn, CommitPrepared, ExitThread, JoinThread, SchedulerIpi, TimerInterrupt,
         PreemptCheckpoint, MayJoin;
    var c, s1 := op.c, Begun(s, op);
    RetireContinues(s, c, !op.Timer?, ThreadId(0, 0));
    match op
    case InitIdle(_) => StartBirth(s, c, i);
    case SpawnKernel(_, home, joinable) => SpawnBirth(s1, c, home, None, joinable);
    case SpawnUser(_, user) => SpawnBirth(s, c, user.owner, Some(user), true);
    case _ =>
      hide Apply;
      StepContinues(s, op);
      Unborn(s1.slots[i], Apply(s, op).slots[i], i == OwnSlot(s1, c));
  }

  // ----- joins -----

  /** A thread with a joiner keeps it, or the step has retired the thread and answered the joiner with its
      exit code and resources. */
  lemma StepJoin(s: Sched, op: Op, x: ThreadId)
    requires Inv(s) && Enabled(s, op) && JoinerOf(s, x).Some?
    ensures
      var s', token := Apply(s, op), JoinerOf(s, x).value;
      || JoinerOf(s', x) == Some(token)
      || (Enters(op) && s.cpus[op.c].retired == Some(x) && Answered(s, s', x, token))
  {
    hide Inv, Apply;
    if op.InitIdle? || op.SpawnKernel? || op.SpawnUser? { BirthJoin(s, op, x); } else { EffectJoin(s, op, x); }
  }

  lemma BirthJoin(s: Sched, op: Op, x: ThreadId)
    requires Inv(s) && Enabled(s, op) && (op.InitIdle? || op.SpawnKernel? || op.SpawnUser?)
    requires JoinerOf(s, x).Some?
    ensures
      var s', token := Apply(s, op), JoinerOf(s, x).value;
      || JoinerOf(s', x) == Some(token)
      || (Enters(op) && s.cpus[op.c].retired == Some(x) && Answered(s, s', x, token))
  {
    hide Inv, Retire, StartIdle, SpawnOn;
    var c := op.c;
    match op
    case InitIdle(_) => StartBirth(s, c, x.index);
    case SpawnKernel(_, home, joinable) =>
      RetireContinues(s, c, true, x);
      SpawnBirth(Retire(s, c, true), c, home, None, joinable);
    case SpawnUser(_, user) => SpawnBirth(s, c, user.owner, Some(user), true);
  }

  lemma EffectJoin(s: Sched, op: Op, x: ThreadId)
    requires Inv(s) && Enabled(s, op) && !op.InitIdle? && !op.SpawnKernel? && !op.SpawnUser?
    requires JoinerOf(s, x).Some?
    ensures
      var s', token := Apply(s, op), JoinerOf(s, x).value;
      || JoinerOf(s', x) == Some(token)
      || (Enters(op) && s.cpus[op.c].retired == Some(x) && Answered(s, s', x, token))
  {
    hide Inv, Retire, Apply, SlotContinues;
    var c, s1, s' := op.c, Begun(s, op), Apply(s, op);
    var own, token := OwnSlot(s1, c), JoinerOf(s, x).value;
    RetireContinues(s, c, !op.Timer?, x);
    StepContinues(s, op);
    Unborn(s1.slots[x.index], s'.slots[x.index], x.index == own);
    if Enters(op) && s.cpus[c].retired == Some(x) {
      CpuFacts(s1, c);
      ResultKept(s1.slots[token.thread.index], s'.slots[token.thread.index]);
    }
  }

  lemma ResultKept(a: Slot, b: Slot)
    requires SlotContinues(a, b, false) && a.thread.Some? && a.thread.value.joinResult.Some?
    ensures b.thread.Some? && b.generation == a.generation
    ensures b.thread.value.joinResult == a.thread.value.joinResult && b.thread.value.reaped == a.thread.value.reaped
  {
  }

  /** A join that blocks is recorded with the token it waits for. */
  lemma BlockedJoinRecorded(s: Sched, op: Op)
    requires Inv(s) && Enabled(s, op) && op.Join? && IssuedBy(s, op).Some?
    ensures JoinerOf(Apply(s, op), op.target) == IssuedBy(s, op)
  {
    hide Inv, Retire, MayJoin;
    JoinReady(s, op.c, op.target);
    JoinBlockShape(Retire(s, op.c, true), op.c, op.target);
  }

  /** Step k retires the target of a join and answers the joiner. */
  ghost predicate AnsweredAt(states: seq<Sched>, ops: seq<Op>, k: nat, target: ThreadId, token: WaitToken)
    requires k < |ops| < |states|
  {
    && ops[k].c < |states[k].cpus| && states[k].cpus[ops[k].c].retired == Some(target)
    && Answered(states[k], states[k + 1], target, token)
  }

  /** No join is lost: in every run, a thread that has blocked in a join is recorded with its target and
      stays blocked, until a step retires the target and hands over its exit code and resources. */
  lemma {:induction false} NoLostJoin(states: seq<Sched>, ops: seq<Op>, m: nat, n: nat, token: WaitToken)
    requires IsRun(states, ops) && m < n < |states| && ops[m].Join? && Inv(states[m])
    requires IssuedBy(states[m], ops[m]) == Some(token)
    ensures
      || (JoinerOf(states[n], ops[m].target) == Some(token) && JoinerBlocked(states[n], token))
      || exists k :: m < k < n && AnsweredAt(states, ops, k, ops[m].target, token)
    decreases n
  {
    hide Inv, Apply, Enabled, IssuedBy;
    var target := ops[m].target;
    RunKeepsInv(states, ops, n - 1);
    RunKeepsInv(states, ops, n);
    assert Step(states[n - 1], ops[n - 1], states[n]);
    if n == m + 1 {
      BlockedJoinRecorded(states[m], ops[m]);
    } else {
      NoLostJoin(states, ops, m, n - 1, token);
      if k :| m < k < n - 1 && AnsweredAt(states, ops, k, target, token) {
        assert m < k < n;
      } else {
        StepJoin(states[n - 1], ops[n - 1], target);
        InRange(states[n - 1], ops[n - 1]);
        if JoinerOf(states[n], target) != Some(token) { assert AnsweredAt(states, ops, n - 1, target, token); }
      }
    }
    if JoinerOf(states[n], target) == Some(token) { ThreadFacts(states[n], target); }
  }

  lemma InRange(s: Sched, op: Op)
    requires Enabled(s, op)
    ensures op.c < |s.cpus|
  {
  }
}
