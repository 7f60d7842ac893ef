/**
  Steps that only move the CPU or complete waits: no thread is born, reaped, exits or changes its
  resources, and no other CPU switches.
 */
module SchedQuiet {
  import opened Base
  import opened Waits
  import opened SchedState
  import opened SchedInvariant
  import opened SchedSteps
  import opened SchedOps
  import opened SchedTimer
  import opened SchedRuns

  predicate QuietThread(a: Thread, b: Thread) {
    && b.home == a.home && b.user == a.user && b.exitCode == a.exitCode
    && b.joinResult == a.joinResult && b.reaped == a.reaped
    && (b.state.Exited? <==> a.state.Exited?)
  }

  predicate QuietSlot(a: Slot, b: Slot) {
    && b.generation == a.generation && (b.thread.Some? <==> a.thread.Some?)
    && (a.thread.Some? ==> QuietThread(a.thread.value, b.thread.value))
  }

  ghost predicate Quiet(s: Sched, s': Sched, c: nat) {
    && |s'.slots| == |s.slots| && |s'.cpus| == |s.cpus|
    && (forall i {:trigger s'.slots[i]} :: 0 <= i < |s.slots| ==> QuietSlot(s.slots[i], s'.slots[i]))
    && (forall k {:trigger s'.cpus[k]} :: 0 <= k < |s.cpus| ==>
          && (k != c || !s.cpus[k].online ==> s'.cpus[k].current == s.cpus[k].current)
          && s'.cpus[k].idle == s.cpus[k].idle && s'.cpus[k].online == s.cpus[k].online)
  }

  lemma QuietTrans(s: Sched, m: Sched, s': Sched, c: nat)
    requires Quiet(s, m, c) && Quiet(m, s', c)
    ensures Quiet(s, s', c)
  {
    forall i | 0 <= i < |s.slots| ensures QuietSlot(s.slots[i], s'.slots[i]) {
      assert QuietSlot(s.slots[i], m.slots[i]);
    }
    forall k | 0 <= k < |s.cpus|
      ensures
        && (k != c || !s.cpus[k].online ==> s'.cpus[k].current == s.cpus[k].current)
        && s'.cpus[k].idle == s.cpus[k].idle && s'.cpus[k].online == s.cpus[k].online
    {
      assert m.cpus[k].idle == s.cpus[k].idle;
    }
  }

  lemma PutCpuQuiet(s: Sched, c: nat, x: Cpu)
    requires c < |s.cpus| && x.idle == s.cpus[c].idle && x.online == s.cpus[c].online && x.current == s.cpus[c].current
    ensures Quiet(s, PutCpu(s, c, x), c)
  {
  }

  lemma HandoffQuiet(s: Sched, c: nat, t: Thread)
    requires HasCurrent(s, c) && HasNext(s, c) && Next(s, c).index != Current(s, c).index
    requires QuietThread(At(s, Current(s, c)), t) && !At(s, Next(s, c)).state.Exited? && s.cpus[c].online
    ensures Quiet(s, Handoff(s, c, t), c)
  {
  }

  lemma CompleteQuiet(s: Sched, c: nat, token: WaitToken, cause: WaitCause, notify: bool)
    requires Inv(s) && c < |s.cpus|
    ensures Quiet(s, CompleteAt(s, c, token, cause, notify).0, c)
  {
    if Live(s, token.thread) { assert ThreadOk(s, token.thread); }
  }

  lemma NextAlive(s: Sched, c: nat)
    requires Inv(s) && HasNext(s, c)
    ensures !At(s, Next(s, c)).state.Exited?
  {
    assert CpuOk(s, c);
    if s.cpus[c].ready != [] { FrontQueued(s, c); }
  }

  lemma AcknowledgeQuiet(s: Sched, c: nat)
    requires c < |s.cpus|
    ensures Quiet(s, Acknowledge(s, c), c) && Quiet(s, Request(s, c), c) && Quiet(s, NotePeer(s, c), c)
    ensures Quiet(s, s, c)
  {
    PutCpuQuiet(s, c, s.cpus[c].(reschedulePending := false));
    PutCpuQuiet(s, c, s.cpus[c].(reschedulePending := true));
  }

  lemma CheckpointQuiet(s: Sched, c: nat)
    requires Inv(s) && HasCurrent(s, c) && HasNext(s, c)
    requires s.cpus[c].ready != [] ==> Next(s, c).index != Current(s, c).index
    ensures Quiet(s, Checkpoint(s, c), c)
  {
    hide Inv;
    AcknowledgeQuiet(s, c);
    var s1 := Acknowledge(s, c);
    if CheckpointDue(s.cpus[c]) && s1.cpus[c].ready != [] {
      CpuFacts(s, c);
      NextAlive(s, c);
      var t := At(s1, Current(s1, c)).(state := Ready);
      HandoffQuiet(s1, c, t);
      QuietTrans(s, s1, Handoff(s1, c, t), c);
    }
  }

  lemma {:induction false} DispatchQuiet(s: Sched, c: nat, events: seq<TimedEvent>)
    requires Inv(s) && c < |s.cpus| && BatchOk(s, c, events)
    ensures Quiet(s, DispatchAll(s, c, events), c)
    decreases |events|
  {
    AcknowledgeQuiet(s, c);
    if events != [] {
      assert events[0] in events;
      var s1 := Dispatch(s, c, events[0]);
      if events[0].WaitDeadline? { CompleteQuiet(s, c, events[0].token, Timeout, false); }
      assert forall x :: NotJoin(s, x) ==> NotJoin(s1, x);
      StillRunning(s, s1);
      DispatchQuiet(s1, c, events[1..]);
      QuietTrans(s, s1, DispatchAll(s1, c, events[1..]), c);
    }
  }

  lemma TimerQueuedQuiet(s: Sched, c: nat, events: seq<TimedEvent>)
    requires Inv(s) && IrqOpen(s, c) && s.cpus[c].online && BatchOk(s, c, events)
    ensures Quiet(s, TimerQueued(s, c, events), c)
  {
    hide Inv, Quiet;
    CpuFacts(s, c);
    var s1 := DispatchAll(s, c, events);
    DispatchQuiet(s, c, events);
    CpuFacts(s1, c);
    RequestInv(s1, c);
    var s2 := if s1.cpus[c].idle == s1.cpus[c].current && s1.cpus[c].ready != [] then Request(s1, c) else s1;
    AcknowledgeQuiet(s1, c);
    QuietTrans(s, s1, s2, c);
    CpuReady(s2, c);
    CheckpointQuiet(s2, c);
    QuietTrans(s, s2, Checkpoint(s2, c), c);
  }

  lemma CommitQuiet(s: Sched, c: nat, prepared: PreparedWait)
    requires Inv(s) && MayBlock(s, c)
    ensures Quiet(s, CommitPrepared(s, c, prepared).0, c)
  {
    hide Inv;
    CpuFacts(s, c);
    CpuReady(s, c);
    NextAlive(s, c);
  }

  lemma IpiQuiet(s: Sched, c: nat)
    requires Inv(s) && IrqOpen(s, c)
    ensures Quiet(Retire(s, c, true), SchedulerIpi(s, c), c)
  {
    hide Inv, Quiet, Retire;
    var s1 := Retire(s, c, true);
    AcknowledgeQuiet(s1, c);
    if s1.cpus[c].online {
      CpuFacts(s1, c);
      DrainInv(s1, c);
      var s2 := DrainRemote(s1, c);
      PutCpuQuiet(s1, c, s2.cpus[c]);
      RequestInv(s2, c);
      var s3 := NotePeer(s2, c);
      AcknowledgeQuiet(s2, c);
      QuietTrans(s1, s2, s3, c);
      CpuReady(s3, c);
      CheckpointQuiet(s3, c);
      QuietTrans(s1, s3, Checkpoint(s3, c), c);
    }
  }

  lemma TimerQuiet(s: Sched, c: nat, events: seq<TimedEvent>)
    requires Inv(s) && IrqOpen(s, c) && BatchOk(s, c, events)
    ensures Quiet(Retire(s, c, false), TimerInterrupt(s, c, events), c)
  {
    hide Inv, Quiet;
    AcknowledgeQuiet(Retire(s, c, false), c);
    if s.cpus[c].online {
      TimerInterruptIsQueued(s, c, events);
      TimerQueuedQuiet(Retire(s, c, false), c, events);
    }
  }

  lemma PreemptQuiet(s: Sched, c: nat)
    requires Inv(s) && IrqOpen(s, c)
    ensures Quiet(Retire(s, c, true), PreemptCheckpoint(s, c), c)
  {
    hide Inv, Quiet;
    var s1 := Retire(s, c, true);
    AcknowledgeQuiet(s1, c);
    if CheckpointDue(s1.cpus[c]) {
      CpuFacts(s1, c);
      CpuReady(s1, c);
      CheckpointQuiet(s1, c);
    }
  }

  lemma BlockQuiet(s: Sched, c: nat, target: ThreadId)
    requires Inv(s) && MayPrepare(s, c) && HasNext(s, c) && Next(s, c).index != Current(s, c).index && s.cpus[c].online
    requires Live(s, target) && target.index != Current(s, c).index
    ensures Quiet(s, JoinBlock(s, c, target), c)
  {
    hide Inv, Quiet;
    CpuFacts(s, c);
    NextAlive(s, c);
    JoinBlockShape(s, c, target);
    var (s1, p) := PrepareWait(s, c, Explicit);
    var from := Current(s, c);
    var x := At(s1, from).(state := Blocked, wait := Waits.Commit(At(s1, from).wait, p).0);
    var s2 := Handoff(s1, c, x);
    PutQuiet(s, from, At(s1, from), c);
    HandoffQuiet(s1, c, x);
    PutQuiet(s2, target, At(s2, target).(joiner := Some(p.token)), c);
    QuietTrans(s, s1, s2, c);
    QuietTrans(s, s2, JoinBlock(s, c, target), c);
  }

  lemma PutQuiet(s: Sched, id: ThreadId, t: Thread, c: nat)
    requires Live(s, id) && QuietThread(At(s, id), t)
    ensures Quiet(s, Put(s, id, t), c)
  {
  }

  /** Apart from birth, exit, join and exec, steps are quiet after retirement. */
  lemma StepQuiet(s: Sched, op: Op)
    requires Inv(s) && Enabled(s, op) && !op.Exit? && !op.Join? && !op.TakeJoined?
    requires !op.InitIdle? && !op.SpawnKernel? && !op.SpawnUser? && !op.Exec? && !op.Enter?
    ensures Quiet(if Enters(op) then Retire(s, op.c, !op.Timer?) else s, Apply(s, op), op.c)
  {
    hide Inv, Retire, CommitPrepared, SchedulerIpi, TimerInterrupt, PreemptCheckpoint;
    var c := op.c;
    match op
    case Commit(_, prepared) => CommitQuiet(s, c, prepared);
    case Complete(_, token, cause) => CompleteQuiet(s, c, token, cause, true);
    case Ipi(_) => IpiQuiet(s, c);
    case Timer(_, events) => TimerQuiet(s, c, events);
    case PreemptPoint(_) => PreemptQuiet(s, c);
    case _ =>
  }
}
