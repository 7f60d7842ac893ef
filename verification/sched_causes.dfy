/**
  The cause of a wait over whole runs (kernel/src/sched/wait.rs:244-321, transition.rs:581-683): what a
  commit, finish or cancel reports for a token is the cause of the first step that named the token, it is
  reported once, and nobody but the owner ends an explicit wait.
 */
module SchedCauses {
  import opened Base
  import opened Waits
  import opened SchedState
  import opened SchedInvariant
  import opened SchedSteps
  import opened SchedOps
  import opened SchedTimer
  import SchedRuns
  import opened SchedHistory

  /** How far the wait of a token has come: not active, not completed, or completed. An open wait that
      is blocked and consumed automatically is over as soon as it is completed. */
  datatype Progress = Absent | Open(automatic: bool) | Done(cause: WaitCause)

  function ProgressOf(s: Sched, t: WaitToken): Progress {
    if !Live(s, t.thread) then Absent
    else
      match At(s, t.thread).wait.active
      case None => Absent
      case Some(a) =>
        if a.token != t then Absent
        else if a.phase.PhaseCompleted? then Done(a.phase.cause)
        else Open(a.phase.PhaseBlocked? && a.consumption.Automatic?)
  }

  /** What happens to a token in a step that names it with a cause, or does not name it. */
  predicate Effect(a: Progress, b: Progress, named: Option<WaitCause>) {
    if a.Open? && named.Some? then b == (if a.automatic then Absent else Done(named.value)) else b == a
  }

  function First(a: Option<WaitCause>, b: Option<WaitCause>): Option<WaitCause> {
    if a.Some? then a else b
  }

  lemma EffectTrans(a: Progress, b: Progress, c: Progress, m: Option<WaitCause>, n: Option<WaitCause>)
    requires Effect(a, b, m) && Effect(b, c, n)
    ensures Effect(a, c, First(m, n))
  {
  }

  // ----- which step names a token -----

  /** Retirement completes the joiner of the retired thread. */
  function RetireNames(s: Sched, c: nat, t: WaitToken): Option<WaitCause> {
    if c < |s.cpus| && s.cpus[c].retired.Some? && JoinerOf(s, s.cpus[c].retired.value) == Some(t) then Some(Notified)
    else None
  }

  /** The cause with which a step completes the wait of a token, if that wait is open. */
  function Named(s: Sched, op: SchedRuns.Op, t: WaitToken): Option<WaitCause> {
    First(
      if SchedRuns.Enters(op) then RetireNames(s, op.c, t) else None,
      match op
      case Complete(_, token, cause) => if token == t then Some(cause) else None
      case Timer(c, events) =>
        if c < |s.cpus| && s.cpus[c].online && WaitDeadline(c, t) in events then Some(Timeout) else None
      case _ => None)
  }

  /** The cause that a commit, finish or cancel reports for a token. */
  ghost function Reported(s: Sched, op: SchedRuns.Op, t: WaitToken): Option<WaitCause>
    requires Inv(s) && SchedRuns.Enabled(s, op)
  {
    match op
    case Commit(c, prepared) =>
      var r := CommitPrepared(s, c, prepared).1;
      if prepared.token == t && r.Early? then Some(r.cause) else None
    case Finish(_, token) =>
      var r := FinishWait(s, token).1;
      if token == t && r.Finished? then Some(r.cause) else None
    case Cancel(_, prepared) =>
      var r := CancelWait(s, prepared).1;
      if prepared.token == t && r.CompletedFirst? then Some(r.cause) else None
    case _ => None
  }

  /** The owner ends the wait of a token: it reports the completion, or cancels. */
  ghost predicate Ends(s: Sched, op: SchedRuns.Op, t: WaitToken)
    requires Inv(s) && SchedRuns.Enabled(s, op)
  {
    Reported(s, op, t).Some? || (op.Cancel? && op.prepared.token == t && CancelWait(s, op.prepared).1.Cancelled?)
  }

  /** A commit goes to sleep on the token. */
  ghost predicate Sleeps(s: Sched, op: SchedRuns.Op, t: WaitToken)
    requires Inv(s) && SchedRuns.Enabled(s, op)
  {
    op.Commit? && op.prepared.token == t && CommitPrepared(s, op.c, op.prepared).1.Block?
  }

  // ----- transitions -----

  lemma PutEffect(s: Sched, id: ThreadId, x: Thread, t: WaitToken)
    requires Live(s, id) && x.wait.active == At(s, id).wait.active
    ensures ProgressOf(Put(s, id, x), t) == ProgressOf(s, t)
  {
  }

  /** A wait that its owner ends. */
  lemma ClearEffect(s: Sched, id: ThreadId, x: Thread, t: WaitToken)
    requires Live(s, id) && At(s, id).wait.active.Some? && x.wait.active.None?
    ensures ProgressOf(Put(s, id, x), t) ==
      if t == At(s, id).wait.active.value.token && t.thread == id then Absent else ProgressOf(s, t)
  {
  }

  lemma HandoffEffect(s: Sched, c: nat, x: Thread, t: WaitToken)
    requires HasCurrent(s, c) && HasNext(s, c) && Next(s, c).index != Current(s, c).index
    requires
      var a, b := At(s, Current(s, c)).wait.active, x.wait.active;
      b == a || (a.Some? && a.value.phase.PhasePrepared? && b == Some(a.value.(phase := PhaseBlocked)))
    ensures
      var a, b := At(s, Current(s, c)).wait.active, x.wait.active;
      ProgressOf(Handoff(s, c, x), t) ==
        if b != a && t.thread == Current(s, c) && t == a.value.token then Open(a.value.consumption.Automatic?)
        else ProgressOf(s, t)
  {
  }

  lemma CompleteEffect(s: Sched, c: nat, token: WaitToken, cause: WaitCause, notify: bool, t: WaitToken)
    requires c < |s.cpus| && (Live(s, token.thread) ==> At(s, token.thread).home < |s.cpus|)
    ensures Effect(ProgressOf(s, t), ProgressOf(CompleteWait(s, c, token, cause, notify).0, t),
                   if token == t then Some(cause) else None)
  {
  }

  /** A released thread had no wait. */
  lemma ReleaseEffect(s: Sched, id: ThreadId, t: WaitToken)
    requires Live(s, id) && At(s, id).wait.active.None?
    ensures ProgressOf(Release(s, id), t) == ProgressOf(s, t)
  {
  }

  lemma ExitedWaitless(s: Sched, id: ThreadId)
    requires Inv(s) && Live(s, id) && At(s, id).state.Exited?
    ensures At(s, id).wait.active.None?
  {
    ThreadFacts(s, id);
  }

  lemma RetireEffect(s: Sched, c: nat, notify: bool, t: WaitToken)
    requires Inv(s) && c < |s.cpus|
    ensures Effect(ProgressOf(s, t), ProgressOf(Retire(s, c, notify), t), RetireNames(s, c, t))
  {
    hide Inv;
    InvCanFinalize(s, c);
    if s.cpus[c].retired.Some? {
      var id := s.cpus[c].retired.value;
      var x, s1 := At(s, id), PutCpu(s, c, s.cpus[c].(retired := None));
      CpuFacts(s, c);
      ExitedWaitless(s, id);
      assert ProgressOf(s1, t) == ProgressOf(s, t);
      if x.joiner.Some? {
        var j := x.joiner.value.thread;
        var s2 := CompleteWait(s1, c, x.joiner.value, Notified, notify).0;
        CompleteEffect(s1, c, x.joiner.value, Notified, notify, t);
        var y := At(s2, j).(joinResult := Some(JoinOk(x.exitCode.value)), reaped := x.user);
        PutEffect(s2, j, y, t);
        ReleaseEffect(Put(s2, j, y), id, t);
        assert Retire(s, c, notify) == Release(Put(s2, j, y), id);
      } else if !x.joinable {
        ReleaseEffect(s1, id, t);
      }
    }
  }

  lemma CheckpointEffect(s: Sched, c: nat, t: WaitToken)
    requires HasCurrent(s, c) && HasNext(s, c) && (s.cpus[c].ready != [] ==> Next(s, c).index != Current(s, c).index)
    ensures ProgressOf(Checkpoint(s, c), t) == ProgressOf(s, t)
  {
    var s1 := Acknowledge(s, c);
    assert ProgressOf(s1, t) == ProgressOf(s, t);
    if CheckpointDue(s.cpus[c]) && s1.cpus[c].ready != [] {
      HandoffEffect(s1, c, At(s1, Current(s1, c)).(state := Ready), t);
    }
  }

  lemma {:induction false} DispatchEffect(s: Sched, c: nat, events: seq<TimedEvent>, t: WaitToken)
    requires Inv(s) && c < |s.cpus| && BatchOk(s, c, events)
    ensures Effect(ProgressOf(s, t), ProgressOf(DispatchAll(s, c, events), t),
                   if WaitDeadline(c, t) in events then Some(Timeout) else None)
    decreases |events|
  {
    hide Inv, Effect, ProgressOf;
    if events == [] {
      SameEffect(ProgressOf(s, t));
    } else {
      var e, rest := events[0], events[1..];
      assert e in events && events == [e] + rest;
      var s1 := Dispatch(s, c, e);
      DispatchOne(s, c, e, t);
      assert forall x :: NotJoin(s, x) ==> NotJoin(s1, x);
      StillRunning(s, s1);
      DispatchEffect(s1, c, rest, t);
      var m: Option<WaitCause> := if e == WaitDeadline(c, t) then Some(Timeout) else None;
      var n: Option<WaitCause> := if WaitDeadline(c, t) in rest then Some(Timeout) else None;
      EffectTrans(ProgressOf(s, t), ProgressOf(s1, t), ProgressOf(DispatchAll(s1, c, rest), t), m, n);
    }
  }

  lemma SameEffect(a: Progress)
    ensures Effect(a, a, None)
  {
  }

  lemma DispatchOne(s: Sched, c: nat, e: TimedEvent, t: WaitToken)
    requires Inv(s) && c < |s.cpus| && BatchOk(s, c, [e])
    ensures Effect(ProgressOf(s, t), ProgressOf(Dispatch(s, c, e), t),
                   if e == WaitDeadline(c, t) then Some(Timeout) else None)
  {
    assert e in [e];
    if e.WaitDeadline? {
      if Live(s, e.token.thread) { ThreadFacts(s, e.token.thread); }
      hide Inv;
      CompleteEffect(s, c, e.token, Timeout, false, t);
    }
  }

  // ----- entry points -----

  lemma IpiEffect(s: Sched, c: nat, t: WaitToken)
    requires Inv(s) && IrqOpen(s, c)
    ensures Effect(ProgressOf(s, t), ProgressOf(SchedulerIpi(s, c), t), RetireNames(s, c, t))
  {
    hide Inv, Effect, Retire;
    var s1 := Retire(s, c, true);
    RetireEffect(s, c, true, t);
    if s1.cpus[c].online {
      CpuFacts(s1, c);
      DrainInv(s1, c);
      var s2 := DrainRemote(s1, c);
      RequestInv(s2, c);
      var s3 := NotePeer(s2, c);
      CpuReady(s3, c);
      assert s3.slots == s1.slots;
      SlotsProgress(s1, s3, t);
      CheckpointEffect(s3, c, t);
    }
  }

  lemma SlotsProgress(s: Sched, s': Sched, t: WaitToken)
    requires s'.slots == s.slots
    ensures ProgressOf(s', t) == ProgressOf(s, t)
  {
  }

  lemma PreemptEffect(s: Sched, c: nat, t: WaitToken)
    requires Inv(s) && IrqOpen(s, c)
    ensures Effect(ProgressOf(s, t), ProgressOf(PreemptCheckpoint(s, c), t), RetireNames(s, c, t))
  {
    hide Inv, Effect, Retire;
    var s1 := Retire(s, c, true);
    RetireEffect(s, c, true, t);
    if CheckpointDue(s1.cpus[c]) {
      CpuFacts(s1, c);
      CpuReady(s1, c);
      CheckpointEffect(s1, c, t);
    }
  }

  lemma TimerEffect(s: Sched, c: nat, events: seq<TimedEvent>, t: WaitToken)
    requires Inv(s) && IrqOpen(s, c) && BatchOk(s, c, events)
    ensures Effect(ProgressOf(s, t), ProgressOf(TimerInterrupt(s, c, events), t),
                   First(RetireNames(s, c, t),
                         if s.cpus[c].online && WaitDeadline(c, t) in events then Some(Timeout) else None))
  {
    hide Inv, Effect, Retire, ProgressOf;
    var s1 := Retire(s, c, false);
    RetireEffect(s, c, false, t);
    if s.cpus[c].online {
      TimerInterruptIsQueued(s, c, events);
      QueuedEffect(s1, c, events, t);
      EffectTrans(ProgressOf(s, t), ProgressOf(s1, t), ProgressOf(TimerQueued(s1, c, events), t),
                  RetireNames(s, c, t), if WaitDeadline(c, t) in events then Some(Timeout) else None);
    }
  }

  lemma QueuedEffect(s: Sched, c: nat, events: seq<TimedEvent>, t: WaitToken)
    requires Inv(s) && IrqOpen(s, c) && s.cpus[c].online && BatchOk(s, c, events)
    ensures Effect(ProgressOf(s, t), ProgressOf(TimerQueued(s, c, events), t),
                   if WaitDeadline(c, t) in events then Some(Timeout) else None)
  {
    hide Inv, Effect;
    CpuFacts(s, c);
    var s1 := DispatchAll(s, c, events);
    DispatchEffect(s, c, events, t);
    CpuFacts(s1, c);
    RequestInv(s1, c);
    var s2 := if s1.cpus[c].idle == s1.cpus[c].current && s1.cpus[c].ready != [] then Request(s1, c) else s1;
    SlotsProgress(s1, s2, t);
    CpuReady(s2, c);
    CheckpointEffect(s2, c, t);
  }

  /** A commit ends a completed wait of its own token, blocks a prepared one, and does no more. */
  lemma CommitEffect(s: Sched, c: nat, prepared: PreparedWait, t: WaitToken)
    requires Inv(s) && MayBlock(s, c)
    ensures
      var (s', r) := CommitPrepared(s, c, prepared);
      if prepared.token == t && r.Early? then ProgressOf(s', t).Absent?
      else if prepared.token == t && r.Block? then
        ProgressOf(s, t) == Open(false) && ProgressOf(s', t) == Open(prepared.consumption.Automatic?)
      else ProgressOf(s', t) == ProgressOf(s, t)
  {
    hide Inv;
    CpuFacts(s, c);
    CpuReady(s, c);
    CommitInv(s, c, prepared);
    var from := Current(s, c);
    ThreadFacts(s, from);
    var (w, r) := Commit(At(s, from).wait, prepared);
    if r.Block? {
      HandoffEffect(s, c, At(s, from).(state := Blocked, wait := w), t);
      SlotsProgress(CommitWait(s, c, prepared).0, CommitPrepared(s, c, prepared).0, t);
    } else if r.Early? {
      ClearEffect(s, from, At(s, from).(wait := w), t);
    } else {
      PutEffect(s, from, At(s, from).(wait := w), t);
    }
  }

  lemma ExitEffect(s: Sched, c: nat, code: nat, t: WaitToken)
    requires Inv(s) && MayExit(s, c)
    ensures Effect(ProgressOf(s, t), ProgressOf(ExitThread(s, c, code), t), RetireNames(s, c, t))
  {
    hide Inv, Effect, Retire;
    CpuFacts(s, c);
    CpuReady(s, c);
    var s1 := Retire(s, c, true);
    RetireEffect(s, c, true, t);
    CpuReady(s1, c);
    var x := At(s1, Current(s1, c)).(exitCode := Some(code), state := Exited);
    HandoffEffect(s1, c, x, t);
    SlotsProgress(Handoff(s1, c, x), ExitThread(s, c, code), t);
  }

  /** A blocking join issues one token and disturbs no other. */
  lemma BlockEffect(s: Sched, c: nat, target: ThreadId, t: WaitToken)
    requires Inv(s) && MayPrepare(s, c) && HasNext(s, c) && Next(s, c).index != Current(s, c).index
    requires Live(s, target) && target.index != Current(s, c).index
    ensures
      var issued := PrepareWait(s, c, Explicit).1.token;
      if t == issued then ProgressOf(JoinBlock(s, c, target), t) == Open(false)
      else ProgressOf(JoinBlock(s, c, target), t) == ProgressOf(s, t)
  {
    hide Inv;
    JoinBlockShape(s, c, target);
    var (s1, p) := PrepareWait(s, c, Explicit);
    var from := Current(s, c);
    PrepareEffect(s, c, Explicit, t);
    var x := At(s1, from).(state := Blocked, wait := Commit(At(s1, from).wait, p).0);
    HandoffEffect(s1, c, x, t);
    var s2 := Handoff(s1, c, x);
    PutEffect(s2, target, At(s2, target).(joiner := Some(p.token)), t);
  }

  lemma JoinEffect(s: Sched, c: nat, target: ThreadId, t: WaitToken)
    requires Inv(s) && MayJoin(s, c, target) && IssuedBy(s, SchedRuns.Join(c, target)) != Some(t)
    ensures Effect(ProgressOf(s, t), ProgressOf(JoinThread(s, c, target), t), RetireNames(s, c, t))
  {
    hide Inv, Retire, MayJoin;
    JoinReady(s, c, target);
    var s1 := Retire(s, c, true);
    RetireEffect(s, c, true, t);
    var current := Current(s1, c);
    match JoinPathOf(s1, c, target)
    case JoinFails(error) =>
      PutEffect(s1, current, At(s1, current).(joinResult := Some(JoinErr(error)), reaped := None), t);
    case JoinReaps =>
      JoinReapInv(s1, c, target);
      ExitedWaitless(s1, target);
      ReleaseEffect(s1, target, t);
      var s2 := Release(s1, target);
      var r := JoinOk(At(s1, target).exitCode.value);
      PutEffect(s2, current, At(s2, current).(joinResult := Some(r), reaped := At(s1, target).user), t);
    case JoinBlocks =>
      BlockEffect(s1, c, target, t);
      SlotsProgress(JoinBlock(s1, c, target), JoinThread(s, c, target), t);
  }

  lemma PrepareEffect(s: Sched, c: nat, consumption: WaitConsumption, t: WaitToken)
    requires MayPrepare(s, c)
    ensures
      var (s', p) := PrepareWait(s, c, consumption);
      if t == p.token then ProgressOf(s', t) == Open(false) else ProgressOf(s', t) == ProgressOf(s, t)
  {
  }

  /** New threads have no wait. */
  lemma SpawnEffect(s: Sched, c: nat, home: nat, user: Option<User>, joinable: bool, t: WaitToken)
    requires Inv(s) && c < |s.cpus| && (user.Some? ==> joinable && user.value.owner == home)
    ensures ProgressOf(SchedRuns.SpawnOn(s, c, home, user, joinable), t) == ProgressOf(s, t)
  {
    if SchedRuns.CanSpawn(s, home) { FreeTopFree(s); }
  }

  lemma StartEffect(s: Sched, c: nat, t: WaitToken)
    requires Inv(s) && c < |s.cpus|
    ensures ProgressOf(SchedRuns.StartIdle(s, c), t) == ProgressOf(s, t)
  {
    if !(s.cpus[c].initialized || s.cpus[c].current.Some? || s.cpus[c].idle.Some? || s.free == []) {
      FreeTopFree(s);
      AddIdleInv(s, c);
    }
  }

  /** Finish and cancel end the wait they report or cancel, and no other. */
  lemma OwnerEffect(s: Sched, op: SchedRuns.Op, t: WaitToken)
    requires Inv(s) && SchedRuns.Enabled(s, op) && (op.Finish? || op.Cancel?)
    ensures ProgressOf(SchedRuns.Apply(s, op), t) == if Ends(s, op, t) then Absent else ProgressOf(s, t)
  {
    hide Inv;
    var id, s' := if op.Finish? then op.token.thread else op.prepared.token.thread, SchedRuns.Apply(s, op);
    if IsCurrentOfHome(s, id) {
      ThreadFacts(s, id);
      if At(s', id).wait.active == At(s, id).wait.active {
        PutEffect(s, id, At(s', id), t);
      } else {
        ClearEffect(s, id, At(s', id), t);
      }
    }
  }

  /** Steps that touch one thread or one CPU record change no wait. */
  lemma SmallEffect(s: Sched, op: SchedRuns.Op, t: WaitToken)
    requires Inv(s) && SchedRuns.Enabled(s, op) && !SchedRuns.Enters(op)
    requires !op.InitIdle? && !op.SpawnUser? && !op.Prepare? && !op.Commit? && !op.Complete? && !op.Finish?
             && !op.Cancel?
    ensures ProgressOf(SchedRuns.Apply(s, op), t) == ProgressOf(s, t)
  {
    hide Inv, ProgressOf;
    var c, s' := op.c, SchedRuns.Apply(s, op);
    if s'.slots == s.slots {
      SlotsProgress(s, s', t);
    } else {
      PutEffect(s, Current(s, c), At(s', Current(s, c)), t);
    }
  }

  /** One step, for a token it does not issue: the owner ends its wait or goes to sleep on it; otherwise
      the wait changes exactly when the step names it. */
  lemma StepEffect(s: Sched, op: SchedRuns.Op, t: WaitToken)
    requires Inv(s) && SchedRuns.Enabled(s, op) && IssuedBy(s, op) != Some(t)
    ensures
      var a, b := ProgressOf(s, t), ProgressOf(SchedRuns.Apply(s, op), t);
      if Ends(s, op, t) then b.Absent?
      else if Sleeps(s, op, t) then a == Open(false) && b == Open(op.prepared.consumption.Automatic?)
      else Effect(a, b, Named(s, op, t))
  {
    hide Inv, Retire, SchedRuns.StartIdle, SchedRuns.SpawnOn, SchedRuns.ExecUser, CommitPrepared, ExitThread,
         JoinThread, SchedulerIpi, TimerInterrupt, PreemptCheckpoint, Effect, ProgressOf, RetireNames, FinishWait,
         CancelWait;
    SameEffect(ProgressOf(s, t));
    match op
    case InitIdle(c) => StartEffect(s, c, t);
    case SpawnKernel(c, home, joinable) =>
      RetireEffect(s, c, true, t);
      SpawnEffect(Retire(s, c, true), c, home, None, joinable, t);
    case SpawnUser(c, user) => SpawnEffect(s, c, user.owner, Some(user), true, t);
    case Prepare(c, consumption) => PrepareEffect(s, c, consumption, t);
    case Commit(c, prepared) => CommitEffect(s, c, prepared, t);
    case Complete(c, token, cause) => CompleteStepEffect(s, c, token, cause, t);
    case Finish(_, _) => OwnerEffect(s, op, t);
    case Cancel(_, _) => OwnerEffect(s, op, t);
    case Exit(c, code) => ExitEffect(s, c, code, t);
    case Join(c, target) => JoinEffect(s, c, target, t);
    case Ipi(c) => IpiEffect(s, c, t);
    case Timer(c, events) => TimerEffect(s, c, events, t);
    case PreemptPoint(c) => PreemptEffect(s, c, t);
    case _ => SmallEffect(s, op, t);
  }

  lemma CompleteStepEffect(s: Sched, c: nat, token: WaitToken, cause: WaitCause, t: WaitToken)
    requires Inv(s) && SchedRuns.Enabled(s, SchedRuns.Complete(c, token, cause))
    ensures Effect(ProgressOf(s, t), ProgressOf(SchedRuns.Apply(s, SchedRuns.Complete(c, token, cause)), t),
                   if token == t then Some(cause) else None)
  {
    hide Inv;
    if Live(s, token.thread) {
      ThreadFacts(s, token.thread);
      CompleteEffect(s, c, token, cause, true, t);
    }
  }

  // ----- runs -----

  lemma ReportedDone(s: Sched, op: SchedRuns.Op, t: WaitToken)
    requires Inv(s) && SchedRuns.Enabled(s, op) && Reported(s, op, t).Some?
    ensures ProgressOf(s, t) == Done(Reported(s, op, t).value)
  {
    hide Inv;
    if op.Commit? {
      CpuFacts(s, op.c);
      CpuReady(s, op.c);
      ThreadFacts(s, Current(s, op.c));
    }
  }

  lemma IssuedOpen(s: Sched, op: SchedRuns.Op)
    requires Inv(s) && SchedRuns.Enabled(s, op) && IssuedBy(s, op).Some?
    ensures ProgressOf(SchedRuns.Apply(s, op), IssuedBy(s, op).value) == Open(false)
  {
    hide Inv, Retire, MayJoin;
    var t := IssuedBy(s, op).value;
    if op.Prepare? {
      PrepareEffect(s, op.c, op.consumption, t);
    } else {
      var c, s1 := op.c, Retire(s, op.c, true);
      JoinReady(s, c, op.target);
      BlockEffect(s1, c, op.target, t);
      SlotsProgress(JoinBlock(s1, c, op.target), JoinThread(s, c, op.target), t);
    }
  }

  /** No step after m and before n names the token. */
  ghost predicate Unnamed(states: seq<Sched>, ops: seq<SchedRuns.Op>, m: nat, n: nat, t: WaitToken)
    requires n <= |ops| <= |states|
  {
    forall i :: m < i < n ==> Named(states[i], ops[i], t).None?
  }

  /** Step j names the token with this cause, and no step after m names it before. */
  ghost predicate FirstNamed(states: seq<Sched>, ops: seq<SchedRuns.Op>, m: nat, j: nat, t: WaitToken, cause: WaitCause)
    requires j < |ops| <= |states|
  {
    Named(states[j], ops[j], t) == Some(cause) && Unnamed(states, ops, m, j, t)
  }

  lemma SleepUnnamed(s: Sched, op: SchedRuns.Op, t: WaitToken)
    requires Inv(s) && SchedRuns.Enabled(s, op)
    ensures Sleeps(s, op, t) ==> Named(s, op, t).None?
    ensures Ends(s, op, t) ==> IssuedBy(s, op).None?
  {
  }

  lemma {:induction false} CauseTrace(states: seq<Sched>, ops: seq<SchedRuns.Op>, m: nat, n: nat, t: WaitToken)
    requires SchedRuns.IsRun(states, ops) && m < n <= |ops| && Inv(states[m]) && IssuedBy(states[m], ops[m]) == Some(t)
    ensures
      match ProgressOf(states[n], t)
      case Absent => true
      case Open(_) => Unnamed(states, ops, m, n, t)
      case Done(cause) => exists j :: m < j < n && FirstNamed(states, ops, m, j, t, cause)
    decreases n
  {
    hide Inv, SchedRuns.Apply, SchedRuns.Enabled, IssuedBy, Named, Ends, Sleeps;
    SchedRuns.RunKeepsInv(states, ops, n - 1);
    assert SchedRuns.Step(states[n - 1], ops[n - 1], states[n]);
    if n == m + 1 {
      IssuedOpen(states[m], ops[m]);
    } else {
      CauseTrace(states, ops, m, n - 1, t);
      if IssuedBy(states[n - 1], ops[n - 1]) == Some(t) { TokensUnique(states, ops, m, n - 1); }
      StepEffect(states[n - 1], ops[n - 1], t);
      SleepUnnamed(states[n - 1], ops[n - 1], t);
      var before := ProgressOf(states[n - 1], t);
      if before.Open? && Named(states[n - 1], ops[n - 1], t).Some? {
        assert FirstNamed(states, ops, m, n - 1, t, Named(states[n - 1], ops[n - 1], t).value);
      }
    }
  }

  /** First cause wins, over every run: a cause reported for a token is that of the first step, after
      the token was issued, that named it. */
  lemma FirstCauseReported(states: seq<Sched>, ops: seq<SchedRuns.Op>, m: nat, n: nat, t: WaitToken)
    requires SchedRuns.IsRun(states, ops) && m < n < |ops| && Inv(states[m]) && Inv(states[n])
    requires IssuedBy(states[m], ops[m]) == Some(t) && Reported(states[n], ops[n], t).Some?
    ensures exists j :: m < j < n && FirstNamed(states, ops, m, j, t, Reported(states[n], ops[n], t).value)
  {
    ReportedDone(states[n], ops[n], t);
    CauseTrace(states, ops, m, n, t);
  }

  /** The wait of a token goes away exactly when its owner ends it, or when a step completes a blocked
      wait that is consumed automatically. */
  lemma EndedExactly(s: Sched, op: SchedRuns.Op, t: WaitToken)
    requires Inv(s) && SchedRuns.Enabled(s, op) && IssuedBy(s, op) != Some(t) && !ProgressOf(s, t).Absent?
    ensures ProgressOf(SchedRuns.Apply(s, op), t).Absent? <==>
      Ends(s, op, t) || (ProgressOf(s, t) == Open(true) && Named(s, op, t).Some?)
  {
    hide Inv, SchedRuns.Apply, SchedRuns.Enabled, IssuedBy, Named, Ends, Sleeps, ProgressOf;
    StepEffect(s, op, t);
    SleepUnnamed(s, op, t);
  }

  /** A wait that is over stays over: its token is not issued again. */
  lemma {:induction false} OverForGood(states: seq<Sched>, ops: seq<SchedRuns.Op>, m: nat, k: nat, n: nat, t: WaitToken)
    requires SchedRuns.IsRun(states, ops) && m < k <= n <= |ops| && Inv(states[m])
    requires IssuedBy(states[m], ops[m]) == Some(t) && ProgressOf(states[k], t).Absent?
    ensures ProgressOf(states[n], t).Absent?
    decreases n
  {
    hide Inv, SchedRuns.Apply, SchedRuns.Enabled, IssuedBy, Named, Ends, Sleeps, ProgressOf;
    if k < n {
      OverForGood(states, ops, m, k, n - 1, t);
      SchedRuns.RunKeepsInv(states, ops, n - 1);
      assert SchedRuns.Step(states[n - 1], ops[n - 1], states[n]);
      if IssuedBy(states[n - 1], ops[n - 1]) == Some(t) { TokensUnique(states, ops, m, n - 1); }
      StepEffect(states[n - 1], ops[n - 1], t);
    }
  }

  /** In every run the completion of a wait is reported at most once. */
  lemma ReportedOnce(states: seq<Sched>, ops: seq<SchedRuns.Op>, m: nat, k: nat, n: nat, t: WaitToken)
    requires SchedRuns.IsRun(states, ops) && m < k < n < |ops| && Inv(states[m]) && Inv(states[k]) && Inv(states[n])
    requires IssuedBy(states[m], ops[m]) == Some(t) && Reported(states[k], ops[k], t).Some?
    ensures Reported(states[n], ops[n], t).None?
  {
    hide Inv, SchedRuns.Apply, SchedRuns.Enabled, IssuedBy, Named, ProgressOf, Reported;
    assert SchedRuns.Step(states[k], ops[k], states[k + 1]);
    SleepUnnamed(states[k], ops[k], t);
    StepEffect(states[k], ops[k], t);
    OverForGood(states, ops, m, k + 1, n, t);
    if Reported(states[n], ops[n], t).Some? { ReportedDone(states[n], ops[n], t); }
  }

  /** In every run a completion is kept until the owner takes it: whatever else happens in between, the
      wait stays completed with the same cause. */
  lemma {:induction false} KeptUntilTaken(states: seq<Sched>, ops: seq<SchedRuns.Op>, m: nat, k: nat, n: nat,
                                         t: WaitToken)
    requires SchedRuns.IsRun(states, ops) && m < k <= n <= |ops| && Inv(states[m])
    requires IssuedBy(states[m], ops[m]) == Some(t) && ProgressOf(states[k], t).Done?
    requires forall i :: k <= i < n ==> Inv(states[i]) && SchedRuns.Enabled(states[i], ops[i])
                                        && !Ends(states[i], ops[i], t)
    ensures ProgressOf(states[n], t) == ProgressOf(states[k], t)
    decreases n
  {
    hide Inv, SchedRuns.Apply, SchedRuns.Enabled, IssuedBy, Named, Ends, Sleeps, ProgressOf;
    if k < n {
      KeptUntilTaken(states, ops, m, k, n - 1, t);
      assert SchedRuns.Step(states[n - 1], ops[n - 1], states[n]);
      if IssuedBy(states[n - 1], ops[n - 1]) == Some(t) { TokensUnique(states, ops, m, n - 1); }
      StepEffect(states[n - 1], ops[n - 1], t);
    }
  }
}
