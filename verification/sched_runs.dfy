/**
  Whole runs: any interleaving, over all CPUs, of the atomic scheduler steps.
 */
module SchedRuns {
  import opened Base
  import opened Waits
  import opened SchedState
  import opened SchedInvariant
  import opened SchedSteps
  import opened SchedOps
  import opened SchedTimer

  /** One step; `c` is the CPU that executes it. */
  datatype Op =
    | InitIdle(c: nat)
    | Enter(c: nat)
    | SpawnKernel(c: nat, home: nat, joinable: bool)
    | SpawnUser(c: nat, user: User)
    | Exec(c: nat, user: User)
    | Prepare(c: nat, consumption: WaitConsumption)
    | Commit(c: nat, prepared: PreparedWait)
    | Complete(c: nat, token: WaitToken, cause: WaitCause)
    | Finish(c: nat, token: WaitToken)
    | Cancel(c: nat, prepared: PreparedWait)
    | Exit(c: nat, code: nat)
    | Join(c: nat, target: ThreadId)
    | TakeJoined(c: nat)
    | Ipi(c: nat)
    | Timer(c: nat, events: seq<TimedEvent>)
    | PreemptPoint(c: nat)
    | RequestReschedule(c: nat)
    | GuardEnter(c: nat)
    | GuardLeave(c: nat)

  /** Steps that enter the scheduler on their CPU and so may finalize its retired thread. */
  predicate Enters(op: Op) {
    op.SpawnKernel? || op.Exit? || op.Join? || op.Ipi? || op.Timer? || op.PreemptPoint?
  }

  /** What the source demands of the caller: where this fails, it panics or cannot occur. */
  ghost predicate Enabled(s: Sched, op: Op) {
    && op.c < |s.cpus|
    && match op
       case Enter(c) => s.cpus[c].initialized && !s.cpus[c].online
       case Exec(c, _) => s.cpus[c].online
       case Prepare(c, _) => MayPrepare(s, c) && s.cpus[c].online && s.cpus[c].disableDepth == 0
       case Commit(c, _) => MayBlock(s, c)
       case Complete(_, token, _) => NotJoin(s, token)
       case Exit(c, _) => MayExit(s, c)
       case Join(c, target) => MayJoin(s, c, target)
       case TakeJoined(c) => HasCurrent(s, c)
       case Ipi(c) => IrqOpen(s, c)
       case Timer(c, events) => IrqOpen(s, c) && BatchOk(s, c, events)
       case PreemptPoint(c) => IrqOpen(s, c)
       case GuardLeave(c) => s.cpus[c].disableDepth > 0
       case _ => true
  }

  // ----- secondary CPU start, spawn, exec -----

  function StartIdle(s: Sched, c: nat): (r: Sched)
    requires Inv(s) && c < |s.cpus|
    ensures Inv(r)
  {
    if s.cpus[c].initialized || s.cpus[c].current.Some? || s.cpus[c].idle.Some? || s.free == [] then s
    else
      FreeTopFree(s);
      AddIdleInv(s, c);
      InitialDispatchInv(AddIdle(s, c), c);
      InitialDispatch(AddIdle(s, c), c)
  }

  predicate CanSpawn(s: Sched, target: nat) {
    target < |s.cpus| && s.cpus[target].online && s.free != []
  }

  function SpawnOn(s: Sched, c: nat, target: nat, user: Option<User>, joinable: bool): (r: Sched)
    requires Inv(s) && c < |s.cpus|
    requires user.Some? ==> joinable && user.value.owner == target
    ensures Inv(r)
  {
    if !CanSpawn(s, target) then s
    else
      FreeTopFree(s);
      var g := NextGeneration(s.slots[FreeTop(s)].generation);
      SpawnInv(s, c, target, user, joinable, g, false);
      Spawn(s, c, target, user, joinable, g, false)
  }

  /** exec swaps the resources of a current user thread, and refuses otherwise. */
  predicate CanExec(s: Sched, c: nat, user: User) {
    HasCurrent(s, c) && At(s, Current(s, c)).user.Some? && user.owner == At(s, Current(s, c)).home
  }

  function ExecUser(s: Sched, c: nat, user: User): (r: Sched)
    requires Inv(s) && c < |s.cpus|
    ensures Inv(r)
  {
    if !CanExec(s, c, user) then s
    else
      ExecInv(s, c, user);
      ReplaceUser(s, c, user)
  }

  lemma ExecInv(s: Sched, c: nat, user: User)
    requires Inv(s) && CanExec(s, c, user)
    ensures Inv(ReplaceUser(s, c, user))
  {
    var id := Current(s, c);
    var s' := ReplaceUser(s, c, user);
    assert CpuOk(s, c) && ThreadOk(s, id);
    assert forall x: ThreadId :: JoinerOf(s', x) == JoinerOf(s, x);
    JoinersKept(s, s');
    assert JoinerOf(s', id) == At(s, id).joiner;
    PutInv(s, id, At(s, id).(user := Some(user)));
  }

  lemma CurrentWaitInv(s: Sched, id: ThreadId, w: WaitMetadata)
    requires Inv(s) && IsCurrentOfHome(s, id)
    requires w == At(s, id).wait || w == At(s, id).wait.(active := None)
    ensures Inv(PutWait(s, id, w))
  {
    assert ThreadOk(s, id);
    WaitUpdateInv(s, id, w);
  }

  // ----- waits of other threads and of the caller -----

  ghost function CompleteExternal(s: Sched, c: nat, token: WaitToken, cause: WaitCause): (r: Sched)
    requires Inv(s) && c < |s.cpus| && NotJoin(s, token)
    ensures Inv(r)
  {
    if Live(s, token.thread) then
      assert ThreadOk(s, token.thread);
      CompleteWaitInv(s, c, token, cause, true);
      CompleteWait(s, c, token, cause, true).0
    else s
  }

  function FinishCurrent(s: Sched, token: WaitToken): (r: Sched)
    requires Inv(s)
    ensures Inv(r)
  {
    if IsCurrentOfHome(s, token.thread) then
      CurrentWaitInv(s, token.thread, Waits.Finish(At(s, token.thread).wait, token).0);
      FinishWait(s, token).0
    else s
  }

  function CancelCurrent(s: Sched, prepared: PreparedWait): (r: Sched)
    requires Inv(s)
    ensures Inv(r)
  {
    if IsCurrentOfHome(s, prepared.token.thread) then
      CurrentWaitInv(s, prepared.token.thread, Waits.Cancel(At(s, prepared.token.thread).wait, prepared).0);
      CancelWait(s, prepared).0
    else s
  }

  function SetDepth(s: Sched, c: nat, depth: nat): (r: Sched)
    requires Inv(s) && c < |s.cpus|
    ensures Inv(r)
  {
    FlagsInv(s, c, depth, s.cpus[c].reschedulePending);
    PutCpu(s, c, s.cpus[c].(disableDepth := depth))
  }

  // ----- steps and runs -----

  ghost function Apply(s: Sched, op: Op): (r: Sched)
    requires Inv(s) && Enabled(s, op)
    ensures Inv(r)
  {
    match op
    case InitIdle(c) => StartIdle(s, c)
    case Enter(c) => OnlineInv(s, c); PutCpu(s, c, s.cpus[c].(online := true))
    case SpawnKernel(c, home, joinable) => SpawnOn(Retire(s, c, true), c, home, None, joinable)
    case SpawnUser(c, user) => SpawnOn(s, c, user.owner, Some(user), true)
    case Exec(c, user) => ExecUser(s, c, user)
    case Prepare(c, consumption) => PrepareInv(s, c, consumption); PrepareWait(s, c, consumption).0
    case Commit(c, prepared) => CommitPrepared(s, c, prepared).0
    case Complete(c, token, cause) => CompleteExternal(s, c, token, cause)
    case Finish(_, token) => FinishCurrent(s, token)
    case Cancel(_, prepared) => CancelCurrent(s, prepared)
    case Exit(c, code) => ExitThread(s, c, code)
    case Join(c, target) => JoinThread(s, c, target)
    case TakeJoined(c) => TakeJoinResult(s, c).0
    case Ipi(c) => SchedulerIpi(s, c)
    case Timer(c, events) => TimerInterrupt(s, c, events)
    case PreemptPoint(c) => PreemptCheckpoint(s, c)
    case RequestReschedule(c) => RequestInv(s, c); Request(s, c)
    case GuardEnter(c) => SetDepth(s, c, s.cpus[c].disableDepth + 1)
    case GuardLeave(c) => SetDepth(s, c, s.cpus[c].disableDepth - 1)
  }

  ghost predicate Step(s: Sched, op: Op, s': Sched) {
    Inv(s) && Enabled(s, op) && s' == Apply(s, op)
  }

  /** A run: states linked by enabled steps of any CPUs in any order. */
  ghost predicate IsRun(states: seq<Sched>, ops: seq<Op>) {
    && |states| == |ops| + 1
    && Inv(states[0])
    && (forall i :: 0 <= i < |ops| ==> Enabled(states[i], ops[i]))
    && (forall i :: 0 <= i < |ops| ==> Inv(states[i]) ==> Step(states[i], ops[i], states[i + 1]))
  }

  /** The invariant holds in every state of every run. */
  lemma {:induction false} RunKeepsInv(states: seq<Sched>, ops: seq<Op>, n: nat)
    requires IsRun(states, ops) && n < |states|
    ensures Inv(states[n])
  {
    if n > 0 {
      RunKeepsInv(states, ops, n - 1);
      assert Step(states[n - 1], ops[n - 1], states[n]);
    }
  }
}
