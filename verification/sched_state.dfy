/**
  Scheduler state and the meaning of its transitions
  (kernel/src/sched/transition.rs, thread.rs, preempt.rs).

  One lock serialises every transition, so each operation is one atomic step on the state; the
  CPU that executes it is the argument `c`. The per-CPU arrays of the source (local scheduler
  state, remote ingress, pending IPI, preemption cell) are gathered in one record. Functions
  here say what a transition does as one simultaneous update; module SchedulerImpl performs
  the same transitions statement by statement.
 */
module SchedState {
  import opened Base
  import opened Waits

  datatype ThreadState = Ready | Running | Blocked | Exited
  datatype JoinError = InvalidThread | NotJoinable | SelfJoin | JoinInProgress
  datatype JoinResult = JoinOk(code: nat) | JoinErr(error: JoinError)

  /** Address space and user stack owned by a user thread. */
  datatype User = User(root: nat, owner: nat, stack: nat)

  datatype Thread = Thread(
    home: nat,
    state: ThreadState,
    joinable: bool,
    exitCode: Option<nat>,
    joiner: Option<WaitToken>,
    joinResult: Option<JoinResult>,
    reaped: Option<User>,
    user: Option<User>,
    wait: WaitMetadata)

  datatype Slot = Slot(generation: nat, nextSequence: nat, stackParked: bool, thread: Option<Thread>)

  datatype Cpu = Cpu(
    current: Option<ThreadId>,
    idle: Option<ThreadId>,
    retired: Option<ThreadId>,
    ready: seq<ThreadId>,
    remote: seq<ThreadId>,
    ipiPending: bool,
    initialized: bool,
    online: bool,
    disableDepth: nat,
    reschedulePending: bool)

  datatype Sched = Sched(capacity: nat, slots: seq<Slot>, free: seq<nat>, cpus: seq<Cpu>)

  datatype SwitchOutcome = ContinueCurrent | Switch(from: ThreadId, to: ThreadId)

  /** A deadline delivered to the scheduler by the timer batch. */
  datatype TimedEvent = WaitDeadline(cpu: nat, token: WaitToken) | QuantumExpired(cpu: nat, thread: ThreadId)

  // ----- lookups and point updates -----

  predicate Live(s: Sched, id: ThreadId) {
    && id.index < |s.slots|
    && s.slots[id.index].generation == id.generation
    && s.slots[id.index].thread.Some?
  }

  function At(s: Sched, id: ThreadId): Thread
    requires Live(s, id)
  {
    s.slots[id.index].thread.value
  }

  function Put(s: Sched, id: ThreadId, t: Thread): Sched
    requires Live(s, id)
  {
    s.(slots := s.slots[id.index := s.slots[id.index].(thread := Some(t))])
  }

  function PutCpu(s: Sched, c: nat, x: Cpu): Sched
    requires c < |s.cpus|
  {
    s.(cpus := s.cpus[c := x])
  }

  function NextGeneration(g: nat): nat {
    if g >= U32_MAX then 1 else g + 1
  }

  predicate HasCurrent(s: Sched, c: nat) {
    c < |s.cpus| && s.cpus[c].current.Some? && Live(s, s.cpus[c].current.value)
  }

  function Current(s: Sched, c: nat): ThreadId
    requires HasCurrent(s, c)
  {
    s.cpus[c].current.value
  }

  // ----- handoff -----

  /** The thread that a popping handoff selects: queue front, else idle. */
  predicate HasNext(s: Sched, c: nat) {
    c < |s.cpus| && s.cpus[c].idle.Some? && Live(s, s.cpus[c].idle.value)
    && (s.cpus[c].ready != [] ==> Live(s, s.cpus[c].ready[0]))
  }

  function Next(s: Sched, c: nat): ThreadId
    requires HasNext(s, c)
  {
    if s.cpus[c].ready != [] then s.cpus[c].ready[0] else s.cpus[c].idle.value
  }

  /** Current leaves as thread value t (ready again, blocked or exited) and Next runs. */
  function Handoff(s: Sched, c: nat, t: Thread): Sched
    requires HasCurrent(s, c) && HasNext(s, c) && Next(s, c).index != Current(s, c).index
  {
    var x, from, to := s.cpus[c], Current(s, c), Next(s, c);
    s.(slots := s.slots[from.index := s.slots[from.index].(thread := Some(t))]
                       [to.index := s.slots[to.index].(thread := Some(At(s, to).(state := Running)))],
       cpus := s.cpus[c := x.(current := Some(to),
                              ready := (if x.ready == [] then [] else x.ready[1..])
                                       + (if t.state.Ready? && x.idle != Some(from) then [from] else []),
                              retired := if t.state.Exited? then Some(from) else x.retired)])
  }

  /** A voluntary or preemptive switch happens only when a peer is queued. */
  function OptionalSwitch(s: Sched, c: nat): Sched
    requires HasCurrent(s, c) && HasNext(s, c) && (s.cpus[c].ready != [] ==> Next(s, c).index != Current(s, c).index)
  {
    if s.cpus[c].ready == [] then s else Handoff(s, c, At(s, Current(s, c)).(state := Ready))
  }

  /** A reschedule request is served on an online CPU at preemption depth zero. */
  predicate CheckpointDue(x: Cpu) {
    x.online && x.disableDepth == 0 && x.reschedulePending
  }

  function Acknowledge(s: Sched, c: nat): Sched
    requires c < |s.cpus|
  {
    if CheckpointDue(s.cpus[c]) then PutCpu(s, c, s.cpus[c].(reschedulePending := false)) else s
  }

  function Checkpoint(s: Sched, c: nat): Sched
    requires HasCurrent(s, c) && HasNext(s, c) && (s.cpus[c].ready != [] ==> Next(s, c).index != Current(s, c).index)
  {
    if CheckpointDue(s.cpus[c]) then OptionalSwitch(Acknowledge(s, c), c) else s
  }

  function Request(s: Sched, c: nat): Sched
    requires c < |s.cpus|
  {
    PutCpu(s, c, s.cpus[c].(reschedulePending := true))
  }

  /** Work in the local queue of a running CPU asks for a checkpoint. */
  function NotePeer(s: Sched, c: nat): Sched
    requires c < |s.cpus|
  {
    if s.cpus[c].current.Some? && s.cpus[c].ready != [] then Request(s, c) else s
  }

  // ----- waits -----

  function PutWait(s: Sched, id: ThreadId, w: WaitMetadata): Sched
    requires Live(s, id)
  {
    Put(s, id, At(s, id).(wait := w))
  }

  /** A blocked thread becomes ready in its home queue: locally, or through remote ingress.
      `notify` is false in a timer batch, which always requests a checkpoint. */
  function Wake(s: Sched, c: nat, id: ThreadId, w: WaitMetadata, notify: bool): Sched
    requires c < |s.cpus| && Live(s, id) && At(s, id).home < |s.cpus|
  {
    var home := At(s, id).home;
    var x := s.cpus[home];
    s.(slots := s.slots[id.index := s.slots[id.index].(thread := Some(At(s, id).(state := Ready, wait := w)))],
       cpus := s.cpus[home :=
         if home == c
         then x.(ready := x.ready + [id],
                 reschedulePending := x.reschedulePending || !notify || (x.ready == [] && x.current.Some?))
         else x.(remote := x.remote + [id], ipiPending := true)])
  }

  function CompleteWait(s: Sched, c: nat, token: WaitToken, cause: WaitCause, notify: bool)
    : (r: (Sched, CompletionResult))
    requires c < |s.cpus|
    requires Live(s, token.thread) ==> At(s, token.thread).home < |s.cpus|
  {
    if !Live(s, token.thread) then (s, StaleCompletion)
    else
      var (w, r) := Complete(At(s, token.thread).wait, token, cause);
      (if r.WokeBlocked? then Wake(s, c, token.thread, w, notify) else PutWait(s, token.thread, w), r)
  }

  predicate MayPrepare(s: Sched, c: nat) {
    && HasCurrent(s, c)
    && At(s, Current(s, c)).wait.active.None?
    && At(s, Current(s, c)).wait.nextSequence < U64_MAX
  }

  function PrepareWait(s: Sched, c: nat, consumption: WaitConsumption): (r: (Sched, PreparedWait))
    requires MayPrepare(s, c)
  {
    var id := Current(s, c);
    var (w, p) := Prepare(At(s, id).wait, id, c, consumption);
    (PutWait(s, id, w), p)
  }

  function CommitWait(s: Sched, c: nat, prepared: PreparedWait): (r: (Sched, CommitState))
    requires HasCurrent(s, c) && HasNext(s, c) && Next(s, c).index != Current(s, c).index
  {
    var from := Current(s, c);
    var (w, r) := Commit(At(s, from).wait, prepared);
    (if r.Block? then Handoff(s, c, At(s, from).(state := Blocked, wait := w)) else PutWait(s, from, w), r)
  }

  predicate IsCurrentOfHome(s: Sched, id: ThreadId) {
    Live(s, id) && At(s, id).home < |s.cpus| && s.cpus[At(s, id).home].current == Some(id)
  }

  function FinishWait(s: Sched, token: WaitToken): (r: (Sched, FinishResult)) {
    if !IsCurrentOfHome(s, token.thread) then (s, StaleFinish)
    else
      var (w, r) := Finish(At(s, token.thread).wait, token);
      (PutWait(s, token.thread, w), r)
  }

  function CancelWait(s: Sched, prepared: PreparedWait): (r: (Sched, CancelResult)) {
    if !IsCurrentOfHome(s, prepared.token.thread) then (s, StaleCancel)
    else
      var (w, r) := Cancel(At(s, prepared.token.thread).wait, prepared);
      (PutWait(s, prepared.token.thread, w), r)
  }

  /** The sole-wake conditions under which idle may hand over to an expired wait directly. */
  predicate SoleWake(s: Sched, c: nat, token: WaitToken) {
    && HasCurrent(s, c)
    && s.cpus[c].idle == s.cpus[c].current
    && s.cpus[c].ready == [] && s.cpus[c].remote == []
    && token.cpu == c
    && Live(s, token.thread)
    && At(s, token.thread).home == c
    && At(s, token.thread).state.Blocked?
  }

  /** Direct selection of one expired wait from permanent idle. The state is the one the source
      leaves behind, also when the answer is None. */
  function TimedWakeFromIdle(s: Sched, c: nat, token: WaitToken): (r: (Sched, Option<SwitchOutcome>)) {
    if !SoleWake(s, c, token) then (s, None)
    else
      var from, to := Current(s, c), token.thread;
      var (w, r) := Complete(At(s, to).wait, token, Timeout);
      if !r.WokeBlocked? then (PutWait(s, to, w), None)
      else
        (s.(slots := s.slots[from.index := s.slots[from.index].(thread := Some(At(s, from).(state := Ready)))]
                            [to.index := s.slots[to.index].(thread := Some(At(s, to).(state := Running, wait := w)))],
            cpus := s.cpus[c := s.cpus[c].(current := Some(to))]),
         Some(Switch(from, to)))
  }

  // ----- publication of threads -----

  function NewThread(slot: Slot, home: nat, user: Option<User>, joinable: bool): Thread {
    Thread(home, Ready, joinable, None, None, None, None, user, WaitMetadata(slot.nextSequence, None))
  }

  function Occupy(slots: seq<Slot>, i: nat, generation: nat, t: Thread): seq<Slot>
    requires i < |slots|
  {
    slots[i := Slot(generation, slots[i].nextSequence, false, Some(t))]
  }

  predicate HasFree(s: Sched) {
    s.free != [] && s.free[|s.free| - 1] < |s.slots|
  }

  function FreeTop(s: Sched): nat
    requires HasFree(s)
  {
    s.free[|s.free| - 1]
  }

  /** Append one free slot (transition_fill_free_slots, and the first half of a bootstrap append). */
  function Grow(s: Sched): Sched {
    s.(slots := s.slots + [Slot(0, 0, true, None)], free := s.free + [|s.slots|])
  }

  /** Pop the free stack and publish a ready thread into that slot. */
  function Spawn(s: Sched, c: nat, home: nat, user: Option<User>, joinable: bool,
                 generation: nat, bootstrap: bool): Sched
    requires c < |s.cpus| && home < |s.cpus| && HasFree(s)
  {
    var i := FreeTop(s);
    var id := ThreadId(i, generation);
    var x := s.cpus[home];
    s.(slots := Occupy(s.slots, i, generation, NewThread(s.slots[i], home, user, joinable)),
       free := s.free[..|s.free| - 1],
       cpus := s.cpus[home :=
         if home == c
         then x.(ready := x.ready + [id],
                 reschedulePending := x.reschedulePending || (!bootstrap && x.ready == [] && x.current.Some?))
         else x.(remote := x.remote + [id], ipiPending := true)])
  }

  /** Pop the free stack and publish the idle thread of CPU c there. */
  function AddIdle(s: Sched, c: nat): Sched
    requires c < |s.cpus| && HasFree(s)
  {
    var i := FreeTop(s);
    s.(slots := Occupy(s.slots, i, 1, NewThread(s.slots[i], c, None, false)),
       free := s.free[..|s.free| - 1],
       cpus := s.cpus[c := s.cpus[c].(idle := Some(ThreadId(i, 1)))])
  }

  function InitialDispatch(s: Sched, c: nat): Sched
    requires HasNext(s, c)
  {
    var x, to := s.cpus[c], Next(s, c);
    s.(slots := s.slots[to.index := s.slots[to.index].(thread := Some(At(s, to).(state := Running)))],
       cpus := s.cpus[c := x.(current := Some(to), ready := if x.ready == [] then [] else x.ready[1..],
                              initialized := true)])
  }

  // ----- exit, retirement, join -----

  function ExitCurrent(s: Sched, c: nat, code: nat): Sched
    requires HasCurrent(s, c) && HasNext(s, c) && Next(s, c).index != Current(s, c).index
  {
    var s1 := Handoff(s, c, At(s, Current(s, c)).(exitCode := Some(code), state := Exited));
    PutCpu(s1, c, s1.cpus[c].(ipiPending := true))
  }

  function Release(s: Sched, id: ThreadId): Sched
    requires Live(s, id)
  {
    var slot := s.slots[id.index];
    s.(slots := s.slots[id.index := Slot(slot.generation, slot.thread.value.wait.nextSequence, true, None)],
       free := s.free + [id.index])
  }

  /** What Finalize reads of the state; the invariant provides it. */
  predicate CanFinalize(s: Sched, c: nat) {
    && c < |s.cpus|
    && (s.cpus[c].retired.Some? ==>
          var id := s.cpus[c].retired.value;
          && Live(s, id) && At(s, id).exitCode.Some?
          && (At(s, id).joiner.Some? ==>
                var j := At(s, id).joiner.value.thread;
                Live(s, j) && j.index != id.index && At(s, j).home < |s.cpus|))
  }

  /** The joiner of an exited thread is completed and receives exit code and user resources;
      the slot is released, unless the thread is joinable and still waits for its joiner. */
  function Finalize(s: Sched, c: nat, notify: bool): Sched
    requires CanFinalize(s, c)
  {
    if s.cpus[c].retired.None? then s
    else
      var id := s.cpus[c].retired.value;
      var t := At(s, id);
      var s1 := PutCpu(s, c, s.cpus[c].(retired := None));
      if t.joiner.Some? then
        var s2 := CompleteWait(s1, c, t.joiner.value, Notified, notify).0;
        var j := t.joiner.value.thread;
        Release(Put(s2, j, At(s2, j).(joinResult := Some(JoinOk(t.exitCode.value)), reaped := t.user)), id)
      else if !t.joinable then Release(s1, id)
      else s1
  }

  datatype JoinPath = JoinFails(error: JoinError) | JoinReaps | JoinBlocks

  /** Which way join_thread goes for the running thread of CPU c. */
  function JoinPathOf(s: Sched, c: nat, target: ThreadId): JoinPath
    requires HasCurrent(s, c)
    requires Live(s, target) ==> At(s, target).home < |s.cpus|
  {
    var current := Current(s, c);
    if s.cpus[c].idle == Some(current) then JoinFails(NotJoinable)
    else if !Live(s, target) then JoinFails(InvalidThread)
    else if s.cpus[At(s, target).home].idle == Some(target) then JoinFails(NotJoinable)
    else if target.index == current.index then JoinFails(SelfJoin)
    else if !At(s, target).joinable then JoinFails(NotJoinable)
    else if At(s, target).joiner.Some? then JoinFails(JoinInProgress)
    else if At(s, target).state.Exited? && s.cpus[At(s, target).home].retired != Some(target) then JoinReaps
    else JoinBlocks
  }

  function SetJoinResult(s: Sched, id: ThreadId, r: JoinResult, reaped: Option<User>): Sched
    requires Live(s, id)
  {
    Put(s, id, At(s, id).(joinResult := Some(r), reaped := reaped))
  }

  function TakeJoin(s: Sched, id: ThreadId): (r: (Sched, Option<(JoinResult, Option<User>)>))
    requires Live(s, id)
  {
    var t := At(s, id);
    if t.joinResult.None? then (s, None)
    else (Put(s, id, t.(joinResult := None, reaped := None)), Some((t.joinResult.value, t.reaped)))
  }

  function ReplaceUser(s: Sched, c: nat, user: User): Sched
    requires HasCurrent(s, c)
  {
    Put(s, Current(s, c), At(s, Current(s, c)).(user := Some(user)))
  }

  // ----- remote ingress -----

  function DrainRemote(s: Sched, c: nat): Sched
    requires c < |s.cpus|
  {
    PutCpu(s, c, s.cpus[c].(ipiPending := false, ready := s.cpus[c].ready + s.cpus[c].remote, remote := []))
  }
}
