/** Timer interrupts: the queued batch and the direct wake from idle (kernel/src/sched/preempt.rs). */
module SchedTimer {
  import opened Base
  import opened Waits
  import opened SchedState
  import opened SchedInvariant
  import opened SchedSteps
  import opened SchedOps

  /** A batch belongs to its CPU and never names a join: join tokens have no deadline. */
  ghost predicate BatchOk(s: Sched, c: nat, events: seq<TimedEvent>) {
    forall e :: e in events ==>
      && e.cpu == c
      && (e.WaitDeadline? ==> e.token.cpu == c && NotJoin(s, e.token))
  }

  /** One event: an expired wait is completed, an expired quantum asks for a checkpoint. */
  function Dispatch(s: Sched, c: nat, e: TimedEvent): (r: Sched)
    requires Inv(s) && c < |s.cpus| && BatchOk(s, c, [e])
    ensures Inv(r) && Steady(s, r) && ActiveUnmoved(s, r)
    ensures forall x: ThreadId :: JoinerOf(r, x) == JoinerOf(s, x)
  {
    match e
    case WaitDeadline(_, token) =>
      assert e in [e];
      TimeoutKeeps(s, c, token);
      CompleteAt(s, c, token, Timeout, false).0
    case QuantumExpired(_, thread) =>
      RequestInv(s, c);
      if s.cpus[c].current == Some(thread) then Request(s, c) else s
  }

  lemma TimeoutKeeps(s: Sched, c: nat, token: WaitToken)
    requires Inv(s) && c < |s.cpus| && NotJoin(s, token)
    ensures
      var r := CompleteAt(s, c, token, Timeout, false).0;
      && Inv(r) && Steady(s, r) && ActiveUnmoved(s, r)
      && (forall x: ThreadId :: JoinerOf(r, x) == JoinerOf(s, x))
  {
    hide Inv;
    if Live(s, token.thread) {
      ThreadFacts(s, token.thread);
      CompleteWaitInv(s, c, token, Timeout, false);
    }
  }

  /** The current threads stay live and keep a wait that is not prepared. */
  ghost predicate ActiveUnmoved(s: Sched, s': Sched) {
    forall x: ThreadId :: Live(s, x) && At(s, x).state.Running? ==>
      && Live(s', x)
      && (var a, a' := At(s, x).wait.active, At(s', x).wait.active;
          (a.Some? ==> !a.value.phase.PhasePrepared?) ==> (a'.Some? ==> !a'.value.phase.PhasePrepared?))
  }

  function DispatchAll(s: Sched, c: nat, events: seq<TimedEvent>): (r: Sched)
    requires Inv(s) && c < |s.cpus| && BatchOk(s, c, events)
    ensures Inv(r) && Steady(s, r) && ActiveUnmoved(s, r)
    decreases |events|
  {
    if events == [] then s
    else
      assert events[0] in events;
      var s1 := Dispatch(s, c, events[0]);
      assert forall x :: NotJoin(s, x) ==> NotJoin(s1, x);
      StillRunning(s, s1);
      DispatchAll(s1, c, events[1..])
  }

  lemma StillRunning(s: Sched, s': Sched)
    requires Inv(s) && Inv(s') && Steady(s, s')
    ensures forall x: ThreadId :: Live(s, x) && At(s, x).state.Running? ==> Live(s', x) && At(s', x).state.Running?
  {
    forall x: ThreadId | Live(s, x) && At(s, x).state.Running?
      ensures Live(s', x) && At(s', x).state.Running?
    {
      assert ThreadOk(s, x);
      assert CpuOk(s', At(s, x).home);
    }
  }

  /** Completion of a batch through the ready queue, then one checkpoint. */
  function TimerQueued(s: Sched, c: nat, events: seq<TimedEvent>): (r: Sched)
    requires Inv(s) && IrqOpen(s, c) && s.cpus[c].online && BatchOk(s, c, events)
    ensures Inv(r)
  {
    assert CpuOk(s, c);
    var s1 := DispatchAll(s, c, events);
    assert CpuOk(s1, c);
    RequestInv(s1, c);
    var s2 := if s1.cpus[c].idle == s1.cpus[c].current && s1.cpus[c].ready != [] then Request(s1, c) else s1;
    CpuReady(s2, c);
    CheckpointInv(s2, c);
    Checkpoint(s2, c)
  }

  /** When the direct path declines, it has not changed anything. */
  lemma DeclinedWakeUnchanged(s: Sched, c: nat, token: WaitToken)
    requires Inv(s) && TimedWakeFromIdle(s, c, token).1.None?
    ensures TimedWakeFromIdle(s, c, token).0 == s
  {
    if SoleWake(s, c, token) {
      assert ThreadOk(s, token.thread);
      assert TimedWakeFromIdle(s, c, token).0.slots == s.slots;
    }
  }

  /** When the direct path fires, thread states, waits, queues, current thread and the pending
      request are exactly those of completing the wait, serving the checkpoint and switching. */
  lemma DirectWakeRefinesQueued(s: Sched, c: nat, token: WaitToken)
    requires Inv(s) && IrqOpen(s, c) && s.cpus[c].online && s.cpus[c].disableDepth == 0
    requires BatchOk(s, c, [WaitDeadline(c, token)])
    requires TimedWakeFromIdle(s, c, token).1.Some?
    ensures Acknowledge(TimedWakeFromIdle(s, c, token).0, c) == TimerQueued(s, c, [WaitDeadline(c, token)])
    ensures TimedWakeFromIdle(s, c, token).1 == Some(Switch(s.cpus[c].idle.value, token.thread))
  {
    hide Inv, Steady, ActiveUnmoved;
    var e := WaitDeadline(c, token);
    CpuFacts(s, c);
    ThreadFacts(s, token.thread);
    var s1 := Dispatch(s, c, e);
    assert [e][1..] == [];
    assert DispatchAll(s, c, [e]) == s1;
    WokenAlone(s, s1, c, token);
    hide Dispatch, DispatchAll;
    var a, b := Acknowledge(TimedWakeFromIdle(s, c, token).0, c), Checkpoint(s1, c);
    assert TimerQueued(s, c, [e]) == b;
    assert a.slots == b.slots;
    assert a.cpus[c] == b.cpus[c];
    assert a.cpus == b.cpus;
  }

  /** After the completion the woken thread is alone in the queue and the checkpoint is requested. */
  lemma WokenAlone(s: Sched, s1: Sched, c: nat, token: WaitToken)
    requires c < |s.cpus| && CpuOk(s, c) && TimedWakeFromIdle(s, c, token).1.Some? && ThreadOk(s, token.thread)
    requires s1 == CompleteWait(s, c, token, Timeout, false).0
    ensures
      var x, w := s.cpus[c], Complete(At(s, token.thread).wait, token, Timeout).0;
      && s1.cpus == s.cpus[c := x.(ready := [token.thread], reschedulePending := true)]
      && s1 == s.(cpus := s1.cpus, slots := Put(s, token.thread, At(s, token.thread).(state := Ready, wait := w)).slots)
      && Request(s1, c) == s1 && HasCurrent(s1, c) && HasNext(s1, c) && Next(s1, c).index != Current(s1, c).index
  {
    assert s.cpus[c].ready + [token.thread] == [token.thread];
    assert s1.cpus == s.cpus[c := s.cpus[c].(ready := [token.thread], reschedulePending := true)];
    assert Request(s1, c).cpus == s1.cpus;
    assert Live(s1, s.cpus[c].idle.value) && Live(s1, token.thread);
  }

  /** The timer interrupt with its direct path. */
  function TimerInterrupt(s: Sched, c: nat, events: seq<TimedEvent>): (r: Sched)
    requires Inv(s) && IrqOpen(s, c) && BatchOk(s, c, events)
    ensures Inv(r)
  {
    var s1 := Retire(s, c, false);
    assert forall x :: NotJoin(s, x) ==> NotJoin(s1, x);
    if !s1.cpus[c].online then s1
    else
      assert CpuOk(s, c) && CpuOk(s1, c);
      if |events| == 1 && events[0].WaitDeadline? && s1.cpus[c].disableDepth == 0 then
        assert events[0] in events;
        var (s2, outcome) := TimedWakeFromIdle(s1, c, events[0].token);
        if outcome.Some? then
          assert events == [WaitDeadline(c, events[0].token)];
          DirectWakeRefinesQueued(s1, c, events[0].token);
          Acknowledge(s2, c)
        else
          DeclinedWakeUnchanged(s1, c, events[0].token);
          TimerQueued(s2, c, events)
      else TimerQueued(s1, c, events)
  }

  /** The direct path is invisible: a timer interrupt always ends as the queued path would. */
  lemma TimerInterruptIsQueued(s: Sched, c: nat, events: seq<TimedEvent>)
    requires Inv(s) && IrqOpen(s, c) && BatchOk(s, c, events) && s.cpus[c].online
    ensures BatchOk(Retire(s, c, false), c, events) && IrqOpen(Retire(s, c, false), c)
    ensures TimerInterrupt(s, c, events) == TimerQueued(Retire(s, c, false), c, events)
  {
    var s1 := Retire(s, c, false);
    assert CpuOk(s, c) && CpuOk(s1, c);
    assert forall x :: NotJoin(s, x) ==> NotJoin(s1, x);
    if |events| == 1 && events[0].WaitDeadline? && s1.cpus[c].disableDepth == 0 {
      assert events[0] in events;
      assert events == [WaitDeadline(c, events[0].token)];
      if TimedWakeFromIdle(s1, c, events[0].token).1.Some? {
        DirectWakeRefinesQueued(s1, c, events[0].token);
      } else {
        DeclinedWakeUnchanged(s1, c, events[0].token);
      }
    }
  }
}
