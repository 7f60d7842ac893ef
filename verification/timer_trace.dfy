/**
  The life of one event in the timer queue over whole runs (kernel/src/time.rs:361-419, 634-772): an
  event is queued exactly from the step that sets it to the first step that drops it, and an interrupt
  delivers it as soon as its deadline has come.
 */
module TimerTrace {
  import opened Base
  import opened Waits
  import opened SchedState
  import opened DeadlineOrder
  import opened DeadlineQueues
  import opened TimerState

  /** The deadline that a step gives to event e. */
  function Sets(t: Timer, op: TimerOp, e: TimedEvent): Option<nat> {
    match op
    case Schedule(deadline, event) => if event == e then Some(deadline) else None
    case Sleep(deadline, token) => if e == WaitDeadline(token.cpu, token) then Some(deadline) else None
    case Finish(obsolete, Some(entry)) =>
      if entry.event == e && (e !in t.queue || obsolete == Some(e)) then Some(entry.deadline) else None
    case _ => None
  }

  /** A step that takes event e with deadline d out of the queue. */
  predicate Drops(op: TimerOp, e: TimedEvent, d: nat) {
    match op
    case Cancel(event, _) => event == e
    case Sleep(_, token) => e == QuantumExpired(token.cpu, token.thread)
    case Interrupt(now) => d <= now
    case Finish(obsolete, _) => obsolete == Some(e)
    case _ => false
  }

  ghost predicate Queued(t: Timer, e: TimedEvent, d: nat) {
    e in t.queue && t.queue[e] == d
  }

  /** One step, for one event: set, dropped, or left alone with its deadline. */
  lemma StepTrace(t: Timer, op: TimerOp, e: TimedEvent, d: nat)
    ensures Queued(Do(t, op), e, d) <==>
      Sets(t, op, e) == Some(d) || (Sets(t, op, e).None? && Queued(t, e, d) && !Drops(op, e, d))
  {
  }

  /** Step m sets the event to d, and no step after m and before n sets or drops it. */
  ghost predicate SetSince(states: seq<Timer>, ops: seq<TimerOp>, m: nat, n: nat, e: TimedEvent, d: nat)
    requires m < n <= |ops| <= |states|
  {
    && Sets(states[m], ops[m], e) == Some(d)
    && forall k :: m < k < n ==> Sets(states[k], ops[k], e).None? && !Drops(ops[k], e, d)
  }

  /** In every run an event is queued with deadline d exactly when some step set it so and none has
      set or dropped it since: no sleep is lost, and nothing cancelled comes back. */
  lemma {:induction false} QueuedExactly(states: seq<Timer>, ops: seq<TimerOp>, n: nat, e: TimedEvent, d: nat)
    requires IsTimerRun(states, ops) && n < |states|
    ensures Queued(states[n], e, d) <==> exists m :: 0 <= m < n && SetSince(states, ops, m, n, e, d)
    decreases n
  {
    hide Queued, Sets, Drops;
    if n == 0 {
      NothingQueued(states[0], e, d);
    } else {
      var i := n - 1;
      QueuedExactly(states, ops, i, e, d);
      assert TimerStepAt(states, ops, i);
      StepTrace(states[i], ops[i], e, d);
      if Sets(states[i], ops[i], e) == Some(d) { assert SetSince(states, ops, i, n, e, d); }
      if m :| 0 <= m < i && SetSince(states, ops, m, i, e, d) {
        if Sets(states[i], ops[i], e).None? && !Drops(ops[i], e, d) { assert SetSince(states, ops, m, n, e, d); }
      }
      if m :| 0 <= m < n && SetSince(states, ops, m, n, e, d) {
        if m < i { assert SetSince(states, ops, m, i, e, d); }
      }
    }
  }

  lemma NothingQueued(t: Timer, e: TimedEvent, d: nat)
    requires t.queue == map[]
    ensures !Queued(t, e, d)
  {
  }

  /** The interrupt that step n takes delivers an event exactly when it was set, not dropped since, and
      its deadline has come: so the first interrupt at or after the deadline delivers it. */
  lemma DeliveredExactly(states: seq<Timer>, ops: seq<TimerOp>, n: nat, e: TimedEvent, batch: seq<TimedEvent>)
    requires IsTimerRun(states, ops) && n < |ops| && ops[n].Interrupt? && IsBatch(states[n].queue, ops[n].now, batch)
    ensures e in batch <==>
      exists m: nat, d: nat :: m < n && SetSince(states, ops, m, n, e, d) && d <= ops[n].now
  {
    if e in batch {
      QueuedExactly(states, ops, n, e, states[n].queue[e]);
    }
    if m: nat, d: nat :| m < n && SetSince(states, ops, m, n, e, d) && d <= ops[n].now {
      QueuedExactly(states, ops, n, e, d);
    }
  }

  /** A sleep replaces the quantum of its thread by the wait deadline and moves no other event. */
  lemma SleepReplacesQuantum(t: Timer, deadline: nat, token: WaitToken, e: TimedEvent, d: nat)
    ensures
      var t' := PublishSleep(t, deadline, token);
      && Queued(t', WaitDeadline(token.cpu, token), deadline)
      && QuantumExpired(token.cpu, token.thread) !in t'.queue
      && (e != WaitDeadline(token.cpu, token) && e != QuantumExpired(token.cpu, token.thread) ==>
            (Queued(t', e, d) <==> Queued(t, e, d)))
  {
  }

  /** A step that programs the timer: all but a remote cancel, a cancel of nothing and an interrupt. */
  predicate Programs(t: Timer, op: TimerOp) {
    op.Schedule? || op.Sleep? || op.Finish? || (op.Cancel? && op.local && op.event in t.queue)
  }

  /** Outside a dispatch such a step leaves the timer armed at the earliest deadline, and disarmed when
      nothing is queued; it is never armed early for nothing. */
  lemma ArmedExactly(t: Timer, op: TimerOp)
    requires Programs(t, op) && Allowed(t, op) && !Do(t, op).dispatching
    ensures Do(t, op).armed == Earliest(Do(t, op).queue)
    ensures Do(t, op).armed.None? <==> Do(t, op).queue == map[]
  {
    var t' := Do(t, op);
    if t'.queue != map[] { HasEarliest(t'.queue); }
  }

  /** The order of a batch: by deadline; on a tie waits before quanta, and waits by thread index, then
      generation, then sequence; quanta by thread index, then generation. */
  lemma BatchOrder(q: map<TimedEvent, nat>, now: nat, batch: seq<TimedEvent>, i: nat, j: nat)
    requires IsBatch(q, now, batch) && i < j < |batch|
    ensures batch[i] in q && batch[j] in q && q[batch[i]] <= q[batch[j]]
    ensures q[batch[i]] == q[batch[j]] ==>
      match (batch[i], batch[j])
      case (WaitDeadline(_, a), WaitDeadline(_, b)) =>
        && a.thread.index <= b.thread.index
        && (a.thread.index == b.thread.index ==> a.thread.generation <= b.thread.generation)
        && (a.thread == b.thread ==> a.sequence < b.sequence)
      case (QuantumExpired(_, a), QuantumExpired(_, b)) =>
        a.index <= b.index && (a.index == b.index ==> a.generation < b.generation)
      case (WaitDeadline(_, _), QuantumExpired(_, _)) => true
      case (QuantumExpired(_, _), WaitDeadline(_, _)) => false
  {
    assert batch[i] in batch && batch[j] in batch;
  }
}
