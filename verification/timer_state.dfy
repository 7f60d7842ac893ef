/**
  The one-shot timer around a deadline queue (kernel/src/time.rs:361-419, 634-772): what each
  locked section does, and why the timer is never armed late.
 */
module TimerState {
  import opened Base
  import opened Waits
  import opened SchedState
  import opened DeadlineOrder
  import opened DeadlineQueues

  datatype Timer = Timer(queue: map<TimedEvent, nat>, armed: Option<nat>, dispatching: bool)

  ghost function Rearm(t: Timer): Timer {
    t.(armed := Earliest(t.queue))
  }

  ghost function RearmIdle(t: Timer): Timer {
    if t.dispatching then t else Rearm(t)
  }

  ghost function ScheduleEvent(t: Timer, deadline: nat, event: TimedEvent): Timer {
    RearmIdle(t.(queue := t.queue[event := deadline]))
  }

  /** A remote caller only edits the queue; it must not touch another CPU's timer. */
  ghost function CancelEvent(t: Timer, event: TimedEvent, rearm: bool): Timer {
    if event !in t.queue then t
    else
      var t1 := t.(queue := t.queue - {event});
      if rearm then RearmIdle(t1) else t1
  }

  ghost function PublishSleep(t: Timer, deadline: nat, token: WaitToken): Timer {
    var t1 := CancelEvent(t, QuantumExpired(token.cpu, token.thread), false);
    RearmIdle(t1.(queue := t1.queue[WaitDeadline(token.cpu, token) := deadline]))
  }

  ghost function BeginDispatch(t: Timer, now: nat): Timer {
    t.(queue := map e | e in t.queue && t.queue[e] > now :: t.queue[e], dispatching := true)
  }

  ghost function EndDispatch(t: Timer, obsolete: Option<TimedEvent>, ensured: Option<Entry>): Timer {
    var t1 := if obsolete.Some? then CancelEvent(t, obsolete.value, false) else t;
    var t2 := if ensured.Some? && ensured.value.event !in t1.queue
              then t1.(queue := t1.queue[ensured.value.event := ensured.value.deadline]) else t1;
    Rearm(t2.(dispatching := false))
  }

  /** Outside a dispatch, a nonempty queue has a timer armed no later than its earliest deadline. */
  ghost predicate NeverLate(t: Timer) {
    !t.dispatching && t.queue != map[] ==> t.armed.Some? && forall e :: e in t.queue ==> t.armed.value <= t.queue[e]
  }

  lemma {:induction false} HasEarliest(q: map<TimedEvent, nat>)
    requires q != map[]
    ensures Earliest(q).Some?
    decreases |q|
  {
    var e :| e in q;
    var rest := q - {e};
    if rest == map[] {
      assert forall x :: x in q ==> x in rest || x == e;
      assert IsEarliest(q, q[e]);
    } else {
      assert rest.Keys == q.Keys - {e};
      HasEarliest(rest);
      var d := Earliest(rest).value;
      assert forall x :: x in q ==> x in rest || x == e;
      assert IsEarliest(q, if q[e] <= d then q[e] else d);
    }
  }

  lemma RearmNeverLate(t: Timer)
    ensures NeverLate(Rearm(t)) && NeverLate(RearmIdle(t))
  {
    if t.queue != map[] { HasEarliest(t.queue); }
  }

  // ----- runs -----

  datatype TimerOp =
    | Schedule(deadline: nat, event: TimedEvent)
    | Sleep(deadline: nat, token: WaitToken)
    | Cancel(event: TimedEvent, local: bool)
    | Interrupt(now: nat)
    | Finish(obsolete: Option<TimedEvent>, ensured: Option<Entry>)

  /** Dispatch is not reentrant; every other call may come at any time, from the owner or remotely. */
  predicate Allowed(t: Timer, op: TimerOp) {
    match op
    case Interrupt(_) => !t.dispatching
    case Finish(_, _) => t.dispatching
    case _ => true
  }

  ghost function Do(t: Timer, op: TimerOp): Timer {
    match op
    case Schedule(deadline, event) => ScheduleEvent(t, deadline, event)
    case Sleep(deadline, token) => PublishSleep(t, deadline, token)
    case Cancel(event, local) => CancelEvent(t, event, local)
    case Interrupt(now) => BeginDispatch(t, now)
    case Finish(obsolete, ensured) => EndDispatch(t, obsolete, ensured)
  }

  lemma DoNeverLate(t: Timer, op: TimerOp)
    requires NeverLate(t) && Allowed(t, op)
    ensures NeverLate(Do(t, op))
  {
    match op
    case Schedule(deadline, event) => RearmNeverLate(t.(queue := t.queue[event := deadline]));
    case Sleep(deadline, token) =>
      var t1 := CancelEvent(t, QuantumExpired(token.cpu, token.thread), false);
      RearmNeverLate(t1.(queue := t1.queue[WaitDeadline(token.cpu, token) := deadline]));
    case Cancel(event, local) => RearmNeverLate(t.(queue := t.queue - {event}));
    case Interrupt(_) =>
    case Finish(obsolete, ensured) =>
      var t1 := if obsolete.Some? then CancelEvent(t, obsolete.value, false) else t;
      var t2 := if ensured.Some? && ensured.value.event !in t1.queue
                then t1.(queue := t1.queue[ensured.value.event := ensured.value.deadline]) else t1;
      RearmNeverLate(t2.(dispatching := false));
  }

  ghost predicate IsTimerRun(states: seq<Timer>, ops: seq<TimerOp>) {
    && |states| == |ops| + 1 && states[0] == Timer(map[], None, false)
    && forall n: nat :: n < |ops| ==> TimerStepAt(states, ops, n)
  }

  ghost predicate TimerStepAt(states: seq<Timer>, ops: seq<TimerOp>, n: nat)
    requires n < |ops| && |states| == |ops| + 1
  {
    Allowed(states[n], ops[n]) && states[n + 1] == Do(states[n], ops[n])
  }

  /** Over every mix of schedules, sleeps, local and remote cancels, and interrupt batches. */
  lemma {:induction false} TimerNeverLate(states: seq<Timer>, ops: seq<TimerOp>, n: nat)
    requires IsTimerRun(states, ops) && n < |states|
    ensures NeverLate(states[n])
  {
    if n > 0 {
      TimerNeverLate(states, ops, n - 1);
      assert TimerStepAt(states, ops, n - 1);
      DoNeverLate(states[n - 1], ops[n - 1]);
    }
  }

  // ----- batches -----

  /** Exactly the expired events, in (deadline, sort key) order. */
  ghost predicate IsBatch(q: map<TimedEvent, nat>, now: nat, out: seq<TimedEvent>) {
    && (forall e :: e in out <==> e in q && q[e] <= now)
    && (forall i, j :: 0 <= i < j < |out| ==> Less(Entry(q[out[i]], out[i]), Entry(q[out[j]], out[j])))
  }

  /** The batch is a function of the map: how the events got into the queue does not matter. */
  lemma {:induction false} BatchUnique(q: map<TimedEvent, nat>, now: nat, a: seq<TimedEvent>, b: seq<TimedEvent>)
    requires IsBatch(q, now, a) && IsBatch(q, now, b)
    ensures a == b
    decreases |a|
  {
    assert b != [] ==> b[0] in b;
    if a != [] {
      BatchHead(q, now, a, b);
      BatchTail(q, now, a);
      BatchTail(q, now, b);
      BatchUnique(q - {a[0]}, now, a[1..], b[1..]);
      assert a == [a[0]] + a[1..] && b == [b[0]] + b[1..];
    }
  }

  lemma BatchHead(q: map<TimedEvent, nat>, now: nat, a: seq<TimedEvent>, b: seq<TimedEvent>)
    requires IsBatch(q, now, a) && IsBatch(q, now, b) && a != []
    ensures b != [] && b[0] == a[0]
  {
    assert a[0] in a && a[0] in b;
    assert b[0] in b && b[0] in a;
    FirstLeast(q, now, a, b[0]);
    FirstLeast(q, now, b, a[0]);
  }

  lemma FirstLeast(q: map<TimedEvent, nat>, now: nat, a: seq<TimedEvent>, e: TimedEvent)
    requires IsBatch(q, now, a) && e in a
    ensures e in q && a[0] in q && (e == a[0] || Less(Entry(q[a[0]], a[0]), Entry(q[e], e)))
  {
    assert a[0] in a;
    var j :| 0 <= j < |a| && a[j] == e;
    assert j > 0 ==> Less(Entry(q[a[0]], a[0]), Entry(q[a[j]], a[j]));
  }

  lemma BatchTail(q: map<TimedEvent, nat>, now: nat, a: seq<TimedEvent>)
    requires IsBatch(q, now, a) && a != []
    ensures IsBatch(q - {a[0]}, now, a[1..])
  {
    assert a == [a[0]] + a[1..];
    forall e | e in a[1..] ensures e != a[0] {
      var i :| 0 <= i < |a[1..]| && a[1..][i] == e;
      assert Less(Entry(q[a[0]], a[0]), Entry(q[a[i + 1]], a[i + 1]));
    }
  }

  /** Appending the least remaining expired event keeps the batch in order. */
  ghost predicate Drained(q: map<TimedEvent, nat>, now: nat, out: seq<TimedEvent>, rest: map<TimedEvent, nat>) {
    && (forall e :: e in q ==> (e in out <==> e !in rest))
    && (forall e :: e in rest ==> e in q && rest[e] == q[e])
    && (forall e :: e in out ==> e in q && q[e] <= now)
    && (forall i, j :: 0 <= i < j < |out| ==> Less(Entry(q[out[i]], out[i]), Entry(q[out[j]], out[j])))
    && (forall e, x :: e in out && x in rest ==> Less(Entry(q[e], e), Entry(q[x], x)))
  }

  lemma DrainOne(cpu: nat, q: map<TimedEvent, nat>, now: nat, out: seq<TimedEvent>, rest: map<TimedEvent, nat>,
                 e: TimedEvent)
    requires Drained(q, now, out, rest) && Minimal(rest, e) && rest[e] <= now
    requires forall x :: x in q ==> Owned(cpu, x)
    ensures Drained(q, now, out + [e], rest - {e})
  {
    forall x | x in rest && x != e ensures Less(Entry(q[e], e), Entry(q[x], x)) {
      assert AtMost(Entry(rest[e], e), Entry(rest[x], x));
      if AtMost(Entry(q[x], x), Entry(q[e], e)) { OwnedTotal(cpu, Entry(q[x], x), Entry(q[e], e)); }
    }
    forall i, j | 0 <= i < j < |out + [e]|
      ensures Less(Entry(q[(out + [e])[i]], (out + [e])[i]), Entry(q[(out + [e])[j]], (out + [e])[j]))
    {
      if j == |out| { assert out[i] in out; }
    }
    assert forall x :: x in out + [e] <==> x in out || x == e;
  }

  lemma DrainedAll(q: map<TimedEvent, nat>, now: nat, out: seq<TimedEvent>, rest: map<TimedEvent, nat>)
    requires Drained(q, now, out, rest) && forall e :: e in rest ==> rest[e] > now
    ensures IsBatch(q, now, out) && rest == map e | e in q && q[e] > now :: q[e]
  {
  }
}
