/** Per-CPU time state and its transfer buffer (kernel/src/time.rs:261-419, 634-772). */
module TimeImpl {
  import opened Base
  import opened Waits
  import opened SchedState
  import opened DeadlineOrder
  import opened DeadlineQueues
  import opened TimerState

  /** Fixed buffer that carries one batch to the scheduler. */
  class ExpiredEvents {
    const entries: array<Option<TimedEvent>>
    var len: nat
    ghost var events: seq<TimedEvent>

    ghost predicate Valid()
      reads this, entries
    {
      |events| == len <= entries.Length && forall i :: 0 <= i < len ==> entries[i] == Some(events[i])
    }

    constructor (capacity: nat)
      ensures Valid() && fresh(entries) && events == [] && entries.Length == capacity
    {
      entries := new Option<TimedEvent>[capacity](_ => None);
      len, events := 0, [];
    }

    /** A full buffer is a panic in the source. */
    method Push(event: TimedEvent)
      requires Valid() && len < entries.Length
      modifies this, entries
      ensures Valid() && events == old(events) + [event]
    {
      assert len < entries.Length;
      entries[len] := Some(event);
      len := len + 1;
      events := events + [event];
    }

    method Clear()
      requires Valid()
      modifies this
      ensures Valid() && events == []
    {
      len, events := 0, [];
    }
  }

  class TimeState {
    const cpu: nat
    const queue: DeadlineQueue
    var armed: Option<nat>
    var dispatching: bool
    var expired: ExpiredEvents?

    ghost function Model(): Timer
      reads this, queue
    {
      Timer(queue.queue, armed, dispatching)
    }

    ghost predicate OwnsAll()
      reads queue
    {
      forall e :: e in queue.queue ==> Owned(cpu, e)
    }

    ghost predicate Valid()
      reads this, queue, expired, if expired == null then {} else {expired.entries}
    {
      && queue.Valid() && OwnsAll() && NeverLate(Model())
      && (dispatching <==> expired == null)
      && (expired != null ==> expired.Valid() && expired.events == [] && expired.entries.Length == queue.capacity)
    }

    constructor (cpu: nat, capacity: nat)
      ensures Valid() && Model() == Timer(map[], None, false) && this.cpu == cpu
      ensures fresh(queue) && queue.capacity == capacity
    {
      this.cpu := cpu;
      queue := new DeadlineQueue(capacity);
      expired := new ExpiredEvents(capacity);
      armed, dispatching := None, false;
    }

    /** Program the one-shot timer with the earliest deadline, or disarm it. */
    method RearmTimer()
      requires queue.Valid()
      modifies this`armed
      ensures Model() == Rearm(old(Model()))
    {
      armed := queue.NextDeadline();
    }

    method ScheduleEvent(deadline: nat, event: TimedEvent)
      requires Valid() && Owned(cpu, event) && (event in queue.queue || |queue.entries| < queue.capacity)
      modifies this`armed, queue
      ensures Valid() && Model() == TimerState.ScheduleEvent(old(Model()), deadline, event)
    {
      DoNeverLate(Model(), TimerOp.Schedule(deadline, event));
      queue.Schedule(deadline, event);
      if !dispatching { RearmTimer(); }
    }

    method CancelEvent(event: TimedEvent, rearm: bool) returns (canceled: bool)
      requires Valid()
      modifies this`armed, queue
      ensures Valid() && Model() == TimerState.CancelEvent(old(Model()), event, rearm)
      ensures canceled == (event in old(queue.queue))
    {
      DoNeverLate(Model(), TimerOp.Cancel(event, rearm));
      canceled := queue.Cancel(event);
      if canceled && !dispatching && rearm { RearmTimer(); }
    }

    /** The quantum of the sleeping thread makes room for its deadline. */
    method PublishSleep(deadline: nat, token: WaitToken)
      requires Valid() && token.cpu == cpu
      requires WaitDeadline(cpu, token) in queue.queue || QuantumExpired(cpu, token.thread) in queue.queue
               || |queue.entries| < queue.capacity
      modifies this`armed, queue
      ensures Valid() && Model() == TimerState.PublishSleep(old(Model()), deadline, token)
      ensures WaitDeadline(cpu, token) in queue.queue && queue.queue[WaitDeadline(cpu, token)] == deadline
      ensures QuantumExpired(cpu, token.thread) !in queue.queue
    {
      hide Refines, Heap, NeverLate, Earliest;
      DoNeverLate(Model(), Sleep(deadline, token));
      RefinesSize(queue.entries, queue.queue);
      CancelSize(queue.queue, QuantumExpired(token.cpu, token.thread));
      var canceled := queue.Cancel(QuantumExpired(token.cpu, token.thread));
      assert Model() == TimerState.CancelEvent(old(Model()), QuantumExpired(token.cpu, token.thread), false);
      RefinesSize(queue.entries, queue.queue);
      queue.Schedule(deadline, WaitDeadline(token.cpu, token));
      if !dispatching { RearmTimer(); }
    }

    /** Move every expired event into the buffer; it always fits. */
    method TakeExpired(now: nat) returns (batch: ExpiredEvents)
      requires Valid() && !dispatching
      modifies this, queue, expired, expired.entries
      ensures Valid() && Model() == BeginDispatch(old(Model()), now)
      ensures batch.Valid() && IsBatch(old(queue.queue), now, batch.events)
      ensures batch == old(expired) && batch.entries.Length == queue.capacity
    {
      hide Refines, Heap, NeverLate, Earliest, IsBatch;
      DoNeverLate(Model(), Interrupt(now));
      dispatching := true;
      batch := expired;
      expired := null;
      DrainInto(batch, now);
    }

    method DrainInto(batch: ExpiredEvents, now: nat)
      requires queue.Valid() && OwnsAll() && batch.Valid() && batch.events == []
      requires batch.entries.Length == queue.capacity
      modifies queue, batch, batch.entries
      ensures queue.Valid() && batch.Valid()
      ensures IsBatch(old(queue.queue), now, batch.events)
      ensures queue.queue == map e | e in old(queue.queue) && old(queue.queue)[e] > now :: old(queue.queue)[e]
    {
      hide Refines, Heap, Drained, IsBatch;
      ghost var q: map<TimedEvent, nat> := queue.queue;
      RefinesSize(queue.entries, queue.queue);
      var event := queue.PopExpired(now);
      ghost var rest: map<TimedEvent, nat> := q;
      DrainedNone(q, now);
      while event.Some?
        invariant batch.Valid() && queue.Valid()
        invariant Drained(q, now, batch.events, rest) && |batch.events| + |rest| == |q| <= queue.capacity
        invariant event.Some? ==>
          Minimal(rest, event.value) && rest[event.value] <= now && queue.queue == rest - {event.value}
        invariant event.None? ==> queue.queue == rest && forall e :: e in rest ==> rest[e] > now
        decreases |rest|
      {
        DrainedSub(q, now, batch.events, rest, event.value);
        assert event.value.cpu == cpu;
        DrainOne(cpu, q, now, batch.events, rest, event.value);
        MapShrinks(rest, event.value);
        rest := rest - {event.value};
        batch.Push(event.value);
        event := queue.PopExpired(now);
      }
      DrainedAll(q, now, batch.events, rest);
    }

    /** Apply the quantum intent of the scheduler, return the buffer and rearm. */
    method FinishInterrupt(batch: ExpiredEvents, obsolete: Option<TimedEvent>, ensured: Option<Entry>)
      requires Valid() && dispatching && batch.Valid() && batch.entries.Length == queue.capacity
      requires ensured.Some? ==>
        && Owned(cpu, ensured.value.event)
        && (|| ensured.value.event in queue.queue || (obsolete.Some? && obsolete.value in queue.queue)
            || |queue.entries| < queue.capacity)
      modifies this, queue, batch
      ensures Valid() && Model() == EndDispatch(old(Model()), obsolete, ensured) && expired == batch
    {
      hide Refines, Heap, NeverLate, Earliest;
      DoNeverLate(Model(), Finish(obsolete, ensured));
      ApplyQuantum(obsolete, ensured);
      batch.Clear();
      expired := batch;
      dispatching := false;
      RearmTimer();
    }

    method ApplyQuantum(obsolete: Option<TimedEvent>, ensured: Option<Entry>)
      requires queue.Valid() && OwnsAll()
      requires ensured.Some? ==>
        && Owned(cpu, ensured.value.event)
        && (|| ensured.value.event in queue.queue || (obsolete.Some? && obsolete.value in queue.queue)
            || |queue.entries| < queue.capacity)
      modifies queue
      ensures queue.Valid() && OwnsAll() && queue.queue == EndDispatch(old(Model()), obsolete, ensured).queue
    {
      hide Refines, Heap, Earliest;
      RefinesSize(queue.entries, queue.queue);
      if obsolete.Some? {
        CancelSize(queue.queue, obsolete.value);
        var canceled := queue.Cancel(obsolete.value);
      }
      assert Model() == if obsolete.Some? then TimerState.CancelEvent(old(Model()), obsolete.value, false)
                        else old(Model());
      RefinesSize(queue.entries, queue.queue);
      if ensured.Some? {
        var pending := queue.FindEventIndex(ensured.value.event);
        if pending.None? { queue.Schedule(ensured.value.deadline, ensured.value.event); }
      }
    }
  }

  lemma CancelSize(m: map<TimedEvent, nat>, e: TimedEvent)
    ensures e in m ==> |m - {e}| == |m| - 1
    ensures e !in m ==> m - {e} == m
  {
    if e in m { MapShrinks(m, e); }
  }

  lemma DrainedNone(q: map<TimedEvent, nat>, now: nat)
    ensures Drained(q, now, [], q)
  {
  }

  lemma DrainedSub(q: map<TimedEvent, nat>, now: nat, out: seq<TimedEvent>, rest: map<TimedEvent, nat>, e: TimedEvent)
    requires Drained(q, now, out, rest) && Minimal(rest, e)
    ensures e in rest && e in q && q[e] == rest[e]
  {
  }

  lemma MapShrinks(m: map<TimedEvent, nat>, e: TimedEvent)
    requires e in m
    ensures |m - {e}| == |m| - 1
  {
    assert (m - {e}).Keys == m.Keys - {e};
  }
}
