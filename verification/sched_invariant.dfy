/**
  The scheduler invariant. It contains every condition of validate_invariants
  (kernel/src/sched/transition.rs:1051-1205) and what must be added to make it inductive:
  the free stack is exact, remote entries are ready at home, a pending IPI implies an online
  CPU, and a recorded joiner is a blocked explicit wait that has no result yet.
 */
module SchedInvariant {
  import opened Base
  import opened Waits
  import opened SchedState

  /** Threads that must sit in exactly one queue of CPU c. */
  predicate Queued(s: Sched, c: nat, id: ThreadId)
    requires c < |s.cpus|
  {
    Live(s, id) && At(s, id).home == c && At(s, id).state.Ready? && s.cpus[c].idle != Some(id)
  }

  function Count(x: Cpu, id: ThreadId): nat {
    multiset(x.ready)[id] + multiset(x.remote)[id]
  }

  ghost predicate QueuesExact(s: Sched, c: nat)
    requires c < |s.cpus|
  {
    forall id: ThreadId :: Count(s.cpus[c], id) == if Queued(s, c, id) then 1 else 0
  }

  ghost predicate FreeExact(s: Sched) {
    forall i: int :: 0 <= i ==>
      multiset(s.free)[i] == if i < |s.slots| && s.slots[i].thread.None? then 1 else 0
  }

  /** The joiner token of a live thread, if it has one. */
  function JoinerOf(s: Sched, id: ThreadId): Option<WaitToken> {
    if Live(s, id) then At(s, id).joiner else None
  }

  predicate JoinerBlocked(s: Sched, token: WaitToken) {
    && Live(s, token.thread)
    && var j := At(s, token.thread);
       && j.wait.active == Some(ActiveWait(token, PhaseBlocked, Explicit))
       && j.joinResult.None? && j.reaped.None?
  }

  predicate WaitOk(id: ThreadId, t: Thread) {
    match t.wait.active
    case None => !t.state.Blocked?
    case Some(a) =>
      && a.token == WaitToken(id, t.home, t.wait.nextSequence)
      && (match a.phase
          case PhasePrepared => t.state.Running?
          case PhaseBlocked => t.state.Blocked?
          case PhaseCompleted(_) => t.state.Ready? || t.state.Running?)
  }

  predicate ThreadOk(s: Sched, id: ThreadId)
    requires Live(s, id)
  {
    var t := At(s, id);
    && t.home < |s.cpus|
    && (t.state.Running? <==> s.cpus[t.home].current == Some(id))
    && WaitOk(id, t)
    && (t.state.Exited? ==>
          && t.exitCode.Some? && t.joinResult.None? && t.reaped.None?
          && (s.cpus[t.home].retired == Some(id) || (t.joinable && t.joiner.None?)))
    && (t.state.Blocked? || t.state.Exited? ==> s.cpus[t.home].online)
    && (t.user.Some? ==> t.joinable && t.user.value.owner == t.home)
    && (t.joiner.Some? ==> t.joinable && JoinerBlocked(s, t.joiner.value))
  }

  predicate CpuOk(s: Sched, c: nat)
    requires c < |s.cpus|
  {
    var x := s.cpus[c];
    && (x.online ==> x.initialized)
    && (x.initialized ==> x.current.Some? && x.idle.Some?)
    && (x.current.Some? ==> x.initialized && Live(s, x.current.value) && At(s, x.current.value).home == c)
    && (x.current.Some? ==> At(s, x.current.value).state.Running?)
    && (x.idle.Some? ==> Live(s, x.idle.value) && At(s, x.idle.value).home == c && !At(s, x.idle.value).joinable)
    && (x.idle.Some? ==> At(s, x.idle.value).state.Ready? || At(s, x.idle.value).state.Running?)
    && (x.retired.Some? ==> Live(s, x.retired.value) && At(s, x.retired.value).home == c)
    && (x.retired.Some? ==> At(s, x.retired.value).state.Exited?)
    && (x.remote != [] ==> x.ipiPending)
    && (x.ipiPending ==> x.online)
  }

  ghost predicate Inv(s: Sched) {
    && |s.slots| <= s.capacity
    && FreeExact(s)
    && (forall i :: 0 <= i < |s.slots| ==> (s.slots[i].stackParked <==> s.slots[i].thread.None?))
    && (forall id: ThreadId {:trigger ThreadOk(s, id)} :: Live(s, id) ==> ThreadOk(s, id))
    && (forall c: nat {:trigger s.cpus[c]} {:trigger CpuOk(s, c)} :: c < |s.cpus| ==> CpuOk(s, c))
    && (forall c: nat :: c < |s.cpus| ==> QueuesExact(s, c))
    && (forall a: ThreadId, b: ThreadId ::
          a != b && JoinerOf(s, a).Some? && JoinerOf(s, b).Some? ==> JoinerOf(s, a) != JoinerOf(s, b))
  }

  lemma ThreadFacts(s: Sched, id: ThreadId)
    requires Inv(s) && Live(s, id)
    ensures ThreadOk(s, id)
  {
    assert ThreadOk(s, id);
  }

  lemma CpuFacts(s: Sched, c: nat)
    requires Inv(s) && c < |s.cpus|
    ensures CpuOk(s, c)
  {
    assert CpuOk(s, c);
  }

  lemma QueueFacts(s: Sched, c: nat)
    requires Inv(s) && c < |s.cpus|
    ensures QueuesExact(s, c)
  {
    assert QueuesExact(s, c);
  }
}
