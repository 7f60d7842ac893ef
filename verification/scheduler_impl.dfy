/**
  The scheduler transitions as the kernel performs them: field by field, with its panics
  (kernel/src/sched/transition.rs). Every `assert` at a panic site of the source states that
  the panic is not taken. Each method is proved to compute the transition of SchedState.
 */
module SchedulerImpl {
  import opened Base
  import opened Waits
  import opened SchedState
  import opened SchedInvariant
  import opened SchedSteps
  import opened SchedOps
  import opened SchedTimer
  import SchedRuns
  import opened SchedCapacity
  import opened SchedAttention
  import opened SchedJoins

  class Scheduler {
    const capacity: nat
    var slots: seq<Slot>
    var free: seq<nat>
    var cpus: seq<Cpu>

    ghost function Model(): Sched
      reads this
    {
      Sched(capacity, slots, free, cpus)
    }

    // ----- table and queue primitives -----

    method SetThread(index: nat, t: Thread)
      requires index < |slots| && slots[index].thread.Some?
      modifies this`slots
      ensures slots == old(slots)[index := old(slots[index]).(thread := Some(t))]
    {
      slots := slots[index := slots[index].(thread := Some(t))];
    }

    method SetCpu(c: nat, x: Cpu)
      requires c < |cpus|
      modifies this`cpus
      ensures cpus == old(cpus)[c := x]
    {
      cpus := cpus[c := x];
    }

    method ReadyPushBack(c: nat, id: ThreadId)
      requires c < |cpus| && Live(Model(), id) && At(Model(), id).home == c && cpus[c].idle != Some(id)
      requires forall queued :: queued in cpus[c].ready ==> queued.index != id.index
      requires |cpus[c].ready| < capacity - 1
      modifies this`cpus
      ensures cpus == old(cpus)[c := old(cpus[c]).(ready := old(cpus[c].ready) + [id])]
    {
      assert cpus[c].idle != Some(id);
      assert slots[id.index].thread.value.home == c;
      assert forall queued :: queued in cpus[c].ready ==> queued.index != id.index;
      assert |cpus[c].ready| != capacity - 1;
      SetCpu(c, cpus[c].(ready := cpus[c].ready + [id]));
    }

    method ReadyPopFront(c: nat) returns (front: Option<ThreadId>)
      requires c < |cpus|
      requires cpus[c].ready != [] ==> Queued(Model(), c, cpus[c].ready[0])
      modifies this`cpus
      ensures
        if old(cpus[c].ready) == [] then front == None && cpus == old(cpus)
        else front == Some(old(cpus[c].ready[0]))
             && cpus == old(cpus)[c := old(cpus[c]).(ready := old(cpus[c].ready)[1..])]
    {
      if cpus[c].ready == [] { return None; }
      var id := cpus[c].ready[0];
      SetCpu(c, cpus[c].(ready := cpus[c].ready[1..]));
      assert Live(Model(), id) && At(Model(), id).state.Ready? && At(Model(), id).home == c;
      assert cpus[c].idle != Some(id);
      front := Some(id);
    }

    method MakeRunning(c: nat, id: ThreadId)
      requires c < |cpus| && Live(Model(), id) && At(Model(), id).state.Ready? && At(Model(), id).home == c
      modifies this`slots, this`cpus
      ensures
        var t := old(At(Model(), id)).(state := Running);
        slots == old(slots)[id.index := old(slots[id.index]).(thread := Some(t))]
      ensures cpus == old(cpus)[c := old(cpus[c]).(current := Some(id))]
    {
      assert Live(Model(), id) && slots[id.index].thread.value.state.Ready?;
      assert slots[id.index].thread.value.home == c;
      SetThread(id.index, slots[id.index].thread.value.(state := Running));
      SetCpu(c, cpus[c].(current := Some(id)));
    }

    method RequestReschedule(c: nat)
      requires c < |cpus|
      modifies this`cpus
      ensures cpus == old(cpus)[c := old(cpus[c]).(reschedulePending := true)]
    {
      SetCpu(c, cpus[c].(reschedulePending := true));
    }

    method NoteReadyPeer(c: nat)
      requires c < |cpus|
      modifies this`cpus
      ensures Model() == NotePeer(old(Model()), c)
    {
      if cpus[c].current.Some? && cpus[c].ready != [] { RequestReschedule(c); }
    }

    method ConsumeCheckpoint(c: nat) returns (due: bool)
      requires c < |cpus|
      modifies this`cpus
      ensures due == CheckpointDue(old(cpus[c])) && Model() == Acknowledge(old(Model()), c)
      ensures var x := old(cpus[c]); due <==> x.online && x.disableDepth == 0 && x.reschedulePending
    {
      if !cpus[c].online || cpus[c].disableDepth != 0 || !cpus[c].reschedulePending { return false; }
      SetCpu(c, cpus[c].(reschedulePending := false));
      due := true;
    }

    method MakeReadyAndQueue(c: nat, id: ThreadId, notify: bool)
      requires c < |cpus| && Live(Model(), id) && At(Model(), id).home == c
      requires cpus[c].idle != Some(id) ==>
        && (forall queued :: queued in cpus[c].ready ==> queued.index != id.index)
        && |cpus[c].ready| < capacity - 1
      modifies this`slots, this`cpus
      ensures
        var t := old(At(Model(), id)).(state := Ready);
        slots == old(slots)[id.index := old(slots[id.index]).(thread := Some(t))]
      ensures
        var x := old(cpus[c]);
        cpus == old(cpus)[c :=
          if x.idle == Some(id) then x
          else x.(ready := x.ready + [id],
                  reschedulePending := x.reschedulePending || (notify && x.ready == [] && x.current.Some?))]
    {
      assert Live(Model(), id);
      SetThread(id.index, slots[id.index].thread.value.(state := Ready));
      if cpus[c].idle != Some(id) {
        var wasEmpty := cpus[c].ready == [];
        ReadyPushBack(c, id);
        if notify && wasEmpty { NoteReadyPeer(c); }
      }
    }

    method RequestSchedulerIpi(target: nat)
      requires target < |cpus|
      modifies this`cpus
      ensures cpus == old(cpus)[target := old(cpus[target]).(ipiPending := true)]
    {
      if cpus[target].ipiPending { return; }
      SetCpu(target, cpus[target].(ipiPending := true));
    }

    method PublishRemoteReady(id: ThreadId, target: nat)
      requires target < |cpus| && id !in cpus[target].remote && |cpus[target].remote| < capacity - 1
      modifies this`cpus
      ensures
        var x := old(cpus[target]);
        cpus == old(cpus)[target := x.(remote := x.remote + [id], ipiPending := true)]
    {
      assert id !in cpus[target].remote;
      assert |cpus[target].remote| != capacity - 1;
      SetCpu(target, cpus[target].(remote := cpus[target].remote + [id]));
      RequestSchedulerIpi(target);
    }

    // ----- construction -----

    /** Empty table; the queues hold capacity - 1 entries. */
    constructor (capacity: nat, cpuCount: nat)
      ensures this.capacity == capacity && slots == [] && free == []
      ensures cpus == seq(cpuCount, _ => Cpu(None, None, None, [], [], false, false, false, 0, false))
      ensures Inv(Model())
    {
      this.capacity := capacity;
      slots := [];
      free := [];
      cpus := seq(cpuCount, _ => Cpu(None, None, None, [], [], false, false, false, 0, false));
    }

    method FillFreeSlots()
      requires Inv(Model())
      modifies this`slots, this`free
      ensures Inv(Model()) && |slots| == capacity
      ensures old(slots) <= slots && old(free) <= free
      ensures forall i :: |old(slots)| <= i < |slots| ==> slots[i].thread.None?
    {
      while |slots| < capacity
        invariant Inv(Model()) && old(slots) <= slots && old(free) <= free
        invariant forall i :: |old(slots)| <= i < |slots| ==> slots[i].thread.None?
        decreases capacity - |slots|
      {
        GrowInv(Model());
        var id := |slots|;
        slots := slots + [Slot(0, 0, true, None)];
        free := free + [id];
      }
    }

    /** Write one thread into a free slot and make it visible. */
    method Publish(c: nat, home: nat, id: nat, user: Option<User>, joinable: bool,
                   generation: nat, bootstrap: bool, idle: bool)
      requires c < |cpus| && home < |cpus| && (idle ==> home == c && cpus[c].idle.None?)
      requires id < |slots| && slots[id].thread.None? && slots[id].stackParked
      requires user.Some? ==> user.value.owner == home
      requires !idle ==> cpus[home].idle != Some(ThreadId(id, generation))
      requires !idle ==>
        && (forall queued :: queued in cpus[home].ready || queued in cpus[home].remote ==> queued.index != id)
        && |cpus[home].ready| < capacity - 1 && |cpus[home].remote| < capacity - 1
      modifies this`slots, this`cpus
      ensures slots == Occupy(old(slots), id, generation, NewThread(old(slots[id]), home, user, joinable))
      ensures
        var x, tid := old(cpus[home]), ThreadId(id, generation);
        cpus == old(cpus)[home :=
          if idle then x.(idle := Some(tid))
          else if home == c
          then x.(ready := x.ready + [tid],
                  reschedulePending := x.reschedulePending || (!bootstrap && x.ready == [] && x.current.Some?))
          else x.(remote := x.remote + [tid], ipiPending := true)]
    {
      assert !(idle && home != c);
      assert slots[id].thread.None? && slots[id].stackParked;
      slots := slots[id := slots[id].(stackParked := false)];
      slots := slots[id := slots[id].(generation := generation)];
      slots := slots[id := slots[id].(thread := Some(Thread(home, Ready, joinable, None, None, None, None, user,
                                                            WaitMetadata(slots[id].nextSequence, None))))];
      var tid := ThreadId(id, slots[id].generation);
      assert user.Some? ==> user.value.owner == home;
      if idle {
        assert cpus[c].idle.None?;
        SetCpu(c, cpus[c].(idle := Some(tid)));
      } else if home == c {
        var wasEmpty := cpus[c].ready == [];
        ReadyPushBack(c, tid);
        if !bootstrap && wasEmpty { NoteReadyPeer(c); }
      } else {
        PublishRemoteReady(tid, home);
      }
    }

    // ----- transitions -----

    method OptionalSwitch(c: nat) returns (outcome: SwitchOutcome)
      requires Inv(Model()) && c < |cpus|
      modifies this`slots, this`cpus
      ensures
        var s := old(Model());
        if s.cpus[c].current.None? then Model() == s && outcome == ContinueCurrent
        else
          && HasCurrent(s, c) && HasNext(s, c) && (s.cpus[c].ready != [] ==> Next(s, c).index != Current(s, c).index)
          && Model() == SchedState.OptionalSwitch(s, c)
          && outcome == if s.cpus[c].ready == [] then ContinueCurrent else Switch(Current(s, c), Next(s, c))
    {
      ghost var s := Model();
      if cpus[c].current.None? { return ContinueCurrent; }
      var from := cpus[c].current.value;
      CpuFacts(s, c);
      CpuReady(s, c);
      assert Live(s, from) && At(s, from).home == c && At(s, from).state.Running?;
      if s.cpus[c].ready != [] { FrontQueued(s, c); }
      if cpus[c].idle != Some(from) { ThreadRoom(s, c, from); }
      var to := ReadyPopFront(c);
      if to.None? { return ContinueCurrent; }
      MakeReadyAndQueue(c, from, false);
      MakeRunning(c, to.value);
      outcome := Switch(from, to.value);
      assert slots == SchedState.OptionalSwitch(s, c).slots;
      assert cpus[c].ready == SchedState.OptionalSwitch(s, c).cpus[c].ready;
      assert cpus == SchedState.OptionalSwitch(s, c).cpus;
    }

    method TimedWakeFromIdle(c: nat, token: WaitToken) returns (outcome: Option<SwitchOutcome>)
      requires Inv(Model()) && c < |cpus|
      modifies this`slots, this`cpus
      ensures (Model(), outcome) == SchedState.TimedWakeFromIdle(old(Model()), c, token)
    {
      ghost var s := Model();
      CpuFacts(s, c);
      if cpus[c].current.None? { return None; }
      var from := cpus[c].current.value;
      if cpus[c].idle != Some(from) || cpus[c].ready != [] || cpus[c].remote != [] || token.cpu != c {
        return None;
      }
      if !(token.thread.index < |slots| && slots[token.thread.index].generation == token.thread.generation
           && slots[token.thread.index].thread.Some?) {
        return None;
      }
      var to := token.thread;
      if slots[to.index].thread.value.home != c || !slots[to.index].thread.value.state.Blocked? { return None; }
      assert Live(s, from) && At(s, from).state.Running?;
      var (w, r) := Complete(slots[to.index].thread.value.wait, token, Timeout);
      SetThread(to.index, slots[to.index].thread.value.(wait := w));
      if !r.WokeBlocked? { return None; }
      SetThread(to.index, slots[to.index].thread.value.(state := Ready));
      MakeReadyAndQueue(c, from, false);
      MakeRunning(c, to);
      outcome := Some(Switch(from, to));
      assert slots == SchedState.TimedWakeFromIdle(s, c, token).0.slots;
      assert cpus == SchedState.TimedWakeFromIdle(s, c, token).0.cpus;
    }

    method CommitWait(c: nat, prepared: PreparedWait) returns (commit: CommitState, outcome: Option<SwitchOutcome>)
      requires CanHandoff(Model(), c) && cpus[c].disableDepth == 0
      modifies this`slots, this`cpus
      ensures
        var s := old(Model());
        && (Model(), commit) == SchedState.CommitWait(s, c, prepared)
        && outcome == if commit.Block? then Some(Switch(Current(s, c), Next(s, c))) else None
    {
      ghost var s := Model();
      assert cpus[c].disableDepth == 0;
      var from := cpus[c].current.value;
      assert Live(s, from) && At(s, from).home == c && At(s, from).state.Running?;
      assert cpus[c].idle.Some? && cpus[c].idle.value != from;
      var (w, r) := Commit(slots[from.index].thread.value.wait, prepared);
      SetThread(from.index, slots[from.index].thread.value.(wait := w));
      if !r.Block? { return r, None; }
      var to := BlockCurrent(c);
      commit, outcome := r, Some(Switch(from, to));
      assert slots == SchedState.CommitWait(s, c, prepared).0.slots;
    }

    /** The second half of a blocking commit: select the next thread and hand over to it. */
    method BlockCurrent(c: nat) returns (to: ThreadId)
      requires CanHandoff(Model(), c)
      modifies this`slots, this`cpus
      ensures to == old(Next(Model(), c))
      ensures
        var s := old(Model());
        Model() == Handoff(s, c, At(s, Current(s, c)).(state := Blocked))
    {
      ghost var s := Model();
      var from := cpus[c].current.value;
      to := SelectNext(c);
      SetThread(from.index, slots[from.index].thread.value.(state := Blocked));
      MakeRunning(c, to);
      ghost var r := Handoff(s, c, At(s, from).(state := Blocked));
      assert slots == r.slots;
      assert cpus[c].ready == r.cpus[c].ready;
      assert cpus == r.cpus;
    }

    /** Queue front or the permanent idle thread. */
    method SelectNext(c: nat) returns (to: ThreadId)
      requires HasNext(Model(), c) && At(Model(), Next(Model(), c)).state.Ready?
      requires At(Model(), Next(Model(), c)).home == c
      requires cpus[c].ready != [] ==> cpus[c].idle != Some(cpus[c].ready[0])
      modifies this`cpus
      ensures to == old(Next(Model(), c))
      ensures
        var x := old(cpus[c]);
        cpus == old(cpus)[c := x.(ready := if x.ready == [] then [] else x.ready[1..])]
    {
      var front := ReadyPopFront(c);
      to := if front.Some? then front.value else cpus[c].idle.value;
    }

    method PrepareWait(c: nat, consumption: WaitConsumption) returns (prepared: PreparedWait)
      requires Inv(Model()) && MayPrepare(Model(), c) && cpus[c].disableDepth == 0
      modifies this`slots
      ensures (Model(), prepared) == SchedState.PrepareWait(old(Model()), c, consumption) && Inv(Model())
    {
      ghost var s := Model();
      CpuFacts(s, c);
      PrepareInv(s, c, consumption);
      assert cpus[c].disableDepth == 0;
      var current := cpus[c].current.value;
      assert Live(s, current) && At(s, current).home == c && At(s, current).state.Running?;
      assert At(s, current).wait.active.None? && At(s, current).wait.nextSequence < U64_MAX;
      var (w, p) := Prepare(slots[current.index].thread.value.wait, current, c, consumption);
      SetThread(current.index, slots[current.index].thread.value.(wait := w));
      prepared := p;
    }

    method CompleteWait(c: nat, token: WaitToken, cause: WaitCause, notify: bool) returns (r: CompletionResult)
      requires Inv(Model()) && c < |cpus|
      modifies this`slots, this`cpus
      ensures (Model(), r) == CompleteAt(old(Model()), c, token, cause, notify)
    {
      hide Inv;
      ghost var s := Model();
      if !(token.thread.index < |slots| && slots[token.thread.index].generation == token.thread.generation
           && slots[token.thread.index].thread.Some?) {
        return StaleCompletion;
      }
      var id := token.thread.index;
      ThreadFacts(s, token.thread);
      var (w, result) := Complete(slots[id].thread.value.wait, token, cause);
      SetThread(id, slots[id].thread.value.(wait := w));
      r := result;
      if result.WokeBlocked? {
        assert slots[id].thread.value.state.Blocked?;
        var home := slots[id].thread.value.home;
        CpuFacts(s, home);
        ThreadRoom(s, home, token.thread);
        if home == c {
          MakeReadyAndQueue(c, token.thread, notify);
          if !notify { RequestReschedule(c); }
        } else {
          SetThread(id, slots[id].thread.value.(state := Ready));
          PublishRemoteReady(token.thread, home);
        }
      } else {
        assert result.CompletedPrepared? ==> slots[id].thread.value.state.Running?;
      }
      assert slots == CompleteAt(s, c, token, cause, notify).0.slots;
      assert cpus == CompleteAt(s, c, token, cause, notify).0.cpus;
    }

    method FinishWait(token: WaitToken) returns (r: FinishResult)
      requires Inv(Model())
      modifies this`slots
      ensures (Model(), r) == SchedState.FinishWait(old(Model()), token)
    {
      ghost var s := Model();
      var id := token.thread;
      if !(id.index < |slots| && slots[id.index].generation == id.generation && slots[id.index].thread.Some?) {
        return StaleFinish;
      }
      ThreadFacts(s, id);
      if cpus[slots[id.index].thread.value.home].current != Some(id) { return StaleFinish; }
      assert slots[id.index].thread.value.state.Running?;
      var (w, result) := Finish(slots[id.index].thread.value.wait, token);
      SetThread(id.index, slots[id.index].thread.value.(wait := w));
      r := result;
    }

    method CancelWait(prepared: PreparedWait) returns (r: CancelResult)
      requires Inv(Model())
      modifies this`slots
      ensures (Model(), r) == SchedState.CancelWait(old(Model()), prepared)
    {
      ghost var s := Model();
      var id := prepared.token.thread;
      if !(id.index < |slots| && slots[id.index].generation == id.generation && slots[id.index].thread.Some?) {
        return StaleCancel;
      }
      ThreadFacts(s, id);
      if cpus[slots[id.index].thread.value.home].current != Some(id) { return StaleCancel; }
      assert slots[id.index].thread.value.state.Running?;
      var (w, result) := Cancel(slots[id.index].thread.value.wait, prepared);
      SetThread(id.index, slots[id.index].thread.value.(wait := w));
      r := result;
    }

    // ----- exit and retirement -----

    method Release(id: ThreadId) returns (user: Option<User>)
      requires Live(Model(), id) && At(Model(), id).wait.active.None?
      modifies this`slots, this`free
      ensures Model() == SchedState.Release(old(Model()), id) && user == old(At(Model(), id)).user
    {
      var thread := slots[id.index].thread.value;
      slots := slots[id.index := slots[id.index].(thread := None)];
      assert thread.wait.active.None?;
      user := thread.user;
      slots := slots[id.index := slots[id.index].(nextSequence := thread.wait.nextSequence)];
      slots := slots[id.index := slots[id.index].(stackParked := true)];
      free := free + [id.index];
      assert slots == SchedState.Release(old(Model()), id).slots;
    }

    method SetReapedUser(id: ThreadId, user: Option<User>)
      requires Live(Model(), id) && At(Model(), id).reaped.None?
      modifies this`slots
      ensures
        var t := old(At(Model(), id)).(reaped := user);
        slots == old(slots)[id.index := old(slots[id.index]).(thread := Some(t))]
    {
      assert Live(Model(), id);
      assert slots[id.index].thread.value.reaped.None?;
      SetThread(id.index, slots[id.index].thread.value.(reaped := user));
    }

    method FinalizeRetired(c: nat, notify: bool)
      requires Inv(Model()) && c < |cpus|
      modifies this`slots, this`cpus, this`free
      ensures Model() == Retire(old(Model()), c, notify)
    {
      hide Inv, SchedState.CompleteWait;
      ghost var s := Model();
      if cpus[c].retired.None? { return; }
      var exited := cpus[c].retired.value;
      CpuFacts(s, c);
      ThreadFacts(s, exited);
      InvCanFinalize(s, c);
      ghost var s1 := PutCpu(s, c, s.cpus[c].(retired := None));
      SetCpu(c, cpus[c].(retired := None));
      assert cpus[c].current != Some(exited) && Live(Model(), exited);
      assert At(Model(), exited).state.Exited? && At(Model(), exited).home == c;
      var joinable, joiner := slots[exited.index].thread.value.joinable, slots[exited.index].thread.value.joiner;
      SetThread(exited.index, slots[exited.index].thread.value.(joiner := None));
      if joiner.Some? {
        assert slots[exited.index].thread.value.exitCode.Some?;
        var code := slots[exited.index].thread.value.exitCode.value;
        var j := joiner.value.thread;
        ThreadFacts(s, j);
        RetiringInv(s, c);
        CompleteCommutes(s1, exited, At(s, exited).(joiner := None), c, joiner.value, notify);
        CompleteCpuCommutes(s, c, joiner.value, notify);
        DeliverRetired(c, exited, joiner.value, code, notify);
        assert slots == Finalize(s, c, notify).slots;
        assert cpus == Finalize(s, c, notify).cpus;
      } else {
        if !joinable {
          var resources := Release(exited);
          assert resources.None?;
        }
        assert slots == Finalize(s, c, notify).slots;
      }
    }

    /** The joiner is completed, the exited thread released, and its resources handed over. */
    method DeliverRetired(c: nat, exited: ThreadId, joiner: WaitToken, code: nat, notify: bool)
      requires Inv(Model()) && c < |cpus| && JoinerBlocked(Model(), joiner) && At(Model(), joiner.thread).home < |cpus|
      requires Live(Model(), exited) && At(Model(), exited).wait.active.None? && exited.index != joiner.thread.index
      modifies this`slots, this`cpus, this`free
      ensures
        var s, j := old(Model()), joiner.thread;
        var s2 := SchedState.CompleteWait(s, c, joiner, Notified, notify).0;
        && Live(s2, j) && Live(s2, exited)
        && var x := At(s2, j).(joinResult := Some(JoinOk(code)), reaped := At(s, exited).user);
           Model() == SchedState.Release(Put(s2, j, x), exited)
    {
      hide Inv, SchedState.CompleteWait;
      ghost var s := Model();
      CompleteCommutes(s, exited, At(s, exited), c, joiner, notify);
      CompleteJoiner(c, joiner, code, notify);
      var resources := Release(exited);
      SetReapedUser(joiner.thread, resources);
    }

    method CompleteJoiner(c: nat, joiner: WaitToken, code: nat, notify: bool)
      requires Inv(Model()) && c < |cpus| && JoinerBlocked(Model(), joiner)
      modifies this`slots, this`cpus
      ensures
        var s1 := CompleteAt(old(Model()), c, joiner, Notified, notify).0;
        && Live(s1, joiner.thread) && At(s1, joiner.thread).reaped.None?
        && Model() == Put(s1, joiner.thread, At(s1, joiner.thread).(joinResult := Some(JoinOk(code))))
    {
      ThreadFacts(Model(), joiner.thread);
      var r := CompleteWait(c, joiner, Notified, notify);
      assert r.WokeBlocked?;
      SetThread(joiner.thread.index, slots[joiner.thread.index].thread.value.(joinResult := Some(JoinOk(code))));
    }

    method ExitCurrent(c: nat, code: nat) returns (outcome: SwitchOutcome)
      requires CanHandoff(Model(), c) && cpus[c].retired.None?
      modifies this`slots, this`cpus
      ensures
        var s := old(Model());
        && Model() == SchedState.ExitCurrent(s, c, code)
        && outcome == Switch(Current(s, c), Next(s, c))
    {
      hide SchedState.ExitCurrent;
      ghost var s := Model();
      var from := cpus[c].current.value;
      assert Live(s, from) && At(s, from).home == c && At(s, from).state.Running?;
      assert cpus[c].idle.Some? && from != cpus[c].idle.value;
      assert cpus[c].retired.None?;
      SetThread(from.index, slots[from.index].thread.value.(exitCode := Some(code), state := Exited));
      SetCpu(c, cpus[c].(retired := Some(from)));
      var to := SelectNext(c);
      MakeRunning(c, to);
      RequestSchedulerIpi(c);
      outcome := Switch(from, to);
      ExitShape(s, c, code);
    }

    // ----- remote ingress -----

    method ConsumeSchedulerIpi(c: nat)
      requires Inv(Model()) && c < |cpus|
      modifies this`cpus
      ensures Model() == DrainRemote(old(Model()), c)
    {
      hide Inv;
      ghost var s := Model();
      ghost var x := s.cpus[c];
      var wasPending := cpus[c].ipiPending;
      SetCpu(c, cpus[c].(ipiPending := false));
      CpuFacts(s, c);
      QueuedDistinct(s, c);
      if x.idle.Some? { QueueFit(s, c); }
      assert wasPending || cpus[c].remote == [];
      ghost var k := 0;
      assert x.ready + x.remote[..0] == x.ready;
      while cpus[c].remote != []
        invariant k <= |x.remote|
        invariant cpus == s.cpus[c :=
          x.(ipiPending := false, ready := x.ready + x.remote[..k], remote := x.remote[k..])]
        decreases |x.remote| - k
      {
        var id := cpus[c].remote[0];
        SetCpu(c, cpus[c].(remote := cpus[c].remote[1..]));
        ghost var q := x.ready + x.remote;
        assert id == q[|x.ready| + k] && id in q;
        assert Queued(s, c, id);
        assert Live(Model(), id) && At(Model(), id).state.Ready? && At(Model(), id).home == c;
        assert cpus[c].ready == q[..|x.ready| + k];
        assert forall y :: y in q[..|x.ready| + k] ==> y.index != id.index;
        ReadyPushBack(c, id);
        assert x.ready + x.remote[..k] + [id] == x.ready + x.remote[..k + 1];
        k := k + 1;
      }
      assert x.remote[..k] == x.remote;
      assert cpus[c].remote == [];
    }

    // ----- start-up and spawn -----

    method InitialDispatch(c: nat) returns (ok: bool)
      requires Inv(Model()) && c < |cpus| && cpus[c].idle.Some?
      modifies this`slots, this`cpus
      ensures ok == old(cpus[c].current).None? && Inv(Model())
      ensures if ok then HasNext(old(Model()), c) && Model() == SchedState.InitialDispatch(old(Model()), c)
              else Model() == old(Model())
    {
      hide Inv;
      ghost var s := Model();
      if cpus[c].current.Some? { return false; }
      CpuFacts(s, c);
      ThreadFacts(s, s.cpus[c].idle.value);
      if s.cpus[c].ready != [] { FrontQueued(s, c); }
      InitialDispatchInv(s, c);
      var front := ReadyPopFront(c);
      var next := if front.Some? then front.value else cpus[c].idle.value;
      MakeRunning(c, next);
      SetCpu(c, cpus[c].(initialized := true));
      ok := true;
      assert slots == SchedState.InitialDispatch(s, c).slots;
      assert cpus == SchedState.InitialDispatch(s, c).cpus;
    }

    method InitializeIdleCurrent(c: nat) returns (ok: bool)
      requires Inv(Model()) && c < |cpus|
      modifies this`slots, this`cpus, this`free
      ensures Model() == SchedRuns.StartIdle(old(Model()), c)
      ensures ok == (Model() != old(Model()))
      ensures
        var x := old(cpus[c]);
        && (ok <==> !x.initialized && x.current.None? && x.idle.None? && old(free) != [])
        && (ok ==> cpus[c].initialized && cpus[c].idle.Some? && cpus[c].idle.value.index == old(free[|free| - 1]))
        && (ok ==> cpus[c].current == if x.ready == [] then cpus[c].idle else Some(x.ready[0]))
    {
      ghost var s := Model();
      if cpus[c].initialized || cpus[c].current.Some? || cpus[c].idle.Some? { return false; }
      if free == [] { return false; }
      FreeTopFree(s);
      AddIdleInv(s, c);
      var id := free[|free| - 1];
      free := free[..|free| - 1];
      Publish(c, c, id, None, false, 1, true, true);
      assert Model() == AddIdle(s, c);
      ok := InitialDispatch(c);
      assert cpus[c] != s.cpus[c];
    }

    /** Kernel threads: the entry finalizes first, so a slot it frees may be taken at once. */
    method SpawnThread(c: nat, home: nat, joinable: bool) returns (id: Option<ThreadId>)
      requires Inv(Model()) && c < |cpus|
      modifies this`slots, this`cpus, this`free
      ensures Model() == SchedRuns.SpawnOn(Retire(old(Model()), c, true), c, home, None, joinable)
      ensures
        var s := Retire(old(Model()), c, true);
        id.Some? <==> home < |s.cpus| && s.cpus[home].online && s.free != []
      ensures id.Some? ==> Live(Model(), id.value) && At(Model(), id.value).state.Ready?
    {
      hide Inv, Retire, SchedRuns.SpawnOn;
      FinalizeRetired(c, true);
      id := Spawn(c, home, None, joinable);
    }

    /** Spawn on an online CPU; `id` is the new thread. User threads are spawned without retirement. */
    method Spawn(c: nat, home: nat, user: Option<User>, joinable: bool) returns (id: Option<ThreadId>)
      requires Inv(Model()) && c < |cpus| && (user.Some? ==> joinable && user.value.owner == home)
      modifies this`slots, this`cpus, this`free
      ensures Model() == SchedRuns.SpawnOn(old(Model()), c, home, user, joinable)
      ensures id.Some? <==> home < |old(cpus)| && old(cpus)[home].online && old(free) != []
      ensures id.Some? ==> Live(Model(), id.value) && At(Model(), id.value).state.Ready?
      ensures id.Some? ==>
        var t := At(Model(), id.value);
        t.home == home && t.user == user && t.joinable == joinable && id.value.index == old(free[|free| - 1])
    {
      ghost var s := Model();
      SpawnBirth(s, c, home, user, joinable);
      if home >= |cpus| || !cpus[home].online { return None; }
      if free == [] { return None; }
      FreeTopFree(s);
      CpuFacts(s, home);
      QueueRoom(s, home, FreeTop(s));
      var index := free[|free| - 1];
      free := free[..|free| - 1];
      var generation := NextGeneration(slots[index].generation);
      Publish(c, home, index, user, joinable, generation, false, false);
      id := Some(ThreadId(index, generation));
    }

    /** Boot: idle first, then the static threads, then the free slots; one of them runs. */
    method Bootstrap(c: nat, threads: nat) returns (ok: bool)
      requires c < |cpus| && slots == [] && free == []
      requires cpus == seq(|cpus|, _ => Cpu(None, None, None, [], [], false, false, false, 0, false))
      modifies this`slots, this`cpus, this`free
      ensures ok == (threads + |cpus| <= capacity) && |cpus| == old(|cpus|)
      ensures ok ==> Inv(Model()) && AllAttended(Model()) && |slots| == capacity && HasCurrent(Model(), c)
      ensures ok ==> cpus[c].initialized && cpus[c].idle == Some(ThreadId(0, 1))
      ensures ok ==> Current(Model(), c) == ThreadId(if threads > 0 then 1 else 0, 1)
      ensures ok ==> cpus[c].ready == seq(if threads > 0 then threads - 1 else 0, (i: nat) => ThreadId(i + 2, 1))
    {
      hide Inv;
      if capacity < threads + |cpus| { return false; }
      ok := true;
      EmptyInv(Model());
      AppendBootstrap(c, true);
      var i := 0;
      while i < threads
        invariant i <= threads && |cpus| == old(|cpus|) && threads + |cpus| <= capacity
        invariant Inv(Model()) && AllAttended(Model()) && |slots| == i + 1 && free == []
        invariant cpus[c].idle == Some(ThreadId(0, 1)) && cpus[c].current.None?
        invariant cpus[c].ready == seq(i, (k: nat) => ThreadId(k + 1, 1))
      {
        AppendBootstrap(c, false);
        i := i + 1;
      }
      FillFreeSlots();
      ghost var s := Model();
      CpuFacts(s, c);
      var dispatched := InitialDispatch(c);
    }

    method AppendBootstrap(c: nat, idle: bool)
      requires Inv(Model()) && c < |cpus| && free == [] && |slots| < capacity
      requires cpus[c].idle.None? <==> idle
      modifies this`slots, this`cpus, this`free
      ensures Inv(Model()) && |slots| == old(|slots|) + 1 && free == [] && |cpus| == old(|cpus|)
      ensures
        var x, id := old(cpus[c]), ThreadId(old(|slots|), 1);
        cpus == old(cpus)[c := if idle then x.(idle := Some(id)) else x.(ready := x.ready + [id])]
    {
      hide Inv, Grow, AddIdle, SchedState.Spawn, Occupy, NewThread;
      ghost var s := Model();
      AppendShape(s, c, idle);
      var id := |slots|;
      slots := slots + [Slot(0, 0, true, None)];
      Publish(c, c, id, None, false, 1, true, idle);
      assert Model() == if idle then AddIdle(Grow(s), c) else SchedState.Spawn(Grow(s), c, c, None, false, 1, true);
    }

    // ----- entry points -----

    method FinishSchedulerIpi(c: nat)
      requires Inv(Model()) && IrqOpen(Model(), c)
      modifies this`slots, this`cpus, this`free
      ensures Model() == SchedulerIpi(old(Model()), c)
    {
      FinalizeRetired(c, true);
      if !cpus[c].online { return; }
      ghost var s := Model();
      CpuFacts(s, c);
      DrainInv(s, c);
      ConsumeSchedulerIpi(c);
      RequestInv(Model(), c);
      NoteReadyPeer(c);
      AcknowledgeInv(Model(), c);
      var due := ConsumeCheckpoint(c);
      if !due { return; }
      var outcome := OptionalSwitch(c);
    }

    method PreemptCheckpoint(c: nat)
      requires Inv(Model()) && IrqOpen(Model(), c)
      modifies this`slots, this`cpus, this`free
      ensures Model() == SchedOps.PreemptCheckpoint(old(Model()), c)
    {
      FinalizeRetired(c, true);
      CpuFacts(Model(), c);
      AcknowledgeInv(Model(), c);
      var due := ConsumeCheckpoint(c);
      if !due { return; }
      var outcome := OptionalSwitch(c);
    }

    method ExitThread(c: nat, code: nat) returns (outcome: SwitchOutcome)
      requires Inv(Model()) && MayExit(Model(), c)
      modifies this`slots, this`cpus, this`free
      ensures Model() == SchedOps.ExitThread(old(Model()), c, code)
    {
      assert cpus[c].disableDepth == 0;
      FinalizeRetired(c, true);
      HandoffReady(Model(), c);
      outcome := ExitCurrent(c, code);
      var due := ConsumeCheckpoint(c);
    }

    method CommitPreparedWait(c: nat, prepared: PreparedWait) returns (commit: CommitState)
      requires Inv(Model()) && MayBlock(Model(), c)
      modifies this`slots, this`cpus
      ensures (Model(), commit) == CommitPrepared(old(Model()), c, prepared)
    {
      HandoffReady(Model(), c);
      var outcome;
      commit, outcome := CommitWait(c, prepared);
      if commit.Block? { var due := ConsumeCheckpoint(c); }
    }

    /** Reap an exited target at once, or block until it is retired. */
    method JoinThread(c: nat, target: ThreadId)
      requires Inv(Model()) && MayJoin(Model(), c, target)
      modifies this`slots, this`cpus, this`free
      ensures Model() == SchedOps.JoinThread(old(Model()), c, target)
      ensures
        var s := Retire(old(Model()), c, true);
        HasCurrent(s, c) && JoinOutcome(s, Model(), c, target)
    {
      hide Inv, JoinOutcome;
      JoinReady(Model(), c, target);
      JoinIsOutcome(Model(), c, target);
      FinalizeRetired(c, true);
      ghost var s := Model();
      var current := cpus[c].current.value;
      var i := current.index;
      assert slots[i].thread.value.joinResult.None? && slots[i].thread.value.reaped.None?;
      if cpus[c].idle == Some(current) {
        SetThread(i, slots[i].thread.value.(joinResult := Some(JoinErr(NotJoinable))));
        return;
      }
      var t := target.index;
      if !(t < |slots| && slots[t].generation == target.generation && slots[t].thread.Some?) {
        SetThread(i, slots[i].thread.value.(joinResult := Some(JoinErr(InvalidThread))));
        return;
      }
      if cpus[slots[t].thread.value.home].idle == Some(target) {
        SetThread(i, slots[i].thread.value.(joinResult := Some(JoinErr(NotJoinable))));
        return;
      }
      if t == i {
        SetThread(i, slots[i].thread.value.(joinResult := Some(JoinErr(SelfJoin))));
        return;
      }
      if !slots[t].thread.value.joinable {
        SetThread(i, slots[i].thread.value.(joinResult := Some(JoinErr(NotJoinable))));
        return;
      }
      if slots[t].thread.value.joiner.Some? {
        SetThread(i, slots[i].thread.value.(joinResult := Some(JoinErr(JoinInProgress))));
        return;
      }
      if slots[t].thread.value.state.Exited? && cpus[slots[t].thread.value.home].retired != Some(target) {
        JoinReap(c, target);
      } else {
        JoinPublish(c, target);
        var due := ConsumeCheckpoint(c);
      }
    }

    method JoinReap(c: nat, target: ThreadId)
      requires Inv(Model()) && HasCurrent(Model(), c) && Live(Model(), target) && At(Model(), target).home < |cpus|
      requires JoinPathOf(Model(), c, target).JoinReaps? && At(Model(), Current(Model(), c)).reaped.None?
      modifies this`slots, this`free
      ensures
        var s := old(Model());
        && At(s, target).exitCode.Some? && Live(SchedState.Release(s, target), Current(s, c))
        && Model() == SetJoinResult(SchedState.Release(s, target), Current(s, c),
                                    JoinOk(At(s, target).exitCode.value), At(s, target).user)
    {
      hide Inv;
      ghost var s := Model();
      var current, t := cpus[c].current.value, target.index;
      JoinReapInv(s, c, target);
      ThreadFacts(s, target);
      CpuFacts(s, At(s, target).home);
      assert slots[t].thread.value.exitCode.Some?;
      var code := slots[t].thread.value.exitCode.value;
      ReapChecks(s, target);
      var reaped := Release(target);
      SetReapedUser(current, reaped);
      SetThread(current.index, slots[current.index].thread.value.(joinResult := Some(JoinOk(code))));
    }

    /** One critical section prepares, publishes the joiner and blocks, so it cannot end early. */
    method JoinPublish(c: nat, target: ThreadId)
      requires Inv(Model()) && MayBlock(Model(), c) && MayPrepare(Model(), c)
      requires Live(Model(), target) && target.index != Current(Model(), c).index
      modifies this`slots, this`cpus
      ensures
        var s := old(Model());
        && HasNext(s, c) && Next(s, c).index != Current(s, c).index
        && Model() == JoinBlock(s, c, target)
    {
      hide Inv;
      HandoffReady(Model(), c);
      assert cpus[c].disableDepth == 0;
      var prepared := PrepareWait(c, Explicit);
      SetThread(target.index, slots[target.index].thread.value.(joiner := Some(prepared.token)));
      var commit, outcome := CommitWait(c, prepared);
      assert commit.Block?;
    }

    method TakeCurrentJoinResult(c: nat) returns (r: Option<(JoinResult, Option<User>)>)
      requires Inv(Model()) && HasCurrent(Model(), c)
      modifies this`slots
      ensures (Model(), r) == TakeJoinResult(old(Model()), c)
      ensures
        var s, me := old(Model()), Current(old(Model()), c);
        && (r.Some? <==> At(s, me).joinResult.Some?)
        && (r.Some? ==> r.value == (At(s, me).joinResult.value, At(s, me).reaped))
        && Live(Model(), me) && At(Model(), me).joinResult.None?
    {
      var i := cpus[c].current.value.index;
      var result := slots[i].thread.value.joinResult;
      SetThread(i, slots[i].thread.value.(joinResult := None));
      if result.None? {
        assert slots == old(slots);
        return None;
      }
      var user := slots[i].thread.value.reaped;
      SetThread(i, slots[i].thread.value.(reaped := None));
      r := Some((result.value, user));
      assert slots == TakeJoinResult(old(Model()), c).0.slots;
    }

    // ----- timer -----

    /** Completes a timer batch and selects the thread to return to. */
    method FinishTimerInterrupt(c: nat, events: seq<TimedEvent>)
      requires Inv(Model()) && IrqOpen(Model(), c) && BatchOk(Model(), c, events)
      modifies this`slots, this`cpus, this`free
      ensures Model() == TimerInterrupt(old(Model()), c, events)
    {
      FinalizeRetired(c, false);
      if !cpus[c].online { return; }
      ghost var s := Model();
      CpuFacts(s, c);
      assert forall x :: NotJoin(old(Model()), x) ==> NotJoin(s, x);
      if |events| == 1 && events[0].WaitDeadline? {
        assert events[0] in events;
        assert events[0].cpu == c && events[0].token.cpu == c;
        if cpus[c].disableDepth == 0 {
          var outcome := TimedWakeFromIdle(c, events[0].token);
          if outcome.Some? {
            var due := ConsumeCheckpoint(c);
            return;
          }
          DeclinedWakeUnchanged(s, c, events[0].token);
        }
      }
      FinishBatch(c, events);
    }

    method FinishBatch(c: nat, events: seq<TimedEvent>)
      requires Inv(Model()) && IrqOpen(Model(), c) && c < |cpus| && cpus[c].online && BatchOk(Model(), c, events)
      modifies this`slots, this`cpus
      ensures Model() == TimerQueued(old(Model()), c, events)
    {
      ghost var s := Model();
      CpuFacts(s, c);
      var current := cpus[c].current;
      DispatchBatch(c, events);
      RequestInv(Model(), c);
      if cpus[c].idle == current && cpus[c].ready != [] { RequestReschedule(c); }
      AcknowledgeInv(Model(), c);
      CpuFacts(Model(), c);
      var due := ConsumeCheckpoint(c);
      if due { var outcome := OptionalSwitch(c); }
    }

    method DispatchBatch(c: nat, events: seq<TimedEvent>)
      requires Inv(Model()) && c < |cpus| && BatchOk(Model(), c, events)
      modifies this`slots, this`cpus
      ensures Model() == DispatchAll(old(Model()), c, events)
    {
      hide Inv, ActiveUnmoved, SchedState.CompleteWait, DispatchAll, BatchOk;
      ghost var s := Model();
      var i := 0;
      assert events[0..] == events;
      while i < |events|
        invariant i <= |events| && |cpus| == |s.cpus|
        invariant Inv(Model()) && BatchOk(Model(), c, events[i..])
        invariant DispatchAll(Model(), c, events[i..]) == DispatchAll(s, c, events)
      {
        BatchStep(Model(), c, events, i);
        match events[i] {
          case WaitDeadline(cpu, token) =>
            assert cpu == c && token.cpu == c;
            var r := CompleteWait(c, token, Timeout, false);
          case QuantumExpired(cpu, thread) =>
            assert cpu == c;
            if cpus[c].current == Some(thread) { RequestReschedule(c); }
        }
        i := i + 1;
      }
      BatchEnd(Model(), c, events, i);
    }
  }

  /** A batch from position i on is one event and the batch behind it. */
  lemma BatchStep(s: Sched, c: nat, events: seq<TimedEvent>, i: nat)
    requires Inv(s) && c < |s.cpus| && i < |events| && BatchOk(s, c, events[i..])
    ensures
      var e := events[i];
      && (e.WaitDeadline? ==> e.cpu == c && e.token.cpu == c) && (e.QuantumExpired? ==> e.cpu == c)
      && BatchOk(s, c, [e])
      && var next := Dispatch(s, c, e);
         BatchOk(next, c, events[i + 1..]) && DispatchAll(s, c, events[i..]) == DispatchAll(next, c, events[i + 1..])
  {
    hide Inv, ActiveUnmoved;
    assert events[i..][0] == events[i] && events[i] in events[i..] && events[i..][1..] == events[i + 1..];
    assert events[i] in [events[i]];
    assert forall x :: NotJoin(s, x) ==> NotJoin(Dispatch(s, c, events[i]), x);
  }

  lemma BatchEnd(s: Sched, c: nat, events: seq<TimedEvent>, i: nat)
    requires Inv(s) && c < |s.cpus| && i == |events| && BatchOk(s, c, events[i..])
    ensures DispatchAll(s, c, events[i..]) == s
  {
  }

  /** The guards of transition_reap_exited: the target is neither idle, current, retiring nor queued. */
  lemma ReapChecks(s: Sched, target: ThreadId)
    requires Inv(s) && Live(s, target) && At(s, target).state.Exited? && At(s, target).home < |s.cpus|
    ensures
      var x := s.cpus[At(s, target).home];
      && x.idle != Some(target) && x.current != Some(target)
      && (forall queued :: queued in x.ready ==> queued.index != target.index)
      && At(s, target).wait.active.None?
  {
    var h := At(s, target).home;
    assert CpuOk(s, h) && ThreadOk(s, target);
    QueuedDistinct(s, h);
    forall queued | queued in s.cpus[h].ready ensures queued.index != target.index {
      assert queued in s.cpus[h].ready + s.cpus[h].remote;
    }
  }

  /** The exit as one update of two slots and one CPU record. */
  lemma ExitShape(s: Sched, c: nat, code: nat)
    requires CanHandoff(s, c)
    ensures
      var x, from, to := s.cpus[c], Current(s, c), Next(s, c);
      var t := At(s, from).(exitCode := Some(code), state := Exited);
      SchedState.ExitCurrent(s, c, code) ==
        s.(slots := s.slots[from.index := s.slots[from.index].(thread := Some(t))]
                           [to.index := s.slots[to.index].(thread := Some(At(s, to).(state := Running)))],
           cpus := s.cpus[c := x.(current := Some(to), retired := Some(from), ipiPending := true,
                                  ready := if x.ready == [] then [] else x.ready[1..])])
  {
    var x := s.cpus[c];
    var rest := if x.ready == [] then [] else x.ready[1..];
    assert rest + [] == rest;
  }

  /** A thread appended at boot: a new slot, occupied at once, and room for it. */
  lemma AppendShape(s: Sched, c: nat, idle: bool)
    requires Inv(s) && c < |s.cpus| && s.free == [] && |s.slots| < s.capacity && (s.cpus[c].idle.None? <==> idle)
    ensures HasFree(Grow(s)) && Grow(s).cpus == s.cpus
    ensures
      var r := if idle then AddIdle(Grow(s), c) else SchedState.Spawn(Grow(s), c, c, None, false, 1, true);
      var empty, id, x := Slot(0, 0, true, None), ThreadId(|s.slots|, 1), s.cpus[c];
      && Inv(r) && r.capacity == s.capacity && r.free == [] && |r.slots| == |s.slots| + 1
      && r.slots == Occupy(s.slots + [empty], |s.slots|, 1, NewThread(empty, c, None, false))
      && r.cpus == s.cpus[c := if idle then x.(idle := Some(id)) else x.(ready := x.ready + [id])]
    ensures !idle ==>
      && s.cpus[c].idle.value.index != |s.slots|
      && |s.cpus[c].ready| < s.capacity - 1 && |s.cpus[c].remote| < s.capacity - 1
      && forall id :: id in s.cpus[c].ready || id in s.cpus[c].remote ==> id.index != |s.slots|
  {
    hide Inv;
    GrowInv(s);
    var s1 := Grow(s);
    assert HasFree(s1) && FreeTop(s1) == |s.slots| && s1.free[..|s1.free| - 1] == [];
    if idle {
      AddIdleInv(s1, c);
    } else {
      SpawnInv(s1, c, c, None, false, 1, true);
      AppendRoom(s1, c, |s.slots|);
      assert SchedState.Spawn(s1, c, c, None, false, 1, true).cpus == s.cpus[c :=
        s.cpus[c].(ready := s.cpus[c].ready + [ThreadId(|s.slots|, 1)])];
    }
  }

  /** A free slot is neither idle nor queued, and both queues have room for it. */
  lemma AppendRoom(s: Sched, c: nat, i: nat)
    requires Inv(s) && c < |s.cpus| && s.cpus[c].idle.Some? && i < |s.slots| && s.slots[i].thread.None?
    ensures s.cpus[c].idle.value.index != i
    ensures |s.cpus[c].ready| < s.capacity - 1 && |s.cpus[c].remote| < s.capacity - 1
    ensures forall id :: id in s.cpus[c].ready || id in s.cpus[c].remote ==> id.index != i
  {
    hide Inv;
    CpuFacts(s, c);
    QueueRoom(s, c, i);
  }

  lemma EmptyInv(s: Sched)
    requires s.slots == [] && s.free == []
    requires s.cpus == seq(|s.cpus|, _ => Cpu(None, None, None, [], [], false, false, false, 0, false))
    ensures Inv(s)
  {
  }

  /** Taking the retired thread and its joiner link out keeps the invariant. */
  lemma RetiringInv(s: Sched, c: nat)
    requires Inv(s) && c < |s.cpus| && s.cpus[c].retired.Some? && Live(s, s.cpus[c].retired.value)
    requires At(s, s.cpus[c].retired.value).joiner.Some?
    ensures
      var id := s.cpus[c].retired.value;
      var s' := PutCpu(Put(s, id, At(s, id).(joiner := None)), c, s.cpus[c].(retired := None));
      Inv(s') && JoinerBlocked(s', At(s, id).joiner.value)
  {
    hide Inv;
    var id := s.cpus[c].retired.value;
    CpuFacts(s, c);
    ThreadFacts(s, id);
    ThreadFacts(s, At(s, id).joiner.value.thread);
    ClearJoiner(s, id);
    RetireKeepInv(Put(s, id, At(s, id).(joiner := None)), c, id);
  }
}
