/**
  Work is not left waiting (kernel/src/sched/preempt.rs:204-310, transition.rs:445-631): an idle CPU with
  a queued thread has a pending request, a CPU with a retired thread has a pending IPI, entries into the
  scheduler serve them, and a CPU under a preemption guard never switches.
 */
module SchedAttention {
  import opened Base
  import opened Waits
  import opened SchedState
  import opened SchedInvariant
  import opened SchedSteps
  import opened SchedOps
  import opened SchedTimer
  import opened SchedRuns

  /** Idle is running although a thread is queued. */
  predicate Neglects(x: Cpu) {
    x.current.Some? && x.current == x.idle && x.ready != []
  }

  predicate Attended(x: Cpu) {
    (Neglects(x) ==> x.reschedulePending) && (x.retired.Some? ==> x.ipiPending)
  }

  ghost predicate AllAttended(s: Sched) {
    forall k {:trigger s.cpus[k]} :: 0 <= k < |s.cpus| ==> Attended(s.cpus[k])
  }

  /** What waits in the queue has been asked for. */
  predicate Requested(x: Cpu) {
    x.ready == [] || x.reschedulePending
  }

  /** A CPU switches only at its own step, online and with preemption enabled. Its remote ingress grows at
      the back, until its own IPI drains it. Without a switch, the first thread that queues up brings a
      request, and a request for queued threads stays. */
  predicate CpuTracks(x: Cpu, x': Cpu, own: bool, drains: bool) {
    && x'.online == x.online && x'.disableDepth == x.disableDepth && x'.idle == x.idle
    && (x'.current != x.current ==> own && x.online && x.disableDepth == 0)
    && (x.remote <= x'.remote || drains)
    && (x.current.Some? && x'.current == x.current && Requested(x) ==> Requested(x'))
  }

  ghost predicate Tracks(s: Sched, s': Sched, c: nat, drains: bool) {
    && |s'.cpus| == |s.cpus|
    && forall k {:trigger s'.cpus[k]} :: 0 <= k < |s.cpus| ==>
      CpuTracks(s.cpus[k], s'.cpus[k], k == c, drains && k == c)
  }

  predicate SameCurrents(s: Sched, s': Sched) {
    |s'.cpus| == |s.cpus| && forall k :: 0 <= k < |s.cpus| ==> s'.cpus[k].current == s.cpus[k].current
  }

  lemma TracksTrans(s: Sched, m: Sched, s': Sched, c: nat, drains: bool)
    requires Tracks(s, m, c, drains) && Tracks(m, s', c, drains) && (SameCurrents(s, m) || SameCurrents(m, s'))
    ensures Tracks(s, s', c, drains)
  {
    forall k | 0 <= k < |s.cpus| ensures CpuTracks(s.cpus[k], s'.cpus[k], k == c, drains && k == c) {
      assert CpuTracks(s.cpus[k], m.cpus[k], k == c, drains && k == c);
    }
  }

  // ----- primitive transitions -----

  lemma SameCpus(s: Sched, s': Sched, c: nat)
    requires s'.cpus == s.cpus
    ensures Tracks(s, s', c, false) && (AllAttended(s) ==> AllAttended(s'))
  {
  }

  /** Only CPU c changed. */
  lemma OneCpu(s: Sched, r: Sched, c: nat, drains: bool)
    requires c < |s.cpus| == |r.cpus| && r.cpus == s.cpus[c := r.cpus[c]]
    ensures CpuTracks(s.cpus[c], r.cpus[c], true, drains) ==> Tracks(s, r, c, drains)
    ensures (Attended(s.cpus[c]) ==> Attended(r.cpus[c])) && AllAttended(s) ==> AllAttended(r)
  {
  }

  lemma CompleteAttends(s: Sched, c: nat, token: WaitToken, cause: WaitCause, notify: bool)
    requires c < |s.cpus| && (Live(s, token.thread) ==> At(s, token.thread).home < |s.cpus|)
    ensures
      var r := CompleteWait(s, c, token, cause, notify).0;
      && Tracks(s, r, c, false) && (AllAttended(s) ==> AllAttended(r))
      && r.cpus[c].retired == s.cpus[c].retired && SameCurrents(s, r)
      && (s.cpus[c].reschedulePending ==> r.cpus[c].reschedulePending)
  {
  }

  lemma RetireAttends(s: Sched, c: nat, notify: bool)
    requires Inv(s) && c < |s.cpus|
    ensures
      var r := Retire(s, c, notify);
      && Tracks(s, r, c, false) && (AllAttended(s) ==> AllAttended(r))
      && (s.cpus[c].reschedulePending ==> r.cpus[c].reschedulePending)
  {
    hide Inv, CompleteWait, Tracks, AllAttended;
    SameCpus(s, s, c);
    InvCanFinalize(s, c);
    if s.cpus[c].retired.Some? {
      var id, s1 := s.cpus[c].retired.value, PutCpu(s, c, s.cpus[c].(retired := None));
      OneCpu(s, s1, c, false);
      if At(s, id).joiner.Some? {
        var token := At(s, id).joiner.value;
        CompleteAttends(s1, c, token, Notified, notify);
        var s2, r := CompleteWait(s1, c, token, Notified, notify).0, Retire(s, c, notify);
        SameCpus(s2, r, c);
        TracksTrans(s, s1, s2, c, false);
        TracksTrans(s, s2, r, c, false);
      } else if !At(s, id).joinable {
        SameCpus(s1, Retire(s, c, notify), c);
        TracksTrans(s, s1, Retire(s, c, notify), c, false);
      }
    }
  }

  /** Who runs and who is queued after a handoff: nobody is neglected. */
  lemma HandoffAttends(s: Sched, c: nat, t: Thread)
    requires Inv(s) && HasCurrent(s, c) && HasNext(s, c) && Next(s, c).index != Current(s, c).index
    requires s.cpus[c].online && s.cpus[c].disableDepth == 0 && (t.state.Ready? ==> s.cpus[c].ready != [])
    ensures
      var r := Handoff(s, c, t);
      var x, x' := s.cpus[c], r.cpus[c];
      && r.cpus == s.cpus[c := x'] && !Neglects(x') && (x.ready != [] ==> x'.current != x'.idle)
      && x'.current != x.current && x'.current == Some(Next(s, c))
  {
    if s.cpus[c].ready != [] { FrontQueued(s, c); }
    hide Inv;
  }

  // ----- checkpoints -----

  /** A due checkpoint hands over to the queue front, requeues a preempted thread at the back and
      consumes the request; otherwise nothing happens. */
  lemma CheckpointServes(s: Sched, c: nat)
    requires Inv(s) && HasCurrent(s, c) && HasNext(s, c)
    requires s.cpus[c].ready != [] ==> Next(s, c).index != Current(s, c).index
    ensures
      var r, x := Checkpoint(s, c), s.cpus[c];
      var x' := r.cpus[c];
      && Tracks(s, r, c, false)
      && (CheckpointDue(x) && x.ready != [] ==>
            && x'.current == Some(x.ready[0]) && x'.current != x'.idle
            && x'.ready == x.ready[1..] + (if x.current == x.idle then [] else [Current(s, c)]))
      && (CheckpointDue(x) ==> !x'.reschedulePending && !Neglects(x'))
      && (!CheckpointDue(x) ==> r == s)
      && (CheckpointDue(x) && x.ready == [] ==> x'.current == x.current && x'.ready == [])
      && (AllAttended(s) ==> AllAttended(r))
      && x'.remote == x.remote && x'.ipiPending == x.ipiPending && x'.retired == x.retired
  {
    hide Inv, Tracks, AllAttended;
    SameCpus(s, s, c);
    if CheckpointDue(s.cpus[c]) {
      var s1 := Acknowledge(s, c);
      AcknowledgeInv(s, c);
      if s.cpus[c].ready != [] { HandoffAttends(s1, c, At(s1, Current(s1, c)).(state := Ready)); }
      OneCpu(s, Checkpoint(s, c), c, false);
    }
  }

  // ----- scheduler entries -----

  lemma Drains(s: Sched, s': Sched, c: nat)
    requires Tracks(s, s', c, false)
    ensures Tracks(s, s', c, true)
  {
  }

  /** The IPI finds the ready queue followed by the remote ingress, in order. With preemption enabled it
      hands over to the front of that line, requeueing a preempted thread at the back; so it never leaves
      idle running beside work. Under a guard it leaves a request behind. */
  lemma IpiServes(s: Sched, c: nat)
    requires Inv(s) && IrqOpen(s, c)
    ensures Tracks(s, SchedulerIpi(s, c), c, true) && (AllAttended(s) ==> AllAttended(SchedulerIpi(s, c)))
    ensures s.cpus[c].online ==>
      var x, x' := Retire(s, c, true).cpus[c], SchedulerIpi(s, c).cpus[c];
      var line := x.ready + x.remote;
      && s.cpus[c].ready <= x.ready && s.cpus[c].remote <= x.remote
      && x'.remote == [] && !x'.ipiPending && x'.retired.None?
      && (line != [] && s.cpus[c].disableDepth == 0 ==>
            && x'.current == Some(line[0]) && x'.current != x'.idle
            && x'.ready == line[1..] + (if x.current == x.idle then [] else [x.current.value]))
      && (line == [] || s.cpus[c].disableDepth > 0 ==> x'.current == x.current && x'.ready == line)
      && (line != [] && s.cpus[c].disableDepth > 0 ==> x'.reschedulePending)
  {
    hide Inv, Tracks, AllAttended, Retire, Checkpoint;
    var s1, r := Retire(s, c, true), SchedulerIpi(s, c);
    RetireAttends(s, c, true);
    Drains(s, s1, c);
    TracksCpu(s, s1, c, false);
    if s1.cpus[c].online {
      CpuFacts(s, c);
      CpuFacts(s1, c);
      DrainInv(s1, c);
      RequestInv(DrainRemote(s1, c), c);
      CpuReady(NotePeer(DrainRemote(s1, c), c), c);
      DrainServes(s1, c, r);
      TracksTrans(s, s1, r, c, true);
    }
  }

  /** The IPI after retirement. */
  lemma DrainServes(s: Sched, c: nat, r: Sched)
    requires Inv(s) && c < |s.cpus| && s.cpus[c].online && s.cpus[c].initialized && s.cpus[c].retired.None?
    requires
      var s3 := NotePeer(DrainRemote(s, c), c);
      && HasCurrent(s3, c) && HasNext(s3, c) && (s3.cpus[c].ready != [] ==> Next(s3, c).index != Current(s3, c).index)
      && r == Checkpoint(s3, c)
    ensures Tracks(s, r, c, true) && (AllAttended(s) ==> AllAttended(r))
    ensures
      var x, x' := s.cpus[c], r.cpus[c];
      var line := x.ready + x.remote;
      && x'.remote == [] && !x'.ipiPending && x'.retired.None?
      && (line != [] && x.disableDepth == 0 ==>
            && x'.current == Some(line[0]) && x'.current != x'.idle
            && x'.ready == line[1..] + (if x.current == x.idle then [] else [x.current.value]))
      && (line == [] || x.disableDepth > 0 ==> x'.current == x.current && x'.ready == line)
      && (line != [] && x.disableDepth > 0 ==> x'.reschedulePending)
  {
    hide Inv, Tracks, AllAttended, Checkpoint;
    DrainInv(s, c);
    var s2 := DrainRemote(s, c);
    RequestInv(s2, c);
    var s3 := NotePeer(s2, c);
    CheckpointServes(s3, c);
    OneCpu(s, s3, c, true);
    Drains(s3, r, c);
    TracksTrans(s, s3, r, c, true);
  }

  lemma TracksCpu(s: Sched, s': Sched, c: nat, drains: bool)
    requires Tracks(s, s', c, drains) && c < |s.cpus|
    ensures |s'.cpus| == |s.cpus| && s'.cpus[c].online == s.cpus[c].online
    ensures s'.cpus[c].disableDepth == s.cpus[c].disableDepth && s'.cpus[c].idle == s.cpus[c].idle
    ensures !drains ==> s.cpus[c].remote <= s'.cpus[c].remote
  {
  }

  /** A preemption point switches only when a switch was asked for. */
  lemma PreemptServes(s: Sched, c: nat)
    requires Inv(s) && IrqOpen(s, c)
    ensures
      var r := PreemptCheckpoint(s, c);
      && (!Retire(s, c, true).cpus[c].reschedulePending ==> r == Retire(s, c, true))
      && Tracks(s, r, c, false) && (AllAttended(s) ==> AllAttended(r))
      && (s.cpus[c].online && s.cpus[c].disableDepth == 0 && AllAttended(s) ==> !Neglects(r.cpus[c]))
      && (CheckpointDue(s.cpus[c]) && s.cpus[c].ready != [] ==> r.cpus[c].current == Some(s.cpus[c].ready[0]))
  {
    hide Inv, Tracks, Retire;
    var s1 := Retire(s, c, true);
    RetireAttends(s, c, true);
    TracksCpu(s, s1, c, false);
    if CheckpointDue(s1.cpus[c]) {
      CpuFacts(s1, c);
      CpuReady(s1, c);
      CheckpointServes(s1, c);
      TracksTrans(s, s1, Checkpoint(s1, c), c, false);
    }
  }

  lemma {:induction false} DispatchAttends(s: Sched, c: nat, events: seq<TimedEvent>)
    requires Inv(s) && c < |s.cpus| && BatchOk(s, c, events)
    ensures
      var r := DispatchAll(s, c, events);
      && Tracks(s, r, c, false) && (AllAttended(s) ==> AllAttended(r))
      && r.cpus[c].current == s.cpus[c].current
      && (s.cpus[c].reschedulePending ==> r.cpus[c].reschedulePending)
      && (s.cpus[c].current.Some? && QuantumExpired(c, s.cpus[c].current.value) in events ==>
            r.cpus[c].reschedulePending)
      && ((forall e :: e in events ==> e.QuantumExpired? && s.cpus[c].current != Some(e.thread)) ==> r == s)
    decreases |events|
  {
    hide Inv, Tracks, AllAttended, Dispatch, Steady;
    SameCpus(s, s, c);
    if events != [] {
      assert events[0] in events && events == [events[0]] + events[1..];
      var s1 := Dispatch(s, c, events[0]);
      assert forall x :: NotJoin(s, x) ==> NotJoin(s1, x);
      OneAttends(s, c, events[0]);
      TracksCpu(s, s1, c, false);
      DispatchAttends(s1, c, events[1..]);
      TracksTrans(s, s1, DispatchAll(s1, c, events[1..]), c, false);
    }
  }

  lemma OneAttends(s: Sched, c: nat, e: TimedEvent)
    requires Inv(s) && c < |s.cpus| && BatchOk(s, c, [e])
    ensures
      var r := Dispatch(s, c, e);
      && Tracks(s, r, c, false) && (AllAttended(s) ==> AllAttended(r)) && |r.cpus| == |s.cpus|
      && r.cpus[c].current == s.cpus[c].current && SameCurrents(s, r)
      && (s.cpus[c].reschedulePending ==> r.cpus[c].reschedulePending)
      && (s.cpus[c].current.Some? && e == QuantumExpired(c, s.cpus[c].current.value) ==> r.cpus[c].reschedulePending)
      && (e.QuantumExpired? && s.cpus[c].current != Some(e.thread) ==> r == s)
  {
    hide Inv, Tracks, AllAttended;
    assert e in [e];
    if e.WaitDeadline? {
      if Live(s, e.token.thread) { ThreadFacts(s, e.token.thread); }
      CompleteAttends(s, c, e.token, Timeout, false);
    } else {
      SameCpus(s, s, c);
      OneCpu(s, Request(s, c), c, false);
    }
  }

  /** The queued path of the timer interrupt. With preemption enabled it never leaves idle running beside
      work, and an expired quantum of the running thread hands over to the queue front. A batch that asks
      for nothing interrupts no thread but idle. */
  lemma TimerQueuedServes(s: Sched, c: nat, events: seq<TimedEvent>)
    requires Inv(s) && IrqOpen(s, c) && s.cpus[c].online && BatchOk(s, c, events)
    ensures
      var r, x := TimerQueued(s, c, events), s.cpus[c];
      && Tracks(s, r, c, false) && (AllAttended(s) ==> AllAttended(r))
      && (x.disableDepth == 0 ==> !Neglects(r.cpus[c]))
      && (!DispatchAll(s, c, events).cpus[c].reschedulePending && x.current != x.idle ==>
            r == DispatchAll(s, c, events))
      && (x.disableDepth == 0 && x.ready != [] && x.current.Some? && QuantumExpired(c, x.current.value) in events ==>
            r.cpus[c].current == Some(x.ready[0]) && r.cpus[c].current != x.idle)
  {
    hide Inv, Tracks, AllAttended, DispatchAll;
    CpuFacts(s, c);
    var s1 := DispatchAll(s, c, events);
    DispatchAttends(s, c, events);
    TracksCpu(s, s1, c, false);
    CpuFacts(s1, c);
    RequestInv(s1, c);
    var s2 := if s1.cpus[c].idle == s1.cpus[c].current && s1.cpus[c].ready != [] then Request(s1, c) else s1;
    SameCpus(s1, s1, c);
    OneCpu(s1, s2, c, false);
    CpuReady(s2, c);
    CheckpointServes(s2, c);
    TracksTrans(s, s1, s2, c, false);
    TracksTrans(s, s2, Checkpoint(s2, c), c, false);
    TracksCpu(s1, s2, c, false);
    TracksCpu(s2, Checkpoint(s2, c), c, false);
  }

  lemma TimerServes(s: Sched, c: nat, events: seq<TimedEvent>)
    requires Inv(s) && IrqOpen(s, c) && BatchOk(s, c, events)
    ensures
      var r, x := TimerInterrupt(s, c, events), s.cpus[c];
      && Tracks(s, r, c, false) && (AllAttended(s) ==> AllAttended(r))
      && (x.online && x.disableDepth == 0 ==> !Neglects(r.cpus[c]))
      && (x.online && x.disableDepth == 0 && x.ready != [] && x.current.Some?
          && QuantumExpired(c, x.current.value) in events ==>
            r.cpus[c].current == Some(x.ready[0]) && r.cpus[c].current != x.idle)
  {
    hide Inv, Tracks, AllAttended, TimerQueued, Retire;
    var s1 := Retire(s, c, false);
    RetireAttends(s, c, false);
    TracksCpu(s, s1, c, false);
    if s.cpus[c].online {
      TimerInterruptIsQueued(s, c, events);
      TimerQueuedServes(s1, c, events);
      TracksTrans(s, s1, TimerQueued(s1, c, events), c, false);
    }
  }

  // ----- blocking, exit, join, publication -----

  /** After a handoff that nobody regrets, a pending request may be dropped. */
  lemma BlockedAttends(s: Sched, c: nat, t: Thread, ipi: bool)
    requires Inv(s) && MayBlock(s, c) && HasCurrent(s, c) && HasNext(s, c) && Next(s, c).index != Current(s, c).index
    requires !t.state.Ready? && (t.state.Exited? ==> ipi)
    ensures
      var s1 := Handoff(s, c, t);
      var r := Acknowledge(PutCpu(s1, c, s1.cpus[c].(ipiPending := ipi || s1.cpus[c].ipiPending)), c);
      && Tracks(s, r, c, false) && (AllAttended(s) ==> AllAttended(r))
      && !r.cpus[c].reschedulePending && r.cpus[c].current == Some(Next(s, c))
  {
    hide Inv, Tracks, AllAttended;
    HandoffAttends(s, c, t);
    var s1 := Handoff(s, c, t);
    var s2 := PutCpu(s1, c, s1.cpus[c].(ipiPending := ipi || s1.cpus[c].ipiPending));
    OneCpu(s, Acknowledge(s2, c), c, false);
  }

  lemma CommitAttends(s: Sched, c: nat, prepared: PreparedWait)
    requires Inv(s) && MayBlock(s, c)
    ensures
      var (r, o) := CommitPrepared(s, c, prepared);
      && Tracks(s, r, c, false) && (AllAttended(s) ==> AllAttended(r))
      && (o.Block? ==> HasNext(s, c) && r.cpus[c].current == Some(Next(s, c)) && !r.cpus[c].reschedulePending)
  {
    hide Inv, Tracks, AllAttended, Handoff;
    CpuFacts(s, c);
    CpuReady(s, c);
    var from := Current(s, c);
    var (w, o) := Waits.Commit(At(s, from).wait, prepared);
    if o.Block? {
      var t := At(s, from).(state := Blocked, wait := w);
      BlockedAttends(s, c, t, false);
      var s1 := Handoff(s, c, t);
      assert PutCpu(s1, c, s1.cpus[c].(ipiPending := false || s1.cpus[c].ipiPending)) == s1 by { HandoffSize(s, c, t); }
    } else {
      SameCpus(s, CommitPrepared(s, c, prepared).0, c);
    }
  }

  lemma HandoffSize(s: Sched, c: nat, t: Thread)
    requires HasCurrent(s, c) && HasNext(s, c) && Next(s, c).index != Current(s, c).index
    ensures |Handoff(s, c, t).cpus| == |s.cpus|
  {
  }

  lemma ExitAttends(s: Sched, c: nat, code: nat)
    requires Inv(s) && MayExit(s, c)
    ensures
      var r, s1 := ExitThread(s, c, code), Retire(s, c, true);
      && Tracks(s, r, c, false) && (AllAttended(s) ==> AllAttended(r))
      && HasNext(s1, c) && r.cpus[c].current == Some(Next(s1, c)) && r.cpus[c].retired == s.cpus[c].current
      && !r.cpus[c].reschedulePending
  {
    hide Inv, Tracks, AllAttended, Retire;
    CpuFacts(s, c);
    CpuReady(s, c);
    var s1 := Retire(s, c, true);
    RetireAttends(s, c, true);
    TracksCpu(s, s1, c, false);
    CpuReady(s1, c);
    var t := At(s1, Current(s1, c)).(exitCode := Some(code), state := Exited);
    BlockedAttends(s1, c, t, true);
    TracksTrans(s, s1, ExitThread(s, c, code), c, false);
  }

  lemma JoinBlockAttends(s: Sched, c: nat, target: ThreadId)
    requires Inv(s) && MayBlock(s, c) && MayPrepare(s, c) && HasNext(s, c) && Next(s, c).index != Current(s, c).index
    requires Live(s, target) && At(s, target).home < |s.cpus| && JoinPathOf(s, c, target).JoinBlocks?
    ensures
      var r := Acknowledge(JoinBlock(s, c, target), c);
      Tracks(s, r, c, false) && (AllAttended(s) ==> AllAttended(r))
  {
    hide Inv, Tracks, AllAttended, Handoff;
    JoinBlockShape(s, c, target);
    var (s1, p) := PrepareWait(s, c, Explicit);
    PrepareInv(s, c, Explicit);
    SameCpus(s, s1, c);
    var from := Current(s1, c);
    var t := At(s1, from).(state := Blocked, wait := Waits.Commit(At(s1, from).wait, p).0);
    BlockedAttends(s1, c, t, false);
    HandoffSize(s1, c, t);
    var s2 := Handoff(s1, c, t);
    assert PutCpu(s2, c, s2.cpus[c].(ipiPending := false || s2.cpus[c].ipiPending)) == s2;
    SameCpus(Acknowledge(s2, c), Acknowledge(JoinBlock(s, c, target), c), c);
    TracksTrans(s, s1, Acknowledge(s2, c), c, false);
    TracksTrans(s, Acknowledge(s2, c), Acknowledge(JoinBlock(s, c, target), c), c, false);
  }

  lemma JoinAttends(s: Sched, c: nat, target: ThreadId)
    requires Inv(s) && MayJoin(s, c, target)
    ensures
      var r := JoinThread(s, c, target);
      Tracks(s, r, c, false) && (AllAttended(s) ==> AllAttended(r))
  {
    hide Inv, Tracks, AllAttended, Retire, MayJoin, JoinBlock;
    JoinReady(s, c, target);
    var s1, r := Retire(s, c, true), JoinThread(s, c, target);
    RetireAttends(s, c, true);
    if JoinPathOf(s1, c, target).JoinBlocks? {
      JoinBlockAttends(s1, c, target);
    } else {
      if JoinPathOf(s1, c, target).JoinReaps? { JoinReapInv(s1, c, target); }
      SameCpus(s1, r, c);
    }
    TracksTrans(s, s1, r, c, false);
  }

  lemma SpawnAttends(s: Sched, c: nat, home: nat, user: Option<User>, joinable: bool)
    requires Inv(s) && c < |s.cpus| && (user.Some? ==> joinable && user.value.owner == home)
    ensures
      var r := SpawnOn(s, c, home, user, joinable);
      Tracks(s, r, c, false) && (AllAttended(s) ==> AllAttended(r))
  {
    if CanSpawn(s, home) { FreeTopFree(s); }
    hide Inv;
  }

  lemma StartAttends(s: Sched, c: nat)
    requires Inv(s) && c < |s.cpus|
    ensures AllAttended(s) ==> AllAttended(StartIdle(s, c))
  {
    if !(s.cpus[c].initialized || s.cpus[c].current.Some? || s.cpus[c].idle.Some? || s.free == []) {
      FreeTopFree(s);
      AddIdleInv(s, c);
      if s.cpus[c].ready != [] { FrontQueued(AddIdle(s, c), c); }
    }
    hide Inv;
  }

  // ----- steps and runs -----

  /** Every step keeps all CPUs attended. */
  lemma StepAttended(s: Sched, op: Op)
    requires Inv(s) && Enabled(s, op) && AllAttended(s)
    ensures AllAttended(Apply(s, op))
  {
    hide Inv, Tracks, AllAttended, Retire, StartIdle, SpawnOn, ExecUser, CommitPrepared, ExitThread, JoinThread,
         SchedulerIpi, TimerInterrupt, PreemptCheckpoint, MayJoin;
    var c, r := op.c, Apply(s, op);
    match op
    case InitIdle(_) => StartAttends(s, c);
    case Enter(_) => OneCpu(s, r, c, false);
    case GuardEnter(_) => OneCpu(s, r, c, false);
    case GuardLeave(_) => OneCpu(s, r, c, false);
    case _ => StepTracks(s, op);
  }

  /** A CPU switches only at a step of its own, when it is online and preemption is enabled there; and
      only its own IPI takes entries out of its remote ingress, which grows at the back. */
  lemma StepTracks(s: Sched, op: Op)
    requires Inv(s) && Enabled(s, op) && !op.InitIdle? && !op.Enter? && !op.GuardEnter? && !op.GuardLeave?
    ensures Tracks(s, Apply(s, op), op.c, op.Ipi?) && (AllAttended(s) ==> AllAttended(Apply(s, op)))
  {
    hide Inv, Tracks, AllAttended, Retire, SpawnOn, CommitPrepared, ExitThread, JoinThread,
         SchedulerIpi, TimerInterrupt, PreemptCheckpoint, MayJoin;
    var c := op.c;
    match op
    case SpawnKernel(_, home, joinable) =>
      var s1 := Retire(s, c, true);
      RetireAttends(s, c, true);
      SpawnAttends(s1, c, home, None, joinable);
      TracksTrans(s, s1, SpawnOn(s1, c, home, None, joinable), c, false);
    case SpawnUser(_, user) => SpawnAttends(s, c, user.owner, Some(user), true);
    case Commit(_, prepared) => CommitAttends(s, c, prepared);
    case Complete(_, token, cause) => CompleteStepAttends(s, c, token, cause);
    case Exit(_, code) => ExitAttends(s, c, code);
    case Join(_, target) => JoinAttends(s, c, target);
    case Ipi(_) => IpiServes(s, c);
    case Timer(_, events) => TimerServes(s, c, events);
    case PreemptPoint(_) => PreemptServes(s, c);
    case RequestReschedule(_) => RequestAttends(s, c);
    case Exec(_, user) => SameCpus(s, ExecUser(s, c, user), c);
    case Prepare(_, consumption) => SameCpus(s, PrepareWait(s, c, consumption).0, c);
    case Finish(_, token) => SameCpus(s, FinishCurrent(s, token), c);
    case Cancel(_, prepared) => SameCpus(s, CancelCurrent(s, prepared), c);
    case TakeJoined(_) => SameCpus(s, TakeJoinResult(s, c).0, c);
    case _ =>
  }

  lemma CompleteStepAttends(s: Sched, c: nat, token: WaitToken, cause: WaitCause)
    requires Inv(s) && c < |s.cpus| && NotJoin(s, token)
    ensures
      var r := CompleteExternal(s, c, token, cause);
      Tracks(s, r, c, false) && (AllAttended(s) ==> AllAttended(r))
  {
    hide Inv, Tracks, AllAttended, CompleteWait;
    SameCpus(s, s, c);
    if Live(s, token.thread) {
      ThreadFacts(s, token.thread);
      CompleteAttends(s, c, token, cause, true);
    }
  }

  lemma RequestAttends(s: Sched, c: nat)
    requires c < |s.cpus|
    ensures Tracks(s, Request(s, c), c, false) && (AllAttended(s) ==> AllAttended(Request(s, c)))
  {
    OneCpu(s, Request(s, c), c, false);
  }

  /** In every state of every run, a CPU that runs idle beside a queued thread has a pending request, and
      one with a retired thread has a pending IPI. */
  lemma {:induction false} RunAttended(states: seq<Sched>, ops: seq<Op>, n: nat)
    requires IsRun(states, ops) && n < |states| && AllAttended(states[0])
    ensures AllAttended(states[n])
  {
    hide Inv, Apply, AllAttended;
    if n > 0 {
      RunAttended(states, ops, n - 1);
      RunKeepsInv(states, ops, n - 1);
      assert Step(states[n - 1], ops[n - 1], states[n]);
      StepAttended(states[n - 1], ops[n - 1]);
    }
  }

  /** Hence an interrupt or a preemption point on an online CPU with preemption enabled never leaves idle
      running beside a queued thread. */
  lemma EntryServes(states: seq<Sched>, ops: seq<Op>, n: nat)
    requires IsRun(states, ops) && n < |ops| && AllAttended(states[0])
    requires ops[n].Ipi? || ops[n].Timer? || ops[n].PreemptPoint?
    ensures
      var c := ops[n].c;
      && c < |states[n].cpus| == |states[n + 1].cpus|
      && (states[n].cpus[c].online && states[n].cpus[c].disableDepth == 0 ==> !Neglects(states[n + 1].cpus[c]))
  {
    hide Inv, AllAttended, Tracks, SchedulerIpi, TimerInterrupt, PreemptCheckpoint, Retire;
    RunAttended(states, ops, n);
    RunKeepsInv(states, ops, n);
    assert Step(states[n], ops[n], states[n + 1]);
    var s, c := states[n], ops[n].c;
    assert Enabled(s, ops[n]);
    StepTracks(s, ops[n]);
    TracksCpu(s, states[n + 1], c, ops[n].Ipi?);
    match ops[n]
    case Ipi(_) => IpiServes(s, c);
    case Timer(_, events) => TimerServes(s, c, events);
    case PreemptPoint(_) => PreemptServes(s, c);
  }

  // ----- preemption guards -----

  /** How a step moves the guard depth of CPU k. */
  function DepthChange(op: Op, k: nat): int {
    if op == GuardEnter(k) then 1 else if op == GuardLeave(k) then -1 else 0
  }

  /** Every step keeps the number of CPUs, moves the guard depth of a CPU only by its guards, and under a
      guard leaves its running thread in place. */
  lemma StepGuard(s: Sched, op: Op, k: nat)
    requires Inv(s) && Enabled(s, op) && k < |s.cpus|
    ensures
      var s' := Apply(s, op);
      && |s'.cpus| == |s.cpus|
      && s'.cpus[k].disableDepth == s.cpus[k].disableDepth + DepthChange(op, k)
      && (s.cpus[k].current.Some? && s.cpus[k].disableDepth > 0 ==> s'.cpus[k].current == s.cpus[k].current)
  {
    hide Inv, Retire, StartIdle, SpawnOn, CommitPrepared, ExitThread, JoinThread, SchedulerIpi, TimerInterrupt,
         PreemptCheckpoint, MayJoin;
    match op
    case InitIdle(c) => StartGuard(s, c, k);
    case Enter(_) =>
    case GuardEnter(_) =>
    case GuardLeave(_) =>
    case _ => TracksGuard(s, op, k);
  }

  lemma TracksGuard(s: Sched, op: Op, k: nat)
    requires Inv(s) && Enabled(s, op) && !op.InitIdle? && !op.Enter? && !op.GuardEnter? && !op.GuardLeave?
    requires k < |s.cpus|
    ensures
      var s' := Apply(s, op);
      && |s'.cpus| == |s.cpus| && s'.cpus[k].disableDepth == s.cpus[k].disableDepth
      && (s.cpus[k].disableDepth > 0 ==> s'.cpus[k].current == s.cpus[k].current)
  {
    hide Inv, Apply;
    StepTracks(s, op);
    assert CpuTracks(s.cpus[k], Apply(s, op).cpus[k], k == op.c, op.Ipi? && k == op.c);
  }

  lemma StartGuard(s: Sched, c: nat, k: nat)
    requires Inv(s) && c < |s.cpus| && k < |s.cpus|
    ensures
      var s' := StartIdle(s, c);
      && |s'.cpus| == |s.cpus| && s'.cpus[k].disableDepth == s.cpus[k].disableDepth
      && (s.cpus[k].current.Some? ==> s'.cpus[k].current == s.cpus[k].current)
  {
    if !(s.cpus[c].initialized || s.cpus[c].current.Some? || s.cpus[c].idle.Some? || s.free == []) {
      FreeTopFree(s);
      AddIdleInv(s, c);
    }
    hide Inv;
  }

  /** Guards taken minus guards left on CPU k over the steps m to n. */
  function Guards(ops: seq<Op>, m: nat, n: nat, k: nat): int
    requires m <= n <= |ops|
    decreases n
  {
    if m == n then 0 else Guards(ops, m, n - 1, k) + DepthChange(ops[n - 1], k)
  }

  /** In every run the guard depth counts the guards, and as long as one is held the CPU does not switch:
      whatever interrupts, wakeups and exits come, the same thread runs. */
  lemma {:induction false} GuardHolds(states: seq<Sched>, ops: seq<Op>, m: nat, n: nat, k: nat)
    requires IsRun(states, ops) && m <= n <= |ops| && k < |states[m].cpus|
    ensures k < |states[n].cpus|
    ensures states[n].cpus[k].disableDepth == states[m].cpus[k].disableDepth + Guards(ops, m, n, k)
    ensures states[m].cpus[k].current.Some?
            && (forall i :: m <= i < n ==> states[m].cpus[k].disableDepth + Guards(ops, m, i, k) > 0)
            ==> states[n].cpus[k].current == states[m].cpus[k].current
    decreases n - m
  {
    hide Inv, Apply, Enabled;
    if m < n {
      GuardHolds(states, ops, m, n - 1, k);
      RunKeepsInv(states, ops, n - 1);
      assert Step(states[n - 1], ops[n - 1], states[n]);
      StepGuard(states[n - 1], ops[n - 1], k);
    }
  }
}
