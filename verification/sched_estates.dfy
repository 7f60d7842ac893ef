/**
  Conservation of exits: the exit code of a thread together with its user resources moves from
  the exited thread to exactly one joiner, and from there to that joiner's caller, exactly once.
 */
module SchedEstates {
  import opened Base
  import opened Waits
  import opened SchedState
  import opened SchedInvariant
  import opened SchedSteps
  import opened SchedOps
  import opened SchedRuns
  import opened SchedQuiet

  /** What an exited thread leaves behind. */
  datatype Estate = Estate(code: nat, user: Option<User>)

  /** How often a thread holds estate e: as its own exit, or as a join result not yet taken. */
  function ThreadEstates(t: Thread, e: Estate): nat {
    (if t.state.Exited? && t.exitCode.Some? && Estate(t.exitCode.value, t.user) == e then 1 else 0) + Handed(t, e)
  }

  function Handed(t: Thread, e: Estate): nat {
    match t.joinResult
    case Some(JoinOk(code)) => if Estate(code, t.reaped) == e then 1 else 0
    case _ => 0
  }

  function SlotEstates(slot: Slot, e: Estate): nat {
    if slot.thread.Some? then ThreadEstates(slot.thread.value, e) else 0
  }

  /** How often estate e is held in the scheduler: not yet joined, or joined and not yet taken. */
  function Held(slots: seq<Slot>, e: Estate): nat {
    if slots == [] then 0 else SlotEstates(slots[0], e) + Held(slots[1..], e)
  }

  lemma {:induction false} HeldUpdate(slots: seq<Slot>, i: nat, x: Slot, e: Estate)
    requires i < |slots|
    ensures Held(slots[i := x], e) + SlotEstates(slots[i], e) == Held(slots, e) + SlotEstates(x, e)
    decreases |slots|
  {
    if i == 0 {
      assert slots[0 := x][1..] == slots[1..];
    } else {
      assert slots[i := x][1..] == slots[1..][i - 1 := x];
      HeldUpdate(slots[1..], i - 1, x, e);
    }
  }

  lemma HeldTwo(a: seq<Slot>, b: seq<Slot>, i: nat, j: nat, e: Estate)
    requires |a| == |b| && i < |a| && j < |a| && i != j
    requires forall k :: 0 <= k < |a| && k != i && k != j ==> a[k] == b[k]
    ensures Held(b, e) + SlotEstates(a[i], e) + SlotEstates(a[j], e)
            == Held(a, e) + SlotEstates(b[i], e) + SlotEstates(b[j], e)
  {
    HeldUpdate(a, i, b[i], e);
    HeldUpdate(a[i := b[i]], j, b[j], e);
    assert a[i := b[i]][j := b[j]] == b;
  }

  ghost predicate Same(s: Sched, s': Sched, e: Estate) {
    |s'.slots| == |s.slots|
    && forall i {:trigger s'.slots[i]} :: 0 <= i < |s.slots| ==>
      SlotEstates(s'.slots[i], e) == SlotEstates(s.slots[i], e)
  }

  lemma {:induction false} HeldSame(a: seq<Slot>, b: seq<Slot>, e: Estate)
    requires |a| == |b| && forall i {:trigger b[i]} :: 0 <= i < |a| ==> SlotEstates(b[i], e) == SlotEstates(a[i], e)
    ensures Held(a, e) == Held(b, e)
    decreases |a|
  {
    if a != [] {
      assert SlotEstates(b[0], e) == SlotEstates(a[0], e);
      forall i | 0 <= i < |a[1..]| ensures SlotEstates(b[1..][i], e) == SlotEstates(a[1..][i], e) {
        assert SlotEstates(b[i + 1], e) == SlotEstates(a[i + 1], e);
      }
      HeldSame(a[1..], b[1..], e);
    }
  }

  // ----- retirement -----

  /** A detached thread has no joiner; its code is dropped and it owned no user resources. */
  function Dropped(s: Sched, c: nat, e: Estate): nat
    requires c < |s.cpus|
  {
    if s.cpus[c].retired.Some? && Live(s, s.cpus[c].retired.value) then
      var t := At(s, s.cpus[c].retired.value);
      if t.joiner.None? && !t.joinable then ThreadEstates(t, e) else 0
    else 0
  }

  lemma DroppedOwnsNothing(s: Sched, c: nat, e: Estate)
    requires Inv(s) && c < |s.cpus|
    ensures Dropped(s, c, e) > 0 ==> e.user.None?
  {
    assert CpuOk(s, c);
    if s.cpus[c].retired.Some? { assert ThreadOk(s, s.cpus[c].retired.value); }
  }

  /** The joiner receives precisely the code and the resources of the thread it joined. */
  lemma DeliverMoves(s: Sched, c: nat, notify: bool, e: Estate)
    requires Inv(s) && CanFinalize(s, c) && s.cpus[c].retired.Some?
    requires At(s, s.cpus[c].retired.value).joiner.Some?
    ensures
      var id, s' := s.cpus[c].retired.value, Finalize(s, c, notify);
      var t := At(s, id);
      var j := t.joiner.value.thread;
      && !Live(s', id)
      && Live(s', j) && At(s', j).joinResult == Some(JoinOk(t.exitCode.value)) && At(s', j).reaped == t.user
      && At(s', j).state.Ready?
      && Held(s'.slots, e) == Held(s.slots, e)
  {
    hide Inv;
    var id, s' := s.cpus[c].retired.value, Finalize(s, c, notify);
    var j := At(s, id).joiner.value.thread;
    CpuFacts(s, c);
    ThreadFacts(s, id);
    ThreadFacts(s, j);
    HeldTwo(s.slots, s'.slots, id.index, j.index, e);
  }

  lemma RetireConserves(s: Sched, c: nat, notify: bool, e: Estate)
    requires Inv(s) && c < |s.cpus|
    ensures Held(Retire(s, c, notify).slots, e) + Dropped(s, c, e) == Held(s.slots, e)
  {
    hide Inv;
    var s' := Retire(s, c, notify);
    CpuFacts(s, c);
    if s.cpus[c].retired.Some? {
      var id := s.cpus[c].retired.value;
      InvCanFinalize(s, c);
      if At(s, id).joiner.Some? {
        DeliverMoves(s, c, notify, e);
      } else if !At(s, id).joinable {
        ThreadFacts(s, id);
        HeldUpdate(s.slots, id.index, s'.slots[id.index], e);
        assert s'.slots == s.slots[id.index := s'.slots[id.index]];
      }
    }
  }

  // ----- steps without exits -----

  lemma SlotsSame(s: Sched, s': Sched, e: Estate)
    requires s'.slots == s.slots
    ensures Same(s, s', e)
  {
  }

  lemma QuietSame(s: Sched, s': Sched, c: nat, e: Estate)
    requires Quiet(s, s', c)
    ensures Same(s, s', e)
  {
    forall i | 0 <= i < |s.slots| ensures SlotEstates(s'.slots[i], e) == SlotEstates(s.slots[i], e) {
      assert QuietSlot(s.slots[i], s'.slots[i]);
    }
  }

  // ----- steps -----

  /** An exit creates an estate. */
  function Left(s: Sched, op: Op, e: Estate): nat {
    if op.Exit? && HasCurrent(s, op.c) && Estate(op.code, At(s, Current(s, op.c)).user) == e then 1 else 0
  }

  /** A joiner's caller takes it out of the scheduler. */
  function Taken(s: Sched, op: Op, e: Estate): nat {
    if op.TakeJoined? && HasCurrent(s, op.c) then Handed(At(s, Current(s, op.c)), e) else 0
  }

  /** The exit code of a detached thread is dropped at the next scheduler entry of its CPU. */
  function Forgotten(s: Sched, op: Op, e: Estate): nat
    requires op.c < |s.cpus|
  {
    if Enters(op) then Dropped(s, op.c, e) else 0
  }

  lemma ExitConserves(s: Sched, c: nat, code: nat, e: Estate)
    requires Inv(s) && MayExit(s, c)
    ensures Held(ExitThread(s, c, code).slots, e) + Dropped(s, c, e) == Held(s.slots, e) + Left(s, Exit(c, code), e)
  {
    hide Inv;
    CpuFacts(s, c);
    CpuReady(s, c);
    RetireConserves(s, c, true, e);
    var s1, s' := Retire(s, c, true), ExitThread(s, c, code);
    CpuReady(s1, c);
    NextAlive(s1, c);
    CpuFacts(s1, c);
    HeldTwo(s1.slots, s'.slots, Current(s1, c).index, Next(s1, c).index, e);
  }

  lemma ReapConserves(s: Sched, c: nat, target: ThreadId, e: Estate)
    requires Inv(s) && HasCurrent(s, c) && Live(s, target) && At(s, target).home < |s.cpus|
    requires JoinPathOf(s, c, target).JoinReaps? && At(s, Current(s, c)).joinResult.None?
    requires At(s, target).exitCode.Some? && Live(Release(s, target), Current(s, c))
    ensures
      var code, user := At(s, target).exitCode.value, At(s, target).user;
      var s' := SetJoinResult(Release(s, target), Current(s, c), JoinOk(code), user);
      Held(s'.slots, e) == Held(s.slots, e)
  {
    hide Inv;
    CpuFacts(s, c);
    ThreadFacts(s, target);
    var code, user := At(s, target).exitCode.value, At(s, target).user;
    var s' := SetJoinResult(Release(s, target), Current(s, c), JoinOk(code), user);
    HeldTwo(s.slots, s'.slots, target.index, Current(s, c).index, e);
  }

  lemma BlockConserves(s: Sched, c: nat, target: ThreadId, e: Estate)
    requires Inv(s) && MayPrepare(s, c) && HasNext(s, c) && Next(s, c).index != Current(s, c).index && s.cpus[c].online
    requires Live(s, target) && target.index != Current(s, c).index
    ensures Held(JoinBlock(s, c, target).slots, e) == Held(s.slots, e)
  {
    BlockQuiet(s, c, target);
    QuietSame(s, JoinBlock(s, c, target), c, e);
    HeldSame(s.slots, JoinBlock(s, c, target).slots, e);
  }

  lemma JoinConserves(s: Sched, c: nat, target: ThreadId, e: Estate)
    requires Inv(s) && MayJoin(s, c, target)
    ensures Held(JoinThread(s, c, target).slots, e) + Dropped(s, c, e) == Held(s.slots, e)
  {
    hide Inv, Held, Retire, MayJoin;
    JoinReady(s, c, target);
    RetireConserves(s, c, true, e);
    var s1, s' := Retire(s, c, true), JoinThread(s, c, target);
    match JoinPathOf(s1, c, target)
    case JoinFails(_) => HeldSame(s1.slots, s'.slots, e);
    case JoinReaps =>
      JoinReapInv(s1, c, target);
      ReapConserves(s1, c, target, e);
    case JoinBlocks => BlockConserves(s1, c, target, e);
  }

  lemma QuietSpawn(s: Sched, c: nat, home: nat, user: Option<User>, joinable: bool, e: Estate)
    requires Inv(s) && c < |s.cpus| && (user.Some? ==> joinable && user.value.owner == home)
    ensures Same(s, SpawnOn(s, c, home, user, joinable), e)
  {
    if CanSpawn(s, home) { FreeTopFree(s); }
  }

  lemma QuietStart(s: Sched, c: nat, e: Estate)
    requires Inv(s) && c < |s.cpus|
    ensures Same(s, StartIdle(s, c), e)
  {
    if !(s.cpus[c].initialized || s.cpus[c].current.Some? || s.cpus[c].idle.Some? || s.free == []) {
      FreeTopFree(s);
      AddIdleInv(s, c);
      NextAlive(AddIdle(s, c), c);
    }
  }

  lemma QuietExec(s: Sched, c: nat, user: User, e: Estate)
    requires Inv(s) && c < |s.cpus|
    ensures Same(s, ExecUser(s, c, user), e)
  {
    assert CpuOk(s, c);
  }

  /** Steps whose own effect, after retirement, moves no estate. */
  lemma QuietStep(s: Sched, op: Op, e: Estate)
    requires Inv(s) && Enabled(s, op) && !op.Exit? && !op.Join? && !op.TakeJoined?
    ensures
      var s1 := if Enters(op) then Retire(s, op.c, !op.Timer?) else s;
      Same(s1, Apply(s, op), e)
  {
    hide Inv, Quiet, Same, Retire, StartIdle, SpawnOn, ExecUser;
    var c := op.c;
    var s1 := if Enters(op) then Retire(s, op.c, !op.Timer?) else s;
    if op.InitIdle? {
      QuietStart(s, c, e);
    } else if op.SpawnKernel? {
      QuietSpawn(Retire(s, c, true), c, op.home, None, op.joinable, e);
    } else if op.SpawnUser? {
      QuietSpawn(s, c, op.user.owner, Some(op.user), true, e);
    } else if op.Exec? {
      QuietExec(s, c, op.user, e);
    } else if op.Enter? {
      SlotsSame(s, Apply(s, op), e);
    } else {
      StepQuiet(s, op);
      QuietSame(s1, Apply(s, op), c, e);
    }
  }

  lemma TakeConserves(s: Sched, c: nat, e: Estate)
    requires Inv(s) && HasCurrent(s, c)
    ensures Held(TakeJoinResult(s, c).0.slots, e) + Handed(At(s, Current(s, c)), e) == Held(s.slots, e)
  {
    hide Inv;
    CpuFacts(s, c);
    var s', i := TakeJoinResult(s, c).0, Current(s, c).index;
    assert s'.slots == s.slots[i := s'.slots[i]];
    HeldUpdate(s.slots, i, s'.slots[i], e);
  }

  lemma StepConserves(s: Sched, op: Op, e: Estate)
    requires Inv(s) && Enabled(s, op)
    ensures Held(Apply(s, op).slots, e) + Taken(s, op, e) + Forgotten(s, op, e) == Held(s.slots, e) + Left(s, op, e)
  {
    hide Inv, Held, Retire, ExitThread, JoinThread, TakeJoinResult;
    var c := op.c;
    match op
    case Exit(_, code) => ExitConserves(s, c, code, e);
    case Join(_, target) => JoinConserves(s, c, target, e);
    case TakeJoined(_) => TakeConserves(s, c, e);
    case _ => QuietConserves(s, op, e);
  }

  lemma QuietConserves(s: Sched, op: Op, e: Estate)
    requires Inv(s) && Enabled(s, op) && !op.Exit? && !op.Join? && !op.TakeJoined?
    ensures Held(Apply(s, op).slots, e) + Forgotten(s, op, e) == Held(s.slots, e)
  {
    hide Inv, Held, Retire, Apply;
    QuietStep(s, op, e);
    if Enters(op) {
      RetireConserves(s, op.c, !op.Timer?, e);
      HeldSame(Retire(s, op.c, !op.Timer?).slots, Apply(s, op).slots, e);
    } else {
      HeldSame(s.slots, Apply(s, op).slots, e);
    }
  }

  // ----- runs -----

  ghost function TotalLeft(states: seq<Sched>, ops: seq<Op>, n: nat, e: Estate): nat
    requires n <= |ops| < |states|
  {
    if n == 0 then 0 else TotalLeft(states, ops, n - 1, e) + Left(states[n - 1], ops[n - 1], e)
  }

  ghost function TotalTaken(states: seq<Sched>, ops: seq<Op>, n: nat, e: Estate): nat
    requires n <= |ops| < |states|
  {
    if n == 0 then 0 else TotalTaken(states, ops, n - 1, e) + Taken(states[n - 1], ops[n - 1], e)
  }

  ghost function TotalForgotten(states: seq<Sched>, ops: seq<Op>, n: nat, e: Estate): nat
    requires n <= |ops| < |states| && forall i :: 0 <= i < |ops| ==> ops[i].c < |states[i].cpus|
  {
    if n == 0 then 0 else TotalForgotten(states, ops, n - 1, e) + Forgotten(states[n - 1], ops[n - 1], e)
  }

  /** In every run, every exit is accounted for exactly once: still held, taken by one joiner, or,
      for a detached thread, which owns no user resources, forgotten. */
  lemma {:induction false} ExitsConserved(states: seq<Sched>, ops: seq<Op>, n: nat, e: Estate)
    requires IsRun(states, ops) && n <= |ops|
    ensures forall i :: 0 <= i < |ops| ==> ops[i].c < |states[i].cpus|
    ensures Held(states[n].slots, e) + TotalTaken(states, ops, n, e) + TotalForgotten(states, ops, n, e)
            == Held(states[0].slots, e) + TotalLeft(states, ops, n, e)
    ensures e.user.Some? ==> TotalForgotten(states, ops, n, e) == 0
  {
    hide Inv, Apply, Held, Left, Taken, Forgotten;
    assert forall i :: 0 <= i < |ops| ==> Enabled(states[i], ops[i]);
    if n > 0 {
      ExitsConserved(states, ops, n - 1, e);
      RunStepConserves(states, ops, n - 1, e);
    }
  }

  lemma RunStepConserves(states: seq<Sched>, ops: seq<Op>, n: nat, e: Estate)
    requires IsRun(states, ops) && n < |ops|
    ensures ops[n].c < |states[n].cpus|
    ensures Held(states[n + 1].slots, e) + Taken(states[n], ops[n], e) + Forgotten(states[n], ops[n], e)
            == Held(states[n].slots, e) + Left(states[n], ops[n], e)
    ensures e.user.Some? ==> Forgotten(states[n], ops[n], e) == 0
  {
    RunKeepsInv(states, ops, n);
    assert Step(states[n], ops[n], states[n + 1]);
    StepConserves(states[n], ops[n], e);
    DroppedOwnsNothing(states[n], ops[n].c, e);
  }
}
