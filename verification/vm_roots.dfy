/**
  Ownership of user page-table roots across scheduling (kernel/src/memory/vm.rs:30-36, 393-403,
  589-680; sched/preempt.rs:383-403; sched/thread.rs:602-625, 716-738).

  Each CPU records the root installed in its translation register and whether user copies may use
  it. Idle keeps a root installed, so a root may be installed while its thread sleeps.
 */
module VmRoots {
  import opened Base
  import opened Waits
  import opened SchedState
  import opened SchedInvariant
  import opened SchedSteps
  import opened SchedOps
  import opened SchedRuns
  import opened SchedQuiet

  datatype CpuVm = CpuVm(installed: Option<nat>, access: bool)

  /** What usercopy on this CPU may use. */
  function ForUsercopy(x: CpuVm): Option<nat> {
    if x.access then x.installed else None
  }

  // ----- the three operations of the VM layer -----

  function Retain(x: CpuVm): CpuVm {
    x.(access := false)
  }

  function Clear(x: CpuVm): CpuVm {
    CpuVm(None, false)
  }

  predicate InstalledElsewhere(vm: seq<CpuVm>, c: nat, root: nat) {
    exists k :: 0 <= k < |vm| && k != c && vm[k].installed == Some(root)
  }

  /** Refused for a foreign root, or one that another CPU still has installed. */
  function Activate(vm: seq<CpuVm>, c: nat, user: User): (r: Option<seq<CpuVm>>)
    requires c < |vm|
  {
    if user.owner != c then None
    else if vm[c].installed == Some(user.root) then Some(vm[c := vm[c].(access := true)])
    else if InstalledElsewhere(vm, c, user.root) then None
    else Some(vm[c := CpuVm(Some(user.root), true)])
  }

  /** No root is installed on two CPUs. */
  predicate Exclusive(vm: seq<CpuVm>) {
    forall a, b :: 0 <= a < b < |vm| && vm[a].installed.Some? ==> vm[a].installed != vm[b].installed
  }

  /** Whatever was installed before: activation is refused exactly for a foreign root and for one that
      another CPU still has; otherwise it makes the root usable here, touches no other CPU, and no root
      gets installed twice. Idle keeps the root that is installed, without access to it. */
  lemma ActivateExclusive(vm: seq<CpuVm>, c: nat, user: User)
    requires c < |vm| && Exclusive(vm)
    ensures
      var r := Activate(vm, c, user);
      && (r.None? <==> user.owner != c || InstalledElsewhere(vm, c, user.root))
      && (r.Some? ==>
            && |r.value| == |vm| && Exclusive(r.value) && r.value[c] == CpuVm(Some(user.root), true)
            && forall k :: 0 <= k < |vm| && k != c ==> r.value[k] == vm[k])
    ensures Exclusive(vm[c := Retain(vm[c])]) && Exclusive(vm[c := Clear(vm[c])])
    ensures Retain(vm[c]).installed == vm[c].installed && ForUsercopy(Retain(vm[c])).None?
  {
    var r := Activate(vm, c, user);
    if r.Some? {
      forall a, b | 0 <= a < b < |vm| && r.value[a].installed.Some?
        ensures r.value[a].installed != r.value[b].installed
      {
        assert vm[a].installed.Some? ==> vm[a].installed != vm[b].installed;
      }
    }
  }

  /** Destruction is refused while any CPU has the root installed. */
  predicate MayDestroy(vm: seq<CpuVm>, root: nat) {
    forall k :: 0 <= k < |vm| ==> vm[k].installed != Some(root)
  }

  /** activate_thread_address_space for the thread that is about to run. */
  function ActivateThread(vm: seq<CpuVm>, s: Sched, c: nat, id: ThreadId): (r: Option<seq<CpuVm>>)
    requires c < |vm| && c < |s.cpus| && Live(s, id)
  {
    match At(s, id).user
    case Some(user) => Activate(vm, c, user)
    case None => Some(vm[c := if s.cpus[c].idle == Some(id) then Retain(vm[c]) else Clear(vm[c])])
  }

  // ----- the system -----

  /** Scheduler, per-CPU records, and the roots that exist. */
  datatype Sys = Sys(s: Sched, vm: seq<CpuVm>, roots: set<nat>)

  /** A live thread that has not exited and owns the root. */
  predicate Holds(s: Sched, id: ThreadId, c: nat, root: nat) {
    && Live(s, id) && !At(s, id).state.Exited? && At(s, id).home == c
    && At(s, id).user.Some? && At(s, id).user.value.root == root
  }

  ghost predicate Held(s: Sched, c: nat, root: nat) {
    exists id :: Holds(s, id, c, root)
  }

  function RootOf(s: Sched, id: ThreadId): Option<nat> {
    if Live(s, id) && At(s, id).user.Some? then Some(At(s, id).user.value.root) else None
  }

  predicate CpuVmOk(s: Sched, x: CpuVm, c: nat)
    requires c < |s.cpus|
  {
    && (s.cpus[c].online && s.cpus[c].current.Some? ==> ForUsercopy(x) == RootOf(s, s.cpus[c].current.value))
    && (!s.cpus[c].online ==> x == CpuVm(None, false))
  }

  ghost predicate VmInv(y: Sys) {
    && Inv(y.s) && |y.vm| == |y.s.cpus|
    && (forall c {:trigger y.vm[c]} :: 0 <= c < |y.vm| ==> CpuVmOk(y.s, y.vm[c], c))
    && (forall c {:trigger y.vm[c]} :: 0 <= c < |y.vm| && y.vm[c].installed.Some? ==>
          Held(y.s, c, y.vm[c].installed.value))
    && (forall a, b :: a != b && RootOf(y.s, a).Some? && RootOf(y.s, b).Some? ==> RootOf(y.s, a) != RootOf(y.s, b))
    && (forall a :: RootOf(y.s, a).Some? ==> RootOf(y.s, a).value in y.roots)
  }

  // ----- what a step does to threads and their resources -----

  predicate SameOwner(a: Thread, b: Thread) {
    b.home == a.home && b.user == a.user && (b.state.Exited? <==> a.state.Exited?)
  }

  /** Threads keep their resources; only exited threads may disappear; other CPUs do not switch. */
  ghost predicate Survive(s: Sched, s': Sched, c: nat) {
    && (forall id: ThreadId {:trigger Live(s', id)} :: Live(s', id) ==> Live(s, id) && SameOwner(At(s, id), At(s', id)))
    && (forall id: ThreadId {:trigger Live(s, id)} :: Live(s, id) && !At(s, id).state.Exited? ==> Live(s', id))
    && CpusKept(s, s', c)
  }

  predicate CpuKept(x: Cpu, x': Cpu, own: bool) {
    && (!own || (!x.online && x.current.Some?) ==> x'.current == x.current)
    && x'.online == x.online && (x.idle.Some? ==> x'.idle == x.idle)
  }

  ghost predicate CpusKept(s: Sched, s': Sched, c: nat) {
    && |s'.cpus| == |s.cpus|
    && forall k {:trigger s'.cpus[k]} :: 0 <= k < |s.cpus| ==> CpuKept(s.cpus[k], s'.cpus[k], k == c)
  }

  lemma QuietSurvive(s: Sched, s': Sched, c: nat)
    requires Quiet(s, s', c)
    ensures Survive(s, s', c)
  {
    assert forall i :: 0 <= i < |s.slots| ==> QuietSlot(s.slots[i], s'.slots[i]);
  }

  lemma SurviveTrans(s: Sched, m: Sched, s': Sched, c: nat)
    requires Survive(s, m, c) && Survive(m, s', c)
    ensures Survive(s, s', c)
  {
    forall id: ThreadId | Live(s', id) ensures Live(s, id) && SameOwner(At(s, id), At(s', id)) { assert Live(m, id); }
    forall id: ThreadId | Live(s, id) && !At(s, id).state.Exited? ensures Live(s', id) { assert Live(m, id); }
    forall k | 0 <= k < |s.cpus| ensures CpuKept(s.cpus[k], s'.cpus[k], k == c) {
      assert CpuKept(s.cpus[k], m.cpus[k], k == c);
    }
  }

  lemma RetireSurvive(s: Sched, c: nat, notify: bool)
    requires Inv(s) && c < |s.cpus|
    ensures Survive(s, Retire(s, c, notify), c)
  {
    hide Inv, Survive, CompleteWait;
    CpuFacts(s, c);
    InvCanFinalize(s, c);
    CpuSurvive(s, c, s.cpus[c]);
    assert PutCpu(s, c, s.cpus[c]) == s;
    if s.cpus[c].retired.Some? {
      var id := s.cpus[c].retired.value;
      var t, s1 := At(s, id), PutCpu(s, c, s.cpus[c].(retired := None));
      CpuSurvive(s, c, s.cpus[c].(retired := None));
      if t.joiner.Some? {
        var j, s2 := t.joiner.value.thread, CompleteWait(s1, c, t.joiner.value, Notified, notify).0;
        ThreadFacts(s, id);
        ThreadFacts(s, j);
        CompleteSurvive(s1, c, t.joiner.value, notify, id);
        var s3 := Put(s2, j, At(s2, j).(joinResult := Some(JoinOk(t.exitCode.value)), reaped := t.user));
        PutSurvive(s2, j, At(s3, j), c);
        ReapSurvive(s3, id, c);
        SurviveTrans(s, s1, s2, c);
        SurviveTrans(s, s2, s3, c);
        SurviveTrans(s, s3, Release(s3, id), c);
      } else if !t.joinable {
        ReapSurvive(s1, id, c);
        SurviveTrans(s, s1, Release(s1, id), c);
      }
    }
  }

  lemma CpuSurvive(s: Sched, c: nat, x: Cpu)
    requires c < |s.cpus| && x.current == s.cpus[c].current && x.online == s.cpus[c].online && x.idle == s.cpus[c].idle
    ensures Survive(s, PutCpu(s, c, x), c)
  {
  }

  /** The woken joiner and the thread it joined both stay. */
  lemma CompleteSurvive(s: Sched, c: nat, token: WaitToken, notify: bool, id: ThreadId)
    requires c < |s.cpus| && Live(s, token.thread) && At(s, token.thread).home < |s.cpus|
    requires At(s, token.thread).wait.active == Some(ActiveWait(token, PhaseBlocked, Explicit))
    requires !At(s, token.thread).state.Exited? && Live(s, id) && id.index != token.thread.index
    ensures
      var s' := CompleteWait(s, c, token, Notified, notify).0;
      Survive(s, s', c) && Live(s', token.thread) && Live(s', id) && At(s', id) == At(s, id)
  {
  }

  lemma PutSurvive(s: Sched, id: ThreadId, t: Thread, c: nat)
    requires Live(s, id) && SameOwner(At(s, id), t)
    ensures Survive(s, Put(s, id, t), c)
  {
  }

  lemma ReapSurvive(s: Sched, id: ThreadId, c: nat)
    requires Live(s, id) && At(s, id).state.Exited?
    ensures Survive(s, Release(s, id), c)
  {
  }

  lemma JoinSurvive(s: Sched, c: nat, target: ThreadId)
    requires Inv(s) && MayJoin(s, c, target)
    ensures Survive(s, JoinThread(s, c, target), c)
  {
    hide Inv, Survive, Retire, MayJoin, Quiet;
    JoinReady(s, c, target);
    var s1, s' := Retire(s, c, true), JoinThread(s, c, target);
    RetireSurvive(s, c, true);
    var current := Current(s1, c);
    match JoinPathOf(s1, c, target) {
      case JoinFails(error) => PutSurvive(s1, current, At(s', current), c);
      case JoinReaps =>
        JoinReapInv(s1, c, target);
        var s2 := Release(s1, target);
        ReapSurvive(s1, target, c);
        PutSurvive(s2, current, At(s', current), c);
        SurviveTrans(s1, s2, s', c);
      case JoinBlocks =>
        var s2 := JoinBlock(s1, c, target);
        BlockQuiet(s1, c, target);
        AcknowledgeQuiet(s2, c);
        QuietTrans(s1, s2, s', c);
        QuietSurvive(s1, s', c);
    }
    SurviveTrans(s, s1, s', c);
  }

  predicate QuietOp(op: Op) {
    && !op.Exit? && !op.Join? && !op.TakeJoined?
    && !op.InitIdle? && !op.SpawnKernel? && !op.SpawnUser? && !op.Exec? && !op.Enter?
  }

  lemma QuietStepSurvive(s: Sched, op: Op)
    requires Inv(s) && Enabled(s, op) && QuietOp(op)
    ensures Survive(s, Apply(s, op), op.c)
  {
    hide Inv, Survive, Retire, Quiet, Apply;
    StepQuiet(s, op);
    if Enters(op) {
      var s1 := Retire(s, op.c, !op.Timer?);
      QuietSurvive(s1, Apply(s, op), op.c);
      RetireSurvive(s, op.c, !op.Timer?);
      SurviveTrans(s, s1, Apply(s, op), op.c);
    } else {
      QuietSurvive(s, Apply(s, op), op.c);
    }
  }

  /** Steps other than birth, exit, exec and CPU start. */
  lemma StepSurvive(s: Sched, op: Op)
    requires Inv(s) && Enabled(s, op) && !op.Exit? && !op.InitIdle? && !op.SpawnKernel? && !op.SpawnUser? && !op.Exec?
    requires !op.Enter?
    ensures Survive(s, Apply(s, op), op.c)
  {
    hide Inv, Survive, JoinThread;
    var c := op.c;
    if op.Join? {
      JoinSurvive(s, c, op.target);
    } else if op.TakeJoined? {
      PutSurvive(s, Current(s, c), At(s, Current(s, c)), c);
      assert Put(s, Current(s, c), At(s, Current(s, c))) == s;
      PutSurvive(s, Current(s, c), At(s, Current(s, c)).(joinResult := None, reaped := None), c);
    } else {
      QuietStepSurvive(s, op);
    }
  }

  /** One thread is born with the given resources; everything else survives. */
  ghost predicate Born(s: Sched, s': Sched, c: nat, id: ThreadId, user: Option<User>) {
    && Live(s', id) && !Live(s, id) && At(s', id).user == user && !At(s', id).state.Exited?
    && (forall x: ThreadId {:trigger Live(s', x)} :: Live(s', x) && x != id ==>
          Live(s, x) && SameOwner(At(s, x), At(s', x)))
    && (forall x: ThreadId {:trigger Live(s, x)} :: Live(s, x) ==> Live(s', x))
    && CpusKept(s, s', c)
  }

  lemma SpawnBorn(s: Sched, c: nat, home: nat, user: Option<User>, joinable: bool)
    requires Inv(s) && c < |s.cpus| && CanSpawn(s, home) && (user.Some? ==> joinable && user.value.owner == home)
    ensures HasFree(s)
    ensures
      var s' := SpawnOn(s, c, home, user, joinable);
      && Born(s, s', c, ThreadId(FreeTop(s), NextGeneration(s.slots[FreeTop(s)].generation)), user)
      && s'.cpus[c].current == s.cpus[c].current
  {
    FreeTopFree(s);
  }

  lemma StartBorn(s: Sched, c: nat)
    requires Inv(s) && c < |s.cpus| && s.cpus[c].idle.None? && !s.cpus[c].initialized && s.cpus[c].current.None?
    requires s.free != []
    ensures HasFree(s) && Born(s, StartIdle(s, c), c, ThreadId(FreeTop(s), 1), None)
  {
    FreeTopFree(s);
    AddIdleInv(s, c);
    NextAlive(AddIdle(s, c), c);
  }

  /** The running thread becomes exited and keeps its resources; everything else survives. */
  ghost predicate Exits(s: Sched, s': Sched, c: nat, from: ThreadId) {
    && Live(s, from) && Live(s', from) && At(s', from).user == At(s, from).user && At(s', from).home == At(s, from).home
    && At(s', from).state.Exited?
    && (forall x: ThreadId {:trigger Live(s', x)} :: Live(s', x) && x != from ==>
          Live(s, x) && SameOwner(At(s, x), At(s', x)))
    && (forall x: ThreadId {:trigger Live(s, x)} :: Live(s, x) && x != from && !At(s, x).state.Exited? ==> Live(s', x))
    && CpusKept(s, s', c)
  }

  lemma ExitCurrentEffect(s: Sched, c: nat, code: nat)
    requires HasCurrent(s, c) && HasNext(s, c) && Next(s, c).index != Current(s, c).index
    requires !At(s, Next(s, c)).state.Exited?
    requires s.cpus[c].online
    ensures var s' := Acknowledge(ExitCurrent(s, c, code), c);
      Exits(s, s', c, Current(s, c))
  {
  }

  lemma ExitEffect(s: Sched, c: nat, code: nat)
    requires Inv(s) && MayExit(s, c)
    ensures HasCurrent(s, c) && Exits(s, ExitThread(s, c, code), c, Current(s, c))
  {
    hide Inv;
    CpuFacts(s, c);
    CpuReady(s, c);
    RetireSurvive(s, c, true);
    var s1, s' := Retire(s, c, true), ExitThread(s, c, code);
    CpuReady(s1, c);
    CpuFacts(s1, c);
    NextAlive(s1, c);
    ExitCurrentEffect(s1, c, code);
    SurviveExits(s, s1, s', c, Current(s, c));
  }

  lemma SurviveExits(s: Sched, m: Sched, s': Sched, c: nat, from: ThreadId)
    requires Survive(s, m, c) && Exits(m, s', c, from) && Live(s, from)
    ensures Exits(s, s', c, from)
  {
    forall x: ThreadId | Live(s', x) && x != from
      ensures Live(s, x) && SameOwner(At(s, x), At(s', x))
    {
      assert Live(m, x);
    }
    forall x: ThreadId | Live(s, x) && x != from && !At(s, x).state.Exited? ensures Live(s', x) { assert Live(m, x); }
    forall k | 0 <= k < |s.cpus| ensures CpuKept(s.cpus[k], s'.cpus[k], k == c) {
      assert CpuKept(s.cpus[k], m.cpus[k], k == c);
    }
  }

  // ----- the VM side of a step -----

  predicate Switches(s: Sched, s': Sched, c: nat) {
    c < |s.cpus| && c < |s'.cpus| && s.cpus[c].current.Some? && s'.cpus[c].current.Some?
    && s'.cpus[c].current != s.cpus[c].current
  }

  /** An exiting user thread that leaves the CPU to idle detaches its root. */
  predicate ClearsAtExit(s: Sched, s': Sched, op: Op) {
    && op.Exit? && HasCurrent(s, op.c) && At(s, Current(s, op.c)).user.Some?
    && op.c < |s'.cpus| && s'.cpus[op.c].current == s'.cpus[op.c].idle
  }

  /** None is a panic: the address space of the selected thread cannot be activated. */
  ghost function VmAfter(vm: seq<CpuVm>, s: Sched, s': Sched, op: Op): Option<seq<CpuVm>>
    requires op.c < |vm| == |s.cpus| == |s'.cpus|
    requires s'.cpus[op.c].current.Some? ==> Live(s', s'.cpus[op.c].current.value)
  {
    var c := op.c;
    if op.Exec? then (if CanExec(s, c, op.user) then Activate(vm, c, op.user) else Some(vm))
    else if op.Enter? && s'.cpus[c].current.Some? then ActivateThread(vm, s', c, s'.cpus[c].current.value)
    else if Switches(s, s', c) then
      ActivateThread(if ClearsAtExit(s, s', op) then vm[c := Clear(vm[c])] else vm, s', c, s'.cpus[c].current.value)
    else Some(vm)
  }

  ghost predicate RootsOk(s: Sched, roots: set<nat>) {
    && (forall a, b :: a != b && RootOf(s, a).Some? && RootOf(s, b).Some? ==> RootOf(s, a) != RootOf(s, b))
    && (forall a :: RootOf(s, a).Some? ==> RootOf(s, a).value in roots)
  }

  /** Installed roots still have their holders, except on c, where only idle keeps what it finds. */
  ghost predicate HoldersOk(y: Sys, s': Sched, c: nat, keeps: bool) {
    forall k {:trigger y.vm[k]} :: 0 <= k < |y.vm| && y.vm[k].installed.Some? && (k != c || keeps) ==>
      Held(s', k, y.vm[k].installed.value)
  }

  /** The thread selected on c can be activated, and the result is consistent. */
  lemma Activated(y: Sys, s': Sched, c: nat, id: ThreadId, keeps: bool)
    requires Inv(s') && RootsOk(s', y.roots) && c < |y.vm| == |s'.cpus|
    requires HoldersOk(y, s', c, keeps) && s'.cpus[c].online && s'.cpus[c].current == Some(id) && Live(s', id)
    requires s'.cpus[c].idle == Some(id) ==> keeps
    requires forall k :: 0 <= k < |y.vm| && k != c ==> CpuVmOk(s', y.vm[k], k)
    ensures ActivateThread(y.vm, s', c, id).Some?
    ensures VmInv(Sys(s', ActivateThread(y.vm, s', c, id).value, y.roots))
  {
    CpuFacts(s', c);
    ThreadFacts(s', id);
    if At(s', id).user.Some? {
      var root := At(s', id).user.value.root;
      assert Holds(s', id, c, root);
      NotElsewhere(y, s', c, id, keeps);
    }
  }

  lemma NotElsewhere(y: Sys, s': Sched, c: nat, id: ThreadId, keeps: bool)
    requires RootsOk(s', y.roots) && HoldersOk(y, s', c, keeps) && Live(s', id) && At(s', id).home == c
    requires At(s', id).user.Some?
    ensures !InstalledElsewhere(y.vm, c, At(s', id).user.value.root)
  {
    var root := At(s', id).user.value.root;
    if k :| 0 <= k < |y.vm| && k != c && y.vm[k].installed == Some(root) {
      assert Held(s', k, root);
      var x :| Holds(s', x, k, root);
      RootUnique(s', y.roots, x, id);
    }
  }

  lemma RootUnique(s: Sched, roots: set<nat>, a: ThreadId, b: ThreadId)
    requires RootsOk(s, roots) && RootOf(s, a).Some? && RootOf(s, a) == RootOf(s, b)
    ensures a == b
  {
  }

  lemma SurviveHolders(y: Sys, s': Sched, c: nat)
    requires VmInv(y) && Survive(y.s, s', c)
    ensures HoldersOk(y, s', c, true) && RootsOk(s', y.roots)
    ensures forall k :: 0 <= k < |y.vm| && k != c ==> CpuVmOk(s', y.vm[k], k)
  {
    forall k | 0 <= k < |y.vm| && y.vm[k].installed.Some? ensures Held(s', k, y.vm[k].installed.value) {
      var id :| Holds(y.s, id, k, y.vm[k].installed.value);
      assert Live(s', id);
      assert Holds(s', id, k, y.vm[k].installed.value);
    }
    forall a | RootOf(s', a).Some? ensures RootOf(s', a) == RootOf(y.s, a) { assert Live(s', a); }
    forall k | 0 <= k < |y.vm| && k != c ensures CpuVmOk(s', y.vm[k], k) {
      assert CpuVmOk(y.s, y.vm[k], k) && CpuKept(y.s.cpus[k], s'.cpus[k], false);
      CurrentRoot(y.s, s', k);
    }
  }

  /** A current thread is live and keeps its root. */
  lemma CurrentRoot(s: Sched, s': Sched, k: nat)
    requires Inv(s) && k < |s.cpus|
    requires forall id: ThreadId {:trigger Live(s', id)} :: Live(s', id) ==> Live(s, id) ==>
      SameOwner(At(s, id), At(s', id))
    requires forall id: ThreadId {:trigger Live(s, id)} :: Live(s, id) && !At(s, id).state.Exited? ==> Live(s', id)
    ensures s.cpus[k].current.Some? ==> RootOf(s', s.cpus[k].current.value) == RootOf(s, s.cpus[k].current.value)
  {
    CpuFacts(s, k);
    if s.cpus[k].current.Some? {
      assert Live(s, s.cpus[k].current.value);
      assert Live(s', s.cpus[k].current.value);
    }
  }

  // ----- steps keep the invariant -----

  ghost predicate StepOk(y: Sys, op: Op)
    requires VmInv(y) && Enabled(y.s, op)
  {
    var s' := Apply(y.s, op);
    && op.c < |y.vm| == |y.s.cpus| == |s'.cpus|
    && (s'.cpus[op.c].current.Some? ==> Live(s', s'.cpus[op.c].current.value))
    && VmAfter(y.vm, y.s, s', op).Some?
    && VmInv(Sys(s', VmAfter(y.vm, y.s, s', op).value, y.roots))
  }

  /** Nothing switches on c: all records stay. */
  lemma Unswitched(y: Sys, s': Sched, c: nat)
    requires VmInv(y) && Inv(s') && RootsOk(s', y.roots) && HoldersOk(y, s', c, true) && c < |y.vm| == |s'.cpus|
    requires forall k :: 0 <= k < |y.vm| && k != c ==> CpuVmOk(s', y.vm[k], k)
    requires CpuVmOk(s', y.vm[c], c)
    ensures VmInv(Sys(s', y.vm, y.roots))
  {
  }

  /** After a step without exit or exec: either the CPU kept its thread, or a new one is activated. */
  lemma StepEnds(y: Sys, s': Sched, op: Op)
    requires VmInv(y) && Inv(s') && op.c < |y.s.cpus| && !op.Exit? && !op.Exec? && !op.Enter?
    requires CpusKept(y.s, s', op.c) && HoldersOk(y, s', op.c, true) && RootsOk(s', y.roots)
    requires forall k :: 0 <= k < |y.vm| && k != op.c ==> CpuVmOk(s', y.vm[k], k)
    requires s'.cpus[op.c].current == y.s.cpus[op.c].current ==> CpuVmOk(s', y.vm[op.c], op.c)
    ensures s'.cpus[op.c].current.Some? ==> Live(s', s'.cpus[op.c].current.value)
    ensures VmAfter(y.vm, y.s, s', op).Some? && VmInv(Sys(s', VmAfter(y.vm, y.s, s', op).value, y.roots))
  {
    var c := op.c;
    CpuFacts(s', c);
    CpuFacts(y.s, c);
    assert CpuKept(y.s.cpus[c], s'.cpus[c], true);
    if Switches(y.s, s', c) {
      Activated(y, s', c, s'.cpus[c].current.value, true);
    } else {
      Unswitched(y, s', c);
    }
  }

  lemma SurviveStep(y: Sys, op: Op)
    requires VmInv(y) && Enabled(y.s, op) && Survive(y.s, Apply(y.s, op), op.c)
    requires !op.Exit? && !op.InitIdle? && !op.SpawnKernel? && !op.SpawnUser? && !op.Exec? && !op.Enter?
    ensures StepOk(y, op)
  {
    hide Apply, Inv;
    var s', c := Apply(y.s, op), op.c;
    SurviveHolders(y, s', c);
    CurrentRoot(y.s, s', c);
    assert CpuVmOk(y.s, y.vm[c], c) && CpuKept(y.s.cpus[c], s'.cpus[c], true);
    StepEnds(y, s', op);
  }

  // ----- birth, exit, exec, entry -----

  ghost predicate FreshRoot(y: Sys, root: nat) {
    root in y.roots && forall id: ThreadId :: RootOf(y.s, id) != Some(root)
  }

  lemma BornHolders(y: Sys, m: Sched, s': Sched, c: nat, id: ThreadId, user: Option<User>)
    requires VmInv(y) && Survive(y.s, m, c) && Born(m, s', c, id, user)
    requires user.Some? ==> FreshRoot(y, user.value.root)
    ensures HoldersOk(y, s', c, true) && RootsOk(s', y.roots) && CpusKept(y.s, s', c)
    ensures forall k :: 0 <= k < |y.vm| && k != c ==> CpuVmOk(s', y.vm[k], k)
    ensures c < |y.vm| && s'.cpus[c].current == y.s.cpus[c].current ==> CpuVmOk(s', y.vm[c], c)
  {
    forall k | 0 <= k < |y.vm| && y.vm[k].installed.Some? ensures Held(s', k, y.vm[k].installed.value) {
      var x :| Holds(y.s, x, k, y.vm[k].installed.value);
      assert Live(m, x) && Live(s', x);
      assert Holds(s', x, k, y.vm[k].installed.value);
    }
    forall a | RootOf(s', a).Some?
      ensures if a == id then RootOf(s', a) == Some(user.value.root) else RootOf(s', a) == RootOf(y.s, a)
    {
      assert Live(s', a);
      if a != id { assert Live(m, a); }
    }
    forall k | 0 <= k < |y.s.cpus| ensures CpuKept(y.s.cpus[k], s'.cpus[k], k == c) {
      assert CpuKept(y.s.cpus[k], m.cpus[k], k == c) && CpuKept(m.cpus[k], s'.cpus[k], k == c);
    }
    forall x: ThreadId | Live(s', x) && Live(y.s, x) && !At(y.s, x).state.Exited?
      ensures SameOwner(At(y.s, x), At(s', x))
    {
      assert Live(m, x);
    }
    forall k | 0 <= k < |y.vm| && s'.cpus[k].current == y.s.cpus[k].current ensures CpuVmOk(s', y.vm[k], k) {
      assert CpuVmOk(y.s, y.vm[k], k);
      BornRoot(y.s, m, s', k);
    }
  }

  lemma BornRoot(s: Sched, m: Sched, s': Sched, k: nat)
    requires Inv(s) && k < |s.cpus|
    requires forall x: ThreadId {:trigger Live(s, x)} :: Live(s, x) && !At(s, x).state.Exited? ==> Live(m, x)
    requires forall x: ThreadId {:trigger Live(m, x)} :: Live(m, x) ==> Live(s', x)
    requires forall x: ThreadId :: Live(s', x) && Live(s, x) && !At(s, x).state.Exited? ==>
      SameOwner(At(s, x), At(s', x))
    ensures s.cpus[k].current.Some? ==> RootOf(s', s.cpus[k].current.value) == RootOf(s, s.cpus[k].current.value)
  {
    CpuFacts(s, k);
    if s.cpus[k].current.Some? { assert Live(s, s.cpus[k].current.value) && Live(m, s.cpus[k].current.value); }
  }

  lemma SpawnStep(y: Sys, op: Op)
    requires VmInv(y) && Enabled(y.s, op) && (op.SpawnKernel? || op.SpawnUser?)
    requires op.SpawnUser? ==> FreshRoot(y, op.user.root)
    ensures StepOk(y, op)
  {
    hide Inv, Survive, Born, Retire, SpawnOn, VmInv;
    VmFacts(y);
    var c, s' := op.c, Apply(y.s, op);
    var m := if op.SpawnKernel? then Retire(y.s, c, true) else y.s;
    var home, user, joinable := if op.SpawnKernel? then op.home else op.user.owner,
                                if op.SpawnKernel? then None else Some(op.user), op.SpawnUser? || op.joinable;
    RetireSurvive(y.s, c, true);
    SelfSurvive(y.s, c);
    assert Inv(m) && s' == SpawnOn(m, c, home, user, joinable);
    if CanSpawn(m, home) {
      SpawnBorn(m, c, home, user, joinable);
      BornHolders(y, m, s', c, ThreadId(FreeTop(m), NextGeneration(m.slots[FreeTop(m)].generation)), user);
      StepEnds(y, s', op);
    } else {
      SpawnIdle(m, c, home, user, joinable);
      SurviveHolders(y, s', c);
      SurviveKept(y, s', c);
      StepEnds(y, s', op);
    }
  }

  lemma VmFacts(y: Sys)
    requires VmInv(y)
    ensures Inv(y.s) && |y.vm| == |y.s.cpus|
  {
  }

  lemma SpawnIdle(s: Sched, c: nat, home: nat, user: Option<User>, joinable: bool)
    requires Inv(s) && c < |s.cpus| && (user.Some? ==> joinable && user.value.owner == home) && !CanSpawn(s, home)
    ensures SpawnOn(s, c, home, user, joinable) == s
  {
  }

  lemma SelfSurvive(s: Sched, c: nat)
    ensures Survive(s, s, c)
  {
  }

  lemma SurviveKept(y: Sys, s': Sched, c: nat)
    requires VmInv(y) && Survive(y.s, s', c) && c < |y.vm|
    ensures CpusKept(y.s, s', c) && (s'.cpus[c].current == y.s.cpus[c].current ==> CpuVmOk(s', y.vm[c], c))
  {
    CurrentRoot(y.s, s', c);
    assert CpuVmOk(y.s, y.vm[c], c) && CpuKept(y.s.cpus[c], s'.cpus[c], true);
  }

  lemma StartStep(y: Sys, op: Op)
    requires VmInv(y) && Enabled(y.s, op) && op.InitIdle?
    ensures StepOk(y, op)
  {
    hide Inv, Survive, Born, StartIdle, VmInv;
    VmFacts(y);
    var c, s := op.c, y.s;
    var s' := Apply(s, op);
    SelfSurvive(s, c);
    if s.cpus[c].initialized || s.cpus[c].current.Some? || s.cpus[c].idle.Some? || s.free == [] {
      StartRefused(s, c);
      SurviveHolders(y, s', c);
      SurviveKept(y, s', c);
      StepEnds(y, s', op);
    } else {
      StartBorn(s, c);
      BornHolders(y, s, s', c, ThreadId(FreeTop(s), 1), None);
      StepEnds(y, s', op);
    }
  }

  lemma StartRefused(s: Sched, c: nat)
    requires Inv(s) && c < |s.cpus|
    requires s.cpus[c].initialized || s.cpus[c].current.Some? || s.cpus[c].idle.Some? || s.free == []
    ensures StartIdle(s, c) == s
  {
  }

  lemma ExitHolders(y: Sys, s': Sched, c: nat, from: ThreadId, clears: bool)
    requires VmInv(y) && Exits(y.s, s', c, from) && c < |y.vm| && At(y.s, from).home == c
    requires y.s.cpus[c].current == Some(from)
    ensures
      var y1 := if clears then y.(vm := y.vm[c := Clear(y.vm[c])]) else y;
      && HoldersOk(y1, s', c, clears || At(y.s, from).user.None?)
      && RootsOk(s', y.roots)
      && (forall k :: 0 <= k < |y1.vm| && k != c ==> CpuVmOk(s', y1.vm[k], k))
  {
    var y1 := if clears then y.(vm := y.vm[c := Clear(y.vm[c])]) else y;
    forall k | 0 <= k < |y1.vm| && y1.vm[k].installed.Some? && (k != c || clears || At(y.s, from).user.None?)
      ensures Held(s', k, y1.vm[k].installed.value)
    {
      assert y.vm[k] == y1.vm[k];
      var x :| Holds(y.s, x, k, y.vm[k].installed.value);
      assert x != from && Live(s', x);
      assert Holds(s', x, k, y.vm[k].installed.value);
    }
    forall a | RootOf(s', a).Some? ensures RootOf(s', a) == RootOf(y.s, a) { assert Live(s', a); }
    forall k | 0 <= k < |y.vm| && k != c ensures CpuVmOk(s', y.vm[k], k) {
      assert CpuVmOk(y.s, y.vm[k], k) && CpuKept(y.s.cpus[k], s'.cpus[k], false);
      CpuFacts(y.s, k);
      if y.s.cpus[k].current.Some? {
        assert Live(y.s, y.s.cpus[k].current.value) && Live(s', y.s.cpus[k].current.value);
      }
    }
  }

  lemma ExitStep(y: Sys, op: Op)
    requires VmInv(y) && Enabled(y.s, op) && op.Exit?
    ensures StepOk(y, op)
  {
    hide Inv, Exits, VmInv, ExitThread;
    VmFacts(y);
    var c, s := op.c, y.s;
    var s' := Apply(s, op);
    ExitEffect(s, c, op.code);
    CpuFacts(s, c);
    var from := Current(s, c);
    ExitCpus(s, s', c, from);
    CpuFacts(s', c);
    var clears := ClearsAtExit(s, s', op);
    var y1 := if clears then y.(vm := y.vm[c := Clear(y.vm[c])]) else y;
    ExitHolders(y, s', c, from, clears);
    Activated(y1, s', c, s'.cpus[c].current.value, clears || At(s, from).user.None?);
  }

  /** The exiting thread is not current any more. */
  lemma ExitCpus(s: Sched, s': Sched, c: nat, from: ThreadId)
    requires Inv(s) && Inv(s') && c < |s.cpus| && Exits(s, s', c, from) && s.cpus[c].current == Some(from)
    requires s.cpus[c].online
    ensures |s'.cpus| == |s.cpus| && s'.cpus[c].online && s'.cpus[c].idle == s.cpus[c].idle
    ensures s'.cpus[c].current.Some? && s'.cpus[c].current != Some(from)
  {
    CpuFacts(s, c);
    assert CpuKept(s.cpus[c], s'.cpus[c], true);
    CpuFacts(s', c);
  }

  lemma EnterStep(y: Sys, op: Op)
    requires VmInv(y) && Enabled(y.s, op) && op.Enter?
    ensures StepOk(y, op)
  {
    var c, s := op.c, y.s;
    var s' := Apply(s, op);
    assert forall id: ThreadId :: (Live(s', id) <==> Live(s, id)) && RootOf(s', id) == RootOf(s, id);
    EnterHolders(y, s', c);
    hide Inv, VmInv;
    VmFacts(y);
    CpuFacts(s, c);
    CpuFacts(s', c);
    Activated(y, s', c, s'.cpus[c].current.value, true);
  }

  lemma EnterHolders(y: Sys, s': Sched, c: nat)
    requires VmInv(y) && c < |y.vm| && s'.slots == y.s.slots && |s'.cpus| == |y.s.cpus|
    requires forall k :: 0 <= k < |y.vm| && k != c ==> s'.cpus[k] == y.s.cpus[k]
    ensures HoldersOk(y, s', c, true) && RootsOk(s', y.roots)
    ensures forall k :: 0 <= k < |y.vm| && k != c ==> CpuVmOk(s', y.vm[k], k)
  {
    forall k | 0 <= k < |y.vm| && y.vm[k].installed.Some? ensures Held(s', k, y.vm[k].installed.value) {
      var x :| Holds(y.s, x, k, y.vm[k].installed.value);
      assert Holds(s', x, k, y.vm[k].installed.value);
    }
    assert forall a :: RootOf(s', a) == RootOf(y.s, a);
    forall k | 0 <= k < |y.vm| && k != c ensures CpuVmOk(s', y.vm[k], k) { assert CpuVmOk(y.s, y.vm[k], k); }
  }

  lemma ExecStep(y: Sys, op: Op)
    requires VmInv(y) && Enabled(y.s, op) && op.Exec? && (CanExec(y.s, op.c, op.user) ==> FreshRoot(y, op.user.root))
    ensures StepOk(y, op)
  {
    var c, s := op.c, y.s;
    var s' := Apply(s, op);
    CpuFacts(s, c);
    CpuFacts(s', c);
    if CanExec(s, c, op.user) {
      NotInstalled(y, op.user.root);
      ExecHolders(y, s', c, op.user);
    }
  }

  /** A root that no thread owns is installed nowhere. */
  lemma NotInstalled(y: Sys, root: nat)
    requires VmInv(y) && forall id: ThreadId :: RootOf(y.s, id) != Some(root)
    ensures MayDestroy(y.vm, root)
  {
    forall k | 0 <= k < |y.vm| ensures y.vm[k].installed != Some(root) {
      if y.vm[k].installed.Some? {
        var x :| Holds(y.s, x, k, y.vm[k].installed.value);
        assert RootOf(y.s, x) == y.vm[k].installed;
      }
    }
  }

  lemma ExecHolders(y: Sys, s': Sched, c: nat, user: User)
    requires VmInv(y) && c < |y.vm| && CanExec(y.s, c, user) && FreshRoot(y, user.root)
    requires s' == ReplaceUser(y.s, c, user) && Inv(s')
    requires At(y.s, Current(y.s, c)).home == c && MayDestroy(y.vm, user.root) && y.s.cpus[c].online
    ensures Activate(y.vm, c, user).Some? && VmInv(Sys(s', Activate(y.vm, c, user).value, y.roots))
  {
    var id, vm' := Current(y.s, c), y.vm[c := CpuVm(Some(user.root), true)];
    assert Activate(y.vm, c, user) == Some(vm');
    CpuFacts(y.s, c);
    assert forall a :: RootOf(s', a) == if a == id then Some(user.root) else RootOf(y.s, a);
    assert Holds(s', id, c, user.root);
    forall k | 0 <= k < |vm'| && vm'[k].installed.Some? ensures Held(s', k, vm'[k].installed.value) {
      if k != c {
        assert vm'[k] == y.vm[k];
        var x :| Holds(y.s, x, k, y.vm[k].installed.value);
        assert Holds(s', x, k, y.vm[k].installed.value);
      }
    }
    forall k | 0 <= k < |vm'| ensures CpuVmOk(s', vm'[k], k) {
      if k != c {
        assert CpuVmOk(y.s, y.vm[k], k);
        CpuFacts(y.s, k);
      }
    }
  }

  lemma StepKeepsVm(y: Sys, op: Op)
    requires VmInv(y) && Enabled(y.s, op)
    requires op.SpawnUser? || (op.Exec? && CanExec(y.s, op.c, op.user)) ==> FreshRoot(y, op.user.root)
    ensures StepOk(y, op)
  {
    hide Inv, VmInv, Apply, StepOk;
    VmFacts(y);
    if op.Exit? {
      ExitStep(y, op);
    } else if op.Enter? {
      EnterStep(y, op);
    } else if op.Exec? {
      ExecStep(y, op);
    } else if op.InitIdle? {
      StartStep(y, op);
    } else if op.SpawnKernel? || op.SpawnUser? {
      SpawnStep(y, op);
    } else {
      StepSurvive(y.s, op);
      SurviveStep(y, op);
    }
  }

  // ----- runs -----

  /** Scheduler steps, and creation and destruction of roots. A destroyed root may be created again. */
  datatype VmOp = Run(op: Op) | CreateRoot(root: nat) | DestroyRoot(root: nat)

  /** Roots given to spawn and exec are new to the scheduler; destruction comes after the join or exec
      that took the root from its thread. */
  ghost predicate VmEnabled(y: Sys, step: VmOp) {
    match step
    case Run(op) =>
      Enabled(y.s, op) && (op.SpawnUser? || (op.Exec? && CanExec(y.s, op.c, op.user)) ==> FreshRoot(y, op.user.root))
    case CreateRoot(root) => root !in y.roots
    case DestroyRoot(root) => root in y.roots && forall id: ThreadId :: RootOf(y.s, id) != Some(root)
  }

  ghost function VmNext(y: Sys, step: VmOp): Sys
    requires VmInv(y) && VmEnabled(y, step)
  {
    match step
    case Run(op) =>
      StepKeepsVm(y, op);
      Sys(Apply(y.s, op), VmAfter(y.vm, y.s, Apply(y.s, op), op).value, y.roots)
    case CreateRoot(root) => y.(roots := y.roots + {root})
    case DestroyRoot(root) => y.(roots := y.roots - {root})
  }

  lemma VmNextInv(y: Sys, step: VmOp)
    requires VmInv(y) && VmEnabled(y, step)
    ensures VmInv(VmNext(y, step))
  {
    match step
    case Run(op) => StepKeepsVm(y, op);
    case CreateRoot(_) =>
    case DestroyRoot(_) =>
  }

  ghost predicate IsVmRun(states: seq<Sys>, steps: seq<VmOp>) {
    && |states| == |steps| + 1 && VmInv(states[0])
    && forall n: nat :: n < |steps| ==> VmStepAt(states, steps, n)
  }

  ghost predicate VmStepAt(states: seq<Sys>, steps: seq<VmOp>, n: nat)
    requires n < |steps| && |states| == |steps| + 1
  {
    VmEnabled(states[n], steps[n]) && (VmInv(states[n]) ==> states[n + 1] == VmNext(states[n], steps[n]))
  }

  /** A booted scheduler without user threads starts such a run. */
  lemma BootVm(s: Sched)
    requires Inv(s) && forall id: ThreadId :: RootOf(s, id).None?
    ensures VmInv(Sys(s, seq(|s.cpus|, _ => CpuVm(None, false)), {}))
  {
    hide Inv;
    forall k: nat | k < |s.cpus| ensures CpuVmOk(s, CpuVm(None, false), k) { CpuFacts(s, k); }
  }

  lemma {:induction false} RunKeepsVm(states: seq<Sys>, steps: seq<VmOp>, n: nat)
    requires IsVmRun(states, steps) && n < |states|
    ensures VmInv(states[n])
  {
    hide VmInv, VmNext, VmEnabled;
    if n > 0 {
      RunKeepsVm(states, steps, n - 1);
      assert VmStepAt(states, steps, n - 1);
      VmNextInv(states[n - 1], steps[n - 1]);
    }
  }

  /** In every run, usercopy on an online CPU names exactly the address space of its current thread. */
  lemma UsercopyExact(states: seq<Sys>, steps: seq<VmOp>, n: nat, c: nat)
    requires IsVmRun(states, steps) && n < |states| && c < |states[n].vm|
    ensures
      var y := states[n];
      && c < |y.s.cpus|
      && (y.s.cpus[c].online && y.s.cpus[c].current.Some? ==>
            ForUsercopy(y.vm[c]) == RootOf(y.s, y.s.cpus[c].current.value))
  {
    RunKeepsVm(states, steps, n);
  }

  /** A root that reaches destruction is installed on no CPU, so destruction is never refused and a
      reused root address is never mistaken for the old root. */
  lemma DestroyedNowhereInstalled(states: seq<Sys>, steps: seq<VmOp>, n: nat)
    requires IsVmRun(states, steps) && n < |steps| && steps[n].DestroyRoot?
    ensures MayDestroy(states[n].vm, steps[n].root)
  {
    RunKeepsVm(states, steps, n);
    assert VmStepAt(states, steps, n);
    NotInstalled(states[n], steps[n].root);
  }

  /** The root of an exited thread is installed nowhere, before and after it is joined. */
  lemma ExitedRootDetached(y: Sys, id: ThreadId)
    requires VmInv(y) && Live(y.s, id) && At(y.s, id).state.Exited? && At(y.s, id).user.Some?
    ensures MayDestroy(y.vm, At(y.s, id).user.value.root)
  {
    var root := At(y.s, id).user.value.root;
    forall k | 0 <= k < |y.vm| ensures y.vm[k].installed != Some(root) {
      if y.vm[k].installed.Some? {
        var x :| Holds(y.s, x, k, y.vm[k].installed.value);
        assert RootOf(y.s, x).Some? && RootOf(y.s, id).Some? && x != id;
      }
    }
  }
}
