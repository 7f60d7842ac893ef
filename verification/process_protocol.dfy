/**
  Child exit and waitpid under every interleaving (kernel/src/process/wait.rs:78-165,
  lifecycle.rs:64-162).

  Threads sit in scheduler slots that are reused with new generations. The table lock section,
  the commit of a wait, its completion by the exiting child, the final finish and the join of the
  child's main thread are separate steps; sleeps, other waits and kernel threads may come in between.
 */
module ProcessProtocol {
  import opened Base
  import opened Waits
  import opened ProcessTable

  datatype Pc =
    | Idle
    | WaitPrepared(child: Pid, token: WaitToken)
    | WaitAsleep(child: Pid, token: WaitToken)
    | WaitRestart(child: Pid, token: WaitToken)
    | WaitFinish(taken: Option<WaitToken>, main: ThreadId)
    | WaitJoin(main: ThreadId)
    | Notifying(waiter: Option<WaitToken>)
    | Dying
    | JoinClaimed(pid: Pid, main: ThreadId, joined: bool)

  /** `exited` marks a main thread that has exited and keeps its slot until it is joined. */
  datatype Actor = Actor(id: ThreadId, alive: bool, exited: bool, wait: WaitMetadata, pc: Pc)

  /** `produced` and `consumed` record terminal statuses, with the process they belong to. */
  datatype Sys = Sys(table: Table, threads: seq<Actor>,
                     produced: seq<(Pid, ExitStatus)>, consumed: seq<(Pid, ExitStatus)>)

  datatype Step =
    | AllocateStep(index: nat, parent: Option<Pid>)
    | FreeStep(pid: Pid)
    | Publish(i: nat, id: ThreadId, pid: Pid)
    | StartKernel(i: nat, id: ThreadId)
    | StopKernel(i: nat)
    | Elsewhere(i: nat, wait: WaitMetadata)
    | WaitPid(i: nat, child: Pid)
    | CommitStep(i: nat)
    | WakeStep(i: nat)
    | FinishWait(i: nat)
    | JoinMain(i: nat)
    | FinishProcess(i: nat, status: ExitStatus)
    | NotifyStep(i: nat)
    | ExitStep(i: nat)
    | ClaimJoin(i: nat, pid: Pid)
    | ConsumeJoin(i: nat)

  // ----- helpers -----

  /** Registered as the waiter of a child. */
  predicate Registered(pc: Pc) {
    pc.WaitPrepared? || pc.WaitAsleep? || pc.WaitRestart?
  }

  function PutThread(s: Sys, i: nat, a: Actor): Sys
    requires i < |s.threads|
  {
    s.(threads := s.threads[i := a])
  }

  function Goto(s: Sys, i: nat, pc: Pc): Sys
    requires i < |s.threads|
  {
    PutThread(s, i, s.threads[i].(pc := pc))
  }

  /** The thread is registered and nothing has completed its wait. */
  predicate Pending(a: Actor) {
    (a.pc.WaitPrepared? || a.pc.WaitAsleep?) && a.wait.active.Some? && !a.wait.active.value.phase.PhaseCompleted?
  }

  // ----- steps -----

  /** The locked part of waitpid. */
  function WaitOne(s: Sys, i: nat, child: Pid): Sys
    requires i < |s.threads| == |s.table.owners| && s.table.owners[i].Some?
    requires s.threads[i].wait.active.None? ==> s.threads[i].wait.nextSequence < U64_MAX
    requires Has(s.table, child) ==>
      var p := Proc(s.table, child);
      (p.main.Some? ==> p.main.value.index < |s.table.owners|) && (p.status.Some? ==> p.main.Some?)
  {
    var a, parent := s.threads[i], s.table.owners[i].value;
    match WaitPathOf(s.table, parent, child, a.id)
    case Refused => Goto(s.(table := WaitRefused(s.table, parent, child, a.id)), i, Idle)
    case Blocks =>
      if a.wait.active.Some? then s
      else
        var (w, p) := Prepare(a.wait, a.id, 0, Explicit);
        PutThread(s.(table := WaitRegister(s.table, child, a.id, p.token)), i,
                  a.(wait := w, pc := WaitPrepared(child, p.token)))
    case Takes =>
      Goto(s.(table := Consume(s.table, child), consumed := s.consumed + [(child, Proc(s.table, child).status.value)]),
           i, WaitFinish(Proc(s.table, child).waiter, Proc(s.table, child).main.value))
  }

  function CommitOne(s: Sys, i: nat): Sys
    requires i < |s.threads| && s.threads[i].pc.WaitPrepared?
  {
    var a := s.threads[i];
    var (w, r) := Commit(a.wait, PreparedWait(a.pc.token, Explicit));
    match r
    case Block(_) => PutThread(s, i, a.(wait := w, pc := WaitAsleep(a.pc.child, a.pc.token)))
    case Early(_) => PutThread(s, i, a.(wait := w, pc := WaitRestart(a.pc.child, a.pc.token)))
    case StaleCommit => s
  }

  function FinishWaitOne(s: Sys, i: nat): Sys
    requires i < |s.threads| && s.threads[i].pc.WaitFinish?
  {
    var a := s.threads[i];
    match a.pc.taken
    case None => Goto(s, i, WaitJoin(a.pc.main))
    case Some(token) => PutThread(s, i, a.(wait := Waits.Finish(a.wait, token).0, pc := WaitJoin(a.pc.main)))
  }

  predicate Joining(pc: Pc) {
    pc.WaitJoin? || (pc.JoinClaimed? && !pc.joined)
  }

  /** thread_join on a main thread: it waits for a live one, reaps an exited one, and fails when the
      identity is stale. A failed join ends the call with an error. */
  function JoinOne(s: Sys, i: nat): Sys
    requires i < |s.threads| && Joining(s.threads[i].pc)
  {
    var pc := s.threads[i].pc;
    var m := pc.main;
    if m.index >= |s.threads| || s.threads[m.index].id != m then Goto(s, i, Idle)
    else if s.threads[m.index].exited then
      Goto(PutThread(s, m.index, s.threads[m.index].(exited := false)), i,
           if pc.WaitJoin? then Idle else pc.(joined := true))
    else if s.threads[m.index].alive then s
    else Goto(s, i, Idle)
  }

  function NotifyOne(s: Sys, i: nat): Sys
    requires i < |s.threads| && s.threads[i].pc.Notifying?
  {
    match s.threads[i].pc.waiter
    case None => Goto(s, i, Dying)
    case Some(token) =>
      var j := token.thread.index;
      if j >= |s.threads| || !s.threads[j].alive || s.threads[j].id != token.thread then Goto(s, i, Dying)
      else Goto(PutThread(s, j, s.threads[j].(wait := Complete(s.threads[j].wait, token, Notified).0)), i, Dying)
  }

  predicate MayConsume(t: Table, pid: Pid, caller: ThreadId) {
    Has(t, pid) && Proc(t, pid).consumer == Some(caller) && Proc(t, pid).status.Some?
  }

  /** process_join after the main thread was joined. */
  function ConsumeJoinOne(s: Sys, i: nat): Sys
    requires i < |s.threads| && s.threads[i].pc.JoinClaimed?
    requires var pid := s.threads[i].pc.pid;
      Has(s.table, pid) && Proc(s.table, pid).main.Some? ==> Proc(s.table, pid).main.value.index < |s.table.owners|
  {
    var pid := s.threads[i].pc.pid;
    if !MayConsume(s.table, pid, s.threads[i].id) then Goto(s, i, Idle)
    else
      var consumed := s.consumed + [(pid, Proc(s.table, pid).status.value)];
      Goto(s.(table := Consume(s.table, pid), consumed := consumed), i, Idle)
  }

  /** claim_process_consumer, after the test that a process does not join itself. */
  predicate MayClaim(s: Sys, i: nat, pid: Pid)
    requires i < |s.table.owners|
  {
    && s.table.owners[i] != Some(pid)
    && Has(s.table, pid) && Proc(s.table, pid).consumer.None? && Proc(s.table, pid).main.Some?
  }

  function Claimed(s: Sys, i: nat, pid: Pid): Table
    requires i < |s.threads| && Has(s.table, pid)
  {
    PutProc(s.table, pid, Proc(s.table, pid).(consumer := Some(s.threads[i].id)))
  }

  predicate ThreadStep(s: Sys, i: nat) {
    i < |s.threads| == |s.table.owners| && s.threads[i].alive
  }

  predicate Enabled(s: Sys, step: Step) {
    match step
    case AllocateStep(index, _) => index < |s.table.slots| && s.table.slots[index].process.None?
    case FreeStep(pid) => // publication of its thread failed, so nobody knows it
      Has(s.table, pid) && Proc(s.table, pid) == Process(Proc(s.table, pid).parent, None, None, None, None)
    case Publish(i, id, pid) =>
      && i < |s.threads| == |s.table.owners| && !s.threads[i].alive && !s.threads[i].exited && id.index == i
      && Has(s.table, pid) && Proc(s.table, pid).main.None? && Proc(s.table, pid).status.None?
    case StartKernel(i, id) => i < |s.threads| && !s.threads[i].alive && !s.threads[i].exited && id.index == i
    case StopKernel(i) =>
      ThreadStep(s, i) && s.threads[i].pc.Idle? && s.table.owners[i].None? && s.threads[i].wait.active.None?
    case Elsewhere(i, wait) => // tokens are never issued twice
      && ThreadStep(s, i) && s.threads[i].pc.Idle? && wait.nextSequence >= s.threads[i].wait.nextSequence
      && (wait.active.Some? ==>
            || (s.threads[i].wait.active.Some? && wait.active.value.token == s.threads[i].wait.active.value.token)
            || wait.active.value.token.sequence > s.threads[i].wait.nextSequence)
    case WaitPid(i, child) =>
      && ThreadStep(s, i) && s.table.owners[i].Some? && s.threads[i].wait.nextSequence < U64_MAX
      && ((s.threads[i].pc.Idle? && s.threads[i].wait.active.None?)
          || (s.threads[i].pc.WaitRestart? && s.threads[i].pc.child == child))
    case CommitStep(i) => ThreadStep(s, i) && s.threads[i].pc.WaitPrepared?
    case WakeStep(i) => ThreadStep(s, i) && s.threads[i].pc.WaitAsleep? && !Pending(s.threads[i])
    case FinishWait(i) => ThreadStep(s, i) && s.threads[i].pc.WaitFinish?
    case JoinMain(i) => ThreadStep(s, i) && Joining(s.threads[i].pc)
    case FinishProcess(i, _) =>
      ThreadStep(s, i) && s.threads[i].pc.Idle? && s.table.owners[i].Some? && s.threads[i].wait.active.None?
    case NotifyStep(i) => ThreadStep(s, i) && s.threads[i].pc.Notifying?
    case ExitStep(i) => ThreadStep(s, i) && s.threads[i].pc.Dying?
    case ClaimJoin(i, pid) => ThreadStep(s, i) && s.threads[i].pc.Idle? && s.threads[i].wait.active.None?
    case ConsumeJoin(i) => ThreadStep(s, i) && s.threads[i].pc.JoinClaimed? && s.threads[i].pc.joined
  }

  ghost function Next(s: Sys, step: Step): Sys
    requires Inv(s) && Enabled(s, step)
  {
    match step
    case AllocateStep(index, parent) => s.(table := Allocate(s.table, index, parent))
    case FreeStep(pid) => s.(table := Release(s.table, pid, pid.generation))
    case Publish(i, id, pid) =>
      PutThread(s.(table := Bind(s.table, pid, id)), i,
                Actor(id, true, false, s.threads[i].wait.(active := None), Idle))
    case StartKernel(i, id) => PutThread(s, i, Actor(id, true, false, s.threads[i].wait.(active := None), Idle))
    case StopKernel(i) => PutThread(s, i, s.threads[i].(alive := false))
    case Elsewhere(i, wait) => PutThread(s, i, s.threads[i].(wait := wait))
    case WaitPid(i, child) =>
      assert Has(s.table, child) ==> BoundOk(s, child);
      WaitOne(s, i, child)
    case CommitStep(i) => CommitOne(s, i)
    case WakeStep(i) => Goto(s, i, WaitRestart(s.threads[i].pc.child, s.threads[i].pc.token))
    case FinishWait(i) => FinishWaitOne(s, i)
    case JoinMain(i) => JoinOne(s, i)
    case FinishProcess(i, status) => FinishOne(s, i, status)
    case NotifyStep(i) => NotifyOne(s, i)
    case ExitStep(i) => PutThread(s, i, s.threads[i].(alive := false, exited := true, pc := Idle))
    case ClaimJoin(i, pid) =>
      if MayClaim(s, i, pid)
      then Goto(s.(table := Claimed(s, i, pid)), i, JoinClaimed(pid, Proc(s.table, pid).main.value, false))
      else s
    case ConsumeJoin(i) =>
      assert Has(s.table, s.threads[i].pc.pid) ==> BoundOk(s, s.threads[i].pc.pid);
      ConsumeJoinOne(s, i)
  }

  /** finish_process by the main thread of a process. */
  ghost function FinishOne(s: Sys, i: nat, status: ExitStatus): Sys
    requires Inv(s) && ThreadStep(s, i) && s.table.owners[i].Some?
  {
    assert OwnerOk(s, i);
    var pid := s.table.owners[i].value;
    var (table, waiter) := ProcessTable.Finish(s.table, pid, status);
    Goto(s.(table := table, produced := s.produced + [(pid, status)]), i, Notifying(waiter.value))
  }

  // ----- invariant -----

  /** A reverse entry names a live process whose main thread is the live occupant of that slot. */
  predicate OwnerOk(s: Sys, i: nat)
    requires i < |s.threads| == |s.table.owners|
  {
    s.table.owners[i].Some? ==>
      var pid := s.table.owners[i].value;
      && Has(s.table, pid) && Proc(s.table, pid).main == Some(s.threads[i].id) && Proc(s.table, pid).status.None?
      && s.threads[i].alive && !s.threads[i].pc.Notifying? && !s.threads[i].pc.Dying?
  }

  /** A process with a thread is bound to it until it finishes. */
  predicate BoundOk(s: Sys, pid: Pid)
    requires Has(s.table, pid)
  {
    var p := Proc(s.table, pid);
    && (p.main.Some? ==>
          p.main.value.index < |s.table.owners| && (p.status.None? ==> s.table.owners[p.main.value.index] == Some(pid)))
    && (p.status.Some? ==> p.main.Some?)
    && (p.waiter.Some? ==> WaiterOk(s, pid, p.waiter.value))
  }

  /** A recorded waiter is a live thread registered for exactly this child. */
  predicate WaiterOk(s: Sys, pid: Pid, token: WaitToken) {
    && token.thread.index < |s.threads|
    && var a := s.threads[token.thread.index];
       a.alive && Registered(a.pc) && a.pc.child == pid && a.pc.token == token
  }

  predicate Over(w: WaitMetadata, token: WaitToken) {
    w.active.None? || (w.active.value.token == token && w.active.value.phase.PhaseCompleted?)
  }

  predicate ActorOk(i: nat, a: Actor) {
    && a.id.index == i && (!a.alive ==> a.pc.Idle? && a.wait.active.None?) && !(a.alive && a.exited)
    && (Registered(a.pc) ==> a.pc.token.thread == a.id && a.pc.token.sequence == a.wait.nextSequence)
    && (a.pc.WaitPrepared? || a.pc.WaitAsleep? ==>
          && a.wait.active.Some? && a.wait.active.value.token == a.pc.token && a.wait.active.value.consumption.Explicit?
          && (a.pc.WaitPrepared? ==> !a.wait.active.value.phase.PhaseBlocked?)
          && (a.pc.WaitAsleep? ==> !a.wait.active.value.phase.PhasePrepared?))
    && (a.pc.WaitRestart? ==> Over(a.wait, a.pc.token))
    && (a.pc.WaitFinish? ==> if a.pc.taken.Some? then Over(a.wait, a.pc.taken.value) else a.wait.active.None?)
    && (a.pc.Notifying? || a.pc.Dying? || a.pc.JoinClaimed? || a.pc.WaitJoin? ==> a.wait.active.None?)
  }

  /** A registered thread is the only consumer of its child, which still exists; its wait is over
      only if the child has finished. */
  predicate ChildOk(s: Sys, i: nat)
    requires i < |s.threads| == |s.table.owners|
  {
    var a := s.threads[i];
    Registered(a.pc) ==>
      && Has(s.table, a.pc.child)
      && var p := Proc(s.table, a.pc.child);
         && p.consumer == Some(a.id) && p.waiter == Some(a.pc.token)
         && s.table.owners[i].Some? && p.parent == s.table.owners[i]
         && (!Pending(a) ==> p.status.Some?)
  }

  /** A notification in flight can only complete the wait registered for the finished child. */
  predicate NotifyOk(s: Sys, token: WaitToken) {
    && token.thread.index < |s.threads|
    && var b := s.threads[token.thread.index];
       && token.sequence <= b.wait.nextSequence
       && (b.wait.active.Some? && b.wait.active.value.token == token ==>
             && !b.pc.Idle?
             && (Pending(b) ==> Has(s.table, b.pc.child) && Proc(s.table, b.pc.child).status.Some?))
  }

  ghost predicate InFlight(s: Sys, token: WaitToken) {
    exists j :: 0 <= j < |s.threads| && s.threads[j].pc == Notifying(Some(token))
  }

  /** No lost wakeup: once the child has finished, a pending parent is about to be notified. */
  ghost predicate WakeOk(s: Sys, i: nat)
    requires i < |s.threads|
  {
    var a := s.threads[i];
    Pending(a) && Has(s.table, a.pc.child) && Proc(s.table, a.pc.child).status.Some? ==> InFlight(s, a.pc.token)
  }

  function StatusAt(slot: ProcSlot, index: nat, k: (Pid, ExitStatus)): nat {
    if slot.process.Some? && slot.process.value.status == Some(k.1) && k.0 == Pid(index, slot.generation) then 1 else 0
  }

  /** How often the status k is held in the table. */
  function HeldStatus(slots: seq<ProcSlot>, n: nat, k: (Pid, ExitStatus)): nat
    requires n <= |slots|
  {
    if n == 0 then 0 else HeldStatus(slots, n - 1, k) + StatusAt(slots[n - 1], n - 1, k)
  }

  ghost predicate StatusConserved(s: Sys) {
    forall k :: multiset(s.produced)[k] == multiset(s.consumed)[k] + HeldStatus(s.table.slots, |s.table.slots|, k)
  }

  ghost predicate Inv(s: Sys) {
    && |s.threads| == |s.table.owners|
    && (forall i: nat {:trigger s.threads[i]} :: i < |s.threads| ==> ActorOk(i, s.threads[i]))
    && (forall i: nat {:trigger OwnerOk(s, i)} :: i < |s.threads| ==> OwnerOk(s, i))
    && (forall pid {:trigger BoundOk(s, pid)} :: Has(s.table, pid) ==> BoundOk(s, pid))
    && (forall i: nat {:trigger ChildOk(s, i)} :: i < |s.threads| ==> ChildOk(s, i))
    && (forall i: nat {:trigger WakeOk(s, i)} :: i < |s.threads| ==> WakeOk(s, i))
    && (forall i: nat {:trigger s.threads[i]} ::
          i < |s.threads| && s.threads[i].pc.Notifying? && s.threads[i].pc.waiter.Some? ==>
            NotifyOk(s, s.threads[i].pc.waiter.value))
    && StatusConserved(s)
  }

  // ----- preservation: counting -----

  lemma {:induction false} HeldUpdate(slots: seq<ProcSlot>, n: nat, index: nat, x: ProcSlot, k: (Pid, ExitStatus))
    requires index < n <= |slots|
    ensures HeldStatus(slots[index := x], n, k) + StatusAt(slots[index], index, k)
            == HeldStatus(slots, n, k) + StatusAt(x, index, k)
    decreases n
  {
    if index == n - 1 {
      HeldPrefix(slots, slots[index := x], n - 1, k);
    } else {
      HeldUpdate(slots, n - 1, index, x, k);
    }
  }

  lemma {:induction false} HeldPrefix(a: seq<ProcSlot>, b: seq<ProcSlot>, n: nat, k: (Pid, ExitStatus))
    requires n <= |a| == |b| && forall i :: 0 <= i < n ==> a[i] == b[i]
    ensures HeldStatus(a, n, k) == HeldStatus(b, n, k)
    decreases n
  {
    if n > 0 { HeldPrefix(a, b, n - 1, k); }
  }

  /** One slot changes, and the records change with it. */
  lemma Conserved(s: Sys, s': Sys, index: nat)
    requires StatusConserved(s) && index < |s.table.slots| == |s'.table.slots|
    requires s'.table.slots == s.table.slots[index := s'.table.slots[index]]
    requires forall k ::
      multiset(s'.produced)[k] + multiset(s.consumed)[k] + StatusAt(s.table.slots[index], index, k)
      == multiset(s.produced)[k] + multiset(s'.consumed)[k] + StatusAt(s'.table.slots[index], index, k)
    ensures StatusConserved(s')
  {
    forall k
      ensures multiset(s'.produced)[k] == multiset(s'.consumed)[k] + HeldStatus(s'.table.slots, |s'.table.slots|, k)
    {
      HeldUpdate(s.table.slots, |s.table.slots|, index, s'.table.slots[index], k);
      assert multiset(s.produced)[k] == multiset(s.consumed)[k] + HeldStatus(s.table.slots, |s.table.slots|, k);
    }
  }

  // ----- preservation: one thread -----

  /** A thread moves on by itself: its registration and its process do not change. */
  predicate OwnMove(s: Sys, i: nat, b: Actor)
    requires i < |s.threads| == |s.table.owners|
  {
    var a := s.threads[i];
    && ActorOk(i, b) && b.wait.nextSequence >= a.wait.nextSequence
    && (Registered(a.pc) <==> Registered(b.pc))
    && (Registered(b.pc) ==> b.alive && b.pc.child == a.pc.child && b.pc.token == a.pc.token && b.id == a.id)
    && (s.table.owners[i].Some? ==> b.alive && b.id == a.id && !b.pc.Dying?)
    && !a.pc.Notifying? && !b.pc.Notifying?
    && (Pending(b) <==> Pending(a))
    && (b.wait.active.Some? ==>
          || b.wait.active.value.token.sequence > a.wait.nextSequence
          || (a.wait.active.Some? && a.wait.active.value.token == b.wait.active.value.token
              && (b.pc.Idle? ==> a.pc.Idle?)))
  }

  lemma OwnMoveInv(s: Sys, i: nat, b: Actor)
    requires Inv(s) && i < |s.threads| && OwnMove(s, i, b)
    ensures Inv(PutThread(s, i, b))
  {
    var s' := PutThread(s, i, b);
    forall j: nat | j < |s'.threads| ensures OwnerOk(s', j) { assert OwnerOk(s, j); }
    forall pid | Has(s'.table, pid) ensures BoundOk(s', pid) { assert BoundOk(s, pid); }
    forall j: nat | j < |s'.threads| ensures ChildOk(s', j) { assert ChildOk(s, j); }
    forall j: nat | j < |s'.threads| ensures WakeOk(s', j) {
      assert WakeOk(s, j);
      InFlightKept(s, s', s.threads[j]);
    }
    forall j: nat | j < |s'.threads| && s'.threads[j].pc.Notifying? && s'.threads[j].pc.waiter.Some?
      ensures NotifyOk(s', s'.threads[j].pc.waiter.value)
    {
      assert NotifyOk(s, s.threads[j].pc.waiter.value);
    }
  }

  lemma InFlightKept(s: Sys, s': Sys, a: Actor)
    requires |s'.threads| == |s.threads|
    requires forall k :: 0 <= k < |s.threads| && s.threads[k].pc.Notifying? ==> s'.threads[k].pc == s.threads[k].pc
    ensures Registered(a.pc) && InFlight(s, a.pc.token) ==> InFlight(s', a.pc.token)
  {
    if Registered(a.pc) && InFlight(s, a.pc.token) {
      var k :| 0 <= k < |s.threads| && s.threads[k].pc == Notifying(Some(a.pc.token));
      assert s'.threads[k].pc == Notifying(Some(a.pc.token));
    }
  }

  lemma MoveStepInv(s: Sys, step: Step)
    requires Inv(s) && Enabled(s, step)
    requires step.StartKernel? || step.StopKernel? || step.Elsewhere? || step.CommitStep? || step.WakeStep?
             || step.FinishWait? || step.ExitStep?
    ensures Inv(Next(s, step))
  {
    var i := step.i;
    var s' := Next(s, step);
    assert OwnerOk(s, i) && ActorOk(i, s.threads[i]) && ChildOk(s, i);
    assert s' == PutThread(s, i, s'.threads[i]);
    OwnMoveInv(s, i, s'.threads[i]);
  }

  /** A join changes its caller and at most the mark of the joined thread. */
  lemma JoinInv(s: Sys, i: nat)
    requires Inv(s) && Enabled(s, JoinMain(i))
    ensures Inv(JoinOne(s, i))
  {
    hide Inv;
    var s', m := JoinOne(s, i), s.threads[i].pc.main;
    ThreadFacts(s, i);
    var reaps := m.index < |s.threads| && s.threads[m.index].id == m && s.threads[m.index].exited;
    var s1 := if reaps then PutThread(s, m.index, s.threads[m.index].(exited := false)) else s;
    if reaps {
      ThreadFacts(s, m.index);
      OwnMoveInv(s, m.index, s.threads[m.index].(exited := false));
    }
    ThreadFacts(s1, i);
    assert s' == PutThread(s1, i, s'.threads[i]);
    OwnMoveInv(s1, i, s'.threads[i]);
  }

  // ----- preservation: table -----

  lemma AllocateInv(s: Sys, index: nat, parent: Option<Pid>)
    requires Inv(s) && Enabled(s, AllocateStep(index, parent))
    ensures Inv(s.(table := Allocate(s.table, index, parent)))
  {
    var s' := s.(table := Allocate(s.table, index, parent));
    References(s);
    TableKept(s, s');
    forall pid | Has(s'.table, pid) ensures BoundOk(s', pid) {
      if pid.index != index { assert BoundOk(s, pid); }
    }
    Conserved(s, s', index);
  }

  /** Threads and reverse index are unchanged, and no process that a thread refers to is changed. */
  lemma TableKept(s: Sys, s': Sys)
    requires Inv(s) && s'.threads == s.threads && s'.table.owners == s.table.owners
    requires forall i: nat :: i < |s.threads| && s.table.owners[i].Some? ==>
      SameProc(s.table, s'.table, s.table.owners[i].value)
    requires forall i: nat {:trigger s.threads[i]} :: i < |s.threads| && Registered(s.threads[i].pc) ==>
      SameProc(s.table, s'.table, s.threads[i].pc.child)
    ensures forall i: nat {:trigger OwnerOk(s', i)} {:trigger ChildOk(s', i)} {:trigger WakeOk(s', i)} ::
      i < |s'.threads| ==> OwnerOk(s', i) && ChildOk(s', i) && WakeOk(s', i)
    ensures forall i: nat {:trigger s'.threads[i]} ::
      i < |s'.threads| && s'.threads[i].pc.Notifying? && s'.threads[i].pc.waiter.Some? ==>
        NotifyOk(s', s'.threads[i].pc.waiter.value)
  {
    forall i: nat | i < |s'.threads| ensures OwnerOk(s', i) && ChildOk(s', i) && WakeOk(s', i) {
      assert OwnerOk(s, i) && ChildOk(s, i) && WakeOk(s, i);
      InFlightKept(s, s', s.threads[i]);
    }
    forall i: nat | i < |s'.threads| && s'.threads[i].pc.Notifying? && s'.threads[i].pc.waiter.Some?
      ensures NotifyOk(s', s'.threads[i].pc.waiter.value)
    {
      assert NotifyOk(s, s.threads[i].pc.waiter.value);
      assert ChildOk(s, s.threads[i].pc.waiter.value.thread.index);
    }
  }

  lemma FreeInv(s: Sys, pid: Pid)
    requires Inv(s) && Enabled(s, FreeStep(pid))
    ensures Inv(s.(table := Release(s.table, pid, pid.generation)))
  {
    var s' := s.(table := Release(s.table, pid, pid.generation));
    forall i: nat | i < |s.threads|
      ensures s.table.owners[i] != Some(pid) && (Registered(s.threads[i].pc) ==> s.threads[i].pc.child != pid)
    {
      assert OwnerOk(s, i) && ChildOk(s, i);
    }
    References(s);
    TableKept(s, s');
    forall q | Has(s'.table, q) ensures BoundOk(s', q) { assert BoundOk(s, q); }
    Conserved(s, s', pid.index);
  }

  predicate SameProc(t: Table, t': Table, pid: Pid) {
    Has(t, pid) && Has(t', pid) && Proc(t', pid) == Proc(t, pid)
  }

  /** Reverse entries and registrations refer to processes in the table. */
  lemma References(s: Sys)
    requires Inv(s)
    ensures forall i: nat :: i < |s.threads| && s.table.owners[i].Some? ==> Has(s.table, s.table.owners[i].value)
    ensures forall i: nat {:trigger s.threads[i]} :: i < |s.threads| && Registered(s.threads[i].pc) ==>
      Has(s.table, s.threads[i].pc.child)
  {
    forall i: nat | i < |s.threads| && s.table.owners[i].Some?
      ensures Has(s.table, s.table.owners[i].value)
    {
      assert OwnerOk(s, i);
    }
    forall i: nat | i < |s.threads| && Registered(s.threads[i].pc)
      ensures Has(s.table, s.threads[i].pc.child)
    {
      assert ChildOk(s, i);
    }
  }

  lemma ThreadFacts(s: Sys, i: nat)
    requires Inv(s) && i < |s.threads|
    ensures |s.threads| == |s.table.owners|
    ensures ActorOk(i, s.threads[i]) && OwnerOk(s, i) && ChildOk(s, i) && WakeOk(s, i)
    ensures s.threads[i].pc.Notifying? && s.threads[i].pc.waiter.Some? ==> NotifyOk(s, s.threads[i].pc.waiter.value)
  {
    assert ActorOk(i, s.threads[i]) && OwnerOk(s, i) && ChildOk(s, i) && WakeOk(s, i);
  }

  lemma ProcessFacts(s: Sys, pid: Pid)
    requires Inv(s) && Has(s.table, pid)
    ensures BoundOk(s, pid)
  {
    assert BoundOk(s, pid);
  }

  ghost predicate ThreadsOk(s: Sys, i: nat)
    requires i < |s.threads| == |s.table.owners|
  {
    && ActorOk(i, s.threads[i]) && OwnerOk(s, i) && ChildOk(s, i) && WakeOk(s, i)
    && (s.threads[i].pc.Notifying? && s.threads[i].pc.waiter.Some? ==> NotifyOk(s, s.threads[i].pc.waiter.value))
  }

  lemma Assemble(s: Sys)
    requires |s.threads| == |s.table.owners| && StatusConserved(s)
    requires forall i: nat {:trigger ThreadsOk(s, i)} :: i < |s.threads| ==> ThreadsOk(s, i)
    requires forall pid {:trigger BoundOk(s, pid)} :: Has(s.table, pid) ==> BoundOk(s, pid)
    ensures Inv(s)
  {
    forall i: nat | i < |s.threads|
      ensures ActorOk(i, s.threads[i]) && OwnerOk(s, i) && ChildOk(s, i) && WakeOk(s, i)
      ensures s.threads[i].pc.Notifying? && s.threads[i].pc.waiter.Some? ==> NotifyOk(s, s.threads[i].pc.waiter.value)
    {
      assert ThreadsOk(s, i);
    }
  }

  lemma PublishInv(s: Sys, i: nat, id: ThreadId, pid: Pid)
    requires Inv(s) && Enabled(s, Publish(i, id, pid))
    ensures s.table.owners[i].None?
    ensures Inv(Next(s, Publish(i, id, pid)))
  {
    hide Inv, StatusConserved, ThreadsOk, BoundOk;
    var s' := Next(s, Publish(i, id, pid));
    ThreadFacts(s, i);
    PublishConserved(s, i, id, pid);
    forall j: nat | j < |s'.threads| ensures ThreadsOk(s', j) { PublishThread(s, i, id, pid, j); }
    forall q | Has(s'.table, q) ensures BoundOk(s', q) { PublishProcess(s, i, id, pid, q); }
    Assemble(s');
  }

  lemma PublishConserved(s: Sys, i: nat, id: ThreadId, pid: Pid)
    requires Inv(s) && Enabled(s, Publish(i, id, pid))
    ensures StatusConserved(Next(s, Publish(i, id, pid)))
  {
    Conserved(s, Next(s, Publish(i, id, pid)), pid.index);
  }

  lemma PublishThread(s: Sys, i: nat, id: ThreadId, pid: Pid, j: nat)
    requires Inv(s) && Enabled(s, Publish(i, id, pid)) && j < |s.threads|
    ensures |Next(s, Publish(i, id, pid)).table.owners| == |s.threads| && ThreadsOk(Next(s, Publish(i, id, pid)), j)
  {
    hide Inv;
    ThreadFacts(s, i);
    ThreadFacts(s, j);
    InFlightKept(s, Next(s, Publish(i, id, pid)), s.threads[j]);
  }

  lemma PublishProcess(s: Sys, i: nat, id: ThreadId, pid: Pid, q: Pid)
    requires Inv(s) && Enabled(s, Publish(i, id, pid)) && Has(Next(s, Publish(i, id, pid)).table, q)
    ensures BoundOk(Next(s, Publish(i, id, pid)), q)
  {
    hide Inv;
    ThreadFacts(s, i);
    ProcessFacts(s, q);
  }

  lemma FinishInv(s: Sys, i: nat, status: ExitStatus)
    requires Inv(s) && Enabled(s, FinishProcess(i, status))
    ensures Inv(FinishOne(s, i, status))
  {
    hide Inv, StatusConserved, ThreadsOk, BoundOk;
    var s' := FinishOne(s, i, status);
    ThreadFacts(s, i);
    forall j: nat | j < |s'.threads| ensures ThreadsOk(s', j) { FinishThread(s, i, status, j); }
    forall q | Has(s'.table, q) ensures BoundOk(s', q) { FinishBound(s, i, status, q); }
    FinishConserved(s, i, status);
    Assemble(s');
  }

  lemma FinishThread(s: Sys, i: nat, status: ExitStatus, j: nat)
    requires Inv(s) && Enabled(s, FinishProcess(i, status)) && j < |s.threads|
    ensures |FinishOne(s, i, status).table.owners| == |s.threads| && ThreadsOk(FinishOne(s, i, status), j)
  {
    hide Inv;
    var s', pid := FinishOne(s, i, status), s.table.owners[i].value;
    ThreadFacts(s, i);
    ProcessFacts(s, pid);
    ThreadFacts(s, j);
    InFlightKept(s, s', s.threads[j]);
    assert s'.threads[i].pc == Notifying(Proc(s.table, pid).waiter);
    if j == i && Proc(s.table, pid).waiter.Some? { ThreadFacts(s, Proc(s.table, pid).waiter.value.thread.index); }
  }

  lemma FinishBound(s: Sys, i: nat, status: ExitStatus, q: Pid)
    requires Inv(s) && Enabled(s, FinishProcess(i, status)) && Has(FinishOne(s, i, status).table, q)
    ensures BoundOk(FinishOne(s, i, status), q)
  {
    hide Inv;
    ThreadFacts(s, i);
    ProcessFacts(s, s.table.owners[i].value);
    ProcessFacts(s, q);
  }

  lemma FinishConserved(s: Sys, i: nat, status: ExitStatus)
    requires Inv(s) && Enabled(s, FinishProcess(i, status))
    ensures StatusConserved(FinishOne(s, i, status))
  {
    ThreadFacts(s, i);
    Conserved(s, FinishOne(s, i, status), s.table.owners[i].value.index);
  }

  lemma NotifyInv(s: Sys, i: nat)
    requires Inv(s) && Enabled(s, NotifyStep(i))
    ensures Inv(NotifyOne(s, i))
  {
    assert StatusConserved(s);
    hide Inv, StatusConserved;
    var s' := NotifyOne(s, i);
    ThreadFacts(s, i);
    SameRecords(s, s');
    forall j: nat | j < |s'.threads| ensures ThreadsOk(s', j) { NotifyThread(s, i, j); }
    forall q | Has(s'.table, q) ensures BoundOk(s', q) { ProcessFacts(s, q); }
    Assemble(s');
  }

  lemma NotifyThread(s: Sys, i: nat, j: nat)
    requires Inv(s) && Enabled(s, NotifyStep(i)) && j < |s.threads| == |s.table.owners|
    ensures ThreadsOk(NotifyOne(s, i), j)
  {
    hide Inv, WakeOk;
    var waiter := s.threads[i].pc.waiter;
    ThreadFacts(s, i);
    ThreadFacts(s, j);
    if waiter.Some? { ThreadFacts(s, waiter.value.thread.index); }
    NotifyWakes(s, i, j);
  }

  /** The wait that was notified is over; the other notifications are still in flight. */
  lemma NotifyWakes(s: Sys, i: nat, j: nat)
    requires Inv(s) && Enabled(s, NotifyStep(i)) && j < |s.threads| == |s.table.owners|
    ensures WakeOk(NotifyOne(s, i), j)
  {
    hide Inv;
    var s' := NotifyOne(s, i);
    ThreadFacts(s, j);
    if Pending(s'.threads[j]) && InFlight(s, s.threads[j].pc.token) {
      var k :| 0 <= k < |s.threads| && s.threads[k].pc == Notifying(Some(s.threads[j].pc.token));
      assert s'.threads[k].pc == s.threads[k].pc;
    }
  }

  lemma SameRecords(s: Sys, s': Sys)
    requires StatusConserved(s) && s'.table.slots == s.table.slots && s'.produced == s.produced
    requires s'.consumed == s.consumed
    ensures StatusConserved(s')
  {
  }

  predicate MayTake(s: Sys, i: nat, pid: Pid, pc: Pc) {
    && ThreadStep(s, i) && Has(s.table, pid) && Proc(s.table, pid).status.Some?
    && (Proc(s.table, pid).consumer.None? || Proc(s.table, pid).consumer == Some(s.threads[i].id))
    && !s.threads[i].pc.WaitPrepared? && !s.threads[i].pc.WaitAsleep? && !s.threads[i].pc.Notifying?
    && (s.threads[i].pc.WaitRestart? ==> s.threads[i].pc.child == pid)
    && ActorOk(i, s.threads[i].(pc := pc)) && (pc.WaitFinish? || (pc.Idle? && s.threads[i].wait.active.None?))
    && (Proc(s.table, pid).main.Some? ==> Proc(s.table, pid).main.value.index < |s.table.owners|)
  }

  function Take(s: Sys, i: nat, pid: Pid, pc: Pc): Sys
    requires MayTake(s, i, pid, pc)
  {
    Goto(s.(table := Consume(s.table, pid), consumed := s.consumed + [(pid, Proc(s.table, pid).status.value)]), i, pc)
  }

  /** A consumer takes the status of a finished process nobody else is registered for. */
  lemma ConsumeInv(s: Sys, i: nat, pid: Pid, pc: Pc)
    requires Inv(s) && MayTake(s, i, pid, pc)
    ensures Inv(Take(s, i, pid, pc))
  {
    var s' := Take(s, i, pid, pc);
    Conserved(s, s', pid.index);
    hide Inv, StatusConserved;
    TakeOwners(s, i, pid, pc);
    forall j: nat | j < |s'.threads| ensures ThreadsOk(s', j) { TakeThread(s, i, pid, pc, j); }
    forall q | Has(s'.table, q) ensures BoundOk(s', q) {
      ProcessFacts(s, q);
      ThreadFacts(s, i);
    }
    Assemble(s');
  }

  /** A finished process has no reverse entry any more, so none is erased. */
  lemma TakeOwners(s: Sys, i: nat, pid: Pid, pc: Pc)
    requires Inv(s) && MayTake(s, i, pid, pc)
    ensures Take(s, i, pid, pc).table.owners == s.table.owners
  {
    ProcessFacts(s, pid);
    ThreadFacts(s, Proc(s.table, pid).main.value.index);
  }

  lemma TakeThread(s: Sys, i: nat, pid: Pid, pc: Pc, j: nat)
    requires Inv(s) && MayTake(s, i, pid, pc) && j < |s.threads| && Take(s, i, pid, pc).table.owners == s.table.owners
    ensures ThreadsOk(Take(s, i, pid, pc), j)
  {
    hide Inv;
    var s' := Take(s, i, pid, pc);
    ThreadFacts(s, j);
    ThreadFacts(s, i);
    InFlightKept(s, s', s.threads[j]);
    if s.threads[j].pc.Notifying? && s.threads[j].pc.waiter.Some? {
      ThreadFacts(s, s.threads[j].pc.waiter.value.thread.index);
    }
  }

  lemma ConsumeJoinInv(s: Sys, i: nat)
    requires Inv(s) && Enabled(s, ConsumeJoin(i))
    ensures Inv(Next(s, ConsumeJoin(i)))
  {
    hide Inv;
    var pid := s.threads[i].pc.pid;
    ThreadFacts(s, i);
    if Has(s.table, pid) { ProcessFacts(s, pid); }
    if MayConsume(s.table, pid, s.threads[i].id) {
      ConsumeInv(s, i, pid, Idle);
    } else {
      OwnMoveInv(s, i, s.threads[i].(pc := Idle));
    }
  }

  /** Becoming the consumer of a process that has none. */
  lemma ClaimInv(s: Sys, i: nat, pid: Pid, pc: Pc)
    requires Inv(s) && ThreadStep(s, i) && s.threads[i].pc.Idle? && s.threads[i].wait.active.None?
    requires Has(s.table, pid) && Proc(s.table, pid).consumer.None? && (pc.Idle? || pc.JoinClaimed?)
    ensures Inv(Goto(s.(table := Claimed(s, i, pid)), i, pc))
  {
    hide Inv, StatusConserved, ThreadsOk;
    var s' := Goto(s.(table := Claimed(s, i, pid)), i, pc);
    ClaimConserved(s, i, pid, pc);
    forall j: nat | j < |s'.threads| ensures ThreadsOk(s', j) { ClaimThread(s, i, pid, pc, j); }
    forall q | Has(s'.table, q) ensures BoundOk(s', q) {
      ProcessFacts(s, q);
      ThreadFacts(s, i);
    }
    Assemble(s');
  }

  lemma ClaimConserved(s: Sys, i: nat, pid: Pid, pc: Pc)
    requires Inv(s) && i < |s.threads| && Has(s.table, pid)
    ensures StatusConserved(Goto(s.(table := Claimed(s, i, pid)), i, pc))
  {
    Conserved(s, Goto(s.(table := Claimed(s, i, pid)), i, pc), pid.index);
  }

  lemma ClaimThread(s: Sys, i: nat, pid: Pid, pc: Pc, j: nat)
    requires Inv(s) && ThreadStep(s, i) && s.threads[i].pc.Idle? && s.threads[i].wait.active.None?
    requires Has(s.table, pid) && Proc(s.table, pid).consumer.None? && (pc.Idle? || pc.JoinClaimed?) && j < |s.threads|
    ensures ThreadsOk(Goto(s.(table := Claimed(s, i, pid)), i, pc), j)
  {
    hide Inv;
    ThreadFacts(s, j);
    ThreadFacts(s, i);
    InFlightKept(s, Goto(s.(table := Claimed(s, i, pid)), i, pc), s.threads[j]);
  }

  /** A restarted waitpid always finds its child finished and itself the consumer; a first call
      finds no wait of its own left over. Otherwise the source would panic. */
  lemma WaitPathFacts(s: Sys, i: nat, child: Pid)
    requires Inv(s) && Enabled(s, WaitPid(i, child))
    ensures
      var path := WaitPathOf(s.table, s.table.owners[i].value, child, s.threads[i].id);
      && (s.threads[i].pc.WaitRestart? ==> path.Takes? && Proc(s.table, child).waiter == Some(s.threads[i].pc.token))
      && (!path.Refused? && s.threads[i].pc.Idle? ==> Proc(s.table, child).waiter.None?)
      && (path.Takes? ==> Proc(s.table, child).main.Some?)
  {
    ThreadFacts(s, i);
    if Has(s.table, child) { ProcessFacts(s, child); }
  }

  lemma WaitInv(s: Sys, i: nat, child: Pid)
    requires Inv(s) && Enabled(s, WaitPid(i, child))
    ensures Inv(Next(s, WaitPid(i, child)))
  {
    hide Inv;
    var a, parent := s.threads[i], s.table.owners[i].value;
    WaitPathFacts(s, i, child);
    ThreadFacts(s, i);
    if Has(s.table, child) { ProcessFacts(s, child); }
    match WaitPathOf(s.table, parent, child, a.id)
    case Refused =>
      if WaitRefused(s.table, parent, child, a.id) != s.table {
        ClaimInv(s, i, child, Idle);
      } else {
        OwnMoveInv(s, i, a);
      }
    case Blocks => RegisterInv(s, i, child);
    case Takes => ConsumeInv(s, i, child, WaitFinish(Proc(s.table, child).waiter, Proc(s.table, child).main.value));
  }

  lemma RegisterInv(s: Sys, i: nat, child: Pid)
    requires Inv(s) && Registers(s, i, child)
    ensures Inv(Next(s, WaitPid(i, child)))
  {
    hide Inv, StatusConserved, ThreadsOk, BoundOk;
    var s' := Next(s, WaitPid(i, child));
    ThreadFacts(s, i);
    RegisterConserved(s, i, child);
    forall j: nat | j < |s'.threads| ensures ThreadsOk(s', j) { RegisterThread(s, i, child, j); }
    forall q | Has(s'.table, q) ensures BoundOk(s', q) { RegisterProcess(s, i, child, q); }
    Assemble(s');
  }

  predicate Registers(s: Sys, i: nat, child: Pid) {
    && Enabled(s, WaitPid(i, child)) && s.threads[i].pc.Idle?
    && WaitPathOf(s.table, s.table.owners[i].value, child, s.threads[i].id).Blocks?
  }

  lemma RegisterConserved(s: Sys, i: nat, child: Pid)
    requires Inv(s) && Registers(s, i, child)
    ensures StatusConserved(Next(s, WaitPid(i, child)))
  {
    Conserved(s, Next(s, WaitPid(i, child)), child.index);
  }

  lemma RegisterThread(s: Sys, i: nat, child: Pid, j: nat)
    requires Inv(s) && Registers(s, i, child) && j < |s.threads|
    ensures |Next(s, WaitPid(i, child)).table.owners| == |s.threads| && ThreadsOk(Next(s, WaitPid(i, child)), j)
  {
    hide Inv;
    WaitPathFacts(s, i, child);
    ThreadFacts(s, j);
    ThreadFacts(s, i);
    InFlightKept(s, Next(s, WaitPid(i, child)), s.threads[j]);
  }

  lemma RegisterProcess(s: Sys, i: nat, child: Pid, q: Pid)
    requires Inv(s) && Registers(s, i, child) && Has(Next(s, WaitPid(i, child)).table, q)
    ensures BoundOk(Next(s, WaitPid(i, child)), q)
  {
    hide Inv;
    WaitPathFacts(s, i, child);
    ThreadFacts(s, i);
    ProcessFacts(s, q);
  }

  lemma StepInv(s: Sys, step: Step)
    requires Inv(s) && Enabled(s, step)
    ensures Inv(Next(s, step))
  {
    hide Inv;
    match step
    case AllocateStep(index, parent) => AllocateInv(s, index, parent);
    case FreeStep(pid) => FreeInv(s, pid);
    case Publish(i, id, pid) => PublishInv(s, i, id, pid);
    case WaitPid(i, child) => WaitInv(s, i, child);
    case FinishProcess(i, status) => FinishInv(s, i, status);
    case NotifyStep(i) => NotifyInv(s, i);
    case ClaimJoin(i, pid) =>
      if MayClaim(s, i, pid) { ClaimInv(s, i, pid, JoinClaimed(pid, Proc(s.table, pid).main.value, false)); }
    case JoinMain(i) => JoinInv(s, i);
    case ConsumeJoin(i) => ConsumeJoinInv(s, i);
    case _ => MoveStepInv(s, step);
  }

  // ----- theorems -----

  ghost predicate Initial(s: Sys) {
    && |s.threads| == |s.table.owners| && s.produced == [] && s.consumed == []
    && (forall i :: 0 <= i < |s.table.slots| ==> s.table.slots[i].process.None?)
    && (forall i :: 0 <= i < |s.table.owners| ==> s.table.owners[i].None?)
    && (forall i: nat :: i < |s.threads| ==>
          && s.threads[i].id.index == i && !s.threads[i].alive && !s.threads[i].exited
          && s.threads[i].pc.Idle? && s.threads[i].wait.active.None?)
  }

  ghost predicate IsRun(states: seq<Sys>, steps: seq<Step>) {
    && |states| == |steps| + 1 && Initial(states[0])
    && forall n: nat :: n < |steps| ==> StepAt(states, steps, n)
  }

  ghost predicate StepAt(states: seq<Sys>, steps: seq<Step>, n: nat)
    requires n < |steps| && |states| == |steps| + 1
  {
    Enabled(states[n], steps[n]) && (Inv(states[n]) ==> states[n + 1] == Next(states[n], steps[n]))
  }

  lemma {:induction false} NothingHeld(slots: seq<ProcSlot>, n: nat, k: (Pid, ExitStatus))
    requires n <= |slots| && forall i :: 0 <= i < |slots| ==> slots[i].process.None?
    ensures HeldStatus(slots, n, k) == 0
    decreases n
  {
    if n > 0 { NothingHeld(slots, n - 1, k); }
  }

  lemma InitialInv(s: Sys)
    requires Initial(s)
    ensures Inv(s)
  {
    forall k
      ensures HeldStatus(s.table.slots, |s.table.slots|, k) == 0
    {
      NothingHeld(s.table.slots, |s.table.slots|, k);
    }
  }

  lemma {:induction false} RunInv(states: seq<Sys>, steps: seq<Step>, n: nat)
    requires IsRun(states, steps) && n < |states|
    ensures Inv(states[n])
  {
    hide Inv, Next, Enabled;
    if n == 0 {
      InitialInv(states[0]);
    } else {
      RunInv(states, steps, n - 1);
      assert StepAt(states, steps, n - 1);
      StepInv(states[n - 1], steps[n - 1]);
    }
  }

  /** Every terminal status that was produced is still in the table or was consumed exactly once. */
  lemma ConsumedOnce(states: seq<Sys>, steps: seq<Step>, n: nat, k: (Pid, ExitStatus))
    requires IsRun(states, steps) && n < |states|
    ensures var s := states[n];
      multiset(s.produced)[k] == multiset(s.consumed)[k] + HeldStatus(s.table.slots, |s.table.slots|, k)
  {
    RunInv(states, steps, n);
  }

  /** A parent that sleeps in waitpid after its child has finished is about to be notified; when no
      notification is under way, its child has not finished. */
  lemma NoLostChild(states: seq<Sys>, steps: seq<Step>, n: nat, i: nat)
    requires IsRun(states, steps) && n < |states| && i < |states[n].threads| && Pending(states[n].threads[i])
    ensures
      var s, a := states[n], states[n].threads[i];
      && Has(s.table, a.pc.child)
      && (Proc(s.table, a.pc.child).status.Some? ==> InFlight(s, a.pc.token))
  {
    RunInv(states, steps, n);
    ThreadFacts(states[n], i);
  }

  /** finish_wait never finds an uncompleted wait, the commit is never stale, and a restarted
      waitpid never finds its child unfinished. */
  lemma WaitNeverPanics(states: seq<Sys>, steps: seq<Step>, n: nat, i: nat)
    requires IsRun(states, steps) && n < |states| && i < |states[n].threads|
    ensures
      var s, a := states[n], states[n].threads[i];
      && (a.pc.WaitFinish? && a.pc.taken.Some? ==> !Waits.Finish(a.wait, a.pc.taken.value).1.NotCompleted?)
      && (a.pc.WaitPrepared? ==> !Commit(a.wait, PreparedWait(a.pc.token, Explicit)).1.StaleCommit?)
      && (a.pc.WaitRestart? ==> Has(s.table, a.pc.child) && Proc(s.table, a.pc.child).status.Some?)
  {
    RunInv(states, steps, n);
    ThreadFacts(states[n], i);
  }

  /** The reverse index: the entry of a live thread is right, the entry of a free thread slot is
      empty, and unbinding a finishing process finds its own entry. */
  lemma ReverseIndexExact(states: seq<Sys>, steps: seq<Step>, n: nat, i: nat)
    requires IsRun(states, steps) && n < |states| && i < |states[n].threads|
    ensures
      var s := states[n];
      && |s.table.owners| == |s.threads|
      && (!s.threads[i].alive ==> s.table.owners[i].None?)
      && (s.table.owners[i].Some? ==>
            && Has(s.table, s.table.owners[i].value)
            && Proc(s.table, s.table.owners[i].value).main == Some(s.threads[i].id)
            && CanUnbind(s.table, s.table.owners[i].value))
  {
    RunInv(states, steps, n);
    ThreadFacts(states[n], i);
    if states[n].table.owners[i].Some? { ProcessFacts(states[n], states[n].table.owners[i].value); }
  }

  /** Reclaiming a finished process leaves every reverse entry alone, although its thread slot may
      belong to a newer process by then. */
  lemma ReclaimKeepsOwners(states: seq<Sys>, steps: seq<Step>, n: nat, pid: Pid)
    requires IsRun(states, steps) && n < |states| && Has(states[n].table, pid)
    requires Proc(states[n].table, pid).status.Some?
    ensures
      var t := states[n].table;
      && (Proc(t, pid).main.Some? ==> Proc(t, pid).main.value.index < |t.owners|)
      && Consume(t, pid).owners == t.owners
  {
    RunInv(states, steps, n);
    ProcessFacts(states[n], pid);
    ThreadFacts(states[n], Proc(states[n].table, pid).main.value.index);
  }
}
