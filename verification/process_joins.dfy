/**
  Joining the main thread of a process (kernel/src/process/wait.rs:84-96, lifecycle.rs:22-39).

  A finished main thread is joined by whoever takes the status of its process. The right to do so sits
  with the process until waitpid or process_join takes it over, and nobody else ever has it.
 */
module ProcessJoins {
  import opened Base
  import opened Waits
  import opened ProcessTable
  import opened ProcessProtocol

  /** A finished main thread that has not been joined: exiting, or exited and still in its slot. */
  predicate Ending(s: Sys, m: ThreadId) {
    && m.index < |s.threads|
    && var a := s.threads[m.index];
       a.id == m && (a.exited || (a.alive && (a.pc.Notifying? || a.pc.Dying?)))
  }

  /** The claimant of a process has joined its main thread and is about to take the status. */
  predicate Joined(s: Sys, pid: Pid)
    requires Has(s.table, pid)
  {
    var consumer := Proc(s.table, pid).consumer;
    && consumer.Some? && consumer.value.index < |s.threads|
    && var pc := s.threads[consumer.value.index].pc;
       pc.JoinClaimed? && pc.pid == pid && pc.joined
  }

  /** Who may join a finished main thread: its process, or the thread that took its status. */
  datatype Holder = OfProcess(pid: Pid) | OfThread(i: nat)

  function Wants(pc: Pc): Option<ThreadId> {
    if pc.WaitFinish? || pc.WaitJoin? then Some(pc.main) else None
  }

  function Right(s: Sys, h: Holder): Option<ThreadId> {
    match h
    case OfProcess(pid) =>
      if Has(s.table, pid) && Proc(s.table, pid).status.Some? && !Joined(s, pid) then Proc(s.table, pid).main else None
    case OfThread(i) => if i < |s.threads| then Wants(s.threads[i].pc) else None
  }

  ghost predicate RightsOk(s: Sys) {
    && (forall h: Holder :: Right(s, h).Some? ==> Ending(s, Right(s, h).value))
    && (forall h: Holder, g: Holder :: h != g && Right(s, h).Some? ==> Right(s, h) != Right(s, g))
  }

  /** A claimant of process_join is the consumer of another process, and knows its main thread. */
  predicate ClaimOk(s: Sys, i: nat)
    requires i < |s.threads| == |s.table.owners|
  {
    var pc := s.threads[i].pc;
    pc.JoinClaimed? ==>
      && Has(s.table, pc.pid) && s.table.owners[i] != Some(pc.pid)
      && var p := Proc(s.table, pc.pid);
         p.consumer == Some(s.threads[i].id) && p.main == Some(pc.main) && (pc.joined ==> p.status.Some?)
  }

  ghost predicate ClaimsOk(s: Sys) {
    |s.threads| == |s.table.owners| && forall i: nat :: i < |s.threads| ==> ClaimOk(s, i)
  }

  ghost predicate JoinsOk(s: Sys) {
    RightsOk(s) && ClaimsOk(s)
  }

  // ----- how rights move -----

  /** One right may pass from one holder to another; the others stay or lapse. */
  lemma RightsMoved(s: Sys, s': Sys, from: Holder, to: Holder)
    requires RightsOk(s) && (from != to ==> Right(s', from).None?)
    requires forall h: Holder :: Right(s', h).Some? ==>
      Right(s', h) == Right(s, if h == to then from else h) && Ending(s', Right(s', h).value)
    ensures RightsOk(s')
  {
    forall h: Holder, g: Holder | h != g && Right(s', h).Some? ensures Right(s', h) != Right(s', g) {
      if Right(s', g).Some? {
        var a, b := if h == to then from else h, if g == to then from else g;
        assert a != b;
        assert Right(s, a) != Right(s, b);
      }
    }
  }

  /** A thread moves on by itself and keeps what it has to join and whether it is being joined. */
  predicate KeepsRights(s: Sys, i: nat, b: Actor)
    requires i < |s.threads|
  {
    var a := s.threads[i];
    && Wants(b.pc) == Wants(a.pc) && (a.pc.JoinClaimed? || b.pc.JoinClaimed? ==> b.pc == a.pc && b.id == a.id)
    && (Ending(s, a.id) ==> b.id == a.id && (b.exited || (b.alive && (b.pc.Notifying? || b.pc.Dying?))))
  }

  lemma OwnRights(s: Sys, i: nat, b: Actor)
    requires JoinsOk(s) && i < |s.threads| && KeepsRights(s, i, b)
    ensures JoinsOk(PutThread(s, i, b))
  {
    var s' := PutThread(s, i, b);
    forall h: Holder ensures Right(s', h) == Right(s, h) { }
    forall m: ThreadId | Ending(s, m) ensures Ending(s', m) { }
    RightsMoved(s, s', OfThread(i), OfThread(i));
    forall k: nat | k < |s'.threads| ensures ClaimOk(s', k) { assert ClaimOk(s, k); }
  }

  lemma MoveRights(s: Sys, step: Step)
    requires Inv(s) && JoinsOk(s) && Enabled(s, step)
    requires step.StartKernel? || step.StopKernel? || step.Elsewhere? || step.CommitStep? || step.WakeStep?
             || step.FinishWait? || step.ExitStep?
    ensures JoinsOk(Next(s, step))
  {
    var i, s' := step.i, Next(s, step);
    ThreadFacts(s, i);
    hide Inv, JoinsOk;
    assert s' == PutThread(s, i, s'.threads[i]);
    OwnRights(s, i, s'.threads[i]);
  }

  lemma NotifyRights(s: Sys, i: nat)
    requires Inv(s) && JoinsOk(s) && Enabled(s, NotifyStep(i))
    ensures JoinsOk(NotifyOne(s, i))
  {
    ThreadFacts(s, i);
    hide Inv, JoinsOk;
    var s', waiter := NotifyOne(s, i), s.threads[i].pc.waiter;
    var j := if waiter.Some? && waiter.value.thread.index < |s.threads| then waiter.value.thread.index else i;
    var s1 := PutThread(s, j, s.threads[j].(wait := s'.threads[j].wait));
    OwnRights(s, j, s1.threads[j]);
    assert s' == PutThread(s1, i, s1.threads[i].(pc := Dying));
    OwnRights(s1, i, s'.threads[i]);
  }

  // ----- rights and the table -----

  /** The table changes where no right and no claim is concerned. */
  lemma TableRights(s: Sys, s': Sys, pid: Pid)
    requires JoinsOk(s) && s'.threads == s.threads && |s'.table.owners| == |s.table.owners|
    requires forall q: Pid :: q != pid && Has(s'.table, q) ==> SameProc(s.table, s'.table, q)
    requires forall q: Pid :: q != pid && Has(s.table, q) ==> q.index == pid.index || Has(s'.table, q)
    requires Has(s'.table, pid) ==> Proc(s'.table, pid).status.None?
    requires forall k: nat :: k < |s.threads| && s.threads[k].pc.JoinClaimed? ==>
      SameProc(s.table, s'.table, s.threads[k].pc.pid) && s'.table.owners[k] == s.table.owners[k]
    ensures JoinsOk(s')
  {
    RightsMoved(s, s', OfProcess(pid), OfProcess(pid));
    forall k: nat | k < |s'.threads| ensures ClaimOk(s', k) { assert ClaimOk(s, k); }
  }

  lemma AllocateRights(s: Sys, index: nat, parent: Option<Pid>)
    requires Inv(s) && JoinsOk(s) && Enabled(s, AllocateStep(index, parent))
    ensures JoinsOk(s.(table := Allocate(s.table, index, parent)))
  {
    hide Inv, RightsOk;
    var s' := s.(table := Allocate(s.table, index, parent));
    forall k: nat | k < |s.threads| && s.threads[k].pc.JoinClaimed?
      ensures SameProc(s.table, s'.table, s.threads[k].pc.pid)
    {
      assert ClaimOk(s, k);
    }
    TableRights(s, s', Pid(index, s'.table.slots[index].generation));
  }

  lemma FreeRights(s: Sys, pid: Pid)
    requires Inv(s) && JoinsOk(s) && Enabled(s, FreeStep(pid))
    ensures JoinsOk(s.(table := Release(s.table, pid, pid.generation)))
  {
    hide Inv, RightsOk;
    var s' := s.(table := Release(s.table, pid, pid.generation));
    forall k: nat | k < |s.threads| && s.threads[k].pc.JoinClaimed?
      ensures SameProc(s.table, s'.table, s.threads[k].pc.pid)
    {
      assert ClaimOk(s, k);
    }
    TableRights(s, s', pid);
  }

  lemma PublishRights(s: Sys, i: nat, id: ThreadId, pid: Pid)
    requires Inv(s) && JoinsOk(s) && Enabled(s, Publish(i, id, pid))
    ensures JoinsOk(Next(s, Publish(i, id, pid)))
  {
    ThreadFacts(s, i);
    var s' := Next(s, Publish(i, id, pid));
    hide Inv, RightsOk;
    var s1 := s.(table := s'.table);
    forall k: nat | k < |s.threads| && s.threads[k].pc.JoinClaimed?
      ensures SameProc(s.table, s'.table, s.threads[k].pc.pid)
    {
      assert ClaimOk(s, k);
    }
    TableRights(s, s1, pid);
    OwnRights(s1, i, s'.threads[i]);
  }

  /** The right to a main thread comes into being when its process finishes. */
  lemma FinishRights(s: Sys, i: nat, status: ExitStatus)
    requires Inv(s) && JoinsOk(s) && Enabled(s, FinishProcess(i, status))
    ensures JoinsOk(FinishOne(s, i, status))
  {
    ThreadFacts(s, i);
    ProcessFacts(s, s.table.owners[i].value);
    var s', pid := FinishOne(s, i, status), s.table.owners[i].value;
    hide Inv;
    assert !Ending(s, s.threads[i].id);
    forall h: Holder | Right(s', h).Some?
      ensures Ending(s', Right(s', h).value)
      ensures if h == OfProcess(pid) then Right(s', h) == Some(s.threads[i].id) else Right(s', h) == Right(s, h)
    {
      assert h != OfProcess(pid) ==> Right(s', h) == Right(s, h);
    }
    forall k: nat | k < |s'.threads| ensures ClaimOk(s', k) { assert ClaimOk(s, k); }
  }

  /** Becoming the consumer of a process that has none does not join anything yet. */
  lemma ClaimRights(s: Sys, i: nat, pid: Pid, pc: Pc)
    requires Inv(s) && JoinsOk(s) && ThreadStep(s, i) && s.threads[i].pc.Idle?
    requires Has(s.table, pid) && Proc(s.table, pid).consumer.None?
    requires pc.Idle? || (MayClaim(s, i, pid) && pc == JoinClaimed(pid, Proc(s.table, pid).main.value, false))
    ensures JoinsOk(Goto(s.(table := Claimed(s, i, pid)), i, pc))
  {
    ThreadFacts(s, i);
    var s' := Goto(s.(table := Claimed(s, i, pid)), i, pc);
    hide Inv;
    forall h: Holder ensures Right(s', h) == Right(s, h) { }
    RightsMoved(s, s', OfThread(i), OfThread(i));
    forall k: nat | k < |s'.threads| ensures ClaimOk(s', k) { assert ClaimOk(s, k); }
  }

  lemma RegisterRights(s: Sys, i: nat, child: Pid)
    requires Inv(s) && JoinsOk(s) && Enabled(s, WaitPid(i, child)) && s.threads[i].pc.Idle?
    requires WaitPathOf(s.table, s.table.owners[i].value, child, s.threads[i].id).Blocks?
    ensures JoinsOk(Next(s, WaitPid(i, child)))
  {
    var s' := Next(s, WaitPid(i, child));
    ThreadFacts(s, i);
    hide Inv, RightsOk;
    forall k: nat | k < |s.threads| && s.threads[k].pc.JoinClaimed?
      ensures SameProc(s.table, s'.table, s.threads[k].pc.pid)
    {
      ThreadIndex(s, k);
      assert ClaimOk(s, k);
    }
    var s1 := s.(table := s'.table);
    TableRights(s, s1, child);
    OwnRights(s1, i, s'.threads[i]);
  }

  lemma ThreadIndex(s: Sys, k: nat)
    requires Inv(s) && k < |s.threads|
    ensures s.threads[k].id.index == k
  {
  }

  /** waitpid takes the status and, with it, the right to join. */
  lemma TakeRights(s: Sys, i: nat, child: Pid)
    requires Inv(s) && JoinsOk(s) && Enabled(s, WaitPid(i, child))
    requires WaitPathOf(s.table, s.table.owners[i].value, child, s.threads[i].id).Takes?
    ensures JoinsOk(Next(s, WaitPid(i, child)))
  {
    var s' := Next(s, WaitPid(i, child));
    ThreadFacts(s, i);
    ProcessFacts(s, child);
    hide Inv;
    forall k: nat | k < |s.threads| && s.threads[k].pc.JoinClaimed? ensures s.threads[k].pc.pid.index != child.index {
      ThreadIndex(s, k);
      assert ClaimOk(s, k);
    }
    assert !Joined(s, child);
    forall h: Holder | Right(s', h).Some?
      ensures Right(s', h) == Right(s, if h == OfThread(i) then OfProcess(child) else h)
      ensures Ending(s', Right(s', h).value)
    {
    }
    RightsMoved(s, s', OfProcess(child), OfThread(i));
    TakenOwners(s, i, child);
    forall k: nat | k < |s'.threads| ensures ClaimOk(s', k) { assert ClaimOk(s, k); }
  }

  lemma TakenOwners(s: Sys, i: nat, child: Pid)
    requires Inv(s) && Has(s.table, child) && Proc(s.table, child).status.Some?
    requires Proc(s.table, child).main.Some? && Proc(s.table, child).main.value.index < |s.table.owners|
    ensures Consume(s.table, child).owners == s.table.owners
  {
    ThreadFacts(s, Proc(s.table, child).main.value.index);
  }

  lemma WaitRights(s: Sys, i: nat, child: Pid)
    requires Inv(s) && JoinsOk(s) && Enabled(s, WaitPid(i, child))
    ensures JoinsOk(Next(s, WaitPid(i, child)))
  {
    var a, parent, s' := s.threads[i], s.table.owners[i].value, Next(s, WaitPid(i, child));
    WaitPathFacts(s, i, child);
    ThreadFacts(s, i);
    hide Inv, JoinsOk;
    match WaitPathOf(s.table, parent, child, a.id)
    case Refused =>
      if WaitRefused(s.table, parent, child, a.id) != s.table {
        ClaimRights(s, i, child, Idle);
      } else {
        assert s' == PutThread(s, i, a);
        OwnRights(s, i, a);
      }
    case Blocks => RegisterRights(s, i, child);
    case Takes => TakeRights(s, i, child);
  }

  /** A right is used up by the join it allows. */
  lemma JoinRights(s: Sys, i: nat)
    requires Inv(s) && JoinsOk(s) && Enabled(s, JoinMain(i))
    ensures JoinsOk(JoinOne(s, i))
  {
    var s', m := JoinOne(s, i), s.threads[i].pc.main;
    JoinSucceeds(s, i);
    ThreadFacts(s, i);
    hide Inv;
    if s' != s {
      var used := if s.threads[i].pc.WaitJoin? then OfThread(i) else OfProcess(s.threads[i].pc.pid);
      assert ClaimOk(s, i);
      assert Right(s', used).None?;
      forall h: Holder | Right(s', h).Some? ensures Right(s', h) == Right(s, h) && Ending(s', Right(s', h).value) {
        assert h != used && Right(s, h) == Right(s', h);
        assert Right(s, used) == Some(m);
      }
      RightsMoved(s, s', used, used);
      forall k: nat | k < |s'.threads| ensures ClaimOk(s', k) { assert ClaimOk(s, k); }
    }
  }

  /** A thread that joins finds the main thread live or exited, never gone; it is not itself, and no
      other thread is about to join it. */
  lemma JoinSucceeds(s: Sys, i: nat)
    requires Inv(s) && JoinsOk(s) && i < |s.threads| && Joining(s.threads[i].pc)
    ensures
      var m := s.threads[i].pc.main;
      && m.index < |s.threads| && s.threads[m.index].id == m && m.index != i
      && (s.threads[m.index].alive || s.threads[m.index].exited)
      && (s.threads[m.index].exited && s.threads[i].pc.JoinClaimed? ==>
            Has(s.table, s.threads[i].pc.pid) && Proc(s.table, s.threads[i].pc.pid).status.Some?)
  {
    ThreadFacts(s, i);
    if s.threads[i].pc.WaitJoin? {
      assert Right(s, OfThread(i)) == Some(s.threads[i].pc.main);
    } else {
      var pid := s.threads[i].pc.pid;
      assert ClaimOk(s, i);
      ProcessFacts(s, pid);
      ThreadFacts(s, Proc(s.table, pid).main.value.index);
      if Proc(s.table, pid).status.Some? { assert Right(s, OfProcess(pid)) == Some(s.threads[i].pc.main); }
    }
  }

  lemma ConsumeRights(s: Sys, i: nat)
    requires Inv(s) && JoinsOk(s) && Enabled(s, ConsumeJoin(i))
    ensures JoinsOk(Next(s, ConsumeJoin(i))) && MayConsume(s.table, s.threads[i].pc.pid, s.threads[i].id)
  {
    var s', pid := Next(s, ConsumeJoin(i)), s.threads[i].pc.pid;
    assert ClaimOk(s, i);
    ThreadFacts(s, i);
    ProcessFacts(s, pid);
    hide Inv;
    TakenOwners(s, i, pid);
    forall k: nat | k < |s.threads| && k != i && s.threads[k].pc.JoinClaimed?
      ensures s.threads[k].pc.pid.index != pid.index
    {
      ThreadIndex(s, k);
      assert ClaimOk(s, k);
    }
    forall h: Holder | Right(s', h).Some? ensures Right(s', h) == Right(s, h) && Ending(s', Right(s', h).value) { }
    RightsMoved(s, s', OfThread(i), OfThread(i));
    forall k: nat | k < |s'.threads| ensures ClaimOk(s', k) { assert ClaimOk(s, k); }
  }

  lemma StepRights(s: Sys, step: Step)
    requires Inv(s) && JoinsOk(s) && Enabled(s, step)
    ensures JoinsOk(Next(s, step))
  {
    hide Inv, JoinsOk;
    match step
    case AllocateStep(index, parent) => AllocateRights(s, index, parent);
    case FreeStep(pid) => FreeRights(s, pid);
    case Publish(i, id, pid) => PublishRights(s, i, id, pid);
    case WaitPid(i, child) => WaitRights(s, i, child);
    case JoinMain(i) => JoinRights(s, i);
    case FinishProcess(i, status) => FinishRights(s, i, status);
    case NotifyStep(i) => NotifyRights(s, i);
    case ClaimJoin(i, pid) =>
      if MayClaim(s, i, pid) { ClaimRights(s, i, pid, JoinClaimed(pid, Proc(s.table, pid).main.value, false)); }
    case ConsumeJoin(i) => ConsumeRights(s, i);
    case _ => MoveRights(s, step);
  }

  // ----- theorems -----

  lemma {:induction false} RunJoins(states: seq<Sys>, steps: seq<Step>, n: nat)
    requires IsRun(states, steps) && n < |states|
    ensures Inv(states[n]) && JoinsOk(states[n])
  {
    hide Inv, JoinsOk, Next, Enabled;
    RunInv(states, steps, n);
    if n == 0 {
      InitialJoins(states[0]);
    } else {
      RunJoins(states, steps, n - 1);
      assert StepAt(states, steps, n - 1);
      StepRights(states[n - 1], steps[n - 1]);
    }
  }

  lemma InitialJoins(s: Sys)
    requires Initial(s)
    ensures JoinsOk(s)
  {
  }

  /** A status that waitpid or process_join has taken is delivered: the join of the main thread waits
      for it or reaps it and never fails, for a thread has only one joiner. */
  lemma TakenIsDelivered(states: seq<Sys>, steps: seq<Step>, n: nat, i: nat)
    requires IsRun(states, steps) && n < |states| && i < |states[n].threads|
    requires Joining(states[n].threads[i].pc)
    ensures
      var s, m := states[n], states[n].threads[i].pc.main;
      && m.index < |s.threads| && s.threads[m.index].id == m && m.index != i
      && (s.threads[m.index].alive || s.threads[m.index].exited)
      && forall k :: 0 <= k < |s.threads| && k != i && Joining(s.threads[k].pc) ==> s.threads[k].pc.main != m
  {
    var s := states[n];
    RunJoins(states, steps, n);
    JoinSucceeds(s, i);
    forall k | 0 <= k < |s.threads| && k != i && Joining(s.threads[k].pc)
      ensures s.threads[k].pc.main != s.threads[i].pc.main
    {
      OneJoiner(s, i, k);
    }
  }

  /** Once process_join has joined the main thread, it finds the status it claimed. */
  lemma ClaimIsDelivered(states: seq<Sys>, steps: seq<Step>, n: nat, i: nat)
    requires IsRun(states, steps) && n < |states| && Enabled(states[n], ConsumeJoin(i))
    ensures MayConsume(states[n].table, states[n].threads[i].pc.pid, states[n].threads[i].id)
  {
    RunJoins(states, steps, n);
    ConsumeRights(states[n], i);
  }

  /** The main thread of a claimed process runs in its slot until the process finishes. */
  lemma ClaimedMain(s: Sys, i: nat)
    requires Inv(s) && JoinsOk(s) && i < |s.threads| && s.threads[i].pc.JoinClaimed? && !s.threads[i].pc.joined
    ensures
      var pid, m := s.threads[i].pc.pid, s.threads[i].pc.main;
      && Has(s.table, pid) && Proc(s.table, pid).consumer == Some(s.threads[i].id) && s.threads[i].id.index == i
      && m.index < |s.table.owners|
      && if Proc(s.table, pid).status.Some? then Right(s, OfProcess(pid)) == Some(m)
         else s.table.owners[m.index] == Some(pid) && !Ending(s, m)
  {
    ThreadFacts(s, i);
    assert ClaimOk(s, i);
    ProcessFacts(s, s.threads[i].pc.pid);
    ThreadFacts(s, s.threads[i].pc.main.index);
  }

  lemma OneJoiner(s: Sys, i: nat, k: nat)
    requires Inv(s) && JoinsOk(s) && i < |s.threads| && k < |s.threads| && i != k
    requires Joining(s.threads[i].pc) && Joining(s.threads[k].pc)
    ensures s.threads[i].pc.main != s.threads[k].pc.main
  {
    var a, b := s.threads[i].pc, s.threads[k].pc;
    if a.JoinClaimed? { ClaimedMain(s, i); }
    if b.JoinClaimed? { ClaimedMain(s, k); }
    var h := if a.WaitJoin? then OfThread(i) else OfProcess(a.pid);
    var g := if b.WaitJoin? then OfThread(k) else OfProcess(b.pid);
    hide Inv;
    assert h != g;
    assert Right(s, h).Some? ==> Right(s, h) == Some(a.main) && Ending(s, a.main);
    assert Right(s, g).Some? ==> Right(s, g) == Some(b.main) && Ending(s, b.main);
  }
}
