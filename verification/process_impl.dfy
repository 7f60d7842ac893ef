/** The process table in place (kernel/src/process/table.rs, lifecycle.rs, wait.rs). */
module ProcessImpl {
  import opened Base
  import opened Waits
  import opened ProcessTable

  datatype JoinFailure = InvalidProcess | JoinTaken | StillRunning

  class ProcessStore {
    const slots: array<ProcSlot>
    const owners: array<Option<Pid>>

    ghost function Model(): Table
      reads slots, owners
    {
      Table(slots[..], owners[..])
    }

    constructor (maxProcesses: nat, threadCapacity: nat)
      ensures fresh(slots) && fresh(owners) && slots.Length == maxProcesses && owners.Length == threadCapacity
      ensures forall i :: 0 <= i < maxProcesses ==> slots[i] == ProcSlot(0, None)
      ensures forall i :: 0 <= i < threadCapacity ==> owners[i] == None
    {
      slots := new ProcSlot[maxProcesses](_ => ProcSlot(0, None));
      owners := new Option<Pid>[threadCapacity](_ => None);
    }

    method Lookup(pid: Pid) returns (process: Option<Process>)
      ensures process == if Has(Model(), pid) then Some(Proc(Model(), pid)) else None
    {
      if pid.index >= slots.Length || slots[pid.index].generation != pid.generation { return None; }
      process := slots[pid.index].process;
    }

    method SetProcess(pid: Pid, p: Process)
      requires Has(Model(), pid)
      modifies slots
      ensures Model() == PutProc(old(Model()), pid, p)
    {
      slots[pid.index] := slots[pid.index].(process := Some(p));
    }

    /** A stale or mismatched entry is a panic in the source. */
    method ProcessForThread(thread: ThreadId) returns (pid: Option<Pid>)
      requires thread.index < owners.Length && owners[thread.index].Some? ==>
        Has(Model(), owners[thread.index].value) && Proc(Model(), owners[thread.index].value).main == Some(thread)
      ensures pid.Some? ==> Has(Model(), pid.value) && Proc(Model(), pid.value).main == Some(thread)
      ensures pid == if thread.index < owners.Length then owners[thread.index] else None
    {
      if thread.index >= owners.Length || owners[thread.index].None? { return None; }
      pid := owners[thread.index];
      var process := Lookup(pid.value);
      assert process.Some? && process.value.main == Some(thread);
    }

    method BindMainThread(pid: Pid, thread: ThreadId)
      requires thread.index < owners.Length && owners[thread.index].None?
      requires Has(Model(), pid) && Proc(Model(), pid).main.None?
      modifies slots, owners
      ensures Model() == Bind(old(Model()), pid, thread)
    {
      assert owners[thread.index].None?;
      var process := Lookup(pid);
      assert process.Some? && process.value.main.None?;
      SetProcess(pid, process.value.(main := Some(thread)));
      owners[thread.index] := Some(pid);
    }

    method UnbindMainThread(pid: Pid)
      requires CanUnbind(Model(), pid)
      modifies owners
      ensures Model() == Unbind(old(Model()), pid)
    {
      var process := Lookup(pid);
      assert process.Some? && process.value.main.Some?;
      var thread := process.value.main.value;
      assert thread.index < owners.Length && owners[thread.index] == Some(pid);
      owners[thread.index] := None;
    }

    method ReleaseSlot(pid: Pid, generation: nat)
      requires Has(Model(), pid)
      requires Proc(Model(), pid).main.Some? ==> Proc(Model(), pid).main.value.index < owners.Length
      modifies slots, owners
      ensures Model() == Release(old(Model()), pid, generation)
    {
      var process := Lookup(pid);
      assert process.Some?;
      if process.value.main.Some? {
        var thread := process.value.main.value;
        assert thread.index < owners.Length;
        if owners[thread.index] == Some(pid) { owners[thread.index] := None; }
      }
      slots[pid.index] := ProcSlot(generation, None);
    }

    /** First free slot, under its next generation. */
    method AllocateProcessSlot(parent: Option<Pid>) returns (pid: Option<Pid>)
      modifies slots
      ensures pid.None? ==> Model() == old(Model()) && forall i :: 0 <= i < slots.Length ==> slots[i].process.Some?
      ensures pid.Some? ==>
        && pid.value.index < slots.Length && old(slots[pid.value.index]).process.None?
        && (forall i :: 0 <= i < pid.value.index ==> old(slots[i]).process.Some?)
        && Model() == Allocate(old(Model()), pid.value.index, parent)
        && Has(Model(), pid.value) && Proc(Model(), pid.value).parent == parent
        && pid.value.generation != old(slots[pid.value.index]).generation && pid.value.generation != 0
    {
      var index := 0;
      while index < slots.Length && slots[index].process.Some?
        invariant index <= slots.Length && forall i :: 0 <= i < index ==> slots[i].process.Some?
      {
        index := index + 1;
      }
      if index == slots.Length { return None; }
      var generation := NextGeneration(slots[index].generation);
      slots[index] := ProcSlot(generation, Some(Process(parent, None, None, None, None)));
      pid := Some(Pid(index, generation));
    }

    /** Returns the waiter to complete, Some(None) when the process had finished before. */
    method FinishProcess(pid: Pid, status: ExitStatus) returns (wake: Option<Option<WaitToken>>)
      requires Has(Model(), pid) && Proc(Model(), pid).status.None? ==> CanUnbind(Model(), pid)
      modifies slots, owners
      ensures (Model(), wake) == ProcessTable.Finish(old(Model()), pid, status)
      ensures
        var t := old(Model());
        && (wake.None? <==> !Has(t, pid)) && (wake.None? ==> Model() == t)
        && (Has(t, pid) && Proc(t, pid).status.Some? ==> wake == Some(None) && Model() == t)
        && (Has(t, pid) && Proc(t, pid).status.None? ==>
              && wake == Some(Proc(t, pid).waiter)
              && Has(Model(), pid) && Proc(Model(), pid) == Proc(t, pid).(status := Some(status)))
    {
      var process := Lookup(pid);
      if process.None? { return None; }
      if process.value.status.Some? { return Some(None); }
      SetProcess(pid, process.value.(status := Some(status)));
      UnbindMainThread(pid);
      wake := Some(process.value.waiter);
    }

    /** The locked part of waitpid; `issued` is the token the scheduler hands out if the caller blocks. */
    method PrepareWaitChild(parent: Pid, child: Pid, caller: ThreadId, issued: WaitToken)
      returns (path: WaitPath, taken: Option<(ExitStatus, ThreadId, Option<WaitToken>)>)
      requires Has(Model(), child) && MayWait(Proc(Model(), child), parent, caller) ==>
        var p := Proc(Model(), child);
        if p.status.None? then p.waiter.None? else p.main.Some? && p.main.value.index < owners.Length
      modifies slots, owners
      ensures
        var t := old(Model());
        && (path.Refused? <==> !Has(t, child) || !MayWait(Proc(t, child), parent, caller))
        && (path.Takes? <==> Has(t, child) && MayWait(Proc(t, child), parent, caller) && Proc(t, child).status.Some?)
        && (path.Takes? <==> taken.Some?)
        && (path.Takes? ==> Proc(t, child).parent == Some(parent) && !Has(Model(), child))
        && (Has(t, child) && Proc(t, child).parent != Some(parent) ==> path.Refused? && Model() == t)
        && (!Has(t, child) ==> path.Refused? && Model() == t)
        && (path.Refused? && Has(t, child) && Proc(t, child).parent == Some(parent) && Proc(t, child).consumer.None? ==>
              Model() == PutProc(t, child, Proc(t, child).(consumer := Some(caller))))
        && (path.Takes? ==> slots[child.index].generation != child.generation)
      ensures path == WaitPathOf(old(Model()), parent, child, caller)
      ensures path.Refused? ==> Model() == WaitRefused(old(Model()), parent, child, caller) && taken.None?
      ensures path.Blocks? ==> Model() == WaitRegister(old(Model()), child, caller, issued) && taken.None?
      ensures path.Takes? ==>
        var p := Proc(old(Model()), child);
        && Model() == Consume(old(Model()), child)
        && taken == Some((p.status.value, p.main.value, p.waiter))
    {
      taken := None;
      var found := Lookup(child);
      if found.None? || found.value.parent != Some(parent) { return Refused, None; }
      var p := found.value;
      if p.consumer.Some? && p.consumer != Some(caller) { return Refused, None; }
      if p.consumer.None? {
        p := p.(consumer := Some(caller));
        SetProcess(child, p);
      }
      if p.waiter.Some? && p.waiter.value.thread != caller { return Refused, None; }
      if p.status.None? {
        assert p.waiter.None?;
        SetProcess(child, p.(waiter := Some(issued)));
        return Blocks, None;
      }
      assert p.main.Some?;
      taken := Some((p.status.value, p.main.value, p.waiter));
      SetProcess(child, p.(status := None, waiter := None));
      ReleaseSlot(child, NextGeneration(child.generation));
      path := Takes;
    }

    method ClaimProcessConsumer(pid: Pid, caller: ThreadId)
      returns (main: Option<ThreadId>, failure: Option<JoinFailure>)
      modifies slots
      ensures main.Some? <==> failure.None?
      ensures var t := old(Model());
        if Has(t, pid) && Proc(t, pid).consumer.None? && Proc(t, pid).main.Some?
        then main == Proc(t, pid).main && Model() == PutProc(t, pid, Proc(t, pid).(consumer := Some(caller)))
        else main.None? && Model() == t
             && failure == Some(if Has(t, pid) && Proc(t, pid).consumer.Some? then JoinTaken else InvalidProcess)
    {
      var found := Lookup(pid);
      if found.None? { return None, Some(InvalidProcess); }
      if found.value.consumer.Some? { return None, Some(JoinTaken); }
      if found.value.main.None? { return None, Some(InvalidProcess); }
      SetProcess(pid, found.value.(consumer := Some(caller)));
      return found.value.main, None;
    }

    method ConsumeProcessForJoin(pid: Pid, caller: ThreadId)
      returns (status: Option<ExitStatus>, failure: Option<JoinFailure>)
      requires Has(Model(), pid) && Proc(Model(), pid).main.Some? ==>
        Proc(Model(), pid).main.value.index < owners.Length
      modifies slots, owners
      ensures status.Some? <==> failure.None?
      ensures var t := old(Model());
        if Has(t, pid) && Proc(t, pid).consumer == Some(caller) && Proc(t, pid).status.Some?
        then status == Proc(t, pid).status && Model() == Consume(t, pid)
        else status.None? && Model() == t
             && failure == Some(if !Has(t, pid) then InvalidProcess
                                else if Proc(t, pid).consumer != Some(caller) then JoinTaken else StillRunning)
      ensures status.Some? ==> !Has(Model(), pid) && slots[pid.index].generation != pid.generation
    {
      var found := Lookup(pid);
      if found.None? { return None, Some(InvalidProcess); }
      if found.value.consumer != Some(caller) { return None, Some(JoinTaken); }
      if found.value.status.None? { return None, Some(StillRunning); }
      SetProcess(pid, found.value.(status := None));
      ReleaseSlot(pid, NextGeneration(pid.generation));
      return found.value.status, None;
    }
  }
}
