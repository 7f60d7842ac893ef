/**
  The process table (kernel/src/process/table.rs, lifecycle.rs, wait.rs): what one section of the
  table lock does. Slots carry generations; a reverse index finds the process of a thread slot.
 */
module ProcessTable {
  import opened Base
  import opened Waits

  datatype Pid = Pid(index: nat, generation: nat)
  datatype ExitStatus = ExitedWith(code: nat) | FaultedWith(fault: nat)

  datatype Process = Process(
    parent: Option<Pid>,
    main: Option<ThreadId>,
    consumer: Option<ThreadId>,
    waiter: Option<WaitToken>,
    status: Option<ExitStatus>)

  datatype ProcSlot = ProcSlot(generation: nat, process: Option<Process>)
  datatype Table = Table(slots: seq<ProcSlot>, owners: seq<Option<Pid>>)

  predicate Has(t: Table, pid: Pid) {
    pid.index < |t.slots| && t.slots[pid.index].generation == pid.generation && t.slots[pid.index].process.Some?
  }

  function Proc(t: Table, pid: Pid): Process
    requires Has(t, pid)
  {
    t.slots[pid.index].process.value
  }

  function PutProc(t: Table, pid: Pid, p: Process): Table
    requires Has(t, pid)
  {
    t.(slots := t.slots[pid.index := t.slots[pid.index].(process := Some(p))])
  }

  function NextGeneration(g: nat): nat {
    if g >= U32_MAX then 1 else g + 1
  }

  /** A free slot becomes a process without a thread. */
  function Allocate(t: Table, index: nat, parent: Option<Pid>): Table
    requires index < |t.slots| && t.slots[index].process.None?
  {
    t.(slots := t.slots[index := ProcSlot(NextGeneration(t.slots[index].generation),
                                          Some(Process(parent, None, None, None, None)))])
  }

  /** The published main thread gets its reverse entry. */
  function Bind(t: Table, pid: Pid, thread: ThreadId): Table
    requires Has(t, pid) && thread.index < |t.owners|
  {
    PutProc(t, pid, Proc(t, pid).(main := Some(thread))).(owners := t.owners[thread.index := Some(pid)])
  }

  predicate CanUnbind(t: Table, pid: Pid) {
    && Has(t, pid) && Proc(t, pid).main.Some?
    && Proc(t, pid).main.value.index < |t.owners| && t.owners[Proc(t, pid).main.value.index] == Some(pid)
  }

  function Unbind(t: Table, pid: Pid): Table
    requires CanUnbind(t, pid)
  {
    t.(owners := t.owners[Proc(t, pid).main.value.index := None])
  }

  /** Free a slot; a reverse entry that a newer process has taken over is left alone. */
  function Release(t: Table, pid: Pid, generation: nat): Table
    requires Has(t, pid) && (Proc(t, pid).main.Some? ==> Proc(t, pid).main.value.index < |t.owners|)
  {
    var main := Proc(t, pid).main;
    t.(slots := t.slots[pid.index := ProcSlot(generation, None)],
       owners := if main.Some? && t.owners[main.value.index] == Some(pid) then t.owners[main.value.index := None]
                 else t.owners)
  }

  /** The first terminal status counts; the registered waiter is to be completed afterwards. */
  function Finish(t: Table, pid: Pid, status: ExitStatus): (r: (Table, Option<Option<WaitToken>>))
    requires Has(t, pid) && Proc(t, pid).status.None? ==> CanUnbind(t, pid)
  {
    if !Has(t, pid) then (t, None)
    else if Proc(t, pid).status.Some? then (t, Some(None))
    else (Unbind(PutProc(t, pid, Proc(t, pid).(status := Some(status))), pid), Some(Proc(t, pid).waiter))
  }

  /** The child of this parent, neither claimed nor waited for by another thread. */
  predicate MayWait(p: Process, parent: Pid, caller: ThreadId) {
    && p.parent == Some(parent)
    && (p.consumer.None? || p.consumer.value == caller)
    && (p.waiter.None? || p.waiter.value.thread == caller)
  }

  datatype WaitPath = Refused | Blocks | Takes

  /** Which way waitpid goes. */
  function WaitPathOf(t: Table, parent: Pid, child: Pid, caller: ThreadId): WaitPath {
    if !Has(t, child) || Proc(t, child).parent != Some(parent) then Refused
    else if Proc(t, child).consumer.Some? && Proc(t, child).consumer != Some(caller) then Refused
    else if Proc(t, child).waiter.Some? && Proc(t, child).waiter.value.thread != caller then Refused
    else if Proc(t, child).status.None? then Blocks
    else Takes
  }

  /** A refused call may still have claimed the consumer role of its own child. */
  function WaitRefused(t: Table, parent: Pid, child: Pid, caller: ThreadId): Table {
    if Has(t, child) && Proc(t, child).parent == Some(parent) && Proc(t, child).consumer.None?
    then PutProc(t, child, Proc(t, child).(consumer := Some(caller))) else t
  }

  function WaitRegister(t: Table, child: Pid, caller: ThreadId, token: WaitToken): Table
    requires Has(t, child)
  {
    PutProc(t, child, Proc(t, child).(consumer := Some(caller), waiter := Some(token)))
  }

  /** Take the status and free the slot under the next generation. */
  function Consume(t: Table, pid: Pid): Table
    requires Has(t, pid) && (Proc(t, pid).main.Some? ==> Proc(t, pid).main.value.index < |t.owners|)
  {
    Release(t, pid, NextGeneration(pid.generation))
  }
}
