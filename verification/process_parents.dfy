/**
  Who may take the status of a process (kernel/src/process/wait.rs:117-165, lifecycle.rs:104-130), the
  parent it was created with, and the identities that slots hand out (table.rs).
 */
module ProcessParents {
  import opened Base
  import opened Waits
  import opened ProcessTable
  import opened ProcessProtocol

  /** The child belongs to the process of thread i. */
  predicate OwnChild(s: Sys, i: nat, child: Pid)
    requires i < |s.table.owners|
  {
    Has(s.table, child) && Proc(s.table, child).parent.Some? && Proc(s.table, child).parent == s.table.owners[i]
  }

  /** Thread i may wait for the child, or take its status. */
  predicate Waitable(s: Sys, i: nat, child: Pid)
    requires i < |s.threads| == |s.table.owners|
  {
    Has(s.table, child) && s.table.owners[i].Some?
    && MayWait(Proc(s.table, child), s.table.owners[i].value, s.threads[i].id)
  }

  /** waitpid takes a status exactly when the child is the caller's own, unclaimed and finished; it then
      takes that status and the child is gone. For another child nothing happens. An own, unclaimed child
      that still runs gets the caller as its consumer and waiter. */
  lemma WaitStep(s: Sys, i: nat, child: Pid)
    requires Inv(s) && Enabled(s, WaitPid(i, child))
    ensures
      var s', own := Next(s, WaitPid(i, child)), OwnChild(s, i, child);
      && (s'.consumed != s.consumed <==> Waitable(s, i, child) && Proc(s.table, child).status.Some?)
      && (s'.consumed != s.consumed ==>
            && s'.consumed == s.consumed + [(child, Proc(s.table, child).status.value)] && !Has(s'.table, child)
            && child.index < |s'.table.slots| && s'.table.slots[child.index].generation != child.generation)
      && (!own ==> s'.table == s.table && s'.consumed == s.consumed && s'.threads[i].pc.Idle?)
      && (Waitable(s, i, child) && Proc(s.table, child).status.None? ==>
            && Has(s'.table, child) && Proc(s'.table, child).consumer == Some(s.threads[i].id)
            && s'.threads[i].pc.WaitPrepared? && Proc(s'.table, child).waiter == Some(s'.threads[i].pc.token))
  {
    ThreadFacts(s, i);
    if Has(s.table, child) { ProcFacts(s, child); }
    hide Inv;
    var s' := Next(s, WaitPid(i, child));
    if s'.consumed != s.consumed { assert |s'.consumed| > |s.consumed|; }
  }

  lemma ProcFacts(s: Sys, pid: Pid)
    requires Inv(s) && Has(s.table, pid)
    ensures BoundOk(s, pid)
  {
    assert BoundOk(s, pid);
  }

  /** In every run a status is taken only by waitpid of the parent, or by the claimant of process_join. */
  lemma ConsumedByRightful(states: seq<Sys>, steps: seq<Step>, n: nat)
    requires IsRun(states, steps) && n < |steps|
    ensures states[n + 1].consumed != states[n].consumed ==>
      var s := states[n];
      match steps[n]
      case WaitPid(i, child) => i < |s.table.owners| && OwnChild(s, i, child)
      case ConsumeJoin(i) =>
        && i < |s.threads| && s.threads[i].pc.JoinClaimed? && Has(s.table, s.threads[i].pc.pid)
        && Proc(s.table, s.threads[i].pc.pid).consumer == Some(s.threads[i].id)
      case _ => false
  {
    hide Inv;
    RunInv(states, steps, n);
    assert StepAt(states, steps, n);
    if steps[n].WaitPid? { WaitStep(states[n], steps[n].i, steps[n].child); }
  }

  /** A waitpid by any other process changes neither the table nor what was taken. */
  lemma StrangerChangesNothing(states: seq<Sys>, steps: seq<Step>, n: nat, i: nat, child: Pid)
    requires IsRun(states, steps) && n < |steps| && steps[n] == WaitPid(i, child)
    requires i < |states[n].table.owners| && !OwnChild(states[n], i, child)
    ensures states[n + 1].table == states[n].table && states[n + 1].consumed == states[n].consumed
  {
    RunInv(states, steps, n);
    assert StepAt(states, steps, n);
    WaitStep(states[n], i, child);
  }

  // ----- parents -----

  /** What a step other than its allocation does to a slot: its process stays under the same identity
      with the same parent, or is freed. */
  predicate SlotStep(a: ProcSlot, b: ProcSlot) {
    || a == b
    || (a.process.Some? && b.process.Some? && b.generation == a.generation
        && b.process.value.parent == a.process.value.parent)
    || (a.process.Some? && b.process.None? && b.generation in {a.generation, NextGeneration(a.generation)})
  }

  lemma StepSlot(s: Sys, step: Step, index: nat)
    requires Inv(s) && Enabled(s, step) && index < |s.table.slots|
    requires !(step.AllocateStep? && step.index == index)
    ensures index < |Next(s, step).table.slots| && SlotStep(s.table.slots[index], Next(s, step).table.slots[index])
  {
    hide Inv;
    if step.WaitPid? && Has(s.table, step.child) { ProcFacts(s, step.child); }
    if step.FinishProcess? { ThreadFacts(s, step.i); }
  }

  lemma ParentKept(s: Sys, step: Step, pid: Pid)
    requires Inv(s) && Enabled(s, step) && Has(s.table, pid) && Has(Next(s, step).table, pid)
    ensures Proc(Next(s, step).table, pid).parent == Proc(s.table, pid).parent
  {
    hide Inv, Next;
    StepSlot(s, step, pid.index);
  }

  /** A process keeps the parent it was allocated with as long as it exists. */
  lemma {:induction false} ParentFixed(states: seq<Sys>, steps: seq<Step>, m: nat, n: nat, pid: Pid)
    requires IsRun(states, steps) && m < n < |states|
    requires steps[m].AllocateStep? && steps[m].index == pid.index
    requires forall k :: m < k <= n ==> Has(states[k].table, pid)
    ensures Proc(states[n].table, pid).parent == steps[m].parent
    decreases n
  {
    hide Inv;
    RunInv(states, steps, n - 1);
    assert StepAt(states, steps, n - 1);
    if n > m + 1 {
      ParentFixed(states, steps, m, n - 1, pid);
      ParentKept(states[n - 1], steps[n - 1], pid);
    }
  }

  // ----- identities -----

  /** What the last allocation of a slot left there: its generation, or the next one once it is free. */
  predicate Since(slot: ProcSlot, generation: nat) {
    slot.generation == generation || (slot.process.None? && slot.generation == NextGeneration(generation))
  }

  lemma {:induction false} SinceAllocated(states: seq<Sys>, steps: seq<Step>, m: nat, n: nat)
    requires IsRun(states, steps) && m < n < |states| && steps[m].AllocateStep?
    requires forall k :: m < k < n ==> !(steps[k].AllocateStep? && steps[k].index == steps[m].index)
    ensures
      var index := steps[m].index;
      && index < |states[m].table.slots| && index < |states[n].table.slots|
      && Since(states[n].table.slots[index], NextGeneration(states[m].table.slots[index].generation))
    decreases n
  {
    hide Inv, Next;
    RunInv(states, steps, n - 1);
    assert StepAt(states, steps, n - 1);
    if n == m + 1 {
      AllocatedSince(states[m], steps[m]);
    } else {
      SinceAllocated(states, steps, m, n - 1);
      StepSlot(states[n - 1], steps[n - 1], steps[m].index);
    }
  }

  lemma AllocatedSince(s: Sys, step: Step)
    requires Inv(s) && Enabled(s, step) && step.AllocateStep?
    ensures
      var t := Next(s, step).table;
      step.index < |t.slots| && Since(t.slots[step.index], NextGeneration(s.table.slots[step.index].generation))
  {
  }

  /** The identity that an allocation hands out. */
  function NewPid(t: Table, index: nat): Pid
    requires index < |t.slots|
  {
    Pid(index, NextGeneration(t.slots[index].generation))
  }

  /** An allocated process exists under its new identity with the parent it was given, never has
      generation 0, and its identity differs from the last one its slot handed out. */
  lemma FreshPid(states: seq<Sys>, steps: seq<Step>, m: nat, n: nat)
    requires IsRun(states, steps) && m < n < |steps| && steps[m].AllocateStep? && steps[n].AllocateStep?
    requires steps[n].index == steps[m].index
    requires forall k :: m < k < n ==> !(steps[k].AllocateStep? && steps[k].index == steps[m].index)
    ensures
      var index := steps[m].index;
      && index < |states[m].table.slots| && index < |states[n].table.slots|
      && var before, pid := NewPid(states[m].table, index), NewPid(states[n].table, index);
         && pid != before && pid.generation != 0
         && Has(states[n + 1].table, pid) && Proc(states[n + 1].table, pid).parent == steps[n].parent
         && !Has(states[n].table, pid)
  {
    hide Inv;
    SinceAllocated(states, steps, m, n);
    RunInv(states, steps, n);
    assert StepAt(states, steps, n);
  }
}
