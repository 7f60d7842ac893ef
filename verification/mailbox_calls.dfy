/**
  How a mailbox call ends (kernel/src/ipc.rs:99-245): an untimed call returns only with success, a timed
  one also when its deadline has passed, and a failed one leaves the mailbox as it was.
 */
module MailboxCalls {
  import opened Base
  import opened Waits
  import opened MailboxState
  import opened MailboxProtocol

  /** Inside send or receive, before its outcome. */
  predicate InCall<T>(pc: Pc<T>) {
    pc.Attempting? || pc.Deciding? || pc.Prepared? || pc.Sleeping? || pc.Resumed?
  }

  /** The message went in, or the oldest one came out, exactly once. */
  predicate Succeeds<T(==)>(s: Sys<T>, s': Sys<T>, request: Request<T>) {
    match request
    case SendMsg(msg) => |s.box.contents| < s.box.capacity && s'.sent == s.sent + [msg] && s'.received == s.received
    case RecvMsg =>
      s.box.contents != [] && s'.received == s.received + [s.box.contents[0]] && s'.sent == s.sent
  }

  predicate SameTraffic<T(==)>(s: Sys<T>, s': Sys<T>) {
    s'.sent == s.sent && s'.received == s.received && s'.box.contents == s.box.contents
  }

  /** A step of thread i inside a call: it goes on with the same request, or ends with success, or gives
      up, which an untimed blocking call never does. A call whose wait was completed by the timer gives up;
      one that was notified tries again; one whose deadline has passed does not go to sleep. */
  lemma CallStep<T>(s: Sys<T>, step: Step<T>)
    requires Inv(s) && Enabled(s, step) && InCall(s.threads[step.i].pc)
    ensures
      var s' := Next(s, step);
      && |s'.threads| == |s.threads|
      && var pc, pc' := s.threads[step.i].pc, s'.threads[step.i].pc;
         && (InCall(pc') ==> pc'.request == pc.request && pc'.mode == pc.mode && SameTraffic(s, s'))
         && (!InCall(pc') ==>
               || (pc.Attempting? && Succeeds(s, s', pc.request))
               || (!pc.mode.Forever? && pc'.Outside? && SameTraffic(s, s')))
         && (step.Attempt? && InCall(pc') ==> ShouldWait(s.box, SideOf(pc.request)))
         && (step.RemoveStep? && pc.mode.Timed? ==>
               if pc.cause.Timeout? then pc'.Outside? else pc' == Attempting(pc.request, pc.mode, true))
         && (step.Wait? && step.expired && pc.mode.Timed? ==> pc'.Attempting?)
  {
    hide Inv;
    BoxFits(s);
  }

  lemma BoxFits<T>(s: Sys<T>)
    requires Inv(s)
    ensures |s.box.contents| <= s.box.capacity
  {
  }

  /** Steps of other threads leave the call alone. */
  lemma OthersStep<T>(s: Sys<T>, step: Step<T>, i: nat)
    requires Inv(s) && Enabled(s, step) && i < |s.threads| && i != step.i
    ensures |Next(s, step).threads| == |s.threads| && Next(s, step).threads[i].pc == s.threads[i].pc
  {
    hide Inv;
  }

  lemma {:induction false} CallKept<T>(states: seq<Sys<T>>, steps: seq<Step<T>>, m: nat, n: nat, i: nat,
                                      request: Request<T>, mode: Mode)
    requires IsRun(states, steps) && m < n < |states| && steps[m] == Begin(i, request, mode)
    requires forall k :: m < k <= n ==> i < |states[k].threads| && InCall(states[k].threads[i].pc)
    ensures InCall(states[n].threads[i].pc)
    ensures states[n].threads[i].pc.request == request && states[n].threads[i].pc.mode == mode
    decreases n
  {
    hide Inv, Next;
    RunInv(states, steps, n - 1);
    assert StepAt(states, steps, n - 1);
    if n == m + 1 {
      Begun(states[m], steps[m]);
    } else {
      CallKept(states, steps, m, n - 1, i, request, mode);
      if steps[n - 1].i == i { CallStep(states[n - 1], steps[n - 1]); }
      else { OthersStep(states[n - 1], steps[n - 1], i); }
    }
  }

  lemma Begun<T>(s: Sys<T>, step: Step<T>)
    requires Enabled(s, step) && step.Begin?
    ensures |Next(s, step).threads| == |s.threads|
    ensures Next(s, step).threads[step.i].pc == Attempting(step.request, step.mode, false)
  {
  }

  /** In every run, a blocking send or receive without deadline that began at step m and leaves the call
      at step n has sent its message, or received the oldest one, in that step. */
  lemma ForeverSucceeds<T>(states: seq<Sys<T>>, steps: seq<Step<T>>, m: nat, n: nat, i: nat, request: Request<T>)
    requires IsRun(states, steps) && m < n < |steps| && steps[m] == Begin(i, request, Forever)
    requires forall k :: m < k <= n ==> i < |states[k].threads| && InCall(states[k].threads[i].pc)
    requires i < |states[n + 1].threads| && !InCall(states[n + 1].threads[i].pc)
    ensures Succeeds(states[n], states[n + 1], request)
  {
    hide Inv, Next;
    CallKept(states, steps, m, n, i, request, Forever);
    RunInv(states, steps, n);
    assert StepAt(states, steps, n);
    if steps[n].i == i { CallStep(states[n], steps[n]); } else { OthersStep(states[n], steps[n], i); }
  }
}
