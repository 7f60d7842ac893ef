/**
  The order of waiters (kernel/src/ipc.rs:303-325): over whole runs the waiters of a side are claimed in
  the order in which they registered.
 */
module MailboxOrder {
  import opened Base
  import opened Waits
  import opened MailboxState
  import opened MailboxProtocol

  /** Token a stands before token b. */
  predicate Before(q: seq<WaitToken>, a: WaitToken, b: WaitToken) {
    exists x, y :: 0 <= x < y < |q| && q[x] == a && q[y] == b
  }

  /** The token that the acting thread has registered on a side by this step. */
  function RegisteredBy<T>(s: Sys<T>, s': Sys<T>, i: nat, side: Side): Option<WaitToken>
    requires i < |s.threads| == |s'.threads|
  {
    var a, b := s.threads[i].pc, s'.threads[i].pc;
    if a.Deciding? && b.Prepared? && SideOf(b.request) == side then Some(b.token) else None
  }

  /** The token that the acting thread has put in flight as a claim of a side by this step. */
  function ClaimedBy<T>(s: Sys<T>, s': Sys<T>, i: nat, side: Side): Option<WaitToken>
    requires i < |s.threads| == |s'.threads|
  {
    var a, b := s.threads[i].pc, s'.threads[i].pc;
    if !a.Completing? && b.Completing? && b.side == side then Some(b.claim) else None
  }

  /** What a step may do to a waiter queue: a new waiter goes to the back, a claim takes the front, and a
      thread that has resumed takes its own token out. */
  ghost predicate QueueStep<T>(s: Sys<T>, s': Sys<T>, i: nat, side: Side)
    requires i < |s.threads| == |s'.threads|
  {
    var q, q' := Waiters(s.box, side), Waiters(s'.box, side);
    var added, claimed := RegisteredBy(s, s', i, side), ClaimedBy(s, s', i, side);
    if added.Some? then q' == q + [added.value] && added.value.sequence > s.threads[i].wait.nextSequence
                        && added.value.thread.index == i
    else if claimed.Some? then q == [claimed.value] + q'
    else q' == q || (s.threads[i].pc.Resumed? && q' == Without(q, s.threads[i].pc.token))
  }

  ghost predicate SequencesGrow<T>(s: Sys<T>, s': Sys<T>) {
    && |s'.threads| == |s.threads|
    && forall k {:trigger s'.threads[k]} :: 0 <= k < |s.threads| ==>
      s.threads[k].wait.nextSequence <= s'.threads[k].wait.nextSequence
  }

  lemma StepGrows<T>(s: Sys<T>, step: Step<T>)
    requires Inv(s) && Enabled(s, step)
    ensures SequencesGrow(s, Next(s, step))
  {
    hide Inv;
    if step.CompleteStep? { CompleteSize(s, step.i); }
  }

  lemma StepQueue<T>(s: Sys<T>, step: Step<T>, side: Side)
    requires Inv(s) && Enabled(s, step)
    ensures |Next(s, step).threads| == |s.threads| && QueueStep(s, Next(s, step), step.i, side)
  {
    hide Inv, Without, CompleteOne, QueueStep;
    ActorFacts(s, step.i);
    match step
    case Attempt(i) => AttemptQueue(s, i, side);
    case ReclaimStep(i) => ReclaimQueue(s, i, side);
    case CompleteStep(i) => CompleteQueue(s, i, side);
    case _ => OwnQueue(s, step, side);
  }

  lemma AttemptQueue<T>(s: Sys<T>, i: nat, side: Side)
    requires i < |s.threads| && s.threads[i].pc.Attempting?
    ensures QueueStep(s, TryOnce(s, i), i, side)
  {
    var q := Waiters(s.box, side);
    assert q != [] ==> q == [q[0]] + q[1..];
  }

  lemma ReclaimQueue<T>(s: Sys<T>, i: nat, side: Side)
    requires i < |s.threads| && s.threads[i].pc.Reclaiming?
    ensures QueueStep(s, ReclaimOne(s, i), i, side)
  {
    var q := Waiters(s.box, side);
    assert q != [] ==> q == [q[0]] + q[1..];
  }

  lemma CompleteQueue<T>(s: Sys<T>, i: nat, side: Side)
    requires i < |s.threads| && s.threads[i].pc.Completing?
    ensures |CompleteOne(s, i).threads| == |s.threads| && QueueStep(s, CompleteOne(s, i), i, side)
  {
  }

  lemma OwnQueue<T>(s: Sys<T>, step: Step<T>, side: Side)
    requires Enabled(s, step) && ActorOk(step.i, s.threads[step.i])
    requires !step.Attempt? && !step.ReclaimStep? && !step.CompleteStep?
    ensures |Next(s, step).threads| == |s.threads| && QueueStep(s, Next(s, step), step.i, side)
  {
    hide Without;
  }

  lemma ActorFacts<T>(s: Sys<T>, i: nat)
    requires Inv(s) && i < |s.threads|
    ensures ActorOk(i, s.threads[i])
  {
  }

  lemma QueueFacts<T>(s: Sys<T>, side: Side, token: WaitToken)
    requires Inv(s) && token in Waiters(s.box, side)
    ensures token.thread.index < |s.threads| && token.sequence <= s.threads[token.thread.index].wait.nextSequence
    ensures forall m, n :: 0 <= m < n < |Waiters(s.box, side)| ==> Waiters(s.box, side)[m] != Waiters(s.box, side)[n]
  {
    assert QueueOk(s, side) && QueuedOk(s, side, token);
    ActorFacts(s, token.thread.index);
  }

  // ----- queues -----

  lemma {:induction false} WithoutBefore(q: seq<WaitToken>, token: WaitToken, a: WaitToken, b: WaitToken)
    requires forall m, n :: 0 <= m < n < |q| ==> q[m] != q[n]
    requires a in q && b in q && a != b && a != token && b != token && Before(Without(q, token), b, a)
    ensures Before(q, b, a)
    decreases |q|
  {
    var q' := Without(q, token);
    var x, y :| 0 <= x < y < |q'| && q'[x] == b && q'[y] == a;
    if q[0] == token {
      assert q[x + 1] == b && q[y + 1] == a;
    } else {
      var rest := q[1..];
      assert q' == [q[0]] + Without(rest, token);
      if x == 0 {
        var k :| 0 <= k < |q| && q[k] == a;
        assert q[0] == b && k > 0;
      } else {
        assert Without(rest, token)[x - 1] == b && Without(rest, token)[y - 1] == a;
        assert Before(Without(rest, token), b, a);
        WithoutIn(rest, token, a);
        WithoutIn(rest, token, b);
        WithoutBefore(rest, token, a, b);
        var m, n :| 0 <= m < n < |rest| && rest[m] == b && rest[n] == a;
        assert q[m + 1] == b && q[n + 1] == a;
      }
    }
  }

  lemma {:induction false} WithoutIn(q: seq<WaitToken>, token: WaitToken, t: WaitToken)
    ensures t in Without(q, token) ==> t in q
    decreases |q|
  {
    if q != [] && q[0] != token { WithoutIn(q[1..], token, t); }
  }

  lemma OneOrder(q: seq<WaitToken>, a: WaitToken, b: WaitToken)
    requires forall m, n :: 0 <= m < n < |q| ==> q[m] != q[n]
    requires a in q && b in q && a != b
    ensures Before(q, a, b) <==> !Before(q, b, a)
  {
    var x :| 0 <= x < |q| && q[x] == a;
    var y :| 0 <= y < |q| && q[y] == b;
    if x < y { assert Before(q, a, b); } else { assert Before(q, b, a); }
  }

  /** Taking another token out does not exchange two others. */
  lemma StillBefore(q: seq<WaitToken>, q': seq<WaitToken>, token: WaitToken, a: WaitToken, b: WaitToken)
    requires forall m, n :: 0 <= m < n < |q| ==> q[m] != q[n]
    requires q' == Without(q, token) && a in q' && b in q' && a != b && Before(q, a, b)
    ensures Before(q', a, b)
  {
    hide Before;
    WithoutMembers(q, token);
    OneOrder(q, a, b);
    OneOrder(q', a, b);
    if Before(q', b, a) { WithoutBefore(q, token, a, b); }
  }

  // ----- runs -----

  predicate Acts<T>(states: seq<Sys<T>>, steps: seq<Step<T>>, n: nat) {
    n < |steps| < |states| && steps[n].i < |states[n].threads| == |states[n + 1].threads|
  }

  /** Step n of a run, as the lemmas below use it. */
  lemma RunQueue<T>(states: seq<Sys<T>>, steps: seq<Step<T>>, n: nat, side: Side)
    requires IsRun(states, steps) && n < |steps|
    ensures Inv(states[n]) && Inv(states[n + 1]) && steps[n].i < |states[n].threads| == |states[n + 1].threads|
    ensures QueueStep(states[n], states[n + 1], steps[n].i, side) && SequencesGrow(states[n], states[n + 1])
  {
    hide Inv, Next, QueueStep, SequencesGrow;
    RunInv(states, steps, n);
    RunInv(states, steps, n + 1);
    assert StepAt(states, steps, n);
    StepQueue(states[n], steps[n], side);
    StepGrows(states[n], steps[n]);
  }

  /** The token has been issued: its slot will never issue it again. */
  predicate Issued<T>(s: Sys<T>, t: WaitToken) {
    t.thread.index < |s.threads| && t.sequence <= s.threads[t.thread.index].wait.nextSequence
  }

  /** A token that has left a queue does not come back, and two tokens never change places. */
  lemma OrderStep<T>(s: Sys<T>, s': Sys<T>, i: nat, side: Side, a: WaitToken, b: WaitToken)
    requires Inv(s) && i < |s.threads| == |s'.threads| && QueueStep(s, s', i, side) && SequencesGrow(s, s')
    requires Issued(s, a) && a != b
    ensures Issued(s', a)
    ensures a in Waiters(s'.box, side) ==> a in Waiters(s.box, side)
    ensures a in Waiters(s'.box, side) && b in Waiters(s'.box, side)
            && (b in Waiters(s.box, side) ==> Before(Waiters(s.box, side), a, b))
            ==> Before(Waiters(s'.box, side), a, b)
  {
    hide Inv;
    var q, q' := Waiters(s.box, side), Waiters(s'.box, side);
    assert s'.threads[a.thread.index].wait.nextSequence >= s.threads[a.thread.index].wait.nextSequence;
    var added, claimed := RegisteredBy(s, s', i, side), ClaimedBy(s, s', i, side);
    if added.None? && claimed.None? && q' != q { WithoutIn(q, s.threads[i].pc.token, a); }
    if a in q' && b in q' && (b in q ==> Before(q, a, b)) {
      QueueFacts(s, side, a);
      if added.Some? {
        AppendBefore(q, added.value, a, b);
      } else if claimed.Some? {
        DropBefore(q, q', a, b);
      } else if q' != q {
        WithoutIn(q, s.threads[i].pc.token, b);
        StillBefore(q, q', s.threads[i].pc.token, a, b);
      }
    }
  }

  lemma AppendBefore(q: seq<WaitToken>, t: WaitToken, a: WaitToken, b: WaitToken)
    requires a in q && b in q + [t] && (b in q ==> Before(q, a, b))
    ensures Before(q + [t], a, b)
  {
    var q' := q + [t];
    if b in q {
      var x, y :| 0 <= x < y < |q| && q[x] == a && q[y] == b;
      assert q'[x] == a && q'[y] == b;
    } else {
      var x :| 0 <= x < |q| && q[x] == a;
      assert q'[x] == a && q'[|q|] == b;
    }
  }

  lemma DropBefore(q: seq<WaitToken>, q': seq<WaitToken>, a: WaitToken, b: WaitToken)
    requires forall m, n :: 0 <= m < n < |q| ==> q[m] != q[n]
    requires q != [] && q == [q[0]] + q' && a in q' && b in q && Before(q, a, b)
    ensures Before(q', a, b)
  {
    var x, y :| 0 <= x < y < |q| && q[x] == a && q[y] == b;
    var k :| 0 <= k < |q'| && q'[k] == a;
    assert q[k + 1] == a;
    assert x == k + 1;
    assert q'[x - 1] == a && q'[y - 1] == b;
  }

  /** Once a token is queued, it can only leave: if it is queued later, it was queued all the time. */
  lemma {:induction false} QueuedThroughout<T>(states: seq<Sys<T>>, steps: seq<Step<T>>, m: nat, n: nat, side: Side,
                                              a: WaitToken)
    requires IsRun(states, steps) && m <= n < |states| && Issued(states[m], a)
    ensures Issued(states[n], a)
    ensures a in Waiters(states[n].box, side) ==> a in Waiters(states[m].box, side)
    decreases n - m
  {
    hide Inv, Next, QueueStep, SequencesGrow, Before;
    if m < n {
      RunQueue(states, steps, m, side);
      OrderStep(states[m], states[m + 1], steps[m].i, side, a, Other(a));
      QueuedThroughout(states, steps, m + 1, n, side, a);
    }
  }

  function Other(a: WaitToken): (b: WaitToken)
    ensures b != a
  {
    a.(sequence := a.sequence + 1)
  }

  lemma {:induction false} OrderKept<T>(states: seq<Sys<T>>, steps: seq<Step<T>>, m: nat, n: nat, side: Side,
                                       a: WaitToken, b: WaitToken)
    requires IsRun(states, steps) && m <= n < |states| && Issued(states[m], a) && a != b
    requires Before(Waiters(states[m].box, side), a, b)
    requires a in Waiters(states[n].box, side) && b in Waiters(states[n].box, side)
    ensures Before(Waiters(states[n].box, side), a, b)
    decreases n - m
  {
    hide Inv, Next, QueueStep, SequencesGrow, Before;
    if m < n {
      QueuedThroughout(states, steps, m, n - 1, side, a);
      RunQueue(states, steps, n - 1, side);
      OrderStep(states[n - 1], states[n], steps[n - 1].i, side, a, b);
      if b in Waiters(states[n - 1].box, side) { OrderKept(states, steps, m, n - 1, side, a, b); }
    }
  }

  lemma FrontFirst(q: seq<WaitToken>, a: WaitToken)
    requires q != [] && forall m, n :: 0 <= m < n < |q| ==> q[m] != q[n]
    ensures !Before(q, a, q[0])
  {
  }

  /** While token a, which stands before b, is still queued, no step claims b. */
  lemma ClaimedInOrder<T>(states: seq<Sys<T>>, steps: seq<Step<T>>, m: nat, n: nat, side: Side,
                          a: WaitToken, b: WaitToken)
    requires IsRun(states, steps) && m <= n < |steps| && Before(Waiters(states[m].box, side), a, b)
    requires Acts(states, steps, n)
    requires ClaimedBy(states[n], states[n + 1], steps[n].i, side) == Some(b)
    ensures a !in Waiters(states[n].box, side)
  {
    hide Inv, Next, SequencesGrow;
    var q := Waiters(states[n].box, side);
    RunInv(states, steps, m);
    QueueFacts(states[m], side, a);
    hide Before;
    RunQueue(states, steps, n, side);
    if a in q {
      OrderKept(states, steps, m, n, side, a, b);
      QueueFacts(states[n], side, a);
      FrontFirst(q, a);
    }
  }

  /** First come, first served: if a registered before b on the same side, then b is claimed only after
      a has been claimed or has given up. */
  lemma FirstWaiterFirst<T>(states: seq<Sys<T>>, steps: seq<Step<T>>, x: nat, y: nat, n: nat, side: Side,
                            a: WaitToken, b: WaitToken)
    requires IsRun(states, steps) && x < y < n < |steps|
    requires Acts(states, steps, x) && Acts(states, steps, y) && Acts(states, steps, n)
    requires RegisteredBy(states[x], states[x + 1], steps[x].i, side) == Some(a)
    requires RegisteredBy(states[y], states[y + 1], steps[y].i, side) == Some(b)
    requires ClaimedBy(states[n], states[n + 1], steps[n].i, side) == Some(b)
    ensures a !in Waiters(states[n].box, side)
  {
    hide Inv, Next, Before, SequencesGrow;
    RunQueue(states, steps, x, side);
    QueueFacts(states[x + 1], side, a);
    if a in Waiters(states[n].box, side) {
      QueuedThroughout(states, steps, x + 1, y, side, a);
      QueuedThroughout(states, steps, x + 1, y + 1, side, a);
      QueuedThroughout(states, steps, y + 1, n, side, a);
      RunQueue(states, steps, y, side);
      RegisteredBehind(Waiters(states[y].box, side), b, a);
      ClaimedInOrder(states, steps, y + 1, n, side, a, b);
    }
  }

  lemma RegisteredBehind(q: seq<WaitToken>, t: WaitToken, a: WaitToken)
    requires a in q
    ensures Before(q + [t], a, t)
  {
    var q' := q + [t];
    var x :| 0 <= x < |q| && q[x] == a;
    assert q'[x] == a && q'[|q|] == t;
  }
}
