/**
  Senders and receivers of one mailbox, under every interleaving.

  Each thread runs the retry loops of send, recv and their timed forms. A locked section of the
  mailbox is one step, and so is a scheduler transition on a wait; claiming a waiter and
  completing its wait are separate steps, with anything in between.
 */
module MailboxProtocol {
  import opened Base
  import opened Waits
  import opened MailboxState
  import opened Counting

  datatype Request<T> = SendMsg(msg: T) | RecvMsg
  datatype Mode = NonBlocking | Forever | Timed

  function SideOf<T>(request: Request<T>): Side {
    if request.SendMsg? then SendSide else RecvSide
  }

  /** Where a thread stands in its mailbox operation. */
  datatype Pc<T> =
    | Outside
    | Attempting(request: Request<T>, mode: Mode, notified: bool)
    | Deciding(request: Request<T>, mode: Mode)
    | Prepared(request: Request<T>, mode: Mode, token: WaitToken)
    | Sleeping(request: Request<T>, mode: Mode, token: WaitToken)
    | Resumed(request: Request<T>, mode: Mode, token: WaitToken, cause: WaitCause)
    | Completing(side: Side, claim: WaitToken)
    | Reclaiming(side: Side)

  datatype Actor<T> = Actor(id: ThreadId, wait: WaitMetadata, pc: Pc<T>)

  /** `sent` and `received` record every message in the order the box took and gave it. */
  datatype Sys<T> = Sys(box: Box<T>, threads: seq<Actor<T>>, sent: seq<T>, received: seq<T>)

  datatype Step<T> =
    | Begin(i: nat, request: Request<T>, mode: Mode)
    | Elsewhere(i: nat, id: ThreadId, wait: WaitMetadata)
    | Attempt(i: nat)
    | GiveUp(i: nat)
    | Wait(i: nat, expired: bool)
    | CommitStep(i: nat)
    | TimeoutFires(i: nat)
    | FinishStep(i: nat)
    | RemoveStep(i: nat)
    | CompleteStep(i: nat)
    | ReclaimStep(i: nat)

  // ----- one thread -----

  /** A token registered with the mailbox and not yet taken back by its thread. */
  function Registered<T>(pc: Pc<T>): Option<WaitToken> {
    if pc.Prepared? || pc.Sleeping? || pc.Resumed? then Some(pc.token) else None
  }

  /** The thread waits and nothing has completed its wait. */
  predicate Pending<T>(a: Actor<T>) {
    (a.pc.Prepared? || a.pc.Sleeping?) && a.wait.active.Some? && !a.wait.active.value.phase.PhaseCompleted?
  }

  /** Notified and not yet retried, or carrying a claim of that side. */
  function Credit<T>(a: Actor<T>, side: Side): nat {
    match a.pc
    case Attempting(request, _, notified) => if notified && SideOf(request) == side then 1 else 0
    case Prepared(request, _, _) => if SideOf(request) == side && WasNotified(a.wait) then 1 else 0
    case Sleeping(request, _, _) => if SideOf(request) == side && WasNotified(a.wait) then 1 else 0
    case Resumed(request, _, _, cause) => if SideOf(request) == side && cause.Notified? then 1 else 0
    case Completing(claimed, _) => if claimed == side then 1 else 0
    case Reclaiming(claimed) => if claimed == side then 1 else 0
    case _ => 0
  }

  predicate WasNotified(w: WaitMetadata) {
    w.active.Some? && w.active.value.phase == PhaseCompleted(Notified)
  }

  function Credits<T>(threads: seq<Actor<T>>, side: Side): nat {
    if threads == [] then 0 else Credit(threads[0], side) + Credits(threads[1..], side)
  }

  lemma {:induction false} CreditsUpdate<T>(threads: seq<Actor<T>>, i: nat, a: Actor<T>, side: Side)
    requires i < |threads|
    ensures Credits(threads[i := a], side) + Credit(threads[i], side) == Credits(threads, side) + Credit(a, side)
    decreases |threads|
  {
    if i == 0 {
      assert threads[0 := a][1..] == threads[1..];
    } else {
      assert threads[i := a][1..] == threads[1..][i - 1 := a];
      CreditsUpdate(threads[1..], i - 1, a, side);
    }
  }

  lemma {:induction false} NoCredits<T>(threads: seq<Actor<T>>, side: Side)
    requires forall i :: 0 <= i < |threads| ==> Credit(threads[i], side) == 0
    ensures Credits(threads, side) == 0
    decreases |threads|
  {
    if threads != [] { NoCredits(threads[1..], side); }
  }

  // ----- steps -----

  function Put<T>(s: Sys<T>, i: nat, a: Actor<T>): Sys<T>
    requires i < |s.threads|
  {
    s.(threads := s.threads[i := a])
  }

  function Goto<T>(s: Sys<T>, i: nat, pc: Pc<T>): Sys<T>
    requires i < |s.threads|
  {
    Put(s, i, s.threads[i].(pc := pc))
  }

  function AfterClaim<T>(side: Side, claim: Option<WaitToken>): Pc<T> {
    if claim.Some? then Completing(side, claim.value) else Outside
  }

  /** try_send and try_recv. */
  function TryOnce<T>(s: Sys<T>, i: nat): Sys<T>
    requires i < |s.threads| && s.threads[i].pc.Attempting?
  {
    var pc := s.threads[i].pc;
    if ShouldWait(s.box, SideOf(pc.request)) then Goto(s, i, Deciding(pc.request, pc.mode))
    else
      match pc.request
      case SendMsg(msg) =>
        var (box, claim) := Send(s.box, msg);
        Goto(s.(box := box, sent := s.sent + [msg]), i, AfterClaim(RecvSide, claim))
      case RecvMsg =>
        var (box, claim) := Recv(s.box);
        Goto(s.(box := box, received := s.received + [s.box.contents[0]]), i, AfterClaim(SendSide, claim))
  }

  /** Condition check, scheduler preparation and queueing are one section of the mailbox lock. */
  function Register<T>(s: Sys<T>, i: nat, expired: bool): Sys<T>
    requires i < |s.threads| && s.threads[i].pc.Deciding?
    requires s.threads[i].wait.active.None? && s.threads[i].wait.nextSequence < U64_MAX
  {
    var a := s.threads[i];
    if !ShouldWait(s.box, SideOf(a.pc.request)) || (a.pc.mode.Timed? && expired)
    then Goto(s, i, Attempting(a.pc.request, a.pc.mode, false))
    else
      var (w, p) := Prepare(a.wait, a.id, 0, Explicit);
      Put(s.(box := Enqueue(s.box, SideOf(a.pc.request), p.token)), i,
          Actor(a.id, w, Prepared(a.pc.request, a.pc.mode, p.token)))
  }

  function CommitOne<T>(s: Sys<T>, i: nat): Sys<T>
    requires i < |s.threads| && s.threads[i].pc.Prepared?
  {
    var a := s.threads[i];
    var (w, r) := Commit(a.wait, PreparedWait(a.pc.token, Explicit));
    match r
    case Block(_) => Put(s, i, Actor(a.id, w, Sleeping(a.pc.request, a.pc.mode, a.pc.token)))
    case Early(cause) => Put(s, i, Actor(a.id, w, Resumed(a.pc.request, a.pc.mode, a.pc.token, cause)))
    case StaleCommit => s
  }

  function FinishOne<T>(s: Sys<T>, i: nat): Sys<T>
    requires i < |s.threads| && s.threads[i].pc.Sleeping?
  {
    var a := s.threads[i];
    var (w, r) := Finish(a.wait, a.pc.token);
    if r.Finished? then Put(s, i, Actor(a.id, w, Resumed(a.pc.request, a.pc.mode, a.pc.token, r.cause))) else s
  }

  /** The thread takes its token back; only a timed wait that timed out gives up. */
  function RemoveOne<T>(s: Sys<T>, i: nat): Sys<T>
    requires i < |s.threads| && s.threads[i].pc.Resumed?
  {
    var pc := s.threads[i].pc;
    Goto(s.(box := Remove(s.box, SideOf(pc.request), pc.token)), i,
         if pc.mode.Timed? && pc.cause.Timeout? then Outside
         else Attempting(pc.request, pc.mode, pc.cause.Notified?))
  }

  /** complete_wait on the claimed token; a wait that is already over passes the claim on. */
  function CompleteOne<T>(s: Sys<T>, i: nat): Sys<T>
    requires i < |s.threads| && s.threads[i].pc.Completing?
  {
    var token, side := s.threads[i].pc.claim, s.threads[i].pc.side;
    var j := token.thread.index;
    if j >= |s.threads| || s.threads[j].id != token.thread then Goto(s, i, Reclaiming(side))
    else
      var (w, r) := Complete(s.threads[j].wait, token, Notified);
      if r.WokeBlocked? || r.CompletedPrepared?
      then Goto(Put(s, j, s.threads[j].(wait := w)), i, Outside)
      else Goto(s, i, Reclaiming(side))
  }

  function ReclaimOne<T>(s: Sys<T>, i: nat): Sys<T>
    requires i < |s.threads| && s.threads[i].pc.Reclaiming?
  {
    var side := s.threads[i].pc.side;
    var (box, claim) := Claim(s.box, side);
    Goto(s.(box := box), i, AfterClaim(side, claim))
  }

  ghost predicate Enabled<T>(s: Sys<T>, step: Step<T>) {
    && step.i < |s.threads|
    && var a := s.threads[step.i];
       match step
       case Begin(_, _, _) => a.pc.Outside? && a.wait.active.None?
       case Elsewhere(_, id, wait) =>
         // sleeps, joins, other mailboxes, exit and slot reuse: tokens are never issued twice
         && a.pc.Outside? && id.index == step.i && wait.nextSequence >= a.wait.nextSequence
         && (wait.active.Some? ==>
               || (a.wait.active.Some? && wait.active.value.token == a.wait.active.value.token)
               || wait.active.value.token.sequence > a.wait.nextSequence)
       case Attempt(_) => a.pc.Attempting?
       case GiveUp(_) => a.pc.Deciding? && !a.pc.mode.Forever?
       case Wait(_, _) =>
         a.pc.Deciding? && !a.pc.mode.NonBlocking? && a.wait.active.None? && a.wait.nextSequence < U64_MAX
       case CommitStep(_) => a.pc.Prepared?
       case TimeoutFires(_) => (a.pc.Prepared? || a.pc.Sleeping?) && a.pc.mode.Timed?
       case FinishStep(_) => a.pc.Sleeping? && !Pending(a)
       case RemoveStep(_) => a.pc.Resumed?
       case CompleteStep(_) => a.pc.Completing?
       case ReclaimStep(_) => a.pc.Reclaiming?
  }

  ghost function Next<T>(s: Sys<T>, step: Step<T>): Sys<T>
    requires Enabled(s, step)
  {
    var i := step.i;
    var a := s.threads[i];
    match step
    case Begin(_, request, mode) => Goto(s, i, Attempting(request, mode, false))
    case Elsewhere(_, id, wait) => Put(s, i, Actor(id, wait, Outside))
    case Attempt(_) => TryOnce(s, i)
    case GiveUp(_) => Goto(s, i, Outside)
    case Wait(_, expired) => Register(s, i, expired)
    case CommitStep(_) => CommitOne(s, i)
    case TimeoutFires(_) => Put(s, i, a.(wait := Complete(a.wait, a.pc.token, Timeout).0))
    case FinishStep(_) => FinishOne(s, i)
    case RemoveStep(_) => RemoveOne(s, i)
    case CompleteStep(_) => CompleteOne(s, i)
    case ReclaimStep(_) => ReclaimOne(s, i)
  }

  // ----- invariant -----

  /** The wait metadata of a thread fits its position. */
  predicate ActorOk<T>(i: nat, a: Actor<T>) {
    && a.id.index == i
    && (Registered(a.pc).Some? ==>
          Registered(a.pc).value.thread == a.id && Registered(a.pc).value.sequence == a.wait.nextSequence)
    && (a.pc.Prepared? || a.pc.Sleeping? ==>
          && a.wait.active.Some? && a.wait.active.value.token == a.pc.token && a.wait.active.value.consumption.Explicit?
          && (a.pc.Prepared? ==> !a.wait.active.value.phase.PhaseBlocked?)
          && (a.pc.Sleeping? ==> !a.wait.active.value.phase.PhasePrepared?)
          && (a.wait.active.value.phase == PhaseCompleted(Timeout) ==> a.pc.mode.Timed?))
    && (a.pc.Resumed? && a.pc.cause.Timeout? ==> a.pc.mode.Timed?)
    && (!a.pc.Prepared? && !a.pc.Sleeping? && !a.pc.Outside? ==> a.wait.active.None?)
  }

  /** A claim in flight can only complete a wait registered with this mailbox on that side. */
  predicate ClaimOk<T>(s: Sys<T>, side: Side, claim: WaitToken) {
    && claim.thread.index < |s.threads|
    && var b := s.threads[claim.thread.index];
       && claim.sequence <= b.wait.nextSequence
       && (b.wait.active.Some? && b.wait.active.value.token == claim ==>
             (b.pc.Prepared? || b.pc.Sleeping?) && b.pc.token == claim && SideOf(b.pc.request) == side)
  }

  predicate QueuedOk<T>(s: Sys<T>, side: Side, token: WaitToken) {
    && token.thread.index < |s.threads|
    && var pc := s.threads[token.thread.index].pc;
       Registered(pc) == Some(token) && SideOf(pc.request) == side
  }

  ghost predicate QueueOk<T>(s: Sys<T>, side: Side) {
    var q := Waiters(s.box, side);
    && (forall token :: token in q ==> QueuedOk(s, side, token))
    && (forall m, n :: 0 <= m < n < |q| ==> q[m] != q[n])
  }

  /** A pending wait is never stranded: its token is queued or in flight. */
  ghost predicate Reachable<T>(s: Sys<T>, side: Side, token: WaitToken) {
    || token in Waiters(s.box, side)
    || exists j :: 0 <= j < |s.threads| && s.threads[j].pc == Completing(side, token)
  }

  /** What a side waits for: messages for receivers, free places for senders. */
  function Supply<T>(b: Box<T>, side: Side): int {
    match side
    case SendSide => b.capacity - |b.contents|
    case RecvSide => |b.contents|
  }

  ghost predicate CreditOk<T>(s: Sys<T>, side: Side) {
    Waiters(s.box, side) != [] ==> Supply(s.box, side) <= Credits(s.threads, side)
  }

  ghost predicate ActorsOk<T>(s: Sys<T>) {
    forall i: nat {:trigger s.threads[i]} :: i < |s.threads| ==> ActorOk(i, s.threads[i])
  }

  ghost predicate ClaimsOk<T>(s: Sys<T>) {
    forall i {:trigger s.threads[i]} :: 0 <= i < |s.threads| && s.threads[i].pc.Completing? ==>
      ClaimOk(s, s.threads[i].pc.side, s.threads[i].pc.claim)
  }

  ghost predicate PendingOk<T>(s: Sys<T>) {
    forall i {:trigger s.threads[i]} :: 0 <= i < |s.threads| && Pending(s.threads[i]) ==>
      Reachable(s, SideOf(s.threads[i].pc.request), s.threads[i].pc.token)
  }

  ghost predicate Inv<T>(s: Sys<T>) {
    && 0 < s.box.capacity && |s.box.contents| <= s.box.capacity
    && s.sent == s.received + s.box.contents
    && ActorsOk(s) && ClaimsOk(s) && PendingOk(s)
    && QueueOk(s, SendSide) && QueueOk(s, RecvSide)
    && CreditOk(s, SendSide) && CreditOk(s, RecvSide)
  }

  // ----- preservation -----

  lemma StillReachable<T>(s: Sys<T>, s': Sys<T>, side: Side, token: WaitToken)
    requires Reachable(s, side, token) && |s'.threads| == |s.threads|
    requires token in Waiters(s.box, side) ==> Reachable(s', side, token)
    requires forall k :: 0 <= k < |s.threads| && s.threads[k].pc == Completing(side, token) ==>
      s'.threads[k].pc == s.threads[k].pc
    ensures Reachable(s', side, token)
  {
    if k :| 0 <= k < |s.threads| && s.threads[k].pc == Completing(side, token) {
      assert s'.threads[k].pc == Completing(side, token);
    }
  }

  /** Only thread i moved, and it neither made nor ended a claim. */
  ghost predicate OnlyThread<T>(s: Sys<T>, s': Sys<T>, i: nat) {
    && i < |s.threads| == |s'.threads|
    && s'.threads == s.threads[i := s'.threads[i]]
    && !s.threads[i].pc.Completing? && !s'.threads[i].pc.Completing?
  }

  /** No claim in flight can hit the wait that thread b has now and a had not. */
  ghost predicate FreshWait<T>(a: Actor<T>, b: Actor<T>) {
    && b.wait.nextSequence >= a.wait.nextSequence
    && (b.wait.active.Some? ==>
          || b.wait.active.value.token.sequence > a.wait.nextSequence
          || (a.wait.active.Some? && b.wait.active.value.token == a.wait.active.value.token
              && (a.pc.Prepared? || a.pc.Sleeping? ==>
                    (b.pc.Prepared? || b.pc.Sleeping?) && b.pc.token == a.pc.token && b.pc.request == a.pc.request)))
  }

  lemma OthersKept<T>(s: Sys<T>, s': Sys<T>, i: nat)
    requires OnlyThread(s, s', i) && ActorsOk(s) && ClaimsOk(s) && PendingOk(s)
    requires FreshWait(s.threads[i], s'.threads[i])
    requires forall side, token :: token in Waiters(s.box, side) && token.thread.index != i ==>
      token in Waiters(s'.box, side)
    requires Pending(s'.threads[i]) ==> Reachable(s', SideOf(s'.threads[i].pc.request), s'.threads[i].pc.token)
    ensures ClaimsOk(s') && PendingOk(s')
  {
    forall k | 0 <= k < |s'.threads| && s'.threads[k].pc.Completing?
      ensures ClaimOk(s', s'.threads[k].pc.side, s'.threads[k].pc.claim)
    {
      assert ClaimOk(s, s.threads[k].pc.side, s.threads[k].pc.claim);
    }
    forall k | 0 <= k < |s'.threads| && Pending(s'.threads[k])
      ensures Reachable(s', SideOf(s'.threads[k].pc.request), s'.threads[k].pc.token)
    {
      if k != i {
        assert ActorOk(k, s.threads[k]);
        StillReachable(s, s', SideOf(s.threads[k].pc.request), s.threads[k].pc.token);
      }
    }
  }

  lemma QueueKept<T>(s: Sys<T>, s': Sys<T>, i: nat, side: Side)
    requires OnlyThread(s, s', i) && QueueOk(s, side)
    requires Waiters(s'.box, side) == Waiters(s.box, side)
    requires Registered(s.threads[i].pc).Some? ==>
      Registered(s'.threads[i].pc) == Registered(s.threads[i].pc) && s'.threads[i].pc.request == s.threads[i].pc.request
    ensures QueueOk(s', side)
  {
    forall token | token in Waiters(s'.box, side) ensures QueuedOk(s', side, token) {
      assert QueuedOk(s, side, token);
    }
  }

  /** Steps of a thread that touch neither the box nor another thread. */
  lemma LocalInv<T>(s: Sys<T>, i: nat, a: Actor<T>)
    requires Inv(s) && i < |s.threads| && ActorOk(i, a)
    requires Registered(a.pc) == Registered(s.threads[i].pc)
    requires Registered(a.pc).Some? ==> a.pc.request == s.threads[i].pc.request
    requires !a.pc.Completing? && !s.threads[i].pc.Completing? && FreshWait(s.threads[i], a)
    requires Pending(a) ==> Pending(s.threads[i])
    requires forall side :: Credit(a, side) == Credit(s.threads[i], side)
    ensures Inv(Put(s, i, a))
  {
    var s' := Put(s, i, a);
    CreditsUpdate(s.threads, i, a, SendSide);
    CreditsUpdate(s.threads, i, a, RecvSide);
    QueueKept(s, s', i, SendSide);
    QueueKept(s, s', i, RecvSide);
    if Pending(a) { StillReachable(s, s', SideOf(a.pc.request), a.pc.token); }
    OthersKept(s, s', i);
  }

  lemma RegisterInv<T>(s: Sys<T>, i: nat, expired: bool)
    requires Inv(s) && Enabled(s, Wait(i, expired))
    ensures Inv(Register(s, i, expired))
  {
    var a := s.threads[i];
    if !ShouldWait(s.box, SideOf(a.pc.request)) || (a.pc.mode.Timed? && expired) {
      LocalInv(s, i, a.(pc := Attempting(a.pc.request, a.pc.mode, false)));
    } else {
      NewWaiterInv(s, i, expired);
    }
  }

  lemma NewWaiterInv<T>(s: Sys<T>, i: nat, expired: bool)
    requires Inv(s) && Enabled(s, Wait(i, expired))
    requires ShouldWait(s.box, SideOf(s.threads[i].pc.request)) && !(s.threads[i].pc.mode.Timed? && expired)
    ensures Inv(Register(s, i, expired))
  {
    var s' := Register(s, i, expired);
    assert ActorOk(i, s.threads[i]);
    hide QueueOk, CreditOk, ClaimsOk, PendingOk, ActorsOk;
    NewWaiterActors(s, s', i);
    RegisterCredits(s, i, expired, SendSide);
    RegisterCredits(s, i, expired, RecvSide);
    RegisterQueue(s, s', i, SendSide);
    RegisterQueue(s, s', i, RecvSide);
    RegisterOthers(s, i, expired);
  }

  lemma RegisterOthers<T>(s: Sys<T>, i: nat, expired: bool)
    requires Enabled(s, Wait(i, expired)) && ActorsOk(s) && ClaimsOk(s) && PendingOk(s)
    requires ShouldWait(s.box, SideOf(s.threads[i].pc.request)) && !(s.threads[i].pc.mode.Timed? && expired)
    ensures ClaimsOk(Register(s, i, expired)) && PendingOk(Register(s, i, expired))
  {
    hide ActorsOk, ClaimsOk, PendingOk;
    OthersKept(s, Register(s, i, expired), i);
  }

  lemma NewWaiterActors<T>(s: Sys<T>, s': Sys<T>, i: nat)
    requires ActorsOk(s) && i < |s.threads| == |s'.threads| && s'.threads == s.threads[i := s'.threads[i]]
    requires ActorOk(i, s'.threads[i])
    ensures ActorsOk(s')
  {
    forall k: nat | k < |s.threads| ensures ActorOk(k, s'.threads[k]) { assert ActorOk(k, s.threads[k]); }
  }

  /** A new waiter brings no credit, and its side has no supply. */
  lemma RegisterCredits<T>(s: Sys<T>, i: nat, expired: bool, side: Side)
    requires Enabled(s, Wait(i, expired)) && CreditOk(s, side)
    requires ShouldWait(s.box, SideOf(s.threads[i].pc.request)) && !(s.threads[i].pc.mode.Timed? && expired)
    ensures CreditOk(Register(s, i, expired), side)
  {
    CreditsUpdate(s.threads, i, Register(s, i, expired).threads[i], side);
  }

  /** A fresh token is in no queue yet. */
  lemma RegisterQueue<T>(s: Sys<T>, s': Sys<T>, i: nat, side: Side)
    requires OnlyThread(s, s', i) && QueueOk(s, side) && s.threads[i].pc.Deciding?
    requires s'.threads[i].pc.Prepared? && s'.threads[i].pc.token.thread.index == i
    requires Waiters(s'.box, side) == Waiters(s.box, side)
             + if SideOf(s'.threads[i].pc.request) == side then [s'.threads[i].pc.token] else []
    ensures QueueOk(s', side)
  {
    var q := Waiters(s.box, side);
    forall token | token in q ensures QueuedOk(s', side, token) && token != s'.threads[i].pc.token {
      assert QueuedOk(s, side, token);
    }
    assert forall m :: 0 <= m < |q| ==> q[m] in q;
  }

  lemma RemoveInv<T>(s: Sys<T>, i: nat)
    requires Inv(s) && i < |s.threads| && s.threads[i].pc.Resumed?
    ensures Inv(RemoveOne(s, i))
  {
    var s' := RemoveOne(s, i);
    assert ActorOk(i, s.threads[i]);
    CreditsUpdate(s.threads, i, s'.threads[i], SendSide);
    CreditsUpdate(s.threads, i, s'.threads[i], RecvSide);
    RemoveQueue(s, i, SendSide);
    RemoveQueue(s, i, RecvSide);
    OthersKept(s, s', i);
  }

  lemma RemoveQueue<T>(s: Sys<T>, i: nat, side: Side)
    requires i < |s.threads| && s.threads[i].pc.Resumed? && QueueOk(s, side) && ActorOk(i, s.threads[i])
    ensures var s' := RemoveOne(s, i);
      && QueueOk(s', side) && (Waiters(s'.box, side) != [] ==> Waiters(s.box, side) != [])
      && forall token :: token in Waiters(s.box, side) && token.thread.index != i ==> token in Waiters(s'.box, side)
  {
    var s' := RemoveOne(s, i);
    var q, q' := Waiters(s.box, side), Waiters(s'.box, side);
    WithoutMembers(q, s.threads[i].pc.token);
    assert q' != [] ==> q'[0] in q;
    forall token | token in q' ensures QueuedOk(s', side, token) { assert QueuedOk(s, side, token); }
  }

  /** A claim leaves a queue and goes in flight with the thread that made it. */
  ghost predicate ClaimMove<T>(s: Sys<T>, s': Sys<T>, i: nat, side: Side) {
    && i < |s.threads| && (s.threads[i].pc.Attempting? || s.threads[i].pc.Reclaiming?)
    && var (box, claim) := Claim(s.box, side);
       && s'.threads == s.threads[i := s.threads[i].(pc := AfterClaim(side, claim))]
       && s'.box.sendWaiters == box.sendWaiters && s'.box.recvWaiters == box.recvWaiters
  }

  lemma ClaimInv<T>(s: Sys<T>, s': Sys<T>, i: nat, side: Side)
    requires ActorsOk(s) && ClaimsOk(s) && PendingOk(s) && QueueOk(s, SendSide) && QueueOk(s, RecvSide)
    requires ClaimMove(s, s', i, side)
    ensures ActorsOk(s') && ClaimsOk(s') && PendingOk(s') && QueueOk(s', SendSide) && QueueOk(s', RecvSide)
  {
    assert ActorOk(i, s.threads[i]);
    hide ActorsOk, ClaimsOk, PendingOk, QueueOk;
    NewWaiterActors(s, s', i);
    ClaimQueue(s, s', i, side, SendSide);
    ClaimQueue(s, s', i, side, RecvSide);
    ClaimClaims(s, s', i, side);
    ClaimPending(s, s', i, side);
  }

  lemma ClaimQueue<T>(s: Sys<T>, s': Sys<T>, i: nat, side: Side, other: Side)
    requires ClaimMove(s, s', i, side) && QueueOk(s, other)
    ensures QueueOk(s', other)
  {
    var q, q' := Waiters(s.box, other), Waiters(s'.box, other);
    assert q' == q || (q != [] && q' == q[1..]);
    forall token | token in q' ensures QueuedOk(s', other, token) { assert token in q && QueuedOk(s, other, token); }
    if q' != q {
      forall m, n | 0 <= m < n < |q'| ensures q'[m] != q'[n] { assert q[m + 1] != q[n + 1]; }
    }
  }

  lemma ClaimClaims<T>(s: Sys<T>, s': Sys<T>, i: nat, side: Side)
    requires ClaimMove(s, s', i, side) && ActorsOk(s) && ClaimsOk(s) && QueueOk(s, side)
    ensures ClaimsOk(s')
  {
    var q := Waiters(s.box, side);
    assert q != [] ==> q[0] in q && QueuedOk(s, side, q[0]);
    forall k | 0 <= k < |s'.threads| && s'.threads[k].pc.Completing?
      ensures ClaimOk(s', s'.threads[k].pc.side, s'.threads[k].pc.claim)
    {
      if k != i { assert ClaimOk(s, s.threads[k].pc.side, s.threads[k].pc.claim); }
    }
  }

  /** A waiter stays queued, or the claim on it is now carried by the acting thread. */
  lemma ClaimPending<T>(s: Sys<T>, s': Sys<T>, i: nat, side: Side)
    requires ClaimMove(s, s', i, side) && PendingOk(s)
    ensures PendingOk(s')
  {
    var q := Waiters(s.box, side);
    forall k | 0 <= k < |s'.threads| && Pending(s'.threads[k])
      ensures Reachable(s', SideOf(s'.threads[k].pc.request), s'.threads[k].pc.token)
    {
      var token, own := s.threads[k].pc.token, SideOf(s.threads[k].pc.request);
      if own == side && q != [] && token == q[0] {
        assert s'.threads[i].pc == Completing(side, token);
      } else {
        assert token in q && own == side ==> token in q[1..];
        StillReachable(s, s', own, token);
      }
    }
  }

  lemma AttemptInv<T>(s: Sys<T>, i: nat)
    requires Inv(s) && i < |s.threads| && s.threads[i].pc.Attempting?
    ensures Inv(TryOnce(s, i))
  {
    var a := s.threads[i];
    if ShouldWait(s.box, SideOf(a.pc.request)) {
      FailInv(s, i);
    } else if a.pc.request.SendMsg? {
      SendInv(s, i);
    } else {
      RecvInv(s, i);
    }
  }

  /** A failed attempt spends the thread's credit, when nothing is supplied. */
  lemma FailInv<T>(s: Sys<T>, i: nat)
    requires Inv(s) && i < |s.threads| && s.threads[i].pc.Attempting?
    requires ShouldWait(s.box, SideOf(s.threads[i].pc.request))
    ensures Inv(TryOnce(s, i))
  {
    var s' := TryOnce(s, i);
    CreditsUpdate(s.threads, i, s'.threads[i], SendSide);
    CreditsUpdate(s.threads, i, s'.threads[i], RecvSide);
    QueueKept(s, s', i, SendSide);
    QueueKept(s, s', i, RecvSide);
    OthersKept(s, s', i);
  }

  lemma SendInv<T>(s: Sys<T>, i: nat)
    requires Inv(s) && i < |s.threads| && s.threads[i].pc.Attempting? && s.threads[i].pc.request.SendMsg?
    requires !ShouldWait(s.box, SendSide)
    ensures Inv(TryOnce(s, i))
  {
    var s' := TryOnce(s, i);
    CreditsUpdate(s.threads, i, s'.threads[i], SendSide);
    CreditsUpdate(s.threads, i, s'.threads[i], RecvSide);
    ClaimInv(s, s', i, RecvSide);
  }

  lemma RecvInv<T>(s: Sys<T>, i: nat)
    requires Inv(s) && i < |s.threads| && s.threads[i].pc.Attempting? && s.threads[i].pc.request.RecvMsg?
    requires !ShouldWait(s.box, RecvSide)
    ensures Inv(TryOnce(s, i))
  {
    var s' := TryOnce(s, i);
    CreditsUpdate(s.threads, i, s'.threads[i], SendSide);
    CreditsUpdate(s.threads, i, s'.threads[i], RecvSide);
    ClaimInv(s, s', i, SendSide);
    assert s.box.contents == [s.box.contents[0]] + s.box.contents[1..];
  }

  lemma ReclaimInv<T>(s: Sys<T>, i: nat)
    requires Inv(s) && i < |s.threads| && s.threads[i].pc.Reclaiming?
    ensures Inv(ReclaimOne(s, i))
  {
    var s' := ReclaimOne(s, i);
    CreditsUpdate(s.threads, i, s'.threads[i], SendSide);
    CreditsUpdate(s.threads, i, s'.threads[i], RecvSide);
    ClaimInv(s, s', i, s.threads[i].pc.side);
  }

  /** A completed wait takes the credit over from the claim. */
  lemma CompleteTwo<T>(s: Sys<T>, i: nat, side: Side)
    requires i < |s.threads| && s.threads[i].pc.Completing? && ActorsOk(s)
    requires ClaimOk(s, s.threads[i].pc.side, s.threads[i].pc.claim)
    ensures
      var j, s' := s.threads[i].pc.claim.thread.index, CompleteOne(s, i);
      && j < |s.threads| == |s'.threads|
      && var mid := s.threads[j := s'.threads[j]];
         && s'.threads == mid[i := s'.threads[i]]
         && Credit(s'.threads[j], side) + Credit(s'.threads[i], side)
            == Credit(s.threads[j], side) + Credit(mid[i], side)
  {
    var j := s.threads[i].pc.claim.thread.index;
    assert ActorOk(i, s.threads[i]) && ActorOk(j, s.threads[j]);
  }

  lemma CompleteCredits<T>(s: Sys<T>, i: nat, side: Side)
    requires i < |s.threads| && s.threads[i].pc.Completing? && ActorsOk(s)
    requires ClaimOk(s, s.threads[i].pc.side, s.threads[i].pc.claim)
    ensures Credits(CompleteOne(s, i).threads, side) == Credits(s.threads, side)
  {
    hide ActorsOk, Credit, Credits, CompleteOne;
    var s', j := CompleteOne(s, i), s.threads[i].pc.claim.thread.index;
    CompleteTwo(s, i, side);
    CreditsUpdate(s.threads, j, s'.threads[j], side);
    CreditsUpdate(s.threads[j := s'.threads[j]], i, s'.threads[i], side);
  }

  /** A completion changes only its own position and the phase of one wait. */
  lemma CompleteShape<T>(s: Sys<T>, i: nat, k: nat)
    requires i < |s.threads| && s.threads[i].pc.Completing? && ActorsOk(s) && k < |s.threads|
    requires ClaimOk(s, s.threads[i].pc.side, s.threads[i].pc.claim)
    ensures
      var a, b := s.threads[k], CompleteOne(s, i).threads[k];
      && ActorOk(k, b)
      && (k != i ==> b.pc == a.pc) && (k == i ==> b.pc.Outside? || b.pc.Reclaiming?)
      && b.wait.nextSequence == a.wait.nextSequence
      && (b.wait.active.Some? ==> a.wait.active.Some? && b.wait.active.value.token == a.wait.active.value.token)
      && (Pending(b) ==> Pending(a) && a.pc.token != s.threads[i].pc.claim)
  {
    assert ActorOk(i, s.threads[i]) && ActorOk(k, s.threads[k]);
  }

  lemma CompleteInv<T>(s: Sys<T>, i: nat)
    requires Inv(s) && i < |s.threads| && s.threads[i].pc.Completing?
    ensures Inv(CompleteOne(s, i))
  {
    var a, s' := s.threads[i], CompleteOne(s, i);
    assert ClaimOk(s, a.pc.side, a.pc.claim);
    CompleteCredits(s, i, SendSide);
    CompleteCredits(s, i, RecvSide);
    forall k: nat | k < |s.threads| ensures ActorOk(k, s'.threads[k]) { CompleteShape(s, i, k); }
    CompleteFrame(s, i);
  }

  lemma CompleteFrame<T>(s: Sys<T>, i: nat)
    requires Inv(s) && i < |s.threads| && s.threads[i].pc.Completing?
    ensures var s' := CompleteOne(s, i);
      ClaimsOk(s') && PendingOk(s') && QueueOk(s', SendSide) && QueueOk(s', RecvSide)
  {
    var a, s' := s.threads[i], CompleteOne(s, i);
    assert ClaimOk(s, a.pc.side, a.pc.claim);
    hide CompleteOne;
    assert |s'.threads| == |s.threads| && s'.box == s.box by { CompleteSize(s, i); }
    forall side ensures QueueOk(s', side) {
      assert QueueOk(s, side);
      forall t | t in Waiters(s'.box, side) ensures QueuedOk(s', side, t) {
        assert QueuedOk(s, side, t);
        CompleteShape(s, i, t.thread.index);
      }
    }
    forall k | 0 <= k < |s'.threads| && s'.threads[k].pc.Completing?
      ensures ClaimOk(s', s'.threads[k].pc.side, s'.threads[k].pc.claim)
    {
      CompleteShape(s, i, k);
      assert ClaimOk(s, s.threads[k].pc.side, s.threads[k].pc.claim);
      CompleteShape(s, i, s.threads[k].pc.claim.thread.index);
    }
    forall k | 0 <= k < |s'.threads| && Pending(s'.threads[k])
      ensures Reachable(s', SideOf(s'.threads[k].pc.request), s'.threads[k].pc.token)
    {
      CompleteShape(s, i, k);
      forall m | 0 <= m < |s.threads| && m != i ensures s'.threads[m].pc == s.threads[m].pc { CompleteShape(s, i, m); }
      StillReachable(s, s', SideOf(s.threads[k].pc.request), s.threads[k].pc.token);
    }
  }

  lemma CompleteSize<T>(s: Sys<T>, i: nat)
    requires i < |s.threads| && s.threads[i].pc.Completing?
    ensures |CompleteOne(s, i).threads| == |s.threads| && CompleteOne(s, i).box == s.box
    ensures CompleteOne(s, i).sent == s.sent && CompleteOne(s, i).received == s.received
  {
  }

  lemma StepInv<T>(s: Sys<T>, step: Step<T>)
    requires Inv(s) && Enabled(s, step)
    ensures Inv(Next(s, step))
  {
    hide Inv;
    var i := step.i;
    match step
    case Attempt(_) => AttemptInv(s, i);
    case Wait(_, expired) => RegisterInv(s, i, expired);
    case RemoveStep(_) => RemoveInv(s, i);
    case CompleteStep(_) => CompleteInv(s, i);
    case ReclaimStep(_) => ReclaimInv(s, i);
    case _ => LocalStepInv(s, step);
  }

  lemma LocalStepInv<T>(s: Sys<T>, step: Step<T>)
    requires Inv(s) && Enabled(s, step)
    requires !step.Attempt? && !step.Wait? && !step.RemoveStep? && !step.CompleteStep? && !step.ReclaimStep?
    ensures Inv(Next(s, step))
  {
    var i, s' := step.i, Next(s, step);
    assert ActorOk(i, s.threads[i]);
    hide Inv;
    assert s' == Put(s, i, s'.threads[i]);
    LocalInv(s, i, s'.threads[i]);
  }

  // ----- theorems -----

  ghost predicate Initial<T>(s: Sys<T>) {
    && 0 < s.box.capacity && s.box.contents == [] && s.box.recvWaiters == [] && s.box.sendWaiters == []
    && s.sent == [] && s.received == []
    && forall i: nat :: i < |s.threads| ==> s.threads[i].id.index == i && s.threads[i].pc.Outside?
  }

  ghost predicate IsRun<T>(states: seq<Sys<T>>, steps: seq<Step<T>>) {
    && |states| == |steps| + 1 && Initial(states[0])
    && forall n: nat :: n < |steps| ==> StepAt(states, steps, n)
  }

  ghost predicate StepAt<T>(states: seq<Sys<T>>, steps: seq<Step<T>>, n: nat)
    requires n < |steps| && |states| == |steps| + 1
  {
    Enabled(states[n], steps[n]) && states[n + 1] == Next(states[n], steps[n])
  }

  lemma {:induction false} RunInv<T>(states: seq<Sys<T>>, steps: seq<Step<T>>, n: nat)
    requires IsRun(states, steps) && n < |states|
    ensures Inv(states[n])
  {
    if n > 0 {
      RunInv(states, steps, n - 1);
      assert StepAt(states, steps, n - 1);
      StepInv(states[n - 1], steps[n - 1]);
    }
  }

  /** Nobody is on the way: every thread is outside or asleep with its wait pending. */
  ghost predicate Quiescent<T>(s: Sys<T>) {
    forall i :: 0 <= i < |s.threads| ==>
      s.threads[i].pc.Outside? || (s.threads[i].pc.Sleeping? && Pending(s.threads[i]))
  }

  /** While a waiter is registered, what its side waits for is covered by threads that were
      notified and have not retried, and by claims in flight. */
  lemma WakeupsCovered<T>(states: seq<Sys<T>>, steps: seq<Step<T>>, n: nat, side: Side)
    requires IsRun(states, steps) && n < |states| && Waiters(states[n].box, side) != []
    ensures Supply(states[n].box, side) <= Credits(states[n].threads, side)
  {
    RunInv(states, steps, n);
    assert CreditOk(states[n], SendSide) && CreditOk(states[n], RecvSide);
  }

  /** No lost wakeup: at quiescence a sleeping receiver means an empty box, a sleeping sender a full one. */
  lemma NoLostWakeup<T>(states: seq<Sys<T>>, steps: seq<Step<T>>, n: nat, i: nat)
    requires IsRun(states, steps) && n < |states| && Quiescent(states[n])
    requires i < |states[n].threads| && states[n].threads[i].pc.Sleeping?
    ensures
      var box := states[n].box;
      if states[n].threads[i].pc.request.RecvMsg? then box.contents == [] else |box.contents| == box.capacity
  {
    var s := states[n];
    var side, token := SideOf(s.threads[i].pc.request), s.threads[i].pc.token;
    RunInv(states, steps, n);
    assert Reachable(s, side, token);
    assert token in Waiters(s.box, side);
    NoCredits(s.threads, side);
    WakeupsCovered(states, steps, n, side);
  }

  /** Hence a sender and a receiver never sleep together for good. */
  lemma NoMutualSleep<T>(states: seq<Sys<T>>, steps: seq<Step<T>>, n: nat, i: nat, j: nat)
    requires IsRun(states, steps) && n < |states| && Quiescent(states[n])
    requires i < |states[n].threads| && states[n].threads[i].pc.Sleeping?
    requires j < |states[n].threads| && states[n].threads[j].pc.Sleeping?
    ensures SideOf(states[n].threads[i].pc.request) == SideOf(states[n].threads[j].pc.request)
  {
    RunInv(states, steps, n);
    NoLostWakeup(states, steps, n, i);
    NoLostWakeup(states, steps, n, j);
  }

  /** Messages come out in the order they went in, none lost or duplicated. */
  lemma FirstInFirstOut<T>(states: seq<Sys<T>>, steps: seq<Step<T>>, n: nat)
    requires IsRun(states, steps) && n < |states|
    ensures states[n].sent == states[n].received + states[n].box.contents
    ensures |states[n].box.contents| <= states[n].box.capacity
  {
    RunInv(states, steps, n);
  }

  /** The commit is never stale and a resumed thread always finds its completion; both would
      be panics. */
  lemma WaitsNeverStale<T>(states: seq<Sys<T>>, steps: seq<Step<T>>, n: nat, i: nat)
    requires IsRun(states, steps) && n < |states| && i < |states[n].threads|
    ensures
      var a := states[n].threads[i];
      && (a.pc.Prepared? ==> !Commit(a.wait, PreparedWait(a.pc.token, Explicit)).1.StaleCommit?)
      && (a.pc.Sleeping? && !Pending(a) ==> Finish(a.wait, a.pc.token).1.Finished?)
  {
    RunInv(states, steps, n);
    assert ActorOk(i, states[n].threads[i]);
  }

  ghost function Owners(q: seq<WaitToken>): set<nat> {
    set token | token in q :: token.thread.index
  }

  lemma {:induction false} OwnerCount(q: seq<WaitToken>)
    requires forall m, n :: 0 <= m < n < |q| ==> q[m].thread.index != q[n].thread.index
    ensures |Owners(q)| == |q|
    decreases |q|
  {
    if q != [] {
      OwnerCount(q[1..]);
      assert q == [q[0]] + q[1..];
      assert Owners(q) == {q[0].thread.index} + Owners(q[1..]);
      assert q[0].thread.index !in Owners(q[1..]);
    }
  }

  /** A waiter queue never holds two tokens of one thread. So a thread that registers finds room in
      a queue with one place per thread, and its token is not there yet; both would be panics. */
  lemma WaiterQueueBounded<T>(states: seq<Sys<T>>, steps: seq<Step<T>>, n: nat, i: nat, side: Side)
    requires IsRun(states, steps) && n < |states|
    requires i < |states[n].threads| && Registered(states[n].threads[i].pc).None?
    ensures |Waiters(states[n].box, side)| < |states[n].threads|
    ensures forall token :: token in Waiters(states[n].box, side) ==> token.thread.index != i
  {
    var s := states[n];
    var q := Waiters(s.box, side);
    RunInv(states, steps, n);
    assert QueueOk(s, side);
    forall k, m | 0 <= k < m < |q| ensures q[k].thread.index != q[m].thread.index {
      assert q[k] in q && q[m] in q && QueuedOk(s, side, q[k]) && QueuedOk(s, side, q[m]);
    }
    forall token | token in q ensures token.thread.index < |s.threads| { assert QueuedOk(s, side, token); }
    forall token | token in q ensures token.thread.index != i { assert QueuedOk(s, side, token); }
    OwnerCount(q);
    assert i in Below(|s.threads|);
    SubsetCount(Owners(q), Below(|s.threads|) - {i});
  }

  /** A thread that is neither outside nor asleep with a pending wait can always take a step. */
  lemma Progress<T>(s: Sys<T>, i: nat)
    requires Inv(s) && i < |s.threads| && !s.threads[i].pc.Outside? && s.threads[i].wait.nextSequence < U64_MAX
    requires !(s.threads[i].pc.Sleeping? && Pending(s.threads[i]))
    ensures exists step: Step<T> :: step.i == i && Enabled(s, step)
  {
    assert ActorOk(i, s.threads[i]);
    var step: Step<T> :=
      match s.threads[i].pc
      case Attempting(_, _, _) => Attempt(i)
      case Deciding(_, mode) => if mode.NonBlocking? then GiveUp(i) else Wait(i, false)
      case Prepared(_, _, _) => CommitStep(i)
      case Sleeping(_, _, _) => FinishStep(i)
      case Resumed(_, _, _, _) => RemoveStep(i)
      case Completing(_, _) => CompleteStep(i)
      case _ => ReclaimStep(i);
    assert Enabled(s, step);
  }

  /** One thread alone with an empty mailbox of capacity one. */
  function Alone<T>(w: WaitMetadata, pc: Pc<T>, waiters: seq<WaitToken>): Sys<T> {
    Sys(Box(1, [], waiters, []), [Actor(ThreadId(0, 1), w, pc)], [], [])
  }

  lemma AloneBegins<T>(w: WaitMetadata)
    requires w.active.None?
    ensures
      var s, s1 := Alone<T>(w, Outside, []), Alone<T>(w, Attempting(RecvMsg, Forever, false), []);
      var s2 := Alone<T>(w, Deciding(RecvMsg, Forever), []);
      && Enabled(s, Begin(0, RecvMsg, Forever)) && Next(s, Begin(0, RecvMsg, Forever)) == s1
      && Enabled(s1, Attempt(0)) && Next(s1, Attempt(0)) == s2
  {
  }

  lemma AloneWaits<T>(w: WaitMetadata)
    requires w.active.None? && w.nextSequence < U64_MAX
    ensures
      var s, token := Alone<T>(w, Deciding(RecvMsg, Forever), []), WaitToken(ThreadId(0, 1), 0, w.nextSequence + 1);
      var w1 := WaitMetadata(w.nextSequence + 1, Some(ActiveWait(token, PhasePrepared, Explicit)));
      var w2 := w1.(active := Some(w1.active.value.(phase := PhaseBlocked)));
      var s1 := Alone<T>(w1, Prepared(RecvMsg, Forever, token), [token]);
      && Enabled(s, Wait(0, false)) && Next(s, Wait(0, false)) == s1
      && Enabled(s1, CommitStep(0))
      && Next(s1, CommitStep(0)) == Alone(w2, Sleeping(RecvMsg, Forever, token), [token])
  {
  }

  /** The theorems are not empty: a receiver that finds nothing does end asleep at quiescence. */
  lemma ReceiverSleeps<T>()
    ensures exists states: seq<Sys<T>>, steps: seq<Step<T>> ::
      && IsRun(states, steps) && Quiescent(states[|steps|])
      && |states[|steps|].threads| == 1 && states[|steps|].threads[0].pc.Sleeping?
  {
    hide Next, Enabled;
    var w := WaitMetadata(0, None);
    var t0: Step<T>, t1: Step<T> := Begin(0, RecvMsg, Forever), Attempt(0);
    var t2: Step<T>, t3: Step<T> := Wait(0, false), CommitStep(0);
    var s0 := Alone<T>(w, Outside, []);
    AloneBegins<T>(w);
    AloneWaits<T>(w);
    var s1 := Next(s0, t0);
    var s2 := Next(s1, t1);
    var s3 := Next(s2, t2);
    var states, steps := [s0, s1, s2, s3, Next(s3, t3)], [t0, t1, t2, t3];
    assert StepAt(states, steps, 0) && StepAt(states, steps, 1) && StepAt(states, steps, 2) && StepAt(states, steps, 3);
    assert IsRun(states, steps);
  }
}
