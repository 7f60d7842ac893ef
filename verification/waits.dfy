/** The inline wait state machine of one thread (kernel/src/sched/wait.rs). */
module Waits {
  import opened Base

  /** Exact identity of one wait registration. */
  datatype WaitToken = WaitToken(thread: ThreadId, cpu: nat, sequence: nat)

  datatype WaitCause = Notified | Timeout
  datatype WaitPhase = PhasePrepared | PhaseBlocked | PhaseCompleted(cause: WaitCause)
  datatype WaitConsumption = Explicit | Automatic

  datatype ActiveWait = ActiveWait(token: WaitToken, phase: WaitPhase, consumption: WaitConsumption)
  datatype WaitMetadata = WaitMetadata(nextSequence: nat, active: Option<ActiveWait>)

  /** Single-use registration handed to the thread that prepared the wait. */
  datatype PreparedWait = PreparedWait(token: WaitToken, consumption: WaitConsumption)

  datatype CommitState = Block(token: WaitToken) | Early(cause: WaitCause) | StaleCommit
  datatype CompletionResult = CompletedPrepared | WokeBlocked | AlreadyCompleted | StaleCompletion
  datatype CancelResult = Cancelled | CompletedFirst(cause: WaitCause) | StaleCancel
  datatype FinishResult = Finished(cause: WaitCause) | NotCompleted | StaleFinish

  /** The source panics when a wait is active or the sequence is exhausted. */
  function Prepare(w: WaitMetadata, thread: ThreadId, cpu: nat, consumption: WaitConsumption)
    : (r: (WaitMetadata, PreparedWait))
    requires w.active.None? && w.nextSequence < U64_MAX
  {
    var token := WaitToken(thread, cpu, w.nextSequence + 1);
    (WaitMetadata(w.nextSequence + 1, Some(ActiveWait(token, PhasePrepared, consumption))),
     PreparedWait(token, consumption))
  }

  function Commit(w: WaitMetadata, prepared: PreparedWait): (r: (WaitMetadata, CommitState)) {
    if w.active.None? || w.active.value.token != prepared.token then (w, StaleCommit)
    else
      var a := w.active.value;
      match a.phase
      case PhasePrepared =>
        if a.consumption == prepared.consumption
        then (w.(active := Some(a.(phase := PhaseBlocked))), Block(a.token))
        else (w, StaleCommit)
      case PhaseCompleted(cause) => (w.(active := None), Early(cause))
      case PhaseBlocked => (w, StaleCommit)
  }

  function Complete(w: WaitMetadata, token: WaitToken, cause: WaitCause)
    : (r: (WaitMetadata, CompletionResult))
  {
    if w.active.None? || w.active.value.token != token then (w, StaleCompletion)
    else
      var a := w.active.value;
      match a.phase
      case PhasePrepared => (w.(active := Some(a.(phase := PhaseCompleted(cause)))), CompletedPrepared)
      case PhaseBlocked =>
        (w.(active := if a.consumption.Explicit? then Some(a.(phase := PhaseCompleted(cause))) else None),
         WokeBlocked)
      case PhaseCompleted(_) => (w, AlreadyCompleted)
  }

  function Cancel(w: WaitMetadata, prepared: PreparedWait): (r: (WaitMetadata, CancelResult)) {
    if w.active.None? || w.active.value.token != prepared.token then (w, StaleCancel)
    else
      match w.active.value.phase
      case PhasePrepared => (w.(active := None), Cancelled)
      case PhaseCompleted(cause) => (w.(active := None), CompletedFirst(cause))
      case PhaseBlocked => (w, StaleCancel)
  }

  function Finish(w: WaitMetadata, token: WaitToken): (r: (WaitMetadata, FinishResult)) {
    if w.active.None? || w.active.value.token != token then (w, StaleFinish)
    else
      match w.active.value.phase
      case PhaseCompleted(cause) => (w.(active := None), Finished(cause))
      case _ => (w, NotCompleted)
  }

  /** The life of a wait: a prepared wait blocks at its commit and a completion wakes it, or the completion
      comes first and the commit reports it. Explicit waits keep the cause until finish, once; automatic
      ones are over when they wake. */
  lemma Lifecycle(w: WaitMetadata, thread: ThreadId, cpu: nat, consumption: WaitConsumption, cause: WaitCause)
    requires w.active.None? && w.nextSequence < U64_MAX
    ensures
      var (w1, p) := Prepare(w, thread, cpu, consumption);
      var (w2, blocked) := Commit(w1, p);
      var (w3, woken) := Complete(w2, p.token, cause);
      var (w4, done) := Finish(w3, p.token);
      && blocked == Block(p.token) && woken.WokeBlocked? && w4 == w1.(active := None)
      && done == (if consumption.Explicit? then Finished(cause) else StaleFinish)
      && Finish(w4, p.token).1.StaleFinish?
    ensures
      var (w1, p) := Prepare(w, thread, cpu, consumption);
      var (w2, early) := Complete(w1, p.token, cause);
      && early.CompletedPrepared? && Commit(w2, p) == (w1.(active := None), Early(cause))
      && Cancel(w2, p) == (w1.(active := None), CompletedFirst(cause))
      && Cancel(w1, p) == (w1.(active := None), Cancelled)
  {
  }

  /** A batch of external completion attempts, in the order they win the scheduler lock. */
  function CompleteAll(w: WaitMetadata, attempts: seq<(WaitToken, WaitCause)>): (r: WaitMetadata)
    decreases |attempts|
  {
    if attempts == [] then w
    else CompleteAll(Complete(w, attempts[0].0, attempts[0].1).0, attempts[1..])
  }

  /** Whatever completions arrive, for any tokens and in any number, only those naming the
      active token count, and the first of them fixes the cause that Finish returns. */
  lemma {:induction false} FirstCauseWins(w: WaitMetadata, attempts: seq<(WaitToken, WaitCause)>)
    requires w.active.Some? && w.active.value.consumption.Explicit?
    ensures
      var token := w.active.value.token;
      var r := Finish(CompleteAll(w, attempts), token).1;
      match w.active.value.phase
      case PhaseCompleted(cause) => r == Finished(cause)
      case _ =>
        if exists i :: 0 <= i < |attempts| && attempts[i].0 == token
        then exists i :: 0 <= i < |attempts| && attempts[i].0 == token && r == Finished(attempts[i].1)
                        && forall j :: 0 <= j < i ==> attempts[j].0 != token
        else r == NotCompleted
    decreases |attempts|
  {
    if attempts != [] {
      var token := w.active.value.token;
      var w' := Complete(w, attempts[0].0, attempts[0].1).0;
      FirstCauseWins(w', attempts[1..]);
      if !w.active.value.phase.PhaseCompleted? && attempts[0].0 != token {
        if i :| 0 <= i < |attempts| && attempts[i].0 == token {
          assert attempts[1..][i - 1].0 == token;
          var k :| 0 <= k < |attempts[1..]| && attempts[1..][k].0 == token
                   && Finish(CompleteAll(w, attempts), token).1 == Finished(attempts[1..][k].1)
                   && forall j :: 0 <= j < k ==> attempts[1..][j].0 != token;
          assert attempts[k + 1].0 == token;
          forall j | 0 <= j < k + 1 ensures attempts[j].0 != token {
            if j > 0 { assert attempts[1..][j - 1].0 != token; }
          }
        }
      }
    }
  }
}
