/**
  The mailbox (kernel/src/ipc.rs): what one critical section of its owner lock does.

  A box holds messages in arrival order and two queues of exact wait tokens. Module MailboxImpl
  implements these transitions with a ring buffer; module MailboxProtocol interleaves them with
  scheduler completions, timeouts and retries.
 */
module MailboxState {
  import opened Base
  import opened Waits

  /** Which condition a waiter waits for: room, or a message. */
  datatype Side = SendSide | RecvSide

  datatype Box<T> = Box(capacity: nat, contents: seq<T>, recvWaiters: seq<WaitToken>, sendWaiters: seq<WaitToken>)

  function Waiters<T>(b: Box<T>, side: Side): seq<WaitToken> {
    match side
    case SendSide => b.sendWaiters
    case RecvSide => b.recvWaiters
  }

  function SetWaiters<T>(b: Box<T>, side: Side, q: seq<WaitToken>): Box<T> {
    match side
    case SendSide => b.(sendWaiters := q)
    case RecvSide => b.(recvWaiters := q)
  }

  predicate ShouldWait<T>(b: Box<T>, side: Side) {
    match side
    case SendSide => |b.contents| == b.capacity
    case RecvSide => b.contents == []
  }

  /** Pop the oldest waiter of one side. */
  function Claim<T>(b: Box<T>, side: Side): (r: (Box<T>, Option<WaitToken>)) {
    var q := Waiters(b, side);
    if q == [] then (b, None) else (SetWaiters(b, side, q[1..]), Some(q[0]))
  }

  /** A successful send appends the message and claims one receiver. */
  function Send<T>(b: Box<T>, msg: T): (r: (Box<T>, Option<WaitToken>)) {
    Claim(b.(contents := b.contents + [msg]), RecvSide)
  }

  /** A successful receive takes the oldest message and claims one sender. */
  function Recv<T>(b: Box<T>): (r: (Box<T>, Option<WaitToken>))
    requires b.contents != []
  {
    Claim(b.(contents := b.contents[1..]), SendSide)
  }

  function Enqueue<T>(b: Box<T>, side: Side, token: WaitToken): Box<T> {
    SetWaiters(b, side, Waiters(b, side) + [token])
  }

  /** The queue without the first occurrence of a token. */
  function Without(q: seq<WaitToken>, token: WaitToken): seq<WaitToken> {
    if q == [] then [] else if q[0] == token then q[1..] else [q[0]] + Without(q[1..], token)
  }

  function Remove<T>(b: Box<T>, side: Side, token: WaitToken): Box<T> {
    SetWaiters(b, side, Without(Waiters(b, side), token))
  }

  lemma {:induction false} WithoutMembers(q: seq<WaitToken>, token: WaitToken)
    requires forall i, j :: 0 <= i < j < |q| ==> q[i] != q[j]
    ensures forall t :: t in Without(q, token) <==> t in q && t != token
    ensures forall i, j :: 0 <= i < j < |Without(q, token)| ==> Without(q, token)[i] != Without(q, token)[j]
    decreases |q|
  {
    if q != [] {
      var rest := q[1..];
      assert forall t :: t in q <==> t == q[0] || t in rest;
      assert q[0] !in rest;
      WithoutMembers(rest, token);
    }
  }
}
