/** The mailbox storage of kernel/src/ipc.rs: a ring buffer with two bounded waiter queues. */
module MailboxImpl {
  import opened Base
  import opened Waits
  import opened MailboxState
  import opened Ring

  class Mailbox<T> {
    const capacity: nat
    const waiterCapacity: nat
    const buffer: array<Option<T>>
    var head: nat
    var tail: nat
    var len: nat
    var recvWaiters: seq<WaitToken>
    var sendWaiters: seq<WaitToken>
    ghost var contents: seq<T>

    ghost predicate Valid()
      reads this, buffer
    {
      && 0 < capacity == buffer.Length && head < capacity && len <= capacity && tail < capacity
      && tail == Index(head, capacity, len)
      && |contents| == len
      && (forall k: nat :: k < len ==> buffer[Index(head, capacity, k)] == Some(contents[k]))
      && (forall k: nat :: len <= k < capacity ==> buffer[Index(head, capacity, k)] == None)
      && |recvWaiters| <= waiterCapacity && |sendWaiters| <= waiterCapacity
    }

    ghost function Model(): Box<T>
      reads this
    {
      Box(capacity, contents, recvWaiters, sendWaiters)
    }

    constructor (capacity: nat, waiterCapacity: nat)
      requires 0 < capacity
      ensures Valid() && fresh(buffer) && this.waiterCapacity == waiterCapacity
      ensures Model() == Box(capacity, [], [], [])
    {
      this.capacity := capacity;
      this.waiterCapacity := waiterCapacity;
      buffer := new Option<T>[capacity](_ => None);
      head, tail, len := 0, 0, 0;
      recvWaiters, sendWaiters, contents := [], [], [];
    }

    method ClaimWaiter(side: Side) returns (token: Option<WaitToken>)
      requires Valid()
      modifies this`recvWaiters, this`sendWaiters
      ensures Valid() && (Model(), token) == Claim(old(Model()), side)
      ensures token.None? <==> Waiters(old(Model()), side) == []
      ensures token.Some? ==> Waiters(old(Model()), side) == [token.value] + Waiters(Model(), side)
    {
      match side {
        case SendSide =>
          if sendWaiters == [] { return None; }
          token := Some(sendWaiters[0]);
          sendWaiters := sendWaiters[1..];
        case RecvSide =>
          if recvWaiters == [] { return None; }
          token := Some(recvWaiters[0]);
          recvWaiters := recvWaiters[1..];
      }
    }

    /** Full leaves the mailbox unchanged and gives the message back. */
    method TrySend(msg: T) returns (rejected: Option<T>, claim: Option<WaitToken>)
      requires Valid()
      modifies this, buffer
      ensures Valid() && rejected == (if ShouldWait(old(Model()), SendSide) then Some(msg) else None)
      ensures if rejected.Some? then Model() == old(Model()) && claim == None
              else (Model(), claim) == Send(old(Model()), msg)
      ensures rejected.Some? <==> |old(contents)| == capacity
      ensures rejected.None? ==>
        && contents == old(contents) + [msg] && sendWaiters == old(sendWaiters)
        && old(recvWaiters) == (if claim.Some? then [claim.value] else []) + recvWaiters
    {
      if len == capacity { return Some(msg), None; }
      buffer[tail] := Some(msg);
      Advance(head, capacity, len);
      tail := (tail + 1) % capacity;
      len := len + 1;
      contents := contents + [msg];
      claim := ClaimWaiter(RecvSide);
      rejected := None;
    }

    method TryRecv() returns (msg: Option<T>, claim: Option<WaitToken>)
      requires Valid()
      modifies this, buffer
      ensures Valid() && (msg.Some? <==> !ShouldWait(old(Model()), RecvSide))
      ensures if msg.None? then Model() == old(Model()) && claim == None
              else msg.value == old(contents[0]) && (Model(), claim) == Recv(old(Model()))
      ensures msg.None? <==> old(contents) == []
      ensures msg.Some? ==>
        && old(contents) == [msg.value] + contents && recvWaiters == old(recvWaiters)
        && old(sendWaiters) == (if claim.Some? then [claim.value] else []) + sendWaiters
    {
      if len == 0 { return None, None; }
      HeadIndex(head, capacity);
      assert buffer[Index(head, capacity, 0)] == Some(contents[0]);
      assert buffer[head].Some?;
      msg := buffer[head];
      buffer[head] := None;
      Rotate();
      claim := ClaimWaiter(SendSide);
    }

    /** Advance the head past the slot that was just emptied. */
    method Rotate()
      requires 0 < len && 0 < capacity == buffer.Length && head < capacity && len <= capacity && tail < capacity
      requires tail == Index(head, capacity, len) && |contents| == len
      requires forall k: nat :: 0 < k < len ==> buffer[Index(head, capacity, k)] == Some(contents[k])
      requires buffer[head] == None && forall k: nat :: len <= k < capacity ==> buffer[Index(head, capacity, k)] == None
      requires |recvWaiters| <= waiterCapacity && |sendWaiters| <= waiterCapacity
      modifies this`head, this`len, this`contents
      ensures Valid() && contents == old(contents)[1..]
    {
      Advance(head, capacity, 0);
      HeadIndex(head, capacity);
      IndexShift(head, capacity, len);
      ghost var before, front := contents, head;
      head := (head + 1) % capacity;
      len := len - 1;
      contents := contents[1..];
      forall k: nat | k < len ensures buffer[Index(head, capacity, k)] == Some(contents[k]) {
        assert buffer[Index(front, capacity, k + 1)] == Some(before[k + 1]);
      }
      forall k: nat | len <= k < capacity ensures buffer[Index(head, capacity, k)] == None {
        if k + 1 < capacity { assert buffer[Index(front, capacity, k + 1)] == None; }
      }
    }

    /** A second registration of a token and an overfull queue are panics in the source. */
    method EnqueueWaiter(side: Side, token: WaitToken)
      requires Valid() && token !in Waiters(Model(), side) && |Waiters(Model(), side)| < waiterCapacity
      modifies this`recvWaiters, this`sendWaiters
      ensures Valid() && Model() == Enqueue(old(Model()), side, token)
    {
      match side {
        case SendSide =>
          assert token !in sendWaiters && |sendWaiters| != waiterCapacity;
          sendWaiters := sendWaiters + [token];
        case RecvSide =>
          assert token !in recvWaiters && |recvWaiters| != waiterCapacity;
          recvWaiters := recvWaiters + [token];
      }
    }

    method RemoveWaiter(side: Side, token: WaitToken) returns (found: bool)
      requires Valid()
      modifies this`recvWaiters, this`sendWaiters
      ensures Valid() && Model() == Remove(old(Model()), side, token)
      ensures found == (token in Waiters(old(Model()), side))
    {
      var queue := if side.SendSide? then sendWaiters else recvWaiters;
      var index := 0;
      while index < |queue| && queue[index] != token
        invariant index <= |queue| && token !in queue[..index]
      {
        index := index + 1;
      }
      WithoutAt(queue, token, index);
      if index == |queue| {
        assert queue == queue[..index];
        return false;
      }
      queue := queue[..index] + queue[index + 1..];
      if side.SendSide? { sendWaiters := queue; } else { recvWaiters := queue; }
      found := true;
    }
  }

  lemma {:induction false} WithoutAt(q: seq<WaitToken>, token: WaitToken, i: nat)
    requires i <= |q| && token !in q[..i] && (i < |q| ==> q[i] == token)
    ensures Without(q, token) == if i == |q| then q else q[..i] + q[i + 1..]
    decreases |q|
  {
    if q != [] && i > 0 {
      var rest := q[1..];
      assert q[0] in q[..i] && q == [q[0]] + rest;
      assert rest[..i - 1] == q[..i][1..];
      WithoutAt(rest, token, i - 1);
      assert i < |q| ==> q[..i] + q[i + 1..] == [q[0]] + (rest[..i - 1] + rest[i..]);
    }
  }
}
