/** Bytes or messages held in a ring: position k counts from the head and wraps around. */
module Ring {
  function Index(head: nat, capacity: nat, k: nat): (i: nat)
    requires head < capacity && k <= capacity
    ensures i < capacity
  {
    if head + k < capacity then head + k else head + k - capacity
  }

  ghost predicate Holds<T>(r: seq<T>, head: nat, contents: seq<T>) {
    && head < |r| && |contents| <= |r|
    && forall k: nat :: k < |contents| ==> r[Index(head, |r|, k)] == contents[k]
  }

  /** Advancing an index by one, as the remainder computes it. */
  lemma Advance(head: nat, capacity: nat, k: nat)
    requires head < capacity && k < capacity
    ensures (Index(head, capacity, k) + 1) % capacity == Index(head, capacity, k + 1)
  {
    var i := Index(head, capacity, k);
    if i + 1 == capacity { assert capacity % capacity == 0; }
  }

  lemma HeadIndex(head: nat, capacity: nat)
    requires head < capacity
    ensures Index(head, capacity, 0) == head
  {
  }

  lemma IndexShift(head: nat, capacity: nat, k: nat)
    requires head < capacity && 0 < k <= capacity
    ensures Index(Index(head, capacity, 1), capacity, k - 1) == Index(head, capacity, k)
  {
  }

  lemma PushOne<T>(r: seq<T>, head: nat, contents: seq<T>, x: T)
    requires Holds(r, head, contents) && |contents| < |r|
    ensures Holds(r[Index(head, |r|, |contents|) := x], head, contents + [x])
  {
  }

  lemma PopOne<T>(r: seq<T>, head: nat, contents: seq<T>)
    requires Holds(r, head, contents) && contents != []
    ensures r[head] == contents[0] && Holds(r, Index(head, |r|, 1), contents[1..])
  {
    assert Index(head, |r|, 0) == head;
    forall k: nat | k < |contents[1..]| ensures r[Index(Index(head, |r|, 1), |r|, k)] == contents[1..][k] {
      assert Index(Index(head, |r|, 1), |r|, k) == Index(head, |r|, k + 1);
    }
  }

  /** A shorter content is held by the same ring. */
  lemma Prefix<T>(r: seq<T>, head: nat, contents: seq<T>, n: nat)
    requires Holds(r, head, contents) && n <= |contents|
    ensures Holds(r, head, contents[..n])
  {
  }
}
