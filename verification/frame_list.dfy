/**
  Frames and free lists (kernel/src/memory/frame_alloc.rs): runs of frames, links threaded
  through the frames themselves, and the set of frames they stand for.
 */
module FrameList {
  import opened Base
  import opened Arith

  /** Raw link value that ends the list; no frame has this address. */
  const LIST_END: nat := 0xFFFF_FFFF_FFFF_FFFF

  /** Addresses from start up to end. */
  datatype Range = Range(start: nat, end: nat)

  ghost predicate Covered(ranges: seq<Range>, f: nat) {
    exists i :: 0 <= i < |ranges| && ranges[i].start <= f < ranges[i].end
  }

  /** Sorted, disjoint, page aligned ranges below the end of the address space. */
  ghost predicate RangesOk(page: nat, ranges: seq<Range>)
    requires page > 0
  {
    && (forall i :: 0 <= i < |ranges| ==>
          ranges[i].start % page == 0 && ranges[i].end % page == 0 && ranges[i].start <= ranges[i].end <= LIST_END)
    && (forall i, j :: 0 <= i < j < |ranges| ==> ranges[i].end <= ranges[j].start)
  }

  ghost predicate Increasing(list: seq<nat>) {
    forall i, j :: 0 <= i < j < |list| ==> list[i] < list[j]
  }

  /** Frames are page aligned, and their end is representable. */
  predicate IsFrame(page: nat, f: nat)
    requires page > 0
  {
    f % page == 0 && f + page <= LIST_END
  }

  function Members(list: seq<nat>): set<nat> {
    set f | f in list
  }

  function Next(list: seq<nat>, k: nat): nat
    requires k < |list|
  {
    if k + 1 < |list| then list[k + 1] else LIST_END
  }

  /** The list is what one reads by following the links from the head. */
  ghost predicate Linked(head: Option<nat>, memory: map<nat, nat>, list: seq<nat>) {
    && head == (if list == [] then None else Some(list[0]))
    && forall k: nat :: k < |list| ==> LinkAt(memory, list, k)
  }

  predicate LinkAt(memory: map<nat, nat>, list: seq<nat>, k: nat)
    requires k < |list|
  {
    list[k] in memory && memory[list[k]] == Next(list, k)
  }

  ghost predicate FreeList(page: nat, list: seq<nat>) {
    page > 0 && Increasing(list) && forall k: nat :: k < |list| ==> IsFrame(page, list[k])
  }

  /** The frames from start up to end. */
  function Run(page: nat, start: nat, end: nat): (r: seq<nat>)
    requires page > 0
    decreases end - start
  {
    if start >= end then [] else [start] + Run(page, start + page, end)
  }

  // ----- runs -----

  lemma {:induction false} RunMembers(page: nat, start: nat, end: nat)
    requires page > 0 && start % page == 0 && end % page == 0
    ensures forall f :: f in Run(page, start, end) <==> start <= f < end && f % page == 0
    decreases end - start
  {
    if start < end {
      StepUp(page, start);
      RunMembers(page, start + page, end);
      forall f | start < f && f % page == 0 ensures start + page <= f { Gap(page, start, f); }
    }
  }

  lemma {:induction false} RunShape(page: nat, start: nat, end: nat)
    requires page > 0 && start % page == 0 && end % page == 0 && end <= LIST_END
    ensures FreeList(page, Run(page, start, end))
    ensures Consecutive(page, Run(page, start, end), 0, |Run(page, start, end)|)
    decreases end - start
  {
    if start < end {
      StepUp(page, start);
      Gap(page, start, end);
      var rest := Run(page, start + page, end);
      RunShape(page, start + page, end);
      RunMembers(page, start + page, end);
      assert forall k: nat :: k < |rest| ==> rest[k] in rest;
      forall k: nat | k + 1 < |rest| + 1 ensures Adjacent(page, [start] + rest, k) {
        if k > 0 { assert Adjacent(page, rest, k - 1); }
      }
    }
  }

  /** The number of frames in a range. */
  lemma {:induction false} RunLength(page: nat, start: nat, end: nat)
    requires page > 0 && start % page == 0 && end % page == 0 && start <= end
    ensures |Run(page, start, end)| == end / page - start / page
    decreases end - start
  {
    if start < end {
      StepUp(page, start);
      Gap(page, start, end);
      RunLength(page, start + page, end);
    }
  }

  // ----- lists -----

  lemma IncreasingDistinct(list: seq<nat>, i: nat, j: nat)
    requires Increasing(list) && i < |list| && j < |list| && list[i] == list[j]
    ensures i == j
  {
  }

  /** Two increasing lists with the same members are the same list: the list is the set. */
  lemma {:induction false} ListIsSet(a: seq<nat>, b: seq<nat>)
    requires Increasing(a) && Increasing(b) && Members(a) == Members(b)
    ensures a == b
    decreases |a|
  {
    assert b != [] ==> b[0] in Members(b);
    if a != [] {
      assert a[0] in Members(a) && a[0] in b;
      assert b[0] in a;
      assert a == [a[0]] + a[1..] && b == [b[0]] + b[1..];
      assert a[0] == b[0];
      assert Members(a[1..]) == Members(a) - {a[0]};
      assert Members(b[1..]) == Members(b) - {b[0]};
      ListIsSet(a[1..], b[1..]);
    }
  }

  // ----- contiguous runs -----

  predicate Adjacent(page: nat, list: seq<nat>, k: nat)
    requires k + 1 < |list|
  {
    list[k + 1] == list[k] + page
  }

  predicate Consecutive(page: nat, list: seq<nat>, s: nat, n: nat) {
    s + n <= |list| && forall k: nat :: s <= k && k + 1 < s + n ==> Adjacent(page, list, k)
  }

  /** An aligned run of n frames starts at position s of the list. */
  predicate Suitable(page: nat, list: seq<nat>, s: nat, n: nat, align: nat)
    requires align > 0
  {
    Consecutive(page, list, s, n) && s < |list| && list[s] % align == 0
  }

  /** All n frames from start on are in the set. */
  predicate FreeRun(page: nat, free: set<nat>, start: nat, n: nat)
    decreases n
  {
    n == 0 || (start in free && FreeRun(page, free, start + page, n - 1))
  }

  /** Frames that are free one after the other sit one after the other in the list. */
  lemma {:induction false} RunInList(page: nat, list: seq<nat>, s: nat, n: nat)
    requires FreeList(page, list) && s < |list| && n > 0
    ensures FreeRun(page, Members(list), list[s], n) <==> Consecutive(page, list, s, n)
    decreases n
  {
    if n > 1 {
      var f := list[s];
      assert f in Members(list);
      assert FreeRun(page, Members(list), f, n) == FreeRun(page, Members(list), f + page, n - 1);
      if s + 1 < |list| && Adjacent(page, list, s) {
        RunInList(page, list, s + 1, n - 1);
      } else {
        NotNext(page, list, s);
        assert !FreeRun(page, Members(list), f + page, n - 1);
      }
    }
  }

  lemma NotNext(page: nat, list: seq<nat>, s: nat)
    requires FreeList(page, list) && s < |list| && (s + 1 < |list| ==> list[s + 1] != list[s] + page)
    ensures list[s] + page !in list
  {
    if list[s] + page in list {
      var k :| 0 <= k < |list| && list[k] == list[s] + page;
      assert s + 1 < |list|;
      Gap(page, list[s], list[s + 1]);
    }
  }

  predicate PowerOfTwo(n: nat) {
    n == 1 || (n > 1 && n % 2 == 0 && PowerOfTwo(n / 2))
  }
}
