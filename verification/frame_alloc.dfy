/** The intrusive sorted free list (kernel/src/memory/frame_alloc.rs). */
module FrameAlloc {
  import opened Base
  import opened Arith
  import opened FrameList

  class FrameAllocator {
    var head: Option<nat>
    var page: nat
    var totalFrames: nat
    var freeFrames: nat
    /** Link words stored in the frames; only those of free frames mean anything. */
    var memory: map<nat, nat>
    ghost var list: seq<nat>
    /** Frames handed out and not yet returned, and all frames of the boot map. */
    ghost var live: set<nat>
    ghost var usable: set<nat>

    ghost predicate Valid()
      reads this
    {
      && FreeList(page, list) && Linked(head, memory, list) && freeFrames == |list|
      && live !! Members(list) && live + Members(list) == usable
    }

    method ReadNext(frame: nat) returns (next: Option<nat>)
      requires frame in memory
      ensures next == if memory[frame] == LIST_END then None else Some(memory[frame])
    {
      var raw := memory[frame];
      next := if raw != LIST_END then Some(raw) else None;
    }

    /** The lowest free frame. */
    method AllocFrame() returns (frame: Option<nat>)
      requires Valid()
      modifies this
      ensures Valid() && usable == old(usable) && page == old(page)
      ensures frame.None? <==> old(list) == []
      ensures frame.None? ==> list == old(list) && live == old(live)
      ensures frame.Some? ==> frame.value == old(list[0]) && list == old(list)[1..] && live == old(live) + {frame.value}
    {
      if head.None? { return None; }
      frame := head;
      FrameBelowEnd(page, list);
      assert LinkAt(memory, list, 0);
      head := ReadNext(frame.value);
      freeFrames := SaturatingSub(freeFrames, 1);
      SplitMembers(list, 0, 1);
      forall k: nat | k + 1 < |list| ensures LinkAt(memory, list[1..], k) { assert LinkAt(memory, list, k + 1); }
      live := live + {frame.value};
      list := list[1..];
    }

    /** The lowest aligned run of frames, if there is one. */
    method AllocContiguousAligned(frames: nat, align: nat) returns (range: Option<Range>)
      requires Valid()
      modifies this
      ensures Valid() && usable == old(usable) && page == old(page)
      ensures range.None? ==> list == old(list) && live == old(live)
      ensures range.None? ==> frames == 0 || align < page || !PowerOfTwo(align)
                              || forall start: nat :: !AlignedRun(page, old(list), start, frames, align)
      ensures range.Some? ==>
        && frames > 0 && align >= page && PowerOfTwo(align)
        && AlignedRun(page, old(list), range.value.start, frames, align)
        && (forall start: nat :: start < range.value.start ==> !AlignedRun(page, old(list), start, frames, align))
        && |Run(page, range.value.start, range.value.end)| == frames
        && live == old(live) + Members(Run(page, range.value.start, range.value.end))
        && Members(list) == old(Members(list)) - Members(Run(page, range.value.start, range.value.end))
    {
      hide AlignedRun, Run, Linked, Members, FreeList, Consecutive, NoneBefore;
      if frames == 0 { return None; }
      if align < page || !PowerOfTwo(align) { return None; }
      var at, before, start, last, next := FindRun(frames, align);
      if !at {
        NoRuns(page, list, frames, align);
        return None;
      }
      ghost var s := IndexOf(list, start);
      RunIsLowest(page, list, s, frames, align);
      TakeRun(page, list, live, usable, s, frames);
      if before.Some? {
        memory := memory[before.value := if next.Some? then next.value else LIST_END];
      } else {
        head := next;
      }
      freeFrames := SaturatingSub(freeFrames, frames);
      assert last + page <= LIST_END;
      range := Some(Range(start, last + page));
      Spliced(old(head), old(memory), head, memory, page, list, s, frames);
      live := live + Members(Run(page, start, last + page));
      list := list[..s] + list[s + frames..];
    }

    /** Walk the list: predecessor, first and last frame and successor of the lowest suitable run. */
    method FindRun(frames: nat, align: nat)
      returns (found: bool, before: Option<nat>, start: nat, last: nat, next: Option<nat>)
      requires Valid() && frames > 0 && align > 0
      ensures !found ==> NoneBefore(page, list, |list|, frames, align)
      ensures found ==> start in list && RunFound(page, list, IndexOf(list, start), frames, align, before, last)
      ensures found ==> next == (var e := IndexOf(list, start) + frames; if e < |list| then Some(list[e]) else None)
    {
      hide RunState, RunFound, NoneBefore;
      FrameBelowEnd(page, list);
      var prev: Option<nat>, current, previousFrame: Option<nat> := None, head, None;
      var candidatePrev: Option<nat>, runStart: Option<nat>, runEnd: Option<nat>, runLen: nat := None, None, None, 0;
      ghost var i: nat := 0;
      RunInitial(page, list, frames, align);
      while current.Some?
        invariant i <= |list| && current == (if i < |list| then Some(list[i]) else None)
        invariant prev == previousFrame == (if i > 0 then Some(list[i - 1]) else None)
        invariant RunState(page, list, i, frames, align, candidatePrev, runStart, runEnd, runLen)
        decreases |list| - i
      {
        var frame := current.value;
        assert LinkAt(memory, list, i);
        next := ReadNext(frame);
        var contiguous := previousFrame.Some? && frame == previousFrame.value + page;
        if !contiguous {
          RunBroken(page, list, i, frames, align, candidatePrev, runStart, runEnd, runLen);
          candidatePrev, runStart, runEnd, runLen := None, None, None, 0;
        }
        ghost var was := (candidatePrev, runStart, runEnd, runLen);
        if runStart.None? && frame % align == 0 {
          candidatePrev, runStart, runEnd, runLen := prev, Some(frame), Some(frame), 1;
        } else if runStart.Some? {
          runEnd, runLen := Some(frame), runLen + 1;
        }
        RunStep(page, list, i, frames, align, was.0, was.1, was.2, was.3, candidatePrev, runStart, runEnd, runLen);
        if runLen == frames {
          IncreasingIndex(list, i + 1 - frames);
          return true, candidatePrev, runStart.value, runEnd.value, next;
        }
        prev, previousFrame, current := Some(frame), Some(frame), next;
        i := i + 1;
      }
      RunBroken(page, list, i, frames, align, candidatePrev, runStart, runEnd, runLen);
      found := false;
      before, start, last, next := None, 0, 0, None;
    }

    method AllocContiguous(frames: nat) returns (range: Option<Range>)
      requires Valid() && PowerOfTwo(page)
      modifies this
      ensures Valid() && usable == old(usable) && page == old(page)
      ensures range.None? <==> frames == 0 || forall start: nat :: !AlignedRun(page, old(list), start, frames, page)
      ensures range.None? ==> list == old(list) && live == old(live)
      ensures range.Some? ==>
        && |Run(page, range.value.start, range.value.end)| == frames
        && live == old(live) + Members(Run(page, range.value.start, range.value.end))
        && Members(list) == old(Members(list)) - Members(Run(page, range.value.start, range.value.end))
    {
      hide AlignedRun, Run, Linked;
      range := AllocContiguousAligned(frames, page);
    }

    /** Return a range that the caller holds. */
    method FreeContiguous(range: Range)
      requires Valid() && range.start % page == 0 && range.end % page == 0 && range.end <= LIST_END
      requires Members(Run(page, range.start, range.end)) <= live
      modifies this
      ensures Valid() && usable == old(usable) && page == old(page)
      ensures live == old(live) - Members(Run(page, range.start, range.end))
      ensures Members(list) == old(Members(list)) + Members(Run(page, range.start, range.end))
    {
      hide Linked, FreeList, Increasing;
      var start, end := range.start, range.end;
      if start >= end { return; }
      var frameCount := (end - start) / page;
      ghost var run := Run(page, start, end);
      RunCount(page, start, end);
      var prev, current := FindPlace(start);
      ghost var i := PlaceOf(list, start);
      RunFits(page, list, i, start, end);
      assert prev.Some? ==> prev.value < start;
      assert current.Some? ==> current.value >= end;
      var tail := if current.Some? then current.value else LIST_END;
      LinkRun(start, end, tail);
      ghost var linked := memory;
      assert forall f :: f in list ==> f in Members(list) && f !in Members(run);
      if prev.Some? {
        memory := memory[prev.value := start];
      } else {
        head := Some(start);
      }
      freeFrames := freeFrames + frameCount;
      Inserted(old(head), old(memory), linked, head, memory, page, list, i, run, tail);
      live := live - Members(run);
      list := list[..i] + run + list[i..];
    }

    method FreeFrame(frame: nat)
      requires Valid() && frame in live && IsFrame(page, frame)
      modifies this
      ensures Valid() && usable == old(usable) && page == old(page)
      ensures live == old(live) - {frame} && Members(list) == old(Members(list)) + {frame}
    {
      StepUp(page, frame);
      assert Run(page, frame, frame + page) == [frame] + Run(page, frame + page, frame + page);
      FreeContiguous(Range(frame, frame + page));
    }

    /** The last free frame below an address and the first one not below it. */
    method FindPlace(start: nat) returns (prev: Option<nat>, current: Option<nat>)
      requires FreeList(page, list) && Linked(head, memory, list)
      ensures var i := PlaceOf(list, start);
        && prev == (if i > 0 then Some(list[i - 1]) else None)
        && current == (if i < |list| then Some(list[i]) else None)
    {
      FrameBelowEnd(page, list);
      ghost var i: nat := 0;
      prev, current := None, head;
      while current.Some?
        invariant i <= |list| && current == (if i < |list| then Some(list[i]) else None)
        invariant prev == (if i > 0 then Some(list[i - 1]) else None)
        invariant i > 0 ==> list[i - 1] < start
        decreases |list| - i
      {
        if current.value >= start { break; }
        prev := current;
        assert LinkAt(memory, list, i);
        current := ReadNext(prev.value);
        i := i + 1;
      }
      PlaceIs(list, start, i);
    }

    /** Thread the frames of a range, from its end down, in front of `tail`. */
    method LinkRun(start: nat, end: nat, tail: nat)
      requires page > 0 && start < end && start % page == 0 && end % page == 0 && end <= LIST_END
      modifies this`memory
      ensures RunLinked(memory, Run(page, start, end), tail)
      ensures forall f :: f !in Run(page, start, end) ==> (f in memory <==> f in old(memory))
      ensures forall f :: f !in Run(page, start, end) && f in memory ==> memory[f] == old(memory)[f]
    {
      var frame, next := end, tail;
      ghost var run: seq<nat> := [];
      while frame > start
        invariant start <= frame <= end && frame % page == 0
        invariant run == Run(page, frame, end) && RunLinked(memory, run, tail)
        invariant next == (if run == [] then tail else run[0])
        invariant forall f :: f !in run ==> (f in memory <==> f in old(memory))
        invariant forall f :: f !in run && f in memory ==> memory[f] == old(memory)[f]
      {
        StepDown(page, frame);
        Gap(page, start, frame);
        RunMembers(page, frame, end);
        frame := frame - page;
        LinkFront(memory, run, tail, frame);
        memory := memory[frame := next];
        next := frame;
        run := [frame] + run;
      }
    }

    method InsertFrameSorted(frame: nat)
      requires FreeList(page, list) && Linked(head, memory, list) && freeFrames == |list|
      requires IsFrame(page, frame) && frame !in list
      modifies this`head, this`memory, this`freeFrames, this`list
      ensures FreeList(page, list) && Linked(head, memory, list) && freeFrames == |list|
      ensures var i := PlaceOf(old(list), frame); list == old(list)[..i] + [frame] + old(list)[i..]
    {
      hide Linked, FreeList, Increasing;
      ghost var i := PlaceOf(list, frame);
      InsertFits(page, list, i, frame);
      HeadIs(head, memory, list);
      ghost var tail := if i < |list| then list[i] else LIST_END;
      if head.None? {
        memory := memory[frame := LIST_END];
        head := Some(frame);
      } else if frame < head.value {
        memory := memory[frame := head.value];
        head := Some(frame);
      } else {
        var prev, next := WalkTo(frame);
        memory := memory[frame := if next.Some? then next.value else LIST_END];
        memory := memory[prev := frame];
      }
      freeFrames := freeFrames + 1;
      InsertedOne(old(head), old(memory), head, memory, page, list, i, frame);
      list := list[..i] + [frame] + list[i..];
    }

    /** The neighbours between which a frame above the head belongs. */
    method WalkTo(frame: nat) returns (prev: nat, next: Option<nat>)
      requires FreeList(page, list) && Linked(head, memory, list) && list != [] && list[0] <= frame && frame !in list
      ensures var i := PlaceOf(list, frame);
        && i > 0 && prev == list[i - 1] && next == (if i < |list| then Some(list[i]) else None)
    {
      FrameBelowEnd(page, list);
      prev := head.value;
      assert LinkAt(memory, list, 0);
      next := ReadNext(prev);
      ghost var i: nat := 1;
      while next.Some? && !(frame < next.value)
        invariant 0 < i <= |list| && prev == list[i - 1] < frame && next == (if i < |list| then Some(list[i]) else None)
        decreases |list| - i
      {
        prev := next.value;
        assert LinkAt(memory, list, i);
        next := ReadNext(prev);
        i := i + 1;
      }
      PlaceIs(list, frame, i);
    }

    /** Build the list from sorted, disjoint, page aligned ranges. */
    method InitFromRanges(ranges: seq<Range>, pageSize: nat)
      requires pageSize > 0 && RangesOk(pageSize, ranges)
      modifies this
      ensures Valid() && page == pageSize && live == {} && totalFrames == freeFrames
      ensures list == AllFrames(pageSize, ranges)
      ensures forall f: nat :: f in usable <==> f % pageSize == 0 && Covered(ranges, f)
    {
      hide Linked, FreeList;
      head, page, totalFrames, freeFrames := None, pageSize, 0, 0;
      list := [];
      EmptyList(page, memory);
      var r: nat := |ranges|;
      while r > 0
        invariant r <= |ranges| && page == pageSize
        invariant FreeList(page, list) && Linked(head, memory, list) && freeFrames == |list|
        invariant list == AllFrames(page, ranges[r..])
      {
        r := r - 1;
        AllAbove(page, ranges, r);
        InsertRange(ranges[r]);
      }
      assert ranges[0..] == ranges;
      totalFrames := freeFrames;
      live, usable := {}, Members(list);
      AllFramesMembers(page, ranges);
    }

    /** Insert the frames of a range that lies below the list, from its end down. */
    method InsertRange(range: Range)
      requires FreeList(page, list) && Linked(head, memory, list) && freeFrames == |list|
      requires page > 0 && range.start % page == 0 && range.end % page == 0 && range.start <= range.end <= LIST_END
      requires forall f :: f in list ==> range.end <= f
      modifies this`head, this`memory, this`freeFrames, this`list
      ensures FreeList(page, list) && Linked(head, memory, list) && freeFrames == |list|
      ensures list == Run(page, range.start, range.end) + old(list)
    {
      hide Linked, FreeList, PlaceOf;
      var frame := range.end;
      while frame > range.start
        invariant range.start <= frame <= range.end && frame % page == 0
        invariant FreeList(page, list) && Linked(head, memory, list) && freeFrames == |list|
        invariant list == Run(page, frame, range.end) + old(list)
      {
        StepDown(page, frame);
        Gap(page, range.start, frame);
        FrontFits(page, frame, range.end, old(list));
        frame := frame - page;
        InsertFrameSorted(frame);
      }
    }
  }

  // ----- the search -----

  ghost predicate AlignedRun(page: nat, list: seq<nat>, start: nat, frames: nat, align: nat) {
    align > 0 && start % align == 0 && FreeRun(page, Members(list), start, frames)
  }

  ghost predicate NoneBefore(page: nat, list: seq<nat>, i: nat, frames: nat, align: nat)
    requires align > 0
  {
    forall j: nat :: j < i ==> !Suitable(page, list, j, frames, align)
  }

  /** The lowest suitable run is at s, between `before` and the frame after `last`. */
  ghost predicate RunFound(page: nat, list: seq<nat>, s: nat, frames: nat, align: nat, before: Option<nat>, last: nat)
    requires align > 0 && frames > 0
  {
    && Suitable(page, list, s, frames, align) && NoneBefore(page, list, s, frames, align)
    && before == (if s > 0 then Some(list[s - 1]) else None)
    && last == list[s + frames - 1]
  }

  /** Progress of the walk after i frames: either no run is open and none starts before i, or a run
      of runLen frames is open and none starts before it. */
  ghost predicate RunState(page: nat, list: seq<nat>, i: nat, frames: nat, align: nat,
                           candidatePrev: Option<nat>, runStart: Option<nat>, runEnd: Option<nat>, runLen: nat)
    requires i <= |list| && align > 0
  {
    && runLen < frames && runLen <= i
    && NoneBefore(page, list, i - runLen, frames, align)
    && (runLen == 0 <==> runStart.None?)
    && (runStart.Some? ==>
          var s := i - runLen;
          && runStart == Some(list[s]) && runEnd == Some(list[i - 1]) && list[s] % align == 0
          && candidatePrev == (if s > 0 then Some(list[s - 1]) else None)
          && Consecutive(page, list, s, runLen))
  }

  lemma RunInitial(page: nat, list: seq<nat>, frames: nat, align: nat)
    requires align > 0 && frames > 0
    ensures RunState(page, list, 0, frames, align, None, None, None, 0)
  {
  }

  /** When the walk ends or meets a gap, no run that began earlier can succeed. */
  lemma RunBroken(page: nat, list: seq<nat>, i: nat, frames: nat, align: nat,
                  candidatePrev: Option<nat>, runStart: Option<nat>, runEnd: Option<nat>, runLen: nat)
    requires i <= |list| && align > 0 && RunState(page, list, i, frames, align, candidatePrev, runStart, runEnd, runLen)
    requires i == |list| || i == 0 || list[i] != list[i - 1] + page
    ensures NoneBefore(page, list, i, frames, align)
    ensures RunState(page, list, i, frames, align, None, None, None, 0)
  {
    forall j: nat | j < i ensures !Suitable(page, list, j, frames, align) {
      if j >= i - runLen && j + frames <= |list| { assert !Adjacent(page, list, i - 1); }
    }
  }

  /** One frame further: skip it, open a run at it, or extend the open run. */
  lemma RunStep(page: nat, list: seq<nat>, i: nat, frames: nat, align: nat,
                p: Option<nat>, b: Option<nat>, e: Option<nat>, n: nat,
                p': Option<nat>, b': Option<nat>, e': Option<nat>, n': nat)
    requires i < |list| && align > 0 && RunState(page, list, i, frames, align, p, b, e, n)
    requires b.Some? ==> i > 0 && list[i] == list[i - 1] + page
    requires
      if b.Some? then p' == p && b' == b && e' == Some(list[i]) && n' == n + 1
      else if list[i] % align == 0
      then p' == (if i > 0 then Some(list[i - 1]) else None) && b' == Some(list[i]) && e' == b' && n' == 1
      else p' == p && b' == b && e' == e && n' == n
    ensures n' < frames ==> RunState(page, list, i + 1, frames, align, p', b', e', n')
    ensures n' == frames ==> frames <= i + 1 && b' == Some(list[i + 1 - frames]) && e'.Some?
    ensures n' == frames ==> RunFound(page, list, i + 1 - frames, frames, align, p', e'.value)
    ensures n' <= frames
  {
    if b.Some? { assert Adjacent(page, list, i - 1); }
    if b.None? { assert !Suitable(page, list, i, frames, align) || list[i] % align == 0; }
  }

  lemma IncreasingIndex(list: seq<nat>, s: nat)
    requires Increasing(list) && s < |list|
    ensures IndexOf(list, list[s]) == s
  {
    IncreasingDistinct(list, IndexOf(list, list[s]), s);
  }

  lemma NoRuns(page: nat, list: seq<nat>, frames: nat, align: nat)
    requires FreeList(page, list) && frames > 0 && align > 0 && NoneBefore(page, list, |list|, frames, align)
    ensures forall start: nat :: !AlignedRun(page, list, start, frames, align)
  {
    forall start: nat ensures !AlignedRun(page, list, start, frames, align) {
      NoRunAt(page, list, |list|, frames, align, start);
    }
  }

  lemma RunIsLowest(page: nat, list: seq<nat>, s: nat, frames: nat, align: nat)
    requires FreeList(page, list) && frames > 0 && align > 0
    requires Suitable(page, list, s, frames, align) && NoneBefore(page, list, s, frames, align)
    ensures AlignedRun(page, list, list[s], frames, align)
    ensures forall start: nat :: start < list[s] ==> !AlignedRun(page, list, start, frames, align)
  {
    RunInList(page, list, s, frames);
    forall start: nat | start < list[s] ensures !AlignedRun(page, list, start, frames, align) {
      NoRunAt(page, list, s, frames, align, start);
    }
  }

  lemma NoRunAt(page: nat, list: seq<nat>, s: nat, frames: nat, align: nat, start: nat)
    requires FreeList(page, list) && frames > 0 && align > 0 && s <= |list| && NoneBefore(page, list, s, frames, align)
    requires s < |list| ==> start < list[s]
    ensures !AlignedRun(page, list, start, frames, align)
  {
    if start in list {
      var k := IndexOf(list, start);
      RunInList(page, list, k, frames);
      assert k < s && !Suitable(page, list, k, frames, align);
    }
  }

  lemma SplitFree(page: nat, list: seq<nat>, s: nat, n: nat)
    requires FreeList(page, list) && s + n <= |list|
    ensures FreeList(page, list[..s] + list[s + n..])
  {
  }

  lemma FrameBelowEnd(page: nat, list: seq<nat>)
    requires FreeList(page, list)
    ensures forall k: nat :: k < |list| ==> list[k] < LIST_END
  {
  }

  ghost function IndexOf(list: seq<nat>, f: nat): (i: nat)
    requires f in list
    ensures i < |list| && list[i] == f
  {
    var i :| 0 <= i < |list| && list[i] == f;
    i
  }

  lemma SplitMembers(list: seq<nat>, s: nat, n: nat)
    requires Increasing(list) && s + n <= |list|
    ensures var rest := list[..s] + list[s + n..];
      && Members(list) == Members(list[s..s + n]) + Members(rest)
      && Members(list[s..s + n]) !! Members(rest) && Increasing(rest)
  {
    assert list == list[..s] + list[s..s + n] + list[s + n..];
  }

  /** Moving a run of the list to the frames in use. */
  lemma TakeRun(page: nat, list: seq<nat>, live: set<nat>, usable: set<nat>, s: nat, n: nat)
    requires FreeList(page, list) && n > 0 && Consecutive(page, list, s, n)
    requires live !! Members(list) && live + Members(list) == usable
    ensures page > 0 && s + n <= |list| && list[s + n - 1] + page <= LIST_END
    ensures
      var run, rest := Run(page, list[s], list[s + n - 1] + page), list[..s] + list[s + n..];
      && |run| == n && FreeList(page, rest) && |rest| == |list| - n
      && live + Members(run) !! Members(rest) && live + Members(run) + Members(rest) == usable
      && Members(rest) == Members(list) - Members(run)
  {
    hide Members, Run;
    RunAt(page, list, s, n);
    SplitMembers(list, s, n);
    SplitFree(page, list, s, n);
  }

  lemma {:induction false} RunAt(page: nat, list: seq<nat>, s: nat, n: nat)
    requires FreeList(page, list) && n > 0 && Consecutive(page, list, s, n)
    ensures Run(page, list[s], list[s + n - 1] + page) == list[s..s + n]
    decreases n
  {
    if n == 1 {
      assert Run(page, list[s] + page, list[s] + page) == [];
    } else {
      assert list[s] < list[s + n - 1];
      assert Adjacent(page, list, s);
      RunAt(page, list, s + 1, n - 1);
      assert list[s..s + n] == [list[s]] + list[s + 1..s + n];
    }
  }

  lemma Spliced(head: Option<nat>, memory: map<nat, nat>, head': Option<nat>, memory': map<nat, nat>,
                page: nat, list: seq<nat>, s: nat, n: nat)
    requires FreeList(page, list) && Linked(head, memory, list) && n > 0 && s + n <= |list|
    requires
      var next := if s + n < |list| then list[s + n] else LIST_END;
      if s > 0 then head' == head && memory' == memory[list[s - 1] := next]
      else memory' == memory && head' == (if n < |list| then Some(next) else None)
    ensures Linked(head', memory', list[..s] + list[s + n..])
  {
    var rest := list[..s] + list[s + n..];
    forall k: nat | k < |rest| ensures LinkAt(memory', rest, k) {
      var j := if k < s then k else k + n;
      assert rest[k] == list[j] && LinkAt(memory, list, j);
    }
  }

  // ----- insertion -----

  /** The number of list members below an address. */
  ghost function PlaceOf(list: seq<nat>, f: nat): (i: nat)
    ensures i <= |list|
  {
    if list == [] || f <= list[0] then 0 else 1 + PlaceOf(list[1..], f)
  }

  lemma {:induction false} PlaceIs(list: seq<nat>, f: nat, i: nat)
    requires Increasing(list) && i <= |list| && (i > 0 ==> list[i - 1] < f) && (i < |list| ==> f <= list[i])
    ensures PlaceOf(list, f) == i
    decreases |list|
  {
    if i > 0 {
      assert list[0] <= list[i - 1];
      PlaceIs(list[1..], f, i - 1);
    }
  }

  lemma {:induction false} PlaceSplits(list: seq<nat>, f: nat)
    requires Increasing(list)
    ensures var i := PlaceOf(list, f);
      (forall k :: 0 <= k < i ==> list[k] < f) && (forall k :: i <= k < |list| ==> f <= list[k])
    decreases |list|
  {
    if list != [] && list[0] < f { PlaceSplits(list[1..], f); }
  }

  lemma RunCount(page: nat, start: nat, end: nat)
    requires page > 0 && start < end && start % page == 0 && end % page == 0
    ensures |Run(page, start, end)| == (end - start) / page
  {
    RunLength(page, start, end);
    var a, b := start / page, end / page;
    MulMono(a, b, page);
    if b < a { MulMono(b + 1, a, page); }
    DivMod(end - start, page, b - a, 0);
  }

  /** Insert increasing frames where they belong. */
  lemma InsertSorted(page: nat, list: seq<nat>, i: nat, run: seq<nat>)
    requires FreeList(page, list) && FreeList(page, run) && i <= |list|
    requires forall k, m :: 0 <= k < i && 0 <= m < |run| ==> list[k] < run[m]
    requires forall k, m :: i <= k < |list| && 0 <= m < |run| ==> run[m] < list[k]
    ensures FreeList(page, list[..i] + run + list[i..])
    ensures Members(list[..i] + run + list[i..]) == Members(list) + Members(run)
  {
    assert list == list[..i] + list[i..];
  }

  lemma RunFits(page: nat, list: seq<nat>, i: nat, start: nat, end: nat)
    requires FreeList(page, list) && start < end && start % page == 0 && end % page == 0 && end <= LIST_END
    requires i == PlaceOf(list, start) && Members(Run(page, start, end)) !! Members(list)
    ensures (i > 0 ==> list[i - 1] < start) && (i < |list| ==> end <= list[i])
    ensures var run := Run(page, start, end);
      && FreeList(page, run) && FreeList(page, list[..i] + run + list[i..])
      && Members(list[..i] + run + list[i..]) == Members(list) + Members(run)
      && run != [] && run[0] == start
  {
    var run := Run(page, start, end);
    PlaceSplits(list, start);
    RunMembers(page, start, end);
    RunShape(page, start, end);
    forall k | i <= k < |list| ensures end <= list[k] { assert list[k] in Members(list) && list[k] !in Members(run); }
    assert forall m :: 0 <= m < |run| ==> run[m] in run;
    InsertSorted(page, list, i, run);
  }

  /** The frames of a run link to each other and then to tail. */
  ghost predicate RunLinked(memory: map<nat, nat>, run: seq<nat>, tail: nat) {
    forall k: nat :: k < |run| ==> RunLinkAt(memory, run, tail, k)
  }

  predicate RunLinkAt(memory: map<nat, nat>, run: seq<nat>, tail: nat, k: nat)
    requires k < |run|
  {
    run[k] in memory && memory[run[k]] == if k + 1 < |run| then run[k + 1] else tail
  }

  lemma LinkFront(memory: map<nat, nat>, run: seq<nat>, tail: nat, frame: nat)
    requires RunLinked(memory, run, tail) && frame !in run
    ensures RunLinked(memory[frame := if run == [] then tail else run[0]], [frame] + run, tail)
  {
    var memory' := memory[frame := if run == [] then tail else run[0]];
    forall k: nat | k < |run| + 1 ensures RunLinkAt(memory', [frame] + run, tail, k) {
      if k > 0 { assert RunLinkAt(memory, run, tail, k - 1) && run[k - 1] in run; }
    }
  }

  /** A linked run spliced in between its neighbours. */
  lemma Inserted(head: Option<nat>, memory: map<nat, nat>, linked: map<nat, nat>,
                 head': Option<nat>, memory': map<nat, nat>,
                 page: nat, list: seq<nat>, i: nat, run: seq<nat>, tail: nat)
    requires FreeList(page, list) && Linked(head, memory, list) && i <= |list| && run != []
    requires Members(run) !! Members(list) && tail == (if i < |list| then list[i] else LIST_END)
    requires RunLinked(linked, run, tail)
    requires forall f :: f in list && f in memory ==> f in linked && linked[f] == memory[f]
    requires
      if i > 0 then head' == head && memory' == linked[list[i - 1] := run[0]]
      else head' == Some(run[0]) && memory' == linked
    ensures Linked(head', memory', list[..i] + run + list[i..])
  {
    var all := list[..i] + run + list[i..];
    assert forall k :: 0 <= k < |list| ==> list[k] in Members(list);
    assert forall k :: 0 <= k < |run| ==> run[k] in Members(run);
    forall k: nat | k < |all| ensures LinkAt(memory', all, k) {
      if k < i {
        assert all[k] == list[k] && LinkAt(memory, list, k);
      } else if k < i + |run| {
        assert all[k] == run[k - i] && RunLinkAt(linked, run, tail, k - i);
      } else {
        assert all[k] == list[k - |run|] && LinkAt(memory, list, k - |run|);
      }
    }
  }

  lemma InsertFits(page: nat, list: seq<nat>, i: nat, frame: nat)
    requires FreeList(page, list) && IsFrame(page, frame) && frame !in list && i == PlaceOf(list, frame)
    ensures FreeList(page, list[..i] + [frame] + list[i..])
    ensures (i > 0 ==> list[i - 1] < frame) && (i < |list| ==> frame < list[i])
    ensures i == 0 <==> list == [] || frame < list[0]
  {
    PlaceSplits(list, frame);
    assert forall k :: 0 <= k < |list| ==> list[k] in list;
    InsertSorted(page, list, i, [frame]);
  }

  lemma InsertedOne(head: Option<nat>, memory: map<nat, nat>, head': Option<nat>, memory': map<nat, nat>,
                    page: nat, list: seq<nat>, i: nat, frame: nat)
    requires FreeList(page, list) && Linked(head, memory, list) && i <= |list| && frame !in list
    requires
      var tail := if i < |list| then list[i] else LIST_END;
      if i > 0 then head' == head && memory' == memory[frame := tail][list[i - 1] := frame]
      else head' == Some(frame) && memory' == memory[frame := tail]
    ensures Linked(head', memory', list[..i] + [frame] + list[i..])
  {
    var tail := if i < |list| then list[i] else LIST_END;
    var linked := memory[frame := tail];
    assert RunLinkAt(linked, [frame], tail, 0);
    Inserted(head, memory, linked, head', memory', page, list, i, [frame], tail);
  }

  // ----- initial ranges -----

  function AllFrames(page: nat, ranges: seq<Range>): seq<nat>
    requires page > 0
  {
    if ranges == [] then [] else Run(page, ranges[0].start, ranges[0].end) + AllFrames(page, ranges[1..])
  }

  lemma {:induction false} AllFramesMembers(page: nat, ranges: seq<Range>)
    requires page > 0 && RangesOk(page, ranges)
    ensures forall f: nat :: f in AllFrames(page, ranges) <==> f % page == 0 && Covered(ranges, f)
    decreases |ranges|
  {
    if ranges != [] {
      var rest := ranges[1..];
      RunMembers(page, ranges[0].start, ranges[0].end);
      AllFramesMembers(page, rest);
      forall f: nat ensures Covered(ranges, f) <==> ranges[0].start <= f < ranges[0].end || Covered(rest, f) {
        if i :| 0 < i < |ranges| && ranges[i].start <= f < ranges[i].end { assert rest[i - 1] == ranges[i]; }
        if i :| 0 <= i < |rest| && rest[i].start <= f < rest[i].end { assert rest[i] == ranges[i + 1]; }
      }
    }
  }

  lemma AllAbove(page: nat, ranges: seq<Range>, r: nat)
    requires page > 0 && r < |ranges| && RangesOk(page, ranges)
    ensures var above := AllFrames(page, ranges[r + 1..]); forall f :: f in above ==> ranges[r].end <= f
    ensures AllFrames(page, ranges[r..]) == Run(page, ranges[r].start, ranges[r].end) + AllFrames(page, ranges[r + 1..])
  {
    AllFramesMembers(page, ranges[r + 1..]);
    assert ranges[r..][1..] == ranges[r + 1..];
  }

  lemma HeadIs(head: Option<nat>, memory: map<nat, nat>, list: seq<nat>)
    requires Linked(head, memory, list)
    ensures head == if list == [] then None else Some(list[0])
  {
  }

  lemma EmptyList(page: nat, memory: map<nat, nat>)
    requires page > 0
    ensures FreeList(page, []) && Linked(None, memory, [])
  {
  }

  /** A frame just below a run belongs at the front. */
  lemma FrontFits(page: nat, frame: nat, end: nat, above: seq<nat>)
    requires page > 0 && page <= frame <= end <= LIST_END && frame % page == 0 && end % page == 0
    requires forall f :: f in above ==> end <= f
    ensures IsFrame(page, frame - page) && frame - page !in Run(page, frame, end) + above
    ensures PlaceOf(Run(page, frame, end) + above, frame - page) == 0
    ensures Run(page, frame - page, end) == [frame - page] + Run(page, frame, end)
  {
    StepDown(page, frame);
    RunMembers(page, frame, end);
    var all := Run(page, frame, end) + above;
    assert all != [] ==> all[0] in all;
  }
}
