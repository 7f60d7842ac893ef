/**
  From boot memory ranges to usable pages (kernel/src/memory/map.rs:48-118, 150-209).

  A page is usable when it lies wholly inside one RAM range and touches no reserved byte.
 */
module BootMap {
  import opened Base
  import opened FrameList

  const PAGE: nat := 4096

  ghost predicate SortedByStart(rs: seq<Range>) {
    forall i, j :: 0 <= i < j < |rs| ==> rs[i].start <= rs[j].start
  }

  /** No reserved byte in [lo, hi). */
  ghost predicate Free(reserved: seq<Range>, lo: nat, hi: nat) {
    forall b: nat :: lo <= b < hi ==> !Covered(reserved, b)
  }

  ghost predicate GoodIn(reserved: seq<Range>, lo: nat, hi: nat, p: nat) {
    lo <= p && p + PAGE <= hi && Free(reserved, p, p + PAGE)
  }

  /** Usable because of one of the first i RAM ranges. */
  ghost predicate Good(ram: seq<Range>, reserved: seq<Range>, i: nat, p: nat)
    requires i <= |ram|
  {
    exists j :: 0 <= j < i && GoodIn(reserved, ram[j].start, ram[j].end, p)
  }

  // ----- the list of usable page ranges -----

  /** Sorted, separated, nonempty, page aligned ranges. */
  ghost predicate UsableOk(u: seq<Range>) {
    && (forall i :: 0 <= i < |u| ==>
          u[i].start % PAGE == 0 && u[i].end % PAGE == 0 && u[i].start < u[i].end <= U64_MAX)
    && (forall i, j :: 0 <= i < j < |u| ==> u[i].end < u[j].start)
  }

  function AlignUp(x: nat): Option<nat> {
    if x + (PAGE - 1) > U64_MAX then None else Some((x + (PAGE - 1)) / PAGE * PAGE)
  }

  function AlignDown(x: nat): nat {
    x / PAGE * PAGE
  }

  /** Add the whole pages of a byte range; the last range grows when it reaches them. */
  function PushUsable(u: seq<Range>, start: nat, end: nat): seq<Range>
    requires start + (PAGE - 1) <= U64_MAX
  {
    var s, e := AlignUp(start).value, AlignDown(end);
    if s >= e then u
    else if u != [] && u[|u| - 1].end >= s then
      u[|u| - 1 := Range(u[|u| - 1].start, if e > u[|u| - 1].end then e else u[|u| - 1].end)]
    else u + [Range(s, e)]
  }

  lemma WholePages(start: nat, end: nat, p: nat)
    requires start + (PAGE - 1) <= U64_MAX && p % PAGE == 0
    ensures AlignUp(start).value <= p < AlignDown(end) <==> start <= p && p + PAGE <= end
  {
  }

  lemma CoveredAppend(u: seq<Range>, r: Range, p: nat)
    ensures Covered(u + [r], p) <==> Covered(u, p) || r.start <= p < r.end
  {
    var v := u + [r];
    if i :| 0 <= i < |v| && v[i].start <= p < v[i].end { assert i < |u| ==> u[i] == v[i]; }
    if i :| 0 <= i < |u| && u[i].start <= p < u[i].end { assert v[i] == u[i]; }
    assert v[|u|] == r;
  }

  lemma CoveredGrow(u: seq<Range>, e: nat, p: nat)
    requires u != [] && e >= u[|u| - 1].end
    ensures Covered(u[|u| - 1 := Range(u[|u| - 1].start, e)], p) <==>
            Covered(u, p) || u[|u| - 1].start <= p < e
  {
    var n := |u| - 1;
    var v := u[n := Range(u[n].start, e)];
    if i :| 0 <= i < |v| && v[i].start <= p < v[i].end { assert i < n ==> u[i] == v[i]; }
    if i :| 0 <= i < |u| && u[i].start <= p < u[i].end { assert v[i].start <= p < v[i].end; }
    assert v[n] == Range(u[n].start, e);
  }

  /** Exactly the pages of the byte range are added, provided that those below the end of the
      list are in it already. */
  lemma PushExact(u: seq<Range>, start: nat, end: nat, p: nat)
    requires UsableOk(u) && start + (PAGE - 1) <= U64_MAX && p % PAGE == 0
    requires u != [] && start <= p && p + PAGE <= end && p < u[|u| - 1].end ==> Covered(u, p)
    ensures Covered(PushUsable(u, start, end), p) <==> Covered(u, p) || (start <= p && p + PAGE <= end)
  {
    WholePages(start, end, p);
    var s, e := AlignUp(start).value, AlignDown(end);
    if s < e {
      if u != [] && u[|u| - 1].end >= s {
        var last := u[|u| - 1];
        CoveredGrow(u, if e > last.end then e else last.end, p);
        assert last.start <= p < last.end ==> Covered(u, p);
      } else {
        CoveredAppend(u, Range(s, e), p);
      }
    }
  }

  lemma PushOk(u: seq<Range>, start: nat, end: nat)
    requires UsableOk(u) && start + (PAGE - 1) <= U64_MAX && end <= U64_MAX
    ensures UsableOk(PushUsable(u, start, end))
  {
    hide AlignUp, AlignDown;
    AlignedEnds(start, end);
    var s, e := AlignUp(start).value, AlignDown(end);
    if s < e && u != [] && u[|u| - 1].end >= s {
      var n := |u| - 1;
      var last := Range(u[n].start, if e > u[n].end then e else u[n].end);
      assert last.end % PAGE == 0 && last.start < last.end <= U64_MAX;
      assert forall i :: 0 <= i < n ==> u[i].end < last.start;
    }
  }

  lemma AlignedEnds(start: nat, end: nat)
    requires start + (PAGE - 1) <= U64_MAX
    ensures AlignUp(start).Some? && AlignUp(start).value % PAGE == 0
    ensures AlignDown(end) % PAGE == 0 && AlignDown(end) <= end
  {
  }

  // ----- scanning one RAM range -----

  /** The list holds the pages of the RAM ranges before i and those of range i below `limit`. */
  ghost predicate Exact(u: seq<Range>, ram: seq<Range>, reserved: seq<Range>, i: nat, limit: nat)
    requires i < |ram|
  {
    forall p: nat :: p % PAGE == 0 ==>
      (Covered(u, p) <==> Good(ram, reserved, i, p) || GoodIn(reserved, ram[i].start, limit, p))
  }

  /** The end of the list was reached by an earlier RAM range or lies below the cursor. */
  ghost predicate EndBound(u: seq<Range>, ram: seq<Range>, i: nat, cursor: nat)
    requires i < |ram|
  {
    u != [] ==>
      || (u[|u| - 1].end <= cursor && u[|u| - 1].end <= ram[i].end)
      || exists j :: 0 <= j < i && ram[j].end >= u[|u| - 1].end
  }

  /** State of the scan of RAM range i after k reserved ranges. */
  ghost predicate Scan(u: seq<Range>, ram: seq<Range>, reserved: seq<Range>, i: nat, k: nat, cursor: nat)
    requires i < |ram| && k <= |reserved|
  {
    && UsableOk(u) && Exact(u, ram, reserved, i, cursor) && EndBound(u, ram, i, cursor)
    && ram[i].start <= cursor && (cursor > ram[i].start ==> cursor <= ram[i].end && Covered(reserved, cursor - 1))
    && (forall q :: 0 <= q < k && reserved[q].start < reserved[q].end ==>
          reserved[q].end <= cursor || reserved[q].end <= ram[i].start || cursor >= ram[i].end)
  }

  /** Bytes between the cursor and the next reserved range are free. */
  lemma GapFree(reserved: seq<Range>, k: nat, lo: nat, cursor: nat, hi: nat)
    requires SortedByStart(reserved) && k <= |reserved| && lo <= cursor && cursor < hi
    requires forall q :: 0 <= q < k && reserved[q].start < reserved[q].end ==>
      reserved[q].end <= cursor || reserved[q].end <= lo
    requires k < |reserved| ==> hi <= reserved[k].start
    ensures Free(reserved, cursor, hi)
  {
    assert forall q :: k <= q < |reserved| ==> reserved[k].start <= reserved[q].start;
  }

  /** Pushing the gap up to the next reserved range completes the pages below it. */
  lemma GapPush(u: seq<Range>, ram: seq<Range>, reserved: seq<Range>, i: nat, k: nat, cursor: nat, hi: nat)
    requires i < |ram| && k <= |reserved| && SortedByStart(ram) && SortedByStart(reserved)
    requires Scan(u, ram, reserved, i, k, cursor) && cursor < hi <= ram[i].end <= U64_MAX
    requires k < |reserved| ==> hi <= reserved[k].start
    requires cursor + (PAGE - 1) <= U64_MAX
    ensures var u' := PushUsable(u, cursor, hi);
      UsableOk(u') && Exact(u', ram, reserved, i, hi) && EndBound(u', ram, i, hi)
  {
    var u' := PushUsable(u, cursor, hi);
    GapFree(reserved, k, ram[i].start, cursor, hi);
    PushOk(u, cursor, hi);
    forall p: nat | p % PAGE == 0
      ensures Covered(u', p) <==> Good(ram, reserved, i, p) || GoodIn(reserved, ram[i].start, hi, p)
    {
      GapPage(u, ram, reserved, i, k, cursor, hi, p);
    }
    assert EndBound(u', ram, i, hi);
  }

  lemma WholeBelow(u: seq<Range>, p: nat)
    requires UsableOk(u) && p % PAGE == 0 && u != [] && p < u[|u| - 1].end
    ensures p + PAGE <= u[|u| - 1].end
  {
  }

  lemma ExactAt(u: seq<Range>, ram: seq<Range>, reserved: seq<Range>, i: nat, limit: nat, p: nat)
    requires i < |ram| && Exact(u, ram, reserved, i, limit) && p % PAGE == 0
    ensures Covered(u, p) <==> Good(ram, reserved, i, p) || GoodIn(reserved, ram[i].start, limit, p)
  {
  }

  lemma GapPage(u: seq<Range>, ram: seq<Range>, reserved: seq<Range>, i: nat, k: nat, cursor: nat, hi: nat, p: nat)
    requires i < |ram| && k <= |reserved| && SortedByStart(ram) && Free(reserved, cursor, hi) && p % PAGE == 0
    requires Scan(u, ram, reserved, i, k, cursor) && cursor < hi <= ram[i].end && cursor + (PAGE - 1) <= U64_MAX
    ensures Covered(PushUsable(u, cursor, hi), p) <==>
      Good(ram, reserved, i, p) || GoodIn(reserved, ram[i].start, hi, p)
  {
    hide PushUsable, UsableOk, Exact;
    ExactAt(u, ram, reserved, i, cursor, p);
    if u != [] && cursor <= p && p + PAGE <= hi && p < u[|u| - 1].end {
      var j :| 0 <= j < i && ram[j].end >= u[|u| - 1].end;
      assert ram[j].start <= ram[i].start;
      WholeBelow(u, p);
      assert GoodIn(reserved, ram[j].start, ram[j].end, p);
    }
    PushExact(u, cursor, hi, p);
    if p < cursor < p + PAGE && ram[i].start <= p { assert !Free(reserved, p, p + PAGE); }
  }

  /** Pages that end inside a reserved range are not usable, so the limit can move to its end. */
  lemma LimitUp(u: seq<Range>, ram: seq<Range>, reserved: seq<Range>, i: nat, k: nat, lim: nat, cursor: nat)
    requires i < |ram| && k < |reserved| && Exact(u, ram, reserved, i, lim) && lim <= cursor
    requires lim < cursor ==> reserved[k].start <= lim && cursor <= reserved[k].end
    ensures Exact(u, ram, reserved, i, cursor)
  {
    forall p: nat | p % PAGE == 0
      ensures Covered(u, p) <==> Good(ram, reserved, i, p) || GoodIn(reserved, ram[i].start, cursor, p)
    {
      if lim < p + PAGE <= cursor {
        var b := if p < lim then lim else p;
        assert reserved[k].start <= b < reserved[k].end;
        assert Covered(reserved, b);
      }
    }
  }

  /** One more reserved range is seen; it overlaps the RAM range in [lo, hi). */
  lemma ScanStep(u: seq<Range>, ram: seq<Range>, reserved: seq<Range>, i: nat, k: nat, cursor: nat, lo: nat, hi: nat)
    requires i < |ram| && k < |reserved| && SortedByStart(ram) && SortedByStart(reserved)
    requires Scan(u, ram, reserved, i, k, cursor) && ram[i].end <= U64_MAX
    requires lo == (if reserved[k].start > ram[i].start then reserved[k].start else ram[i].start) && lo < hi
    requires hi == (if reserved[k].end < ram[i].end then reserved[k].end else ram[i].end)
    requires cursor < lo ==> cursor + (PAGE - 1) <= U64_MAX
    ensures
      var u' := if cursor < lo then PushUsable(u, cursor, lo) else u;
      Scan(u', ram, reserved, i, k + 1, if cursor < hi then hi else cursor)
  {
    var u' := if cursor < lo then PushUsable(u, cursor, lo) else u;
    var cursor' := if cursor < hi then hi else cursor;
    if cursor < lo { GapPush(u, ram, reserved, i, k, cursor, lo); }
    LimitUp(u', ram, reserved, i, k, if cursor < lo then lo else cursor, cursor');
    if cursor < hi { assert reserved[k].start <= cursor' - 1 < reserved[k].end; }
  }

  lemma ScanSkip(u: seq<Range>, ram: seq<Range>, reserved: seq<Range>, i: nat, k: nat, cursor: nat)
    requires i < |ram| && k < |reserved| && Scan(u, ram, reserved, i, k, cursor)
    requires reserved[k].end <= ram[i].start || reserved[k].start >= reserved[k].end || ram[i].start >= ram[i].end
    ensures Scan(u, ram, reserved, i, k + 1, cursor)
  {
  }

  /** At the end of the scan all pages of the RAM range are in the list. */
  lemma ScanEnd(u: seq<Range>, ram: seq<Range>, reserved: seq<Range>, i: nat, k: nat, cursor: nat)
    requires i < |ram| && k <= |reserved| && SortedByStart(ram) && SortedByStart(reserved)
    requires Scan(u, ram, reserved, i, k, cursor) && ram[i].end <= U64_MAX
    requires k < |reserved| ==> ram[i].end <= reserved[k].start
    requires cursor < ram[i].end ==> cursor + (PAGE - 1) <= U64_MAX
    ensures MapDone(if cursor < ram[i].end then PushUsable(u, cursor, ram[i].end) else u, ram, reserved, i + 1)
  {
    hide PushUsable, UsableOk, Free, Covered, Good, GoodIn, Exact, SortedByStart;
    var u' := if cursor < ram[i].end then PushUsable(u, cursor, ram[i].end) else u;
    if cursor < ram[i].end { GapPush(u, ram, reserved, i, k, cursor, ram[i].end); }
    var limit := if cursor < ram[i].end then ram[i].end else cursor;
    forall p: nat | p % PAGE == 0 ensures Covered(u', p) <==> Good(ram, reserved, i + 1, p) {
      ExactAt(u', ram, reserved, i, limit, p);
      GoodNext(ram, reserved, i, limit, p);
    }
    assert u' != [] && u'[|u'| - 1].end <= ram[i].end ==> exists j :: 0 <= j < i + 1 && ram[j].end >= u'[|u'| - 1].end;
  }

  /** The pages of one more RAM range; an empty range has none below any limit at its start. */
  lemma GoodNext(ram: seq<Range>, reserved: seq<Range>, i: nat, limit: nat, p: nat)
    requires i < |ram| && (limit == ram[i].end || (ram[i].end <= limit == ram[i].start))
    ensures Good(ram, reserved, i + 1, p) <==>
      Good(ram, reserved, i, p) || GoodIn(reserved, ram[i].start, limit, p)
  {
    hide Free;
    assert GoodIn(reserved, ram[i].start, limit, p) <==> GoodIn(reserved, ram[i].start, ram[i].end, p);
  }

  /** The list holds exactly the usable pages of the first i RAM ranges. */
  ghost predicate MapDone(u: seq<Range>, ram: seq<Range>, reserved: seq<Range>, i: nat)
    requires i <= |ram|
  {
    && UsableOk(u)
    && (forall p: nat :: p % PAGE == 0 ==> (Covered(u, p) <==> Good(ram, reserved, i, p)))
    && (u != [] ==> exists j :: 0 <= j < i && ram[j].end >= u[|u| - 1].end)
  }

  lemma ScanStart(u: seq<Range>, ram: seq<Range>, reserved: seq<Range>, i: nat)
    requires i < |ram| && MapDone(u, ram, reserved, i)
    ensures Scan(u, ram, reserved, i, 0, ram[i].start)
  {
    assert forall p: nat :: !GoodIn(reserved, ram[i].start, ram[i].start, p);
  }

  // ----- the boot code -----

  datatype RegionKind = UsableRegion | ReservedRegion
  datatype Region = Region(range: Range, kind: RegionKind)
  datatype MapError = TooManyRanges | AddressOutOfRange | NoUsableRam
  datatype Outcome = Done | Failed(error: MapError)

  function Clip(r: Range, outer: Range): Option<Range> {
    var start := if r.start > outer.start then r.start else outer.start;
    var end := if r.end < outer.end then r.end else outer.end;
    if start >= end then None else Some(Range(start, end))
  }

  predicate InMemory(rs: seq<Range>) {
    forall i :: 0 <= i < |rs| ==> rs[i].start <= U64_MAX && rs[i].end <= U64_MAX
  }

  /** Insertion sort by start, in place, on the first len entries. */
  method SortRanges(ranges: array<Range>, len: nat)
    requires len <= ranges.Length
    modifies ranges
    ensures SortedByStart(ranges[..len]) && multiset(ranges[..len]) == multiset(old(ranges[..len]))
    ensures ranges[len..] == old(ranges[len..])
  {
    var i := 1;
    while i < len
      invariant 1 <= i && (i <= len || len == 0)
      invariant i <= len ==> SortedByStart(ranges[..i])
      invariant multiset(ranges[..len]) == multiset(old(ranges[..len])) && ranges[len..] == old(ranges[len..])
    {
      SinkInto(ranges, len, i);
      i := i + 1;
    }
  }

  /** Move entry i down to its place in the sorted prefix. */
  method SinkInto(ranges: array<Range>, len: nat, i: nat)
    requires 0 < i < len <= ranges.Length && SortedByStart(ranges[..i])
    modifies ranges
    ensures SortedByStart(ranges[..i + 1]) && multiset(ranges[..len]) == multiset(old(ranges[..len]))
    ensures ranges[len..] == old(ranges[len..])
  {
    hide Sinking, SortedByStart;
    assert ranges[..len][..i] == ranges[..i];
    SinkStart(ranges[..len], i);
    var j := i;
    while j > 0 && ranges[j].start < ranges[j - 1].start
      invariant j <= i && Sinking(ranges[..len], i, j)
      invariant multiset(ranges[..len]) == multiset(old(ranges[..len])) && ranges[len..] == old(ranges[len..])
    {
      SwapDown(ranges, len, i, j);
      j := j - 1;
    }
    SinkEnd(ranges[..len], i, j);
    assert ranges[..i + 1] == ranges[..len][..i + 1];
  }

  method SwapDown(ranges: array<Range>, len: nat, ghost i: nat, j: nat)
    requires 0 < j < len <= ranges.Length && Sinking(ranges[..len], i, j) && ranges[j].start < ranges[j - 1].start
    modifies ranges
    ensures Sinking(ranges[..len], i, j - 1)
    ensures multiset(ranges[..len]) == multiset(old(ranges[..len])) && ranges[len..] == old(ranges[len..])
  {
    hide Sinking;
    ghost var before := ranges[..len];
    var current := ranges[j];
    ranges[j] := ranges[j - 1];
    ranges[j - 1] := current;
    SinkSwap(before, ranges[..len], i, j);
  }

  /** The first i + 1 entries are sorted, except that entry j may still be too high. */
  ghost predicate Sinking(t: seq<Range>, i: nat, j: nat) {
    && j <= i < |t|
    && (forall m, n :: 0 <= m < n <= i && m != j && n != j ==> t[m].start <= t[n].start)
    && (forall n :: j < n <= i ==> t[j].start <= t[n].start)
  }

  lemma SinkStart(t: seq<Range>, i: nat)
    requires i < |t| && SortedByStart(t[..i])
    ensures Sinking(t, i, i)
  {
    assert forall m :: 0 <= m < i ==> t[..i][m] == t[m];
  }

  lemma SinkSwap(t: seq<Range>, t': seq<Range>, i: nat, j: nat)
    requires Sinking(t, i, j) && 0 < j && t[j].start < t[j - 1].start
    requires |t| == |t'| && t'[j] == t[j - 1] && t'[j - 1] == t[j]
    requires forall k :: 0 <= k < |t| && k != j && k != j - 1 ==> t'[k] == t[k]
    ensures Sinking(t', i, j - 1) && multiset(t') == multiset(t)
  {
    assert t == t[..j - 1] + [t[j - 1], t[j]] + t[j + 1..];
    assert t' == t[..j - 1] + [t[j], t[j - 1]] + t[j + 1..];
  }

  lemma SinkEnd(t: seq<Range>, i: nat, j: nat)
    requires Sinking(t, i, j) && (j == 0 || t[j - 1].start <= t[j].start)
    ensures SortedByStart(t[..i + 1])
  {
    var s := t[..i + 1];
    forall m, n | 0 <= m < n < |s| ensures s[m].start <= s[n].start {
      if n == j && m < j - 1 { assert t[m].start <= t[j - 1].start; }
    }
  }

  /** Ranges that overlap or touch are joined. */
  function MergeOne(m: seq<Range>, r: Range): seq<Range> {
    if m == [] then [r]
    else
      var last := m[|m| - 1];
      if (last.start < r.end && r.start < last.end) || last.end == r.start
      then m[|m| - 1 := Range(last.start, if r.end > last.end then r.end else last.end)]
      else m + [r]
  }

  function Merged(rs: seq<Range>): seq<Range> {
    if rs == [] then [] else MergeOne(Merged(rs[..|rs| - 1]), rs[|rs| - 1])
  }

  lemma {:induction false} MergedSorted(rs: seq<Range>)
    requires SortedByStart(rs)
    ensures SortedByStart(Merged(rs)) && (InMemory(rs) ==> InMemory(Merged(rs)))
    ensures rs != [] ==> Merged(rs) != [] && Merged(rs)[|Merged(rs)| - 1].start <= rs[|rs| - 1].start
    decreases |rs|
  {
    hide MergeOne;
    if rs != [] {
      var front, r := rs[..|rs| - 1], rs[|rs| - 1];
      MergedSorted(front);
      assert front != [] ==> front[|front| - 1].start <= r.start;
      MergeOneSorted(Merged(front), r);
    }
  }

  lemma MergeOneSorted(m: seq<Range>, r: Range)
    requires SortedByStart(m) && (m != [] ==> m[|m| - 1].start <= r.start)
    ensures SortedByStart(MergeOne(m, r))
    ensures InMemory(m) && r.start <= U64_MAX && r.end <= U64_MAX ==> InMemory(MergeOne(m, r))
    ensures MergeOne(m, r) != [] && MergeOne(m, r)[|MergeOne(m, r)| - 1].start <= r.start
  {
  }

  lemma MergeOneCovers(m: seq<Range>, r: Range, b: nat)
    requires m != [] ==> m[|m| - 1].start <= r.start
    ensures Covered(MergeOne(m, r), b) <==> Covered(m, b) || r.start <= b < r.end
  {
    CoveredAppend(m, r, b);
    if m == [] {
      assert m + [r] == [r];
    } else {
      var last := m[|m| - 1];
      CoveredGrow(m, if r.end > last.end then r.end else last.end, b);
      assert last.start <= b < last.end ==> Covered(m, b);
    }
  }

  /** Merging neither gains nor loses a byte, also when some ranges are empty or inverted. */
  lemma {:induction false} MergedCovers(rs: seq<Range>, b: nat)
    requires SortedByStart(rs)
    ensures Covered(Merged(rs), b) <==> Covered(rs, b)
    decreases |rs|
  {
    hide Covered, MergeOne;
    if rs != [] {
      var front, r := rs[..|rs| - 1], rs[|rs| - 1];
      MergedCovers(front, b);
      MergedSorted(front);
      assert rs == front + [r];
      CoveredAppend(front, r, b);
      MergeOneCovers(Merged(front), r, b);
    }
  }

  /** Nonempty ranges with a gap between any two. */
  predicate Apart(rs: seq<Range>) {
    && (forall i :: 0 <= i < |rs| ==> rs[i].start < rs[i].end)
    && (forall i, j :: 0 <= i < j < |rs| ==> rs[i].end < rs[j].start)
  }

  /** Merging leaves nothing to merge: the result of nonempty ranges has a gap between any two, so with the
      bytes it covers it is the only such list. */
  lemma {:induction false} MergedApart(rs: seq<Range>)
    requires SortedByStart(rs) && forall i :: 0 <= i < |rs| ==> rs[i].start < rs[i].end
    ensures Apart(Merged(rs))
    decreases |rs|
  {
    hide MergeOne, Apart;
    if rs == [] {
      NothingApart();
    } else {
      var front, r := rs[..|rs| - 1], rs[|rs| - 1];
      MergedApart(front);
      MergedSorted(front);
      assert front != [] ==> front[|front| - 1].start <= r.start;
      MergeOneApart(Merged(front), r);
    }
  }

  lemma NothingApart()
    ensures Apart([])
  {
  }

  lemma MergeOneApart(m: seq<Range>, r: Range)
    requires Apart(m) && r.start < r.end && (m != [] ==> m[|m| - 1].start <= r.start)
    ensures Apart(MergeOne(m, r))
  {
  }

  lemma MergedNext(rs: seq<Range>, i: nat)
    requires i < |rs|
    ensures Merged(rs[..i + 1]) == MergeOne(Merged(rs[..i]), rs[i])
  {
    assert rs[..i + 1][..i] == rs[..i];
  }

  /** Merge touching ranges of a sorted prefix in place. */
  method MergeRanges(ranges: array<Range>, len: nat) returns (count: nat)
    requires len <= ranges.Length
    modifies ranges
    ensures count <= len && ranges[..count] == Merged(old(ranges[..len]))
  {
    if len == 0 { return 0; }
    hide Merged, MergeOne;
    var out, idx := 0, 1;
    ghost var input := ranges[..len];
    FirstMerged(input);
    assert ranges[..1] == input[..1];
    while idx < len
      invariant out < idx <= len && (forall k :: idx <= k < len ==> ranges[k] == input[k])
      invariant ranges[..out + 1] == Merged(input[..idx])
    {
      MergedNext(input, idx);
      out := MergeNext(ranges, out, idx);
      idx := idx + 1;
    }
    assert input[..idx] == input;
    count := out + 1;
  }

  lemma FirstMerged(rs: seq<Range>)
    requires rs != []
    ensures Merged(rs[..1]) == rs[..1]
  {
    assert rs[..1][..0] == [];
    assert Merged(rs[..1]) == [rs[0]];
  }

  /** Join entry idx to the output entry before it, or copy it behind that entry. */
  method MergeNext(ranges: array<Range>, out: nat, idx: nat) returns (out': nat)
    requires out < idx < ranges.Length
    modifies ranges
    ensures out <= out' <= out + 1 && ranges[..out' + 1] == MergeOne(old(ranges[..out + 1]), old(ranges[idx]))
    ensures forall k :: idx < k < ranges.Length ==> ranges[k] == old(ranges[k])
  {
    var current, last := ranges[idx], ranges[out];
    if (last.start < current.end && current.start < last.end) || last.end == current.start {
      ranges[out] := Range(last.start, if current.end > last.end then current.end else last.end);
      out' := out;
    } else {
      out' := out + 1;
      ranges[out'] := current;
    }
  }

  // ----- building the map -----

  function PushRegion(regions: seq<Region>, region: Region): seq<Region> {
    if region.range.start >= region.range.end then regions
    else if regions != [] && regions[|regions| - 1].kind == region.kind
            && regions[|regions| - 1].range.end >= region.range.start then
      var prev := regions[|regions| - 1];
      regions[|regions| - 1 := prev.(range := prev.range.(end :=
        if region.range.end > prev.range.end then region.range.end else prev.range.end))]
    else regions + [region]
  }

  /** The two output tables of the boot code, filled up to their counts. */
  class BootTables {
    const regions: array<Region>
    const usable: array<Range>
    var regionCount: nat
    var usableCount: nat

    ghost predicate Valid()
      reads this
    {
      regionCount <= regions.Length && usableCount <= usable.Length
    }

    ghost function Usable(): seq<Range>
      reads this, usable
      requires Valid()
    {
      usable[..usableCount]
    }

    constructor (regionCapacity: nat, usableCapacity: nat)
      ensures Valid() && fresh(regions) && fresh(usable) && Usable() == [] && regionCount == 0
      ensures regions.Length == regionCapacity && usable.Length == usableCapacity
    {
      regions := new Region[regionCapacity](_ => Region(Range(0, 0), ReservedRegion));
      usable := new Range[usableCapacity](_ => Range(0, 0));
      regionCount, usableCount := 0, 0;
    }

    method PushPhysRegion(region: Region) returns (r: Outcome)
      requires Valid()
      modifies this`regionCount, regions
      ensures Valid() && (r.Done? || r.error.TooManyRanges?)
      ensures r.Done? ==> regions[..regionCount] == PushRegion(old(regions[..regionCount]), region)
    {
      if region.range.start >= region.range.end { return Done; }
      if regionCount > 0 {
        var prev := regions[regionCount - 1];
        if prev.kind == region.kind && prev.range.end >= region.range.start {
          var end := if region.range.end > prev.range.end then region.range.end else prev.range.end;
          regions[regionCount - 1] := prev.(range := prev.range.(end := end));
          return Done;
        }
      }
      if regionCount >= regions.Length { return Failed(TooManyRanges); }
      regions[regionCount] := region;
      regionCount := regionCount + 1;
      r := Done;
    }

    method PushUsableFrameRange(start: nat, end: nat) returns (r: Outcome)
      requires Valid()
      modifies this`usableCount, usable
      ensures Valid() && (r.Failed? ==> !r.error.NoUsableRam?)
      ensures r.Done? ==> start + (PAGE - 1) <= U64_MAX && Usable() == PushUsable(old(Usable()), start, end)
      ensures r == Failed(AddressOutOfRange) <==> start + (PAGE - 1) > U64_MAX
    {
      var up := AlignUp(start);
      if up.None? { return Failed(AddressOutOfRange); }
      var s, e := up.value, AlignDown(end);
      if s >= e { return Done; }
      if usableCount > 0 && usable[usableCount - 1].end >= s {
        var prev := usable[usableCount - 1];
        usable[usableCount - 1] := Range(prev.start, if e > prev.end then e else prev.end);
        return Done;
      }
      if usableCount >= usable.Length { return Failed(TooManyRanges); }
      usable[usableCount] := Range(s, e);
      usableCount := usableCount + 1;
      r := Done;
    }

    method PushGap(start: nat, end: nat) returns (r: Outcome)
      requires Valid()
      modifies this, regions, usable
      ensures Valid() && (r.Failed? ==> !r.error.NoUsableRam?)
      ensures r.Done? ==> start + (PAGE - 1) <= U64_MAX && Usable() == PushUsable(old(Usable()), start, end)
    {
      r := PushPhysRegion(Region(Range(start, end), UsableRegion));
      if r.Failed? { return; }
      r := PushUsableFrameRange(start, end);
    }

    method ScanRam(ram: seq<Range>, reserved: seq<Range>, i: nat) returns (r: Outcome)
      requires Valid() && i < |ram| && InMemory(ram)
      requires SortedByStart(ram) && SortedByStart(reserved) && MapDone(Usable(), ram, reserved, i)
      modifies this, regions, usable
      ensures Valid() && (r.Failed? ==> !r.error.NoUsableRam?)
      ensures r.Done? ==> MapDone(Usable(), ram, reserved, i + 1)
    {
      hide Scan, MapDone, PushUsable, SortedByStart;
      var cursor: nat, k: nat := ram[i].start, 0;
      ScanStart(Usable(), ram, reserved, i);
      while k < |reserved|
        invariant Valid() && k <= |reserved| && Scan(Usable(), ram, reserved, i, k, cursor)
      {
        if reserved[k].end <= ram[i].start {
          ScanSkip(Usable(), ram, reserved, i, k, cursor);
          k := k + 1;
          continue;
        }
        if reserved[k].start >= ram[i].end { break; }
        var clipped := Clip(reserved[k], ram[i]);
        ghost var u := Usable();
        if clipped.Some? {
          if cursor < clipped.value.start {
            r := PushGap(cursor, clipped.value.start);
            if r.Failed? { return; }
          }
          r := PushPhysRegion(Region(clipped.value, ReservedRegion));
          if r.Failed? { return; }
          ScanStep(u, ram, reserved, i, k, cursor, clipped.value.start, clipped.value.end);
          cursor := if cursor < clipped.value.end then clipped.value.end else cursor;
        } else {
          ScanSkip(u, ram, reserved, i, k, cursor);
        }
        k := k + 1;
      }
      ghost var u := Usable();
      r := Done;
      if cursor < ram[i].end {
        r := PushGap(cursor, ram[i].end);
        if r.Failed? { return; }
      }
      ScanEnd(u, ram, reserved, i, k, cursor);
    }

    /** On success the table lists exactly the usable pages, as allocator initialisation needs them. */
    method BuildMemoryMap(ram: seq<Range>, reserved: seq<Range>) returns (r: Outcome)
      requires Valid() && InMemory(ram) && SortedByStart(ram) && SortedByStart(reserved)
      requires usableCount == 0
      modifies this, regions, usable
      ensures Valid()
      ensures r.Done? ==> forall p: nat :: p % PAGE == 0 ==> (Covered(Usable(), p) <==> Good(ram, reserved, |ram|, p))
      ensures r.Done? ==> Usable() != [] && RangesOk(PAGE, Usable())
      ensures r == Failed(NoUsableRam) ==> forall p: nat :: p % PAGE == 0 ==> !Good(ram, reserved, |ram|, p)
    {
      EmptyDone(ram, reserved);
      assert Usable() == [];
      var i := 0;
      while i < |ram|
        invariant Valid() && i <= |ram| && MapDone(Usable(), ram, reserved, i)
      {
        r := ScanRam(ram, reserved, i);
        if r.Failed? { return; }
        i := i + 1;
      }
      if usableCount == 0 {
        assert forall p: nat :: !Covered(Usable(), p);
        return Failed(NoUsableRam);
      }
      r := Done;
    }
  }

  /** Usability depends on the RAM ranges as a collection and on which bytes are reserved. */
  lemma GoodSame(ram: seq<Range>, ram': seq<Range>, reserved: seq<Range>, reserved': seq<Range>, p: nat)
    requires multiset(ram) == multiset(ram')
    requires forall b: nat :: Covered(reserved, b) <==> Covered(reserved', b)
    ensures Good(ram, reserved, |ram|, p) <==> Good(ram', reserved', |ram'|, p)
  {
    if j :| 0 <= j < |ram| && GoodIn(reserved, ram[j].start, ram[j].end, p) {
      assert ram[j] in multiset(ram');
      var k :| 0 <= k < |ram'| && ram'[k] == ram[j];
      assert GoodIn(reserved', ram'[k].start, ram'[k].end, p);
    }
    if j :| 0 <= j < |ram'| && GoodIn(reserved', ram'[j].start, ram'[j].end, p) {
      assert ram'[j] in multiset(ram);
      var k :| 0 <= k < |ram| && ram[k] == ram'[j];
      assert GoodIn(reserved, ram[k].start, ram[k].end, p);
    }
  }

  lemma CoveredPermuted(a: seq<Range>, b: seq<Range>, x: nat)
    requires multiset(a) == multiset(b)
    ensures Covered(a, x) <==> Covered(b, x)
  {
    if i :| 0 <= i < |a| && a[i].start <= x < a[i].end {
      assert a[i] in multiset(b);
      var k :| 0 <= k < |b| && b[k] == a[i];
    }
    if i :| 0 <= i < |b| && b[i].start <= x < b[i].end {
      assert b[i] in multiset(a);
      var k :| 0 <= k < |a| && a[k] == b[i];
    }
  }

  lemma InMemoryPermuted(a: seq<Range>, b: seq<Range>)
    requires multiset(a) == multiset(b) && InMemory(a)
    ensures InMemory(b)
  {
    forall i | 0 <= i < |b| ensures b[i].start <= U64_MAX && b[i].end <= U64_MAX {
      assert b[i] in multiset(a);
      var k :| 0 <= k < |a| && a[k] == b[i];
    }
  }

  /** Boot: sort both tables, merge the reserved one, build the map. The result speaks about the
      ranges as they were found, in any order, overlapping or not. */
  method BuildFromBoot(ram: array<Range>, ramCount: nat, reserved: array<Range>, reservedCount: nat, tables: BootTables)
    returns (r: Outcome)
    requires ramCount <= ram.Length && reservedCount <= reserved.Length && ram != reserved
    requires ram != tables.usable && reserved != tables.usable && tables.Valid() && tables.usableCount == 0
    requires InMemory(ram[..ramCount])
    modifies ram, reserved, tables, tables.regions, tables.usable
    ensures tables.Valid()
    ensures r.Done? ==> RangesOk(PAGE, tables.Usable()) && forall p: nat :: p % PAGE == 0 ==>
      (Covered(tables.Usable(), p) <==> Good(old(ram[..ramCount]), old(reserved[..reservedCount]), ramCount, p))
    ensures r == Failed(NoUsableRam) ==> forall p: nat :: p % PAGE == 0 ==>
      !Good(old(ram[..ramCount]), old(reserved[..reservedCount]), ramCount, p)
  {
    ghost var ram0, reserved0 := ram[..ramCount], reserved[..reservedCount];
    SortRanges(ram, ramCount);
    SortRanges(reserved, reservedCount);
    ghost var sorted := reserved[..reservedCount];
    var merged := MergeRanges(reserved, reservedCount);
    MergedSorted(sorted);
    InMemoryPermuted(ram0, ram[..ramCount]);
    ghost var ram1, reserved1 := ram[..ramCount], reserved[..merged];
    forall b: nat ensures Covered(reserved1, b) <==> Covered(reserved0, b) {
      MergedCovers(sorted, b);
      CoveredPermuted(sorted, reserved0, b);
    }
    forall p: nat ensures Good(ram1, reserved1, |ram1|, p) <==> Good(ram0, reserved0, |ram0|, p) {
      GoodSame(ram1, ram0, reserved1, reserved0, p);
    }
    r := tables.BuildMemoryMap(ram[..ramCount], reserved[..merged]);
  }

  lemma EmptyDone(ram: seq<Range>, reserved: seq<Range>)
    ensures MapDone([], ram, reserved, 0)
  {
  }
}
