/**
  Path names as bytes and as component lists (kernel/src/fs/path.rs, ramfs.rs, initramfs.rs).

  A canonical path is the root, or nonempty names joined by single slashes.
 */
module Paths {
  import opened Base

  type Path = seq<Byte>

  const SLASH: Byte := 47
  const DOT: Byte := 46
  const PATH_MAX: nat := 4096

  predicate IsName(c: Path) {
    c != [] && SLASH !in c && c != [DOT] && c != [DOT, DOT]
  }

  predicate Names(cs: seq<Path>) {
    forall i :: 0 <= i < |cs| ==> IsName(cs[i])
  }

  function JoinAll(cs: seq<Path>): Path {
    if cs == [] then [] else JoinAll(cs[..|cs| - 1]) + [SLASH] + cs[|cs| - 1]
  }

  /** The path of a component list. */
  function Join(cs: seq<Path>): Path {
    if cs == [] then [SLASH] else JoinAll(cs)
  }

  ghost predicate Canonical(p: Path) {
    exists cs :: Names(cs) && p == Join(cs)
  }

  /** Split at slashes; n slashes give n + 1 components. */
  function Split(p: Path): (r: seq<Path>)
    ensures |r| > 0
  {
    if p == [] then [[]]
    else if p[0] == SLASH then [[]] + Split(p[1..])
    else [[p[0]] + Split(p[1..])[0]] + Split(p[1..])[1..]
  }

  lemma {:induction false} SplitNoSlash(p: Path)
    ensures forall i :: 0 <= i < |Split(p)| ==> SLASH !in Split(p)[i]
    decreases |p|
  {
    if p != [] { SplitNoSlash(p[1..]); }
  }

  lemma {:induction false} SplitSingle(c: Path)
    requires SLASH !in c
    ensures Split(c) == [c]
    decreases |c|
  {
    if c != [] {
      assert c == [c[0]] + c[1..];
      SplitSingle(c[1..]);
    }
  }

  lemma {:induction false} SplitAt(c: Path, rest: Path)
    requires SLASH !in c
    ensures Split(c + [SLASH] + rest) == [c] + Split(rest)
    decreases |c|
  {
    var p := c + [SLASH] + rest;
    if c == [] {
      assert p[1..] == rest;
    } else {
      assert p[1..] == c[1..] + [SLASH] + rest;
      SplitAt(c[1..], rest);
      assert c == [c[0]] + c[1..];
    }
  }

  /** Appending a name to a joined path appends it to the split. */
  lemma {:induction false} SplitAppend(p: Path, c: Path)
    requires SLASH !in c
    ensures Split(p + [SLASH] + c) == Split(p) + [c]
    decreases |p|
  {
    var q := p + [SLASH] + c;
    if p == [] {
      assert q[1..] == c;
      SplitSingle(c);
    } else {
      assert q[1..] == p[1..] + [SLASH] + c;
      SplitAppend(p[1..], c);
    }
  }

  /** Splitting inverts joining: the empty component before the first slash, then the names. */
  lemma {:induction false} SplitJoinAll(cs: seq<Path>)
    requires Names(cs)
    ensures Split(JoinAll(cs)) == [[]] + cs
    decreases |cs|
  {
    if cs != [] {
      var front, last := cs[..|cs| - 1], cs[|cs| - 1];
      SplitJoinAll(front);
      SplitAppend(JoinAll(front), last);
      assert cs == front + [last];
    }
  }

  lemma JoinInjective(a: seq<Path>, b: seq<Path>)
    requires Names(a) && Names(b) && Join(a) == Join(b)
    ensures a == b
  {
    SplitJoinAll(a);
    SplitJoinAll(b);
    JoinSize(a);
    JoinSize(b);
    assert ([[]] + a)[1..] == a && ([[]] + b)[1..] == b;
  }

  lemma {:induction false} JoinSize(cs: seq<Path>)
    requires Names(cs)
    ensures cs != [] ==> |Join(cs)| > 1 && Join(cs)[0] == SLASH
    decreases |cs|
  {
    if cs != [] {
      var front, last := cs[..|cs| - 1], cs[|cs| - 1];
      assert IsName(last) && Join(cs) == JoinAll(front) + [SLASH] + last;
      if front != [] { JoinSize(front); }
    }
  }

  lemma JoinStep(cs: seq<Path>, c: Path)
    ensures Join(cs + [c]) == (if cs == [] then [SLASH] else Join(cs) + [SLASH]) + c
  {
    assert (cs + [c])[..|cs + [c]| - 1] == cs;
    assert cs == [] ==> JoinAll(cs) + [SLASH] + c == [SLASH] + c;
  }

  /** The position of the last slash separates the last name. */
  predicate LastSlash(p: Path, i: nat) {
    i < |p| && p[i] == SLASH && forall k :: i < k < |p| ==> p[k] != SLASH
  }

  lemma LastSlashIs(cs: seq<Path>, i: nat)
    requires cs != [] && Names(cs) && LastSlash(Join(cs), i)
    ensures (if i == 0 then [SLASH] else Join(cs)[..i]) == Join(cs[..|cs| - 1])
    ensures Join(cs)[i + 1..] == cs[|cs| - 1]
  {
    var front, last := cs[..|cs| - 1], cs[|cs| - 1];
    var p := Join(cs);
    assert p == JoinAll(front) + [SLASH] + last;
    assert IsName(last) && p[|JoinAll(front)|] == SLASH;
    forall k | |JoinAll(front)| < k < |p| ensures p[k] != SLASH { assert p[k] == last[k - |JoinAll(front)| - 1]; }
    assert i == |JoinAll(front)|;
    if front != [] { JoinSize(front); }
  }

  lemma JoinHasSlash(cs: seq<Path>)
    requires Names(cs)
    ensures Join(cs) != [] && SLASH in Join(cs)
  {
  }
}
