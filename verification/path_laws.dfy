/**
  Laws of path resolution (kernel/src/fs/path.rs:68-145): what ".", "..", a name, a leading slash, a
  trailing slash and a longer path mean. Together they fix the result for every input.
 */
module PathLaws {
  import opened Base
  import opened Paths
  import opened PathWalk

  // ----- walks -----

  lemma {:induction false} WalkAppend(fs: Fs, cs: seq<Path>, isDir: bool, a: seq<Path>, b: seq<Path>)
    ensures
      var w := Walk(fs, cs, isDir, a);
      Walk(fs, cs, isDir, a + b) == if w.At? then Walk(fs, w.cs, w.isDir, b) else w
    decreases |a|
  {
    hide Join;
    if a == [] {
      assert a + b == b;
    } else {
      var c, rest := a[0], a[1..];
      assert (a + b)[0] == c && (a + b)[1..] == rest + b;
      var next := cs + [c];
      if c == [] || (isDir && c == [DOT]) {
        WalkAppend(fs, cs, isDir, rest, b);
      } else if isDir && c == [DOT, DOT] {
        WalkAppend(fs, Up(cs), true, rest, b);
      } else if isDir && |Join(next)| <= PATH_MAX {
        if Join(next) in fs.dirs {
          WalkAppend(fs, next, true, rest, b);
        } else if Join(next) in fs.files {
          WalkAppend(fs, next, false, rest, b);
        }
      }
    }
  }

  lemma WalkOne(fs: Fs, cs: seq<Path>, c: Path)
    requires c != []
    ensures
      var w, p := Walk(fs, cs, true, [c]), Join(cs + [c]);
      if c == [DOT] then w == At(cs, true)
      else if c == [DOT, DOT] then w == At(Up(cs), true)
      else if |p| > PATH_MAX then w == Lost(NameTooLong)
      else if p in fs.dirs then w == At(cs + [c], true)
      else if p in fs.files then w == At(cs + [c], false)
      else w == Lost(NotFound)
  {
    hide Join;
    assert [c][1..] == [];
  }

  /** From a file only empty components lead on. */
  lemma WalkFromFile(fs: Fs, cs: seq<Path>, comps: seq<Path>)
    requires comps != [] && comps[0] != []
    ensures Walk(fs, cs, false, comps) == Lost(NotDirectory)
  {
  }

  /** One more byte in front of a list of components. */
  function Prepend(x: Byte, q: seq<Path>): seq<Path>
    requires q != []
  {
    if x == SLASH then [[]] + q else [[x] + q[0]] + q[1..]
  }

  lemma SplitCons(x: Byte, p: Path)
    ensures Split([x] + p) == Prepend(x, Split(p)) && Split([]) == [[]]
  {
    assert ([x] + p)[1..] == p;
  }

  lemma PrependConcat(x: Byte, q: seq<Path>, r: seq<Path>)
    requires q != []
    ensures Prepend(x, q) + r == Prepend(x, q + r)
  {
    var empty: Path, first := [], [x] + q[0];
    if x == SLASH {
      assert ([empty] + q) + r == [empty] + (q + r);
    } else {
      assert (q + r)[1..] == q[1..] + r;
      assert ([first] + q[1..]) + r == [first] + (q[1..] + r);
    }
  }

  lemma {:induction false} SplitConcat(a: Path, b: Path)
    ensures Split(a + [SLASH] + b) == Split(a) + Split(b)
    decreases |a|
  {
    hide Split, Prepend;
    if a == [] {
      assert a + [SLASH] + b == [SLASH] + b;
      SplitCons(SLASH, b);
      SlashPrepends(Split(b));
    } else {
      var x, rest := a[0], a[1..];
      SplitConcat(rest, b);
      assert a == [x] + rest && a + [SLASH] + b == [x] + (rest + [SLASH] + b);
      SplitCons(x, rest);
      SplitCons(x, rest + [SLASH] + b);
      PrependConcat(x, Split(rest), Split(b));
    }
  }

  lemma SlashPrepends(q: seq<Path>)
    requires q != []
    ensures Prepend(SLASH, q) == [[]] + q
  {
  }

  // ----- trailing syntax, read off the bytes -----

  /** The input ends in a slash, or its last component is "." or "..". */
  predicate DirectorySyntax(input: Path) {
    var n := |input|;
    && n > 0
    && (|| input[n - 1] == SLASH
        || (input[n - 1] == DOT
            && (n == 1 || input[n - 2] == SLASH || (input[n - 2] == DOT && (n == 2 || input[n - 3] == SLASH)))))
  }

  /** The text after the last slash is the last component. */
  lemma {:induction false} LastComponent(input: Path)
    requires input != [] && input[|input| - 1] != SLASH
    ensures LastNonEmpty(Split(input)) == Split(input)[|Split(input)| - 1]
    ensures exists a :: LastSplit(input, a)
    decreases |input|
  {
    var comps := Split(input);
    if SLASH !in input {
      SplitSingle(input);
      assert LastSplit(input, []);
    } else {
      var n := LastSlashAt(input);
      var a, c := input[..n], input[n + 1..];
      assert input == a + [SLASH] + c;
      assert SLASH !in c && c != [];
      SplitAppend(a, c);
      assert LastSplit(input, a + [SLASH]);
    }
  }

  /** The input is a followed by its last component, and a is empty or ends in a slash. */
  predicate LastSplit(input: Path, a: Path) {
    var last := Split(input)[|Split(input)| - 1];
    last != [] && SLASH !in last && input == a + last && (a == [] || a[|a| - 1] == SLASH)
  }

  function LastSlashAt(p: Path): (n: nat)
    requires SLASH in p
    ensures LastSlash(p, n)
  {
    if p[|p| - 1] == SLASH then |p| - 1 else LastSlashAt(p[..|p| - 1])
  }

  /** Resolution asks for a directory exactly when the bytes say so. */
  lemma TrailingSyntax(input: Path)
    ensures RequiresDirectory(input) <==> DirectorySyntax(input)
  {
    if input != [] && input[|input| - 1] != SLASH {
      LastComponent(input);
      hide DirectorySyntax, LastNonEmpty;
      var a :| LastSplit(input, a);
      LastBytes(input, a, Split(input)[|Split(input)| - 1]);
    }
  }

  lemma LastBytes(input: Path, a: Path, last: Path)
    requires input == a + last && last != [] && SLASH !in last && (a == [] || a[|a| - 1] == SLASH)
    ensures DirectorySyntax(input) <==> last == [DOT] || last == [DOT, DOT]
  {
    var n, m := |input|, |last|;
    assert a != [] ==> input[|a| - 1] == SLASH;
    assert input[n - 1] == last[m - 1] && last[m - 1] in last;
    if m >= 2 { assert input[n - 2] == last[m - 2] && last[m - 2] in last; }
    if m >= 3 { assert input[n - 3] == last[m - 3] && last[m - 3] in last; }
  }

  // ----- laws -----

  /** "." stays, ".." goes to the directory above, and the root is above itself. */
  lemma DotLaws(fs: Fs, cwd: seq<Path>, c: Path)
    requires |Join(cwd)| <= PATH_MAX && |Join(cwd + [c])| <= PATH_MAX
    ensures Resolve(fs, cwd, [DOT]) == At(cwd, true)
    ensures Resolve(fs, cwd + [c], [DOT, DOT]) == At(cwd, true)
    ensures Resolve(fs, [], [DOT, DOT]) == At([], true)
  {
    SplitSingle([DOT]);
    SplitSingle([DOT, DOT]);
    WalkOne(fs, cwd, [DOT]);
    WalkOne(fs, cwd + [c], [DOT, DOT]);
    WalkOne(fs, [], [DOT, DOT]);
    assert Up(cwd + [c]) == cwd;
    assert Join([]) == [SLASH];
  }

  /** A name leads to the entry of that name, if there is one and its path is not too long. */
  lemma NameLaw(fs: Fs, cwd: seq<Path>, c: Path)
    requires IsName(c) && |Join(cwd)| <= PATH_MAX
    ensures
      var p := Join(cwd + [c]);
      Resolve(fs, cwd, c) ==
        if |p| > PATH_MAX then Lost(NameTooLong)
        else if p in fs.dirs then At(cwd + [c], true)
        else if p in fs.files then At(cwd + [c], false)
        else Lost(NotFound)
  {
    SplitSingle(c);
    WalkOne(fs, cwd, c);
    assert LastNonEmpty([c]) == c;
    assert c[|c| - 1] in c;
  }

  /** An absolute path does not depend on the working directory. */
  lemma AbsoluteLaw(fs: Fs, cwd: seq<Path>, b: Path)
    ensures Resolve(fs, cwd, [SLASH]) == At([], true)
    ensures b != [] && b[0] != SLASH ==> Resolve(fs, cwd, [SLASH] + b) == Resolve(fs, [], b)
    ensures b != [] && b[0] == SLASH ==> Resolve(fs, cwd, [SLASH] + b) == Resolve(fs, cwd, b)
  {
    assert Join([]) == [SLASH];
    RootSplit();
    var comps: seq<Path> := [[], []];
    assert comps[1..] == [[]] && comps[1..][1..] == [];
    if b != [] {
      var p := [SLASH] + b;
      assert p == [] + [SLASH] + b;
      SplitConcat([], b);
      assert Split([]) == [[]] && ([[]] + Split(b))[1..] == Split(b);
      SameEnding([[]], Split(b));
      assert p[|p| - 1] == b[|b| - 1];
    }
  }

  /** Components before a nonempty last one do not matter for it; empty ones never do. */
  lemma {:induction false} SameEnding(a: seq<Path>, b: seq<Path>)
    ensures LastNonEmpty(a + b) == if LastNonEmpty(b) != [] then LastNonEmpty(b) else LastNonEmpty(a)
    decreases |b|
  {
    if b == [] {
      assert a + b == a;
    } else {
      assert (a + b)[..|a + b| - 1] == a + b[..|b| - 1];
      if b[|b| - 1] == [] { SameEnding(a, b[..|b| - 1]); }
    }
  }

  /** A trailing slash keeps directories and errors, and refuses files. */
  lemma TrailingSlashLaw(fs: Fs, cwd: seq<Path>, input: Path)
    requires input != []
    ensures
      var w := Resolve(fs, cwd, input);
      Resolve(fs, cwd, input + [SLASH]) == if w.At? && !w.isDir then Lost(NotDirectory) else w
  {
    hide Walk, Join;
    var start := if input[0] == SLASH then [] else cwd;
    assert input + [SLASH] == input + [SLASH] + [];
    SplitConcat(input, []);
    WalkAppend(fs, start, true, Split(input), Split([]));
    var w := Walk(fs, start, true, Split(input));
    if w.At? { EmptyWalk(fs, w.cs, w.isDir); }
  }

  lemma EmptyWalk(fs: Fs, cs: seq<Path>, isDir: bool)
    ensures Walk(fs, cs, isDir, Split([])) == At(cs, isDir)
  {
    var comps: seq<Path> := [[]];
    assert comps[1..] == [];
  }

  /** A longer path is resolved from the directory its first part leads to. */
  lemma PathLaw(fs: Fs, cwd: seq<Path>, a: Path, b: Path)
    requires FsOk(fs) && Names(cwd) && Join(cwd) in fs.dirs
    requires a != [] && b != [] && b[0] != SLASH
    ensures
      var w := Resolve(fs, cwd, a + [SLASH]);
      Resolve(fs, cwd, a + [SLASH] + b) == if w.At? then Resolve(fs, w.cs, b) else w
  {
    hide Walk, Join, FsOk, RequiresDirectory;
    var start := if a[0] == SLASH then [] else cwd;
    var p := a + [SLASH] + b;
    TrailingSlashLaw(fs, cwd, a);
    ResolvePlace(fs, cwd, a + [SLASH]);
    SplitConcat(a, b);
    FirstOfSplit(b);
    WalkAppend(fs, start, true, Split(a), Split(b));
    LongerSyntax(a, b);
    var w := Walk(fs, start, true, Split(a));
    if |Join(start)| <= PATH_MAX && w.At? {
      if !w.isDir { WalkFromFile(fs, w.cs, Split(b)); }
    }
  }

  lemma FirstOfSplit(b: Path)
    requires b != [] && b[0] != SLASH
    ensures Split(b)[0] != []
  {
  }

  lemma {:induction false} SomeComponent(comps: seq<Path>)
    requires comps != [] && comps[0] != []
    ensures LastNonEmpty(comps) != []
    decreases |comps|
  {
    if comps[|comps| - 1] == [] { SomeComponent(comps[..|comps| - 1]); }
  }

  lemma LongerSyntax(a: Path, b: Path)
    requires b != [] && b[0] != SLASH
    ensures RequiresDirectory(a + [SLASH] + b) <==> RequiresDirectory(b)
  {
    var p := a + [SLASH] + b;
    SplitConcat(a, b);
    FirstOfSplit(b);
    SomeComponent(Split(b));
    SameEnding(Split(a), Split(b));
    assert p[|p| - 1] == b[|b| - 1];
  }
}
