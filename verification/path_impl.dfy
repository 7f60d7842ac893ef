/** Byte-level path resolution (kernel/src/fs/path.rs:68-194) against the reference walk. */
module PathImpl {
  import opened Base
  import opened Paths
  import opened PathWalk
  import opened PathLaws

  function NodeAt(fs: Fs, cs: seq<Path>, isDir: bool): Node
    requires IsPlace(fs, cs, isDir)
  {
    if isDir then DirNode(Lookup(fs.dirs, Join(cs)).value) else FileNode(Lookup(fs.files, Join(cs)).value)
  }

  /** How the kernel reports the outcome of a walk. */
  ghost function Report(fs: Fs, w: Walked, requiresDirectory: bool): Resolved
    requires w.At? ==> IsPlace(fs, w.cs, w.isDir)
  {
    match w
    case Lost(error) => Failed(error)
    case At(cs, isDir) => Found(Join(cs), NodeAt(fs, cs, isDir), requiresDirectory)
  }

  lemma {:induction false} FirstLookup(paths: seq<Path>, i: nat)
    requires i < |paths| && paths[i] !in paths[..i]
    ensures Lookup(paths, paths[i]) == Some(i)
    decreases i
  {
    if i > 0 {
      assert paths[..i][0] == paths[0] && paths[1..][..i - 1] == paths[..i][1..];
      FirstLookup(paths[1..], i - 1);
    }
  }

  method LookupPath(paths: seq<Path>, p: Path) returns (r: Option<nat>)
    ensures r == Lookup(paths, p)
  {
    var i := 0;
    while i < |paths|
      invariant i <= |paths| && p !in paths[..i]
    {
      if paths[i] == p {
        FirstLookup(paths, i);
        return Some(i);
      }
      assert paths[..i + 1] == paths[..i] + [paths[i]];
      i := i + 1;
    }
    assert paths[..i] == paths;
    r := None;
  }

  /** Last nonempty component, searched from the end. */
  method FinalComponent(comps: seq<Path>) returns (c: Path)
    ensures c == LastNonEmpty(comps)
  {
    var i := |comps|;
    assert comps[..i] == comps;
    while i > 0
      invariant 0 <= i <= |comps| && LastNonEmpty(comps[..i]) == LastNonEmpty(comps)
    {
      assert comps[..i][..i - 1] == comps[..i - 1];
      if comps[i - 1] != [] { return comps[i - 1]; }
      i := i - 1;
    }
    c := [];
  }

  /** The directory above, found by the last slash of its path. */
  method ParentDir(fs: Fs, currentDir: nat, rootDir: nat, ghost cs: seq<Path>) returns (r: Option<nat>)
    requires FsOk(fs) && IsPlace(fs, cs, true) && currentDir < |fs.dirs| && fs.dirs[currentDir] == Join(cs)
    requires Lookup(fs.dirs, [SLASH]) == Some(rootDir)
    ensures r == Lookup(fs.dirs, Join(Up(cs))) && r.Some?
  {
    UpPlace(fs, cs);
    if currentDir == rootDir {
      RootOnly(cs);
      return Some(rootDir);
    }
    LookupUnique(fs.dirs, currentDir);
    var path := fs.dirs[currentDir];
    assert cs != [];
    JoinHasSlash(cs);
    var separator := LastSlashOf(path);
    assert separator.Some?;
    LastSlashIs(cs, separator.value);
    var parent := if separator.value == 0 then [SLASH] else path[..separator.value];
    r := LookupPath(fs.dirs, parent);
  }

  method LastSlashOf(p: Path) returns (i: Option<nat>)
    ensures i.Some? ==> LastSlash(p, i.value)
    ensures i.None? ==> SLASH !in p
  {
    var k := |p|;
    while k > 0
      invariant 0 <= k <= |p| && forall m :: k <= m < |p| ==> p[m] != SLASH
    {
      k := k - 1;
      if p[k] == SLASH { return Some(k); }
    }
    i := None;
  }

  /** None when the canonical path would be too long. */
  method AppendComponent(path: Path, c: Path) returns (r: Option<Path>)
    ensures r.None? <==> |path| + (if path == [SLASH] then 0 else 1) + |c| > PATH_MAX
    ensures r.Some? ==> r.value == (if path == [SLASH] then path else path + [SLASH]) + c
  {
    var separator := if path != [SLASH] then 1 else 0;
    if |path| + separator + |c| > PATH_MAX { return None; }
    var out := path;
    if separator != 0 { out := out + [SLASH]; }
    r := Some(out + c);
  }

  lemma RootOnly(cs: seq<Path>)
    requires Names(cs) && Join(cs) == [SLASH]
    ensures cs == []
  {
    if cs != [] { JoinSize(cs); }
  }

  /** Appending on bytes is appending to the component list. */
  lemma AppendJoins(cs: seq<Path>, c: Path)
    requires Names(cs)
    ensures Join(cs + [c]) == (if Join(cs) == [SLASH] then Join(cs) else Join(cs) + [SLASH]) + c
  {
    JoinStep(cs, c);
    if Join(cs) == [SLASH] { RootOnly(cs); }
  }

  /** The byte-level resolution is the reference walk, for every valid working directory and input. */
  method ResolveExistingPath(fs: Fs, cwdDir: nat, input: Path, ghost cwd: seq<Path>) returns (r: Resolved)
    requires FsOk(fs) && Names(cwd) && (cwdDir < |fs.dirs| ==> fs.dirs[cwdDir] == Join(cwd)) && Join(cwd) in fs.dirs
    ensures input != [] && input[0] != SLASH && cwdDir >= |fs.dirs| ==> r == Failed(InvalidBase)
    ensures input == [] || input[0] == SLASH || cwdDir < |fs.dirs| ==>
      && (Resolve(fs, cwd, input).At? ==> IsPlace(fs, Resolve(fs, cwd, input).cs, Resolve(fs, cwd, input).isDir))
      && r == Report(fs, Resolve(fs, cwd, input), RequiresDirectory(input))
    ensures r.Found? ==>
      && (r.requiresDirectory <==> DirectorySyntax(input)) && (r.requiresDirectory ==> r.node.DirNode?)
      && (r.node.DirNode? ==> r.node.dir < |fs.dirs| && fs.dirs[r.node.dir] == r.absolute)
      && (r.node.FileNode? ==> r.node.file < |fs.files| && fs.files[r.node.file] == r.absolute)
  {
    TrailingSyntax(input);
    if input == [] { return Failed(Empty); }
    var root := LookupPath(fs.dirs, [SLASH]);
    var rootDir := root.value;
    var currentDir := rootDir;
    if input[0] != SLASH {
      if cwdDir >= |fs.dirs| { return Failed(InvalidBase); }
      LookupUnique(fs.dirs, cwdDir);
      currentDir := cwdDir;
    }
    ghost var start := if input[0] == SLASH then [] else cwd;
    ResolvePlace(fs, cwd, input);
    if |fs.dirs[currentDir]| > PATH_MAX { return Failed(NameTooLong); }
    var comps := Split(input);
    var final := FinalComponent(comps);
    var wantsDirectory := input[|input| - 1] == SLASH || final == [DOT] || final == [DOT, DOT];
    SplitNoSlash(input);
    var absolute, node, error := WalkComponents(fs, currentDir, rootDir, comps, start);
    if error.Some? { return Failed(error.value); }
    if wantsDirectory && !node.DirNode? { return Failed(NotDirectory); }
    r := Found(absolute, node, wantsDirectory);
  }

  /** The walk from position k on, one component unfolded. */
  lemma WalkStep(fs: Fs, cs: seq<Path>, isDir: bool, comps: seq<Path>, k: nat)
    requires k < |comps|
    ensures
      var c, rest, w := comps[k], comps[k + 1..], Walk(fs, cs, isDir, comps[k..]);
      if c == [] then w == Walk(fs, cs, isDir, rest)
      else if !isDir then w == Lost(NotDirectory)
      else if c == [DOT] then w == Walk(fs, cs, isDir, rest)
      else if c == [DOT, DOT] then w == Walk(fs, Up(cs), true, rest)
      else if |Join(cs + [c])| > PATH_MAX then w == Lost(NameTooLong)
      else if Join(cs + [c]) in fs.dirs then w == Walk(fs, cs + [c], true, rest)
      else if Join(cs + [c]) in fs.files then w == Walk(fs, cs + [c], false, rest)
      else w == Lost(NotFound)
  {
    hide Join;
    assert comps[k..][0] == comps[k] && comps[k..][1..] == comps[k + 1..];
  }

  lemma WalkDone(fs: Fs, cs: seq<Path>, isDir: bool, comps: seq<Path>, k: nat)
    requires k == |comps|
    ensures Walk(fs, cs, isDir, comps[k..]) == At(cs, isDir)
  {
  }

  lemma LongerNames(cs: seq<Path>, c: Path)
    requires Names(cs) && IsName(c)
    ensures Names(cs + [c])
  {
  }

  method WalkComponents(fs: Fs, dir: nat, rootDir: nat, comps: seq<Path>, ghost start: seq<Path>)
    returns (absolute: Path, node: Node, error: Option<PathError>)
    requires FsOk(fs) && IsPlace(fs, start, true) && Lookup(fs.dirs, Join(start)) == Some(dir)
    requires Lookup(fs.dirs, [SLASH]) == Some(rootDir)
    requires forall i :: 0 <= i < |comps| ==> SLASH !in comps[i]
    ensures
      var w := Walk(fs, start, true, comps);
      && (w.Lost? ==> error == Some(w.error))
      && (w.At? ==>
            error.None? && IsPlace(fs, w.cs, w.isDir) && absolute == Join(w.cs) && node == NodeAt(fs, w.cs, w.isDir))
  {
    hide FsOk, Walk, Join, Names, Lookup;
    error := None;
    var currentDir := dir;
    absolute, node := fs.dirs[dir], DirNode(dir);
    ghost var cs := start;
    var k := 0;
    assert comps[0..] == comps;
    while k < |comps|
      invariant k <= |comps| && IsPlace(fs, cs, node.DirNode?) && absolute == Join(cs)
      invariant node == NodeAt(fs, cs, node.DirNode?)
      invariant node.DirNode? ==> currentDir == node.dir
      invariant Walk(fs, cs, node.DirNode?, comps[k..]) == Walk(fs, start, true, comps)
    {
      var c := comps[k];
      WalkStep(fs, cs, node.DirNode?, comps, k);
      k := k + 1;
      if c == [] { continue; }
      if !node.DirNode? {
        error := Some(NotDirectory);
        return;
      }
      if c == [DOT] { continue; }
      if c == [DOT, DOT] {
        var parent := ParentDir(fs, currentDir, rootDir, cs);
        UpPlace(fs, cs);
        currentDir := parent.value;
        absolute, node := fs.dirs[currentDir], DirNode(currentDir);
        cs := Up(cs);
        continue;
      }
      AppendJoins(cs, c);
      var longer := AppendComponent(absolute, c);
      if longer.None? {
        error := Some(NameTooLong);
        return;
      }
      absolute := longer.value;
      LongerNames(cs, c);
      var asDir := LookupPath(fs.dirs, absolute);
      if asDir.Some? {
        currentDir := asDir.value;
        node := DirNode(asDir.value);
      } else {
        var asFile := LookupPath(fs.files, absolute);
        if asFile.None? {
          error := Some(NotFound);
          return;
        }
        node := FileNode(asFile.value);
      }
      cs := cs + [c];
    }
    WalkDone(fs, cs, node.DirNode?, comps, k);
  }
}
