/**
  Mounting an archive (kernel/src/fs/initramfs.rs:45-91, 109-143): names become canonical paths, and
  whatever is mounted is an index that path resolution can rely on.
 */
module RamfsMount {
  import opened Base
  import opened Paths
  import opened PathOrder
  import opened PathWalk
  import opened RamfsIndex

  /** The canonical path of an archive name, if all its components are names. */
  method CanonicalArchivePath(name: Path) returns (r: Option<Path>)
    ensures r.Some? <==> Names(Split(name))
    ensures r.Some? ==> r.value == Join(Split(name)) == [SLASH] + name && Canonical(r.value)
  {
    hide Names, Join, JoinAll, Split, Prefixed, Taken;
    if name == [] || name[0] == SLASH {
      NotAName(name);
      return None;
    }
    var out := [SLASH];
    var start, cursor := 0, 0;
    ghost var done: seq<Path> := [];
    NoneYet(name);
    while cursor <= |name|
      invariant start <= cursor <= |name| + 1 && (start == |name| + 1 <==> cursor == |name| + 1)
      invariant start <= |name| ==> SLASH !in name[start..cursor]
      invariant Names(done) && Taken(name, done, start)
      invariant out == if start <= |name| then Prefixed(done) else Join(done)
    {
      if cursor == |name| || name[cursor] == SLASH {
        var component := name[start..cursor];
        Cut(name, done, start, cursor);
        if component == [] || component == [DOT] || component == [DOT, DOT] { return None; }
        GoodComponent(done, component);
        out := out + component;
        if cursor != |name| { out := out + [SLASH]; }
        done := done + [component];
        start := cursor + 1;
      }
      cursor := cursor + 1;
    }
    AllTaken(name, done, start);
    JoinSplit(name);
    r := Some(out);
  }

  /** The components in front of a position, the rest still to be split. */
  ghost predicate Taken(name: Path, done: seq<Path>, start: nat) {
    Split(name) == done + if start <= |name| then Split(name[start..]) else []
  }

  /** The joined components with a slash after them. */
  function Prefixed(cs: seq<Path>): Path {
    if cs == [] then [SLASH] else JoinAll(cs) + [SLASH]
  }

  lemma NotAName(name: Path)
    requires name == [] || name[0] == SLASH
    ensures !Names(Split(name))
  {
    assert Split(name)[0] == [];
    assert !IsName(Split(name)[0]);
  }

  lemma NoneYet(name: Path)
    ensures Names([]) && Prefixed([]) == [SLASH] && Taken(name, [], 0)
  {
    assert name[0..] == name;
  }

  lemma AllTaken(name: Path, done: seq<Path>, start: nat)
    requires start == |name| + 1 && Taken(name, done, start)
    ensures Split(name) == done
  {
    assert done + [] == done;
  }

  /** Cutting off the component that ends at the cursor. */
  lemma Cut(name: Path, done: seq<Path>, start: nat, cursor: nat)
    requires start <= cursor <= |name| && SLASH !in name[start..cursor] && (cursor < |name| ==> name[cursor] == SLASH)
    requires Taken(name, done, start)
    ensures Taken(name, done + [name[start..cursor]], cursor + 1)
    ensures !IsName(name[start..cursor]) ==> !Names(Split(name))
  {
    hide Split, Names, IsName;
    var c := name[start..cursor];
    CutRest(name, start, cursor);
    Regroup(done, c, if cursor < |name| then Split(name[cursor + 1..]) else []);
  }

  lemma Regroup(done: seq<Path>, c: Path, rest: seq<Path>)
    ensures done + ([c] + rest) == done + [c] + rest
    ensures !IsName(c) ==> !Names(done + [c] + rest)
  {
    assert (done + [c] + rest)[|done|] == c;
  }

  lemma CutRest(name: Path, start: nat, cursor: nat)
    requires start <= cursor <= |name| && SLASH !in name[start..cursor] && (cursor < |name| ==> name[cursor] == SLASH)
    ensures Split(name[start..]) == [name[start..cursor]] + if cursor < |name| then Split(name[cursor + 1..]) else []
  {
    hide Split;
    var c := name[start..cursor];
    if cursor < |name| {
      assert name[start..] == c + [SLASH] + name[cursor + 1..];
      SplitAt(c, name[cursor + 1..]);
    } else {
      assert name[start..] == c;
      SplitSingle(c);
    }
  }

  lemma GoodComponent(done: seq<Path>, c: Path)
    requires Names(done) && c != [] && SLASH !in c && c != [DOT] && c != [DOT, DOT]
    ensures Names(done + [c]) && Prefixed(done) + c == Join(done + [c])
    ensures Prefixed(done + [c]) == Prefixed(done) + c + [SLASH]
  {
    assert (done + [c])[..|done + [c]| - 1] == done;
    assert JoinAll(done + [c]) == JoinAll(done) + [SLASH] + c;
  }

  lemma {:induction false} JoinFirst(c: Path, rest: seq<Path>)
    ensures JoinAll([c] + rest) == [SLASH] + c + JoinAll(rest)
    decreases |rest|
  {
    var cs := [c] + rest;
    if rest == [] {
      assert cs == [c] && JoinAll(cs[..0]) == [];
    } else {
      var front := rest[..|rest| - 1];
      assert cs[..|cs| - 1] == [c] + front;
      JoinFirst(c, front);
    }
  }

  /** Joining inverts splitting. */
  lemma {:induction false} JoinSplitAll(p: Path)
    ensures JoinAll(Split(p)) == [SLASH] + p
    decreases |p|
  {
    if p == [] {
      JoinFirst([], []);
    } else {
      var cs, rest := Split(p[1..]), p[1..];
      JoinSplitAll(rest);
      assert p == [p[0]] + rest;
      if p[0] == SLASH {
        JoinFirst([], cs);
      } else {
        Longer(p[0], cs[0], cs[1..], rest);
        assert cs == [cs[0]] + cs[1..];
      }
    }
  }

  lemma Longer(b: Byte, c: Path, cs: seq<Path>, rest: Path)
    requires JoinAll([c] + cs) == [SLASH] + rest
    ensures JoinAll([[b] + c] + cs) == [SLASH] + ([b] + rest)
  {
    hide JoinAll;
    JoinFirst(c, cs);
    JoinFirst([b] + c, cs);
    var tail := JoinAll(cs);
    assert ([SLASH] + c + tail)[1..] == c + tail && ([SLASH] + rest)[1..] == rest;
    assert [SLASH] + ([b] + c) + tail == [SLASH] + ([b] + (c + tail));
  }

  lemma JoinSplit(name: Path)
    ensures Join(Split(name)) == [SLASH] + name
    ensures Names(Split(name)) ==> Canonical([SLASH] + name)
  {
    JoinSplitAll(name);
  }

  // ----- the archive -----

  datatype Kind = Regular | Directory | OtherKind
  datatype ArchiveEntry = ArchiveEntry(name: Path, kind: Kind, links: nat)
  datatype ArchiveError = Parse | InvalidPath | Duplicate | UnsupportedFileType | MissingInit
  datatype Archive = Ready(fs: Fs, entries: seq<seq<Entry>>) | Refused(error: ArchiveError)

  const INIT: Path := [SLASH, 105, 110, 105, 116]

  ghost predicate NameSeen(es: seq<ArchiveEntry>, i: nat)
    requires i < |es|
  {
    exists j :: 0 <= j < i && es[j].name == es[i].name
  }

  /** Why an entry is refused, given that all before it were taken. */
  ghost function EntryError(es: seq<ArchiveEntry>, i: nat): Option<ArchiveError>
    requires i < |es|
  {
    if es[i].links > 1 then Some(UnsupportedFileType)
    else if !Names(Split(es[i].name)) then Some(InvalidPath)
    else if NameSeen(es, i) then Some(Duplicate)
    else if es[i].kind.OtherKind? then Some(UnsupportedFileType)
    else None
  }

  ghost predicate TakenUpTo(es: seq<ArchiveEntry>, i: nat) {
    i <= |es| && forall j :: 0 <= j < i ==> EntryError(es, j).None?
  }

  /** The paths of the first entries of one kind. */
  ghost predicate PathsOf(es: seq<ArchiveEntry>, n: nat, kind: Kind, paths: seq<Path>)
    requires n <= |es|
  {
    && Distinct(paths) && AllCanonical(paths)
    && forall p :: p in paths <==> exists j :: 0 <= j < n && es[j].kind == kind && p == [SLASH] + es[j].name
  }

  ghost predicate IsEntry(es: seq<ArchiveEntry>, kind: Kind, p: Path) {
    exists j :: 0 <= j < |es| && es[j].kind == kind && p == [SLASH] + es[j].name
  }

  /** No regular file lies above another entry. */
  ghost predicate FilesAreLeaves(es: seq<ArchiveEntry>) {
    forall i, j :: 0 <= i < |es| && 0 <= j < |es| && es[i].kind.Regular? ==>
      !Above([SLASH] + es[i].name, [SLASH] + es[j].name)
  }

  /** The first unacceptable entry decides the error. An archive without one is mounted exactly when
      it has /init and no file above another entry, and then as a closed index of its paths. */
  method MountArchive(es: seq<ArchiveEntry>) returns (r: Archive)
    ensures forall i :: 0 <= i < |es| && TakenUpTo(es, i) && EntryError(es, i).Some? ==>
      r == Refused(EntryError(es, i).value)
    ensures TakenUpTo(es, |es|) ==>
      if es == [] then r == Refused(Parse)
      else if !IsEntry(es, Regular, INIT) then r == Refused(MissingInit)
      else if !FilesAreLeaves(es) then r == Refused(Duplicate)
      else r.Ready?
    ensures r.Ready? ==> FsOk(r.fs) && EntriesOk(r.fs, r.entries)
    ensures r.Ready? ==> forall p :: p in r.fs.files <==> IsEntry(es, Regular, p)
    ensures r.Ready? ==> forall p :: IsEntry(es, Directory, p) ==> p in r.fs.dirs
  {
    hide Names, Split, Join, Canonical, FsOk, EntriesOk, Above;
    var files: seq<Path>, dirs: seq<Path> := [], [];
    var i := 0;
    while i < |es|
      invariant TakenUpTo(es, i) && PathsOf(es, i, Regular, files) && PathsOf(es, i, Directory, dirs)
    {
      SeenInLists(es, i, files, dirs);
      if EntryError(es, i).Some? { FirstBad(es, i); }
      if es[i].links > 1 { return Refused(UnsupportedFileType); }
      var path := CanonicalArchivePath(es[i].name);
      if path.None? { return Refused(InvalidPath); }
      if path.value in files || path.value in dirs { return Refused(Duplicate); }
      match es[i].kind {
        case Regular => files := files + [path.value];
        case Directory => dirs := dirs + [path.value];
        case OtherKind => return Refused(UnsupportedFileType);
      }
      i := i + 1;
    }
    if i == 0 { return Refused(Parse); }
    if INIT !in files { return Refused(MissingInit); }
    var mount := MountIndex(files, dirs);
    LeavesMountable(es, files, dirs);
    if mount.DuplicatePath? { return Refused(Duplicate); }
    forall p ensures p in mount.fs.files <==> p in files { SameMembers(mount.fs.files, files, p); }
    r := Ready(mount.fs, mount.entries);
  }

  /** The lists of paths hold exactly the names taken before. */
  lemma SeenInLists(es: seq<ArchiveEntry>, i: nat, files: seq<Path>, dirs: seq<Path>)
    requires i < |es| && TakenUpTo(es, i) && PathsOf(es, i, Regular, files) && PathsOf(es, i, Directory, dirs)
    ensures NameSeen(es, i) <==> [SLASH] + es[i].name in files || [SLASH] + es[i].name in dirs
  {
    var p := [SLASH] + es[i].name;
    if NameSeen(es, i) {
      var j :| 0 <= j < i && es[j].name == es[i].name;
      assert EntryError(es, j).None?;
      assert p == [SLASH] + es[j].name;
    }
    if p in files || p in dirs {
      var j :| 0 <= j < i && p == [SLASH] + es[j].name;
      assert p[1..] == es[j].name && p[1..] == es[i].name;
    }
  }

  lemma LeavesMountable(es: seq<ArchiveEntry>, files: seq<Path>, dirs: seq<Path>)
    requires TakenUpTo(es, |es|) && PathsOf(es, |es|, Regular, files) && PathsOf(es, |es|, Directory, dirs)
    ensures FilesAreLeaves(es) <==> Mountable(files, dirs)
  {
    hide Above;
    if FilesAreLeaves(es) {
      forall f | f in files ensures !Listed(files, dirs, f) { LeafNotListed(es, files, dirs, f); }
    } else {
      var i, j :| 0 <= i < |es| && 0 <= j < |es|
                  && es[i].kind.Regular? && Above([SLASH] + es[i].name, [SLASH] + es[j].name);
      assert EntryError(es, j).None?;
      var f, q := [SLASH] + es[i].name, [SLASH] + es[j].name;
      assert f in files && (q in files || q in dirs);
      assert Listed(files, dirs, f);
    }
  }

  lemma LeafNotListed(es: seq<ArchiveEntry>, files: seq<Path>, dirs: seq<Path>, f: Path)
    requires TakenUpTo(es, |es|) && PathsOf(es, |es|, Regular, files) && PathsOf(es, |es|, Directory, dirs)
    requires FilesAreLeaves(es) && f in files
    ensures !Listed(files, dirs, f)
  {
    hide Above, Names, Split;
    var i :| 0 <= i < |es| && es[i].kind == Regular && f == [SLASH] + es[i].name;
    assert EntryError(es, i).None?;
    if es[i].name == [] { NotAName(es[i].name); }
    if f in dirs {
      var j :| 0 <= j < |es| && es[j].kind == Directory && f == [SLASH] + es[j].name;
      SameEntry(es, i, j);
    }
  }

  /** Taken entries have different paths. */
  lemma SameEntry(es: seq<ArchiveEntry>, i: nat, j: nat)
    requires TakenUpTo(es, |es|) && i < |es| && j < |es| && [SLASH] + es[i].name == [SLASH] + es[j].name
    ensures i == j
  {
    var p := [SLASH] + es[i].name;
    assert p[1..] == es[i].name && p[1..] == es[j].name;
    assert EntryError(es, i).None? && EntryError(es, j).None?;
    assert !NameSeen(es, i) && !NameSeen(es, j);
  }

  lemma FirstBad(es: seq<ArchiveEntry>, i: nat)
    requires i < |es| && TakenUpTo(es, i) && EntryError(es, i).Some?
    ensures forall k :: 0 <= k < |es| && TakenUpTo(es, k) && EntryError(es, k).Some? ==> k == i
    ensures !TakenUpTo(es, |es|)
  {
  }
}
