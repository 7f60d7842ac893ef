/** The byte order of paths and the sorting the index relies on (kernel/src/fs/ramfs.rs:83-125, 155-162). */
module PathOrder {
  import opened Paths

  /** Bytewise lexicographic order. */
  predicate Le(a: Path, b: Path) {
    a == [] || (b != [] && (a[0] < b[0] || (a[0] == b[0] && Le(a[1..], b[1..]))))
  }

  lemma {:induction false} LeTotal(a: Path, b: Path)
    ensures Le(a, b) || Le(b, a)
    ensures Le(a, b) && Le(b, a) ==> a == b
    decreases |a|
  {
    if a != [] && b != [] && a[0] == b[0] {
      LeTotal(a[1..], b[1..]);
      assert a == [a[0]] + a[1..] && b == [b[0]] + b[1..];
    }
  }

  lemma {:induction false} LeTransitive(a: Path, b: Path, c: Path)
    requires Le(a, b) && Le(b, c)
    ensures Le(a, c)
    decreases |a|
  {
    if a != [] && a[0] == b[0] && b[0] == c[0] { LeTransitive(a[1..], b[1..], c[1..]); }
  }

  /** The keys of a list grow. */
  ghost predicate Ordered(keys: seq<Path>) {
    forall i, j :: 0 <= i < j < |keys| ==> Le(keys[i], keys[j])
  }

  ghost predicate Distinct<T(!new)>(s: seq<T>) {
    forall i, j :: 0 <= i < j < |s| ==> s[i] != s[j]
  }

  function Keys<T>(s: seq<T>, key: T -> Path): (r: seq<Path>)
    ensures |r| == |s| && forall i :: 0 <= i < |s| ==> r[i] == key(s[i])
  {
    seq(|s|, i requires 0 <= i < |s| => key(s[i]))
  }

  function Insert<T>(x: T, s: seq<T>, key: T -> Path): seq<T> {
    if s == [] || Le(key(x), key(s[0])) then [x] + s else [s[0]] + Insert(x, s[1..], key)
  }

  /** The list sorted by key. */
  function Sort<T>(s: seq<T>, key: T -> Path): seq<T> {
    if s == [] then [] else Insert(s[0], Sort(s[1..], key), key)
  }

  lemma {:induction false} InsertKeeps<T(!new)>(x: T, s: seq<T>, key: T -> Path)
    ensures multiset(Insert(x, s, key)) == multiset(s) + multiset{x}
    decreases |s|
  {
    hide Le;
    if s != [] && !Le(key(x), key(s[0])) {
      InsertKeeps(x, s[1..], key);
      assert s == [s[0]] + s[1..];
    }
  }

  lemma {:induction false} InsertOrdered<T(!new)>(x: T, s: seq<T>, key: T -> Path)
    requires Ordered(Keys(s, key))
    ensures Ordered(Keys(Insert(x, s, key), key))
    decreases |s|
  {
    hide Le, Ordered;
    if s == [] {
      SingleOrdered(x, key);
      assert [x] + s == [x];
    } else if Le(key(x), key(s[0])) {
      forall y | y in s ensures Le(key(x), key(y)) { Reach(x, s, key, y); }
      InFront(x, s, key);
    } else {
      TailOrdered(s, key);
      InsertOrdered(x, s[1..], key);
      LeTotal(key(x), key(s[0]));
      InsertKeeps(x, s[1..], key);
      var rest := Insert(x, s[1..], key);
      forall y | y in rest ensures Le(key(s[0]), key(y)) {
        assert y in multiset(rest);
        HeadLeast(s, key, y);
      }
      InFront(s[0], rest, key);
    }
  }

  lemma SingleOrdered<T>(x: T, key: T -> Path)
    ensures Ordered(Keys([x], key))
  {
  }

  lemma InFront<T(!new)>(x: T, s: seq<T>, key: T -> Path)
    requires Ordered(Keys(s, key)) && forall y :: y in s ==> Le(key(x), key(y))
    ensures Ordered(Keys([x] + s, key))
  {
    hide Le;
    var keys, all := Keys(s, key), Keys([x] + s, key);
    forall i, j | 0 <= i < j < |all| ensures Le(all[i], all[j]) {
      assert all[j] == key(s[j - 1]) && s[j - 1] in s && all[j] == keys[j - 1];
      assert i > 0 ==> all[i] == keys[i - 1];
    }
  }

  lemma Reach<T>(x: T, s: seq<T>, key: T -> Path, y: T)
    requires Ordered(Keys(s, key)) && y in s && Le(key(x), key(s[0]))
    ensures Le(key(x), key(y))
  {
    var j :| 0 <= j < |s| && s[j] == y;
    if j > 0 {
      assert Le(Keys(s, key)[0], Keys(s, key)[j]);
      LeTransitive(key(x), key(s[0]), key(s[j]));
    }
  }

  lemma TailOrdered<T>(s: seq<T>, key: T -> Path)
    requires s != [] && Ordered(Keys(s, key))
    ensures Ordered(Keys(s[1..], key))
  {
    assert Keys(s[1..], key) == Keys(s, key)[1..];
  }

  lemma HeadLeast<T>(s: seq<T>, key: T -> Path, y: T)
    requires s != [] && Ordered(Keys(s, key))
    ensures y in s[1..] ==> Le(key(s[0]), key(y))
  {
    if y in s[1..] {
      var j :| 1 <= j < |s| && s[j] == y;
      assert Le(Keys(s, key)[0], Keys(s, key)[j]);
    }
  }

  /** Sorting permutes and orders. */
  lemma {:induction false} SortOk<T(!new)>(s: seq<T>, key: T -> Path)
    ensures Ordered(Keys(Sort(s, key), key)) && multiset(Sort(s, key)) == multiset(s)
    decreases |s|
  {
    if s != [] {
      SortOk(s[1..], key);
      InsertKeeps(s[0], Sort(s[1..], key), key);
      InsertOrdered(s[0], Sort(s[1..], key), key);
      assert s == [s[0]] + s[1..];
    }
  }

  lemma SameMembers<T>(a: seq<T>, b: seq<T>, x: T)
    requires multiset(a) == multiset(b)
    ensures x in a <==> x in b
  {
    assert x in a <==> x in multiset(a);
    assert x in b <==> x in multiset(b);
  }

  /** In an ordered list equal keys are neighbours, so looking at neighbours finds every duplicate. */
  lemma NeighboursSuffice(keys: seq<Path>)
    requires Ordered(keys) && forall i :: 0 < i < |keys| ==> keys[i - 1] != keys[i]
    ensures Distinct(keys)
  {
    forall i, j | 0 <= i < j < |keys| ensures keys[i] != keys[j] {
      if keys[i] == keys[j] {
        assert keys[i + 1 - 1] != keys[i + 1];
        assert Le(keys[i], keys[i + 1]);
        assert i + 1 < j;
        LeTotal(keys[i], keys[i + 1]);
      }
    }
  }

  lemma {:induction false} DistinctCount<T(!new)>(s: seq<T>)
    ensures Distinct(s) <==> forall x :: multiset(s)[x] <= 1
    decreases |s|
  {
    if s != [] {
      var rest := s[1..];
      assert s == [s[0]] + rest;
      DistinctCount(rest);
      assert multiset(s) == multiset(rest) + multiset{s[0]};
      if Distinct(s) {
        assert s[0] !in rest && s[0] !in multiset(rest);
        assert Distinct(rest);
      } else {
        var i, j :| 0 <= i < j < |s| && s[i] == s[j];
        if i == 0 {
          assert s[j] == rest[j - 1] && s[0] in multiset(rest);
          assert multiset(s)[s[0]] > 1;
        } else {
          assert rest[i - 1] == rest[j - 1];
          var x :| multiset(rest)[x] > 1;
          assert multiset(s)[x] > 1;
        }
      }
    }
  }

  /** Permuting keeps distinctness. */
  lemma PermutedDistinct<T(!new)>(a: seq<T>, b: seq<T>)
    requires multiset(a) == multiset(b)
    ensures Distinct(a) <==> Distinct(b)
  {
    DistinctCount(a);
    DistinctCount(b);
  }

  /** Neighbouring copies merged. */
  function Dedup(s: seq<Path>): seq<Path> {
    if |s| < 2 then s
    else if s[0] == s[1] then Dedup(s[1..])
    else [s[0]] + Dedup(s[1..])
  }

  lemma {:induction false} DedupOk(s: seq<Path>)
    requires Ordered(s)
    ensures Distinct(Dedup(s)) && Ordered(Dedup(s)) && forall x :: x in Dedup(s) <==> x in s
    ensures s != [] ==> Dedup(s) != [] && Dedup(s)[0] == s[0]
    decreases |s|
  {
    if |s| >= 2 {
      var rest, r := s[1..], Dedup(s[1..]);
      forall i, j | 0 <= i < j < |rest| ensures Le(rest[i], rest[j]) { assert Le(s[i + 1], s[j + 1]); }
      DedupOk(rest);
      assert s == [s[0]] + rest;
      if s[0] == s[1] {
        assert s[0] == rest[0] && s[0] in rest;
      } else {
        forall x | x in r ensures Le(s[0], x) && x != s[0] {
          var j :| 0 <= j < |rest| && rest[j] == x;
          assert Le(s[0], s[j + 1]) && Le(s[0], s[1]);
          if j > 0 { assert Le(s[1], s[j + 1]); LeTotal(s[0], s[1]); }
        }
        PutInFront(s[0], r);
        assert Dedup(s) == [s[0]] + r;
        forall x ensures x in Dedup(s) <==> x in s { assert x in s <==> x == s[0] || x in rest; }
      }
    }
  }

  lemma PutInFront(h: Path, r: seq<Path>)
    requires Distinct(r) && Ordered(r) && forall x :: x in r ==> Le(h, x) && x != h
    ensures Distinct([h] + r) && Ordered([h] + r)
  {
    var all := [h] + r;
    forall i, j | 0 <= i < j < |all| ensures Le(all[i], all[j]) && all[i] != all[j] {
      assert all[j] == r[j - 1] && r[j - 1] in r;
      if i > 0 { assert all[i] == r[i - 1]; }
    }
  }
}
