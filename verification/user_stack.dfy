/**
  The initial user stack (kernel/src/process/image.rs:22-202): strings from the top down, then the
  aligned table of argc, argv and envp. A reader that follows the table recovers the arguments.
 */
module UserStack {
  import opened Base

  const STACK_SIZE: nat := 0x1_0000
  const STACK_TOP: nat := 0x80_0000_0000
  const BASE: nat := STACK_TOP - STACK_SIZE
  const WORD: nat := 8

  // ----- little-endian words -----

  function Encode(v: nat, n: nat): (r: seq<Byte>)
    ensures |r| == n
  {
    if n == 0 then [] else [v % 256] + Encode(v / 256, n - 1)
  }

  function Decode(bytes: seq<Byte>): nat {
    if bytes == [] then 0 else bytes[0] + 256 * Decode(bytes[1..])
  }

  function Power(n: nat): nat {
    if n == 0 then 1 else 256 * Power(n - 1)
  }

  lemma {:induction false} EncodeDecode(v: nat, n: nat)
    requires v < Power(n)
    ensures Decode(Encode(v, n)) == v
    decreases n
  {
    if n > 0 {
      assert Encode(v, n)[1..] == Encode(v / 256, n - 1);
      EncodeDecode(v / 256, n - 1);
    }
  }

  lemma WordPower()
    ensures Power(8) == U64_MAX + 1
  {
    assert Power(1) == 256 && Power(2) == 0x1_0000 && Power(4) == 0x1_0000_0000;
    assert Power(5) == 0x100_0000_0000 && Power(6) == 0x1_0000_0000_0000;
  }

  // ----- reading the stack back -----

  /** Bytes from an offset up to the next NUL. */
  function ReadString(mem: seq<Byte>, off: nat): (r: Option<seq<Byte>>)
    decreases |mem| - off
  {
    if off >= |mem| then None
    else if mem[off] == 0 then Some([])
    else
      match ReadString(mem, off + 1)
      case None => None
      case Some(rest) => Some([mem[off]] + rest)
  }

  function ReadWord(mem: seq<Byte>, va: nat): Option<nat> {
    if BASE <= va && va - BASE + WORD <= |mem| then Some(Decode(mem[va - BASE..va - BASE + WORD])) else None
  }

  /** Strings named by the words from va on, up to a null word; and the address after it. */
  function ReadVector(mem: seq<Byte>, va: nat): (r: Option<(seq<seq<Byte>>, nat)>)
    decreases BASE + |mem| - va
  {
    match ReadWord(mem, va)
    case None => None
    case Some(ptr) =>
      if ptr == 0 then Some(([], va + WORD))
      else if ptr < BASE then None
      else
        match (ReadString(mem, ptr - BASE), ReadVector(mem, va + WORD))
        case (Some(s), Some((rest, end))) => Some(([s] + rest, end))
        case _ => None
  }

  /** What a C start-up routine finds at the stack pointer: argc, argv and envp. */
  function ReadStart(mem: seq<Byte>, sp: nat): (r: Option<(nat, seq<seq<Byte>>, seq<seq<Byte>>)>) {
    match ReadWord(mem, sp)
    case None => None
    case Some(argc) =>
      match ReadVector(mem, sp + WORD)
      case None => None
      case Some((argv, end)) =>
        match ReadVector(mem, end)
        case None => None
        case Some((envp, _)) => Some((argc, argv, envp))
  }

  // ----- placement -----

  predicate NulFree(s: seq<Byte>) {
    forall k :: 0 <= k < |s| ==> s[k] != 0
  }

  predicate AllNulFree(strs: seq<seq<Byte>>) {
    forall i :: 0 <= i < |strs| ==> NulFree(strs[i])
  }

  predicate StringAt(mem: seq<Byte>, va: nat, s: seq<Byte>) {
    && BASE <= va && va - BASE + |s| < |mem|
    && mem[va - BASE..va - BASE + |s|] == s && mem[va - BASE + |s|] == 0
  }

  predicate WordAt(mem: seq<Byte>, va: nat, v: nat) {
    BASE <= va && va - BASE + WORD <= |mem| && mem[va - BASE..va - BASE + WORD] == Encode(v, WORD)
  }

  lemma {:induction false} StringRead(mem: seq<Byte>, va: nat, s: seq<Byte>)
    requires StringAt(mem, va, s) && NulFree(s)
    ensures ReadString(mem, va - BASE) == Some(s)
    decreases |s|
  {
    if s != [] {
      var off := va - BASE;
      assert mem[off] == mem[off..off + |s|][0];
      assert mem[off + 1..off + |s|] == mem[off..off + |s|][1..];
      assert s == [s[0]] + s[1..];
      StringRead(mem, va + 1, s[1..]);
    }
  }

  lemma WordRead(mem: seq<Byte>, va: nat, v: nat)
    requires WordAt(mem, va, v) && v <= U64_MAX
    ensures ReadWord(mem, va) == Some(v)
  {
    WordPower();
    EncodeDecode(v, WORD);
  }

  /** Each string is in place, at or above lo. */
  ghost predicate Placed(mem: seq<Byte>, ptrs: seq<nat>, strs: seq<seq<Byte>>, lo: nat) {
    && |ptrs| == |strs|
    && forall i :: 0 <= i < |strs| ==> lo <= ptrs[i] <= U64_MAX && StringAt(mem, ptrs[i], strs[i])
  }

  /** The words of a vector and its terminating null are in place. */
  ghost predicate Tabled(mem: seq<Byte>, va: nat, ptrs: seq<nat>) {
    (forall i: nat :: i < |ptrs| ==> WordAt(mem, va + i * WORD, ptrs[i])) && WordAt(mem, va + |ptrs| * WORD, 0)
  }

  lemma {:induction false} VectorRead(mem: seq<Byte>, va: nat, ptrs: seq<nat>, strs: seq<seq<Byte>>)
    requires Placed(mem, ptrs, strs, BASE) && Tabled(mem, va, ptrs)
    requires AllNulFree(strs)
    ensures ReadVector(mem, va) == Some((strs, va + (|ptrs| + 1) * WORD))
    decreases |ptrs|
  {
    hide ReadWord, ReadString, WordAt, StringAt, NulFree;
    if ptrs == [] {
      WordRead(mem, va, 0);
    } else {
      assert WordAt(mem, va + 0 * WORD, ptrs[0]);
      WordRead(mem, va, ptrs[0]);
      StringRead(mem, ptrs[0], strs[0]);
      forall i: nat | i < |ptrs[1..]| ensures WordAt(mem, va + WORD + i * WORD, ptrs[1..][i]) {
        assert WordAt(mem, va + (i + 1) * WORD, ptrs[i + 1]);
      }
      VectorRead(mem, va + WORD, ptrs[1..], strs[1..]);
      assert strs == [strs[0]] + strs[1..];
    }
  }

  /** A well-formed stack: argc, both vectors, and every string. */
  ghost predicate Loaded(mem: seq<Byte>, sp: nat, argPtrs: seq<nat>, envPtrs: seq<nat>, argv: seq<seq<Byte>>,
                         envp: seq<seq<Byte>>) {
    && WordAt(mem, sp, |argv|)
    && Placed(mem, argPtrs, argv, BASE) && Placed(mem, envPtrs, envp, BASE)
    && Tabled(mem, sp + WORD, argPtrs) && Tabled(mem, sp + WORD + (|argv| + 1) * WORD, envPtrs)
  }

  /** Round trip: reading a loaded stack gives back exactly the NUL-free arguments. */
  lemma LoadedReads(mem: seq<Byte>, sp: nat, argPtrs: seq<nat>, envPtrs: seq<nat>, argv: seq<seq<Byte>>,
                    envp: seq<seq<Byte>>)
    requires Loaded(mem, sp, argPtrs, envPtrs, argv, envp) && |argv| <= U64_MAX
    requires AllNulFree(argv) && AllNulFree(envp)
    ensures ReadStart(mem, sp) == Some((|argv|, argv, envp))
  {
    hide ReadStart, ReadWord, ReadVector, WordAt, Placed, Tabled, AllNulFree;
    PlacedSize(mem, argPtrs, argv, BASE);
    var env := sp + WORD + (|argv| + 1) * WORD;
    WordRead(mem, sp, |argv|);
    VectorRead(mem, sp + WORD, argPtrs, argv);
    VectorRead(mem, env, envPtrs, envp);
    StartRead(mem, sp, |argv|, argv, env, envp);
  }

  lemma PlacedSize(mem: seq<Byte>, ptrs: seq<nat>, strs: seq<seq<Byte>>, lo: nat)
    requires Placed(mem, ptrs, strs, lo)
    ensures |ptrs| == |strs|
  {
  }

  lemma StartRead(mem: seq<Byte>, sp: nat, argc: nat, argv: seq<seq<Byte>>, env: nat, envp: seq<seq<Byte>>)
    requires ReadWord(mem, sp) == Some(argc) && ReadVector(mem, sp + WORD) == Some((argv, env))
    requires ReadVector(mem, env).Some? && ReadVector(mem, env).value.0 == envp
    ensures ReadStart(mem, sp) == Some((argc, argv, envp))
  {
    hide ReadWord, ReadVector;
  }

  // ----- sizes -----

  function StringBytes(strs: seq<seq<Byte>>): nat {
    if strs == [] then 0 else StringBytes(strs[1..]) + |strs[0]| + 1
  }

  function TableWords(argc: nat, envc: nat): nat {
    1 + argc + 1 + envc + 1
  }

  function AlignDown(x: nat): nat {
    x / 16 * 16
  }

  /** Strings, alignment, table, alignment; negative when they do not even fit below the top. */
  function SpFor(strings: nat, table: nat): int {
    if strings > STACK_TOP then -1
    else if AlignDown(STACK_TOP - strings) < table then -1
    else AlignDown(AlignDown(STACK_TOP - strings) - table)
  }

  function FinalSp(argv: seq<seq<Byte>>, envp: seq<seq<Byte>>): int {
    SpFor(StringBytes(envp) + StringBytes(argv), TableWords(|argv|, |envp|) * WORD)
  }

  predicate Fits(argv: seq<seq<Byte>>, envp: seq<seq<Byte>>) {
    FinalSp(argv, envp) >= BASE
  }

  // ----- building -----

  /** Memory outside [lo, hi) is unchanged. */
  ghost predicate SameOutside(mem: seq<Byte>, mem': seq<Byte>, lo: nat, hi: nat) {
    && |mem'| == |mem| && BASE <= lo
    && forall k :: 0 <= k < |mem| && (k < lo - BASE || hi - BASE <= k) ==> mem'[k] == mem[k]
  }

  lemma StringKept(mem: seq<Byte>, mem': seq<Byte>, lo: nat, hi: nat, va: nat, s: seq<Byte>)
    requires SameOutside(mem, mem', lo, hi) && StringAt(mem, va, s) && (hi <= va || va + |s| < lo)
    ensures StringAt(mem', va, s)
  {
  }

  lemma WordKept(mem: seq<Byte>, mem': seq<Byte>, lo: nat, hi: nat, va: nat, v: nat)
    requires SameOutside(mem, mem', lo, hi) && WordAt(mem, va, v) && (hi <= va || va + WORD <= lo)
    ensures WordAt(mem', va, v)
  {
  }

  lemma PlacedKept(mem: seq<Byte>, mem': seq<Byte>, lo: nat, hi: nat, ptrs: seq<nat>, strs: seq<seq<Byte>>, from: nat)
    requires SameOutside(mem, mem', lo, hi) && Placed(mem, ptrs, strs, from) && hi <= from
    ensures Placed(mem', ptrs, strs, from)
  {
    forall i | 0 <= i < |strs|
      ensures StringAt(mem', ptrs[i], strs[i])
    {
      StringKept(mem, mem', lo, hi, ptrs[i], strs[i]);
    }
  }

  function Reversed(s: seq<nat>): seq<nat> {
    seq(|s|, i requires 0 <= i < |s| => s[|s| - 1 - i])
  }

  lemma {:induction false} StringBytesSplit(a: seq<seq<Byte>>, b: seq<seq<Byte>>)
    ensures StringBytes(a + b) == StringBytes(a) + StringBytes(b)
    decreases |a|
  {
    if a == [] {
      assert a + b == b;
    } else {
      assert (a + b)[1..] == a[1..] + b;
      StringBytesSplit(a[1..], b);
    }
  }

  lemma SuffixStep(strs: seq<seq<Byte>>, k: nat)
    requires k < |strs|
    ensures StringBytes(strs[k..]) == StringBytes(strs[k + 1..]) + |strs[k]| + 1
    ensures StringBytes(strs[k..]) <= StringBytes(strs)
  {
    assert strs[k..][1..] == strs[k + 1..];
    assert strs == strs[..k] + strs[k..];
    StringBytesSplit(strs[..k], strs[k..]);
  }

  /** The stack memory of a process that is being built. */
  class StackImage {
    const bytes: array<Byte>

    ghost predicate Valid() {
      bytes.Length == STACK_SIZE
    }

    constructor ()
      ensures Valid() && fresh(bytes)
    {
      bytes := new Byte[STACK_SIZE](_ => 0);
    }

    method WriteBytes(va: nat, data: seq<Byte>) returns (ok: bool)
      requires Valid()
      modifies bytes
      ensures ok <==> data == [] || (BASE <= va && va - BASE + |data| <= STACK_SIZE)
      ensures ok && data != [] ==>
        SameOutside(old(bytes[..]), bytes[..], va, va + |data|) && bytes[va - BASE..va - BASE + |data|] == data
      ensures !ok || data == [] ==> bytes[..] == old(bytes[..])
    {
      if data == [] { return true; }
      if va < BASE || va - BASE + |data| > STACK_SIZE { return false; }
      var off, i := va - BASE, 0;
      while i < |data|
        invariant i <= |data| && bytes[off..off + i] == data[..i]
        invariant forall k :: 0 <= k < STACK_SIZE && (k < off || off + |data| <= k) ==> bytes[k] == old(bytes[k])
      {
        bytes[off + i] := data[i];
        assert bytes[off..off + i + 1] == bytes[off..off + i] + [data[i]];
        i := i + 1;
      }
      assert data[..i] == data;
      ok := true;
    }

    /** Push one string with its terminator below sp. */
    method PushCstr(sp: nat, s: seq<Byte>) returns (ptr: Option<nat>)
      requires Valid() && sp <= STACK_TOP
      modifies bytes
      ensures ptr.Some? <==> BASE + |s| + 1 <= sp
      ensures ptr.Some? ==>
        && ptr.value == sp - |s| - 1 && StringAt(bytes[..], ptr.value, s)
        && SameOutside(old(bytes[..]), bytes[..], ptr.value, sp)
    {
      if sp < |s| + 1 { return None; }
      var at := sp - (|s| + 1);
      if at < BASE { return None; }
      var written := WriteBytes(at, s);
      assert written;
      ghost var body := bytes[..];
      var ended := WriteBytes(at + |s|, [0]);
      assert ended;
      assert bytes[..][at - BASE + |s|..at - BASE + |s| + 1] == [0];
      assert bytes[..][at - BASE..at - BASE + |s|] == body[at - BASE..at - BASE + |s|];
      ptr := Some(at);
    }

    /** Push strings from the last to the first; pointers come out in that order. */
    method PushStrings(start: nat, strs: seq<seq<Byte>>) returns (sp: nat, ptrs: Option<seq<nat>>)
      requires Valid() && BASE <= start <= STACK_TOP
      modifies bytes
      ensures ptrs.Some? <==> BASE + StringBytes(strs) <= start
      ensures ptrs.Some? ==>
        && sp == start - StringBytes(strs) && |ptrs.value| == |strs|
        && Placed(bytes[..], Reversed(ptrs.value), strs, sp)
        && SameOutside(old(bytes[..]), bytes[..], sp, start)
    {
      hide StringAt, StringBytes;
      sp := start;
      var out: seq<nat> := [];
      var k := |strs|;
      StringBytesEmpty(strs);
      ghost var before := bytes[..];
      while k > 0
        invariant 0 <= k <= |strs| && |out| == |strs| - k && BASE <= sp <= STACK_TOP
        invariant sp == start - StringBytes(strs[k..])
        invariant Placed(bytes[..], Reversed(out), strs[k..], sp)
        invariant SameOutside(before, bytes[..], sp, start)
      {
        k := k - 1;
        SuffixStep(strs, k);
        ghost var was, mem := sp, bytes[..];
        var ptr := PushCstr(sp, strs[k]);
        if ptr.None? { return sp, None; }
        PlacedKept(mem, bytes[..], ptr.value, was, Reversed(out), strs[k + 1..], was);
        sp := ptr.value;
        assert Reversed(out + [sp]) == [sp] + Reversed(out);
        assert strs[k..] == [strs[k]] + strs[k + 1..];
        out := out + [sp];
      }
      assert strs[0..] == strs;
      ptrs := Some(out);
    }

    method WriteWord(va: nat, v: nat) returns (ok: bool)
      requires Valid()
      modifies bytes
      ensures ok <==> BASE <= va && va - BASE + WORD <= STACK_SIZE
      ensures ok ==> WordAt(bytes[..], va, v) && SameOutside(old(bytes[..]), bytes[..], va, va + WORD)
    {
      ok := WriteBytes(va, Encode(v, WORD));
      if ok { assert bytes[..][va - BASE..va - BASE + WORD] == Encode(v, WORD); }
    }

    /** Pointers followed by a null word. */
    method WriteVector(va: nat, ptrs: seq<nat>) returns (ok: bool)
      requires Valid() && BASE <= va && va - BASE + (|ptrs| + 1) * WORD <= STACK_SIZE
      modifies bytes
      ensures ok && Tabled(bytes[..], va, ptrs) && SameOutside(old(bytes[..]), bytes[..], va, va + (|ptrs| + 1) * WORD)
    {
      hide WordAt;
      var i := 0;
      ghost var before := bytes[..];
      while i < |ptrs|
        invariant 0 <= i <= |ptrs| && SameOutside(before, bytes[..], va, va + i * WORD)
        invariant forall k: nat :: k < i ==> WordAt(bytes[..], va + k * WORD, ptrs[k])
      {
        ghost var mem := bytes[..];
        var written := WriteWord(va + i * WORD, ptrs[i]);
        assert written;
        OutsideTrans(before, mem, bytes[..], va, va + i * WORD, va + i * WORD + WORD);
        forall k: nat | k < i ensures WordAt(bytes[..], va + k * WORD, ptrs[k]) {
          WordKept(mem, bytes[..], va + i * WORD, va + i * WORD + WORD, va + k * WORD, ptrs[k]);
        }
        i := i + 1;
      }
      ghost var mem := bytes[..];
      ok := WriteWord(va + i * WORD, 0);
      OutsideTrans(before, mem, bytes[..], va, va + i * WORD, va + i * WORD + WORD);
      forall k: nat | k < i ensures WordAt(bytes[..], va + k * WORD, ptrs[k]) {
        WordKept(mem, bytes[..], va + i * WORD, va + i * WORD + WORD, va + k * WORD, ptrs[k]);
      }
    }

    /** Returns the stack pointer exactly when strings and table fit. */
    method BuildInitialUserStack(argv: seq<seq<Byte>>, envp: seq<seq<Byte>>) returns (r: Option<nat>)
      requires Valid()
      modifies bytes
      ensures r.Some? <==> Fits(argv, envp)
      ensures r.Some? ==>
        && r.value == FinalSp(argv, envp) && r.value % 16 == 0 && BASE <= r.value
        && r.value + TableWords(|argv|, |envp|) * WORD <= STACK_TOP - StringBytes(envp) - StringBytes(argv)
      ensures r.Some? && AllNulFree(argv) && AllNulFree(envp) ==>
        ReadStart(bytes[..], r.value) == Some((|argv|, argv, envp))
    {
      hide StringBytes, Placed, Tabled, WordAt, SameOutside, ReadStart, AllNulFree, Reversed;
      var sp, envPtrs := PushStrings(STACK_TOP, envp);
      if envPtrs.None? { return None; }
      ghost var envLow, mem0 := sp, bytes[..];
      var argPtrs;
      sp, argPtrs := PushStrings(sp, argv);
      if argPtrs.None? { return None; }
      PlacedKept(mem0, bytes[..], sp, envLow, Reversed(envPtrs.value), envp, envLow);
      ghost var low, mem := sp, bytes[..];
      sp := sp / 16 * 16;
      var tableSize := TableWords(|argv|, |envp|) * WORD;
      if sp < tableSize { return None; }
      sp := (sp - tableSize) / 16 * 16;
      if sp < BASE { return None; }
      ReversedSize(argPtrs.value);
      ReversedSize(envPtrs.value);
      WriteTable(sp, |argv|, Reversed(argPtrs.value), Reversed(envPtrs.value));
      PlacedKept(mem, bytes[..], sp, sp + tableSize, Reversed(argPtrs.value), argv, low);
      PlacedKept(mem, bytes[..], sp, sp + tableSize, Reversed(envPtrs.value), envp, envLow);
      PlacedLower(bytes[..], Reversed(argPtrs.value), argv, low);
      PlacedLower(bytes[..], Reversed(envPtrs.value), envp, envLow);
      r := Some(sp);
      if AllNulFree(argv) && AllNulFree(envp) {
        LoadedReads(bytes[..], sp, Reversed(argPtrs.value), Reversed(envPtrs.value), argv, envp);
      }
    }

    /** argc, argv and envp at the stack pointer. */
    method WriteTable(sp: nat, argc: nat, argPtrs: seq<nat>, envPtrs: seq<nat>)
      requires Valid() && BASE <= sp && sp - BASE + TableWords(|argPtrs|, |envPtrs|) * WORD <= STACK_SIZE
      modifies bytes
      ensures WordAt(bytes[..], sp, argc) && Tabled(bytes[..], sp + WORD, argPtrs)
      ensures Tabled(bytes[..], sp + WORD + (|argPtrs| + 1) * WORD, envPtrs)
      ensures SameOutside(old(bytes[..]), bytes[..], sp, sp + TableWords(|argPtrs|, |envPtrs|) * WORD)
    {
      hide Tabled, WordAt, SameOutside;
      ghost var m0 := bytes[..];
      var counted := WriteWord(sp, argc);
      ghost var m1 := bytes[..];
      var args := WriteVector(sp + WORD, argPtrs);
      ghost var m2 := bytes[..];
      var envVa := sp + WORD + (|argPtrs| + 1) * WORD;
      var envs := WriteVector(envVa, envPtrs);
      WordKept(m1, m2, sp + WORD, envVa, sp, argc);
      WordKept(m2, bytes[..], envVa, envVa + (|envPtrs| + 1) * WORD, sp, argc);
      TabledKept(m2, bytes[..], envVa, envVa + (|envPtrs| + 1) * WORD, sp + WORD, argPtrs);
      OutsideTrans(m0, m1, m2, sp, sp + WORD, envVa);
      OutsideTrans(m0, m2, bytes[..], sp, envVa, envVa + (|envPtrs| + 1) * WORD);
    }
  }

  lemma ReversedSize(s: seq<nat>)
    ensures |Reversed(s)| == |s|
  {
  }

  lemma PlacedLower(mem: seq<Byte>, ptrs: seq<nat>, strs: seq<seq<Byte>>, lo: nat)
    requires Placed(mem, ptrs, strs, lo) && BASE <= lo
    ensures Placed(mem, ptrs, strs, BASE)
  {
  }

  lemma TabledKept(mem: seq<Byte>, mem': seq<Byte>, lo: nat, hi: nat, va: nat, ptrs: seq<nat>)
    requires SameOutside(mem, mem', lo, hi) && Tabled(mem, va, ptrs) && va + (|ptrs| + 1) * WORD <= lo
    ensures Tabled(mem', va, ptrs)
  {
    forall i: nat | i < |ptrs| ensures WordAt(mem', va + i * WORD, ptrs[i]) {
      assert WordAt(mem, va + i * WORD, ptrs[i]);
      WordKept(mem, mem', lo, hi, va + i * WORD, ptrs[i]);
    }
    WordKept(mem, mem', lo, hi, va + |ptrs| * WORD, 0);
  }

  lemma OutsideTrans(a: seq<Byte>, b: seq<Byte>, c: seq<Byte>, lo: nat, mid: nat, hi: nat)
    requires SameOutside(a, b, lo, mid) && SameOutside(b, c, mid, hi) && lo <= mid <= hi
    ensures SameOutside(a, c, lo, hi)
  {
  }

  lemma StringBytesEmpty(strs: seq<seq<Byte>>)
    ensures StringBytes(strs[|strs|..]) == 0
  {
  }

  // ----- collecting the arguments -----

  datatype Vector = Argv | Envp

  /** Bytes left for strings beside the table. */
  function StringBudget(argc: nat, envc: nat): Option<nat> {
    if TableWords(argc, envc) * WORD <= STACK_SIZE then Some(STACK_SIZE - TableWords(argc, envc) * WORD) else None
  }

  /** Arguments copied so far, with the bytes their strings will take. */
  class ExecArgs {
    var argv: seq<seq<Byte>>
    var envp: seq<seq<Byte>>
    var stringBytes: nat

    ghost predicate Valid()
      reads this
    {
      && stringBytes == StringBytes(argv) + StringBytes(envp)
      && (argv != [] || envp != [] ==> stringBytes + TableWords(|argv|, |envp|) * WORD <= STACK_SIZE)
    }

    constructor ()
      ensures Valid() && argv == [] && envp == []
    {
      argv, envp, stringBytes := [], [], 0;
    }

    /** False is E2BIG, and changes nothing. */
    method Push(vector: Vector, value: seq<Byte>) returns (ok: bool)
      requires Valid()
      modifies this
      ensures Valid()
      ensures ok ==> argv == (if vector.Argv? then old(argv) + [value] else old(argv))
                     && envp == (if vector.Envp? then old(envp) + [value] else old(envp))
      ensures !ok ==> argv == old(argv) && envp == old(envp)
      ensures ok <==>
        var argc, envc := |old(argv)| + (if vector.Argv? then 1 else 0), |old(envp)| + (if vector.Envp? then 1 else 0);
        StringBytes(old(argv)) + StringBytes(old(envp)) + |value| + 1 + TableWords(argc, envc) * WORD <= STACK_SIZE
    {
      var bytesWithNul := |value| + 1;
      var nextArgv := |argv| + if vector.Argv? then 1 else 0;
      var nextEnvp := |envp| + if vector.Envp? then 1 else 0;
      var budget := StringBudget(nextArgv, nextEnvp);
      if budget.None? { return false; }
      var nextBytes := stringBytes + bytesWithNul;
      if nextBytes > budget.value { return false; }
      match vector {
        case Argv =>
          StringBytesSplit(argv, [value]);
          argv := argv + [value];
        case Envp =>
          StringBytesSplit(envp, [value]);
          envp := envp + [value];
      }
      stringBytes := nextBytes;
      ok := true;
    }
  }

  function RoundUp(x: nat): nat {
    (x + 15) / 16 * 16
  }

  /** The stack is built exactly when strings and table, each rounded up to 16 bytes, fit. */
  lemma FitsExactly(argv: seq<seq<Byte>>, envp: seq<seq<Byte>>)
    ensures Fits(argv, envp) <==>
      RoundUp(StringBytes(argv) + StringBytes(envp)) + RoundUp(TableWords(|argv|, |envp|) * WORD) <= STACK_SIZE
  {
    hide SpFor, RoundUp, StringBytes, TableWords;
    FitsNumbers(StringBytes(envp) + StringBytes(argv), TableWords(|argv|, |envp|) * WORD);
  }

  lemma FitsNumbers(strings: nat, table: nat)
    ensures SpFor(strings, table) >= BASE <==> RoundUp(strings) + RoundUp(table) <= STACK_SIZE
  {
    hide AlignDown, RoundUp;
    RoundUpBounds(strings);
    RoundUpBounds(table);
    if strings <= STACK_TOP {
      AlignRound(STACK_TOP, strings);
      if table <= AlignDown(STACK_TOP - strings) { AlignRound(AlignDown(STACK_TOP - strings), table); }
    }
  }

  lemma RoundUpBounds(x: nat)
    ensures x <= RoundUp(x) && RoundUp(x) % 16 == 0
  {
  }

  lemma AlignRound(y: nat, x: nat)
    requires y % 16 == 0 && x <= y
    ensures AlignDown(y - x) == y - RoundUp(x) && AlignDown(y - x) % 16 == 0
  {
  }

  /** The budget of ExecArgs does not count the rounding: it admits arguments that do not fit. */
  lemma BudgetAdmitsMore(a: seq<Byte>, b: seq<Byte>)
    requires |a| == STACK_SIZE - 43 && |b| == 1
    ensures StringBytes([a]) + TableWords(1, 0) * WORD <= STACK_SIZE
    ensures StringBytes([a, b]) + TableWords(2, 0) * WORD <= STACK_SIZE
    ensures !Fits([a, b], [])
  {
    assert [a, b][1..] == [b] && [b][1..] == [];
    assert [a][1..] == [] && StringBytes([b]) == 2;
    assert StringBytes([a, b]) == STACK_SIZE - 40;
    FitsExactly([a, b], []);
  }
}
