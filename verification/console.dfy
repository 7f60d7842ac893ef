/**
  Console output (kernel/src/console.rs:134-172, 221-313): a bounded ring of whole messages and the
  protocol by which writers drain it without a lock held.
 */
module Console {
  import opened Arith
  import opened Base
  import opened Ring

  const NEWLINE: Byte := 10
  const RETURN: Byte := 13
  const CHUNK: nat := 64

  function Concat(messages: seq<seq<Byte>>): seq<Byte> {
    if messages == [] then [] else messages[0] + Concat(messages[1..])
  }

  /** What the device receives: a carriage return before every newline. */
  function Expand(bytes: seq<Byte>): seq<Byte> {
    if bytes == [] then []
    else
      var last := bytes[|bytes| - 1];
      Expand(bytes[..|bytes| - 1]) + (if last == NEWLINE then [RETURN, NEWLINE] else [last])
  }

  lemma {:induction false} ConcatAppend(messages: seq<seq<Byte>>, m: seq<Byte>)
    ensures Concat(messages + [m]) == Concat(messages) + m
    decreases |messages|
  {
    if messages == [] {
      assert [m][1..] == [];
    } else {
      assert (messages + [m])[1..] == messages[1..] + [m];
      ConcatAppend(messages[1..], m);
    }
  }

  // ----- protocol -----

  /** Where a writer stands after its message was accepted. */
  datatype Pc =
    | Returned
    | Enqueued
    | Popping
    | Writing(rest: seq<Byte>)
    | Releasing
    | Rechecking
    | Retrying

  /** `accepted` records messages in acceptance order, `drained` the bytes handed to the device. */
  datatype Sys = Sys(capacity: nat, queue: seq<Byte>, draining: bool, writers: seq<Pc>,
                     accepted: seq<seq<Byte>>, drained: seq<Byte>, out: seq<Byte>)

  datatype Step =
    | Write(i: nat, message: seq<Byte>)
    | TryDrain(i: nat)
    | Pop(i: nat)
    | Emit(i: nat)
    | Drop(i: nat)
    | Recheck(i: nat)
    | Retry(i: nat)

  /** The draining flag is held from a successful exchange until it is dropped. */
  predicate Drains(pc: Pc) {
    pc.Popping? || pc.Writing? || pc.Releasing?
  }

  predicate Enabled(s: Sys, step: Step) {
    && step.i < |s.writers|
    && var pc := s.writers[step.i];
       match step
       case Write(_, _) => pc.Returned?
       case TryDrain(_) => pc.Enqueued?
       case Pop(_) => pc.Popping?
       case Emit(_) => pc.Writing?
       case Drop(_) => pc.Releasing?
       case Recheck(_) => pc.Rechecking?
       case Retry(_) => pc.Retrying?
  }

  function Goto(s: Sys, i: nat, pc: Pc): Sys
    requires i < |s.writers|
  {
    s.(writers := s.writers[i := pc])
  }

  function ChunkSize(s: Sys): nat {
    if |s.queue| < CHUNK then |s.queue| else CHUNK
  }

  function Exchange(s: Sys, i: nat): Sys
    requires i < |s.writers|
  {
    if s.draining then Goto(s, i, Returned) else Goto(s.(draining := true), i, Popping)
  }

  function Next(s: Sys, step: Step): Sys
    requires Enabled(s, step)
  {
    var i := step.i;
    match step
    case Write(_, message) =>
      // a message that does not fit is rejected whole
      if |message| > s.capacity - |s.queue| then s
      else Goto(s.(queue := s.queue + message, accepted := s.accepted + [message]), i, Enqueued)
    case TryDrain(_) => Exchange(s, i)
    case Pop(_) =>
      var n := ChunkSize(s);
      if n == 0 then Goto(s, i, Releasing) else Goto(s.(queue := s.queue[n..]), i, Writing(s.queue[..n]))
    case Emit(_) =>
      var rest := s.writers[i].rest;
      if rest == [] then Goto(s, i, Popping)
      else Goto(s.(drained := s.drained + [rest[0]],
                   out := s.out + (if rest[0] == NEWLINE then [RETURN, NEWLINE] else [rest[0]])), i, Writing(rest[1..]))
    case Drop(_) => Goto(s.(draining := false), i, Rechecking)
    case Recheck(_) => Goto(s, i, if s.queue == [] then Returned else Retrying)
    case Retry(_) => Exchange(s, i)
  }

  /** Bytes popped by the holder and not yet written. */
  function InFlight(writers: seq<Pc>): seq<Byte> {
    if writers == [] then []
    else (if writers[0].Writing? then writers[0].rest else []) + InFlight(writers[1..])
  }

  lemma {:induction false} NoneInFlight(writers: seq<Pc>)
    requires forall k :: 0 <= k < |writers| ==> !writers[k].Writing?
    ensures InFlight(writers) == []
    decreases |writers|
  {
    if writers != [] { NoneInFlight(writers[1..]); }
  }

  lemma {:induction false} OneInFlight(writers: seq<Pc>, i: nat)
    requires i < |writers| && forall k :: 0 <= k < |writers| && k != i ==> !writers[k].Writing?
    ensures InFlight(writers) == if writers[i].Writing? then writers[i].rest else []
    decreases |writers|
  {
    if i == 0 {
      NoneInFlight(writers[1..]);
    } else {
      OneInFlight(writers[1..], i - 1);
    }
  }

  ghost predicate Inv(s: Sys) {
    && |s.queue| <= s.capacity
    && Concat(s.accepted) == s.drained + InFlight(s.writers) + s.queue
    && s.out == Expand(s.drained)
    && (forall i, j :: 0 <= i < j < |s.writers| ==> !(Drains(s.writers[i]) && Drains(s.writers[j])))
    && (s.draining <==> exists i :: 0 <= i < |s.writers| && Drains(s.writers[i]))
    && (s.queue != [] ==> exists i :: 0 <= i < |s.writers| && !s.writers[i].Returned?)
  }

  /** While nobody else holds the flag, only the acting writer has bytes in flight. */
  lemma FlightOf(s: Sys, s': Sys, i: nat)
    requires Inv(s) && i < |s.writers| == |s'.writers| && s'.writers == s.writers[i := s'.writers[i]]
    requires Drains(s.writers[i]) || Drains(s'.writers[i]) ==>
      forall k :: 0 <= k < |s.writers| && k != i ==> !Drains(s.writers[k])
    ensures Drains(s.writers[i]) || Drains(s'.writers[i]) ==>
      && InFlight(s.writers) == (if s.writers[i].Writing? then s.writers[i].rest else [])
      && InFlight(s'.writers) == (if s'.writers[i].Writing? then s'.writers[i].rest else [])
    ensures !Drains(s.writers[i]) && !Drains(s'.writers[i]) ==> InFlight(s'.writers) == InFlight(s.writers)
  {
    if Drains(s.writers[i]) || Drains(s'.writers[i]) {
      OneInFlight(s.writers, i);
      OneInFlight(s'.writers, i);
    } else {
      SameFlight(s.writers, s'.writers);
    }
  }

  lemma {:induction false} SameFlight(a: seq<Pc>, b: seq<Pc>)
    requires |a| == |b| && forall k :: 0 <= k < |a| ==> a[k] == b[k] || (!a[k].Writing? && !b[k].Writing?)
    ensures InFlight(a) == InFlight(b)
    decreases |a|
  {
    if a != [] { SameFlight(a[1..], b[1..]); }
  }

  /** A message is accepted whole exactly when it fits, and a rejected one leaves nothing. */
  lemma AcceptedExactly(s: Sys, i: nat, message: seq<Byte>)
    requires Inv(s) && Enabled(s, Write(i, message))
    ensures
      var s' := Next(s, Write(i, message));
      if |s.queue| + |message| <= s.capacity
      then s'.accepted == s.accepted + [message] && s'.queue == s.queue + message && !s'.writers[i].Returned?
      else s' == s
  {
  }

  lemma StepInv(s: Sys, step: Step)
    requires Inv(s) && Enabled(s, step)
    ensures Inv(Next(s, step))
  {
    HoldersInv(s, step);
    BytesInv(s, step);
  }

  /** No byte is lost, duplicated or reordered. */
  lemma BytesInv(s: Sys, step: Step)
    requires Inv(s) && Enabled(s, step)
    ensures var s' := Next(s, step);
      && |s'.queue| <= s'.capacity && s'.out == Expand(s'.drained)
      && Concat(s'.accepted) == s'.drained + InFlight(s'.writers) + s'.queue
  {
    hide Concat, InFlight, Expand;
    var i, s' := step.i, Next(s, step);
    assert s.writers[i := s.writers[i]] == s.writers;
    FlightOf(s, s', i);
    match step
    case Write(_, message) =>
      ConcatAppend(s.accepted, message);
      var gone := s.drained + InFlight(s.writers);
      assert gone + (s.queue + message) == gone + s.queue + message;
    case Pop(_) => PopBytes(s.drained, s.queue, ChunkSize(s));
    case Emit(_) =>
      if s.writers[i].rest != [] { EmitBytes(s.drained, s.writers[i].rest, s.queue); }
    case _ =>
  }

  lemma PopBytes(drained: seq<Byte>, queue: seq<Byte>, n: nat)
    requires n <= |queue|
    ensures drained + [] + queue == drained + queue[..n] + queue[n..]
  {
  }

  lemma EmitBytes(drained: seq<Byte>, rest: seq<Byte>, queue: seq<Byte>)
    requires rest != []
    ensures drained + rest + queue == drained + [rest[0]] + rest[1..] + queue
    ensures Expand(drained + [rest[0]]) == Expand(drained) + if rest[0] == NEWLINE then [RETURN, NEWLINE] else [rest[0]]
  {
    var d := drained + [rest[0]];
    assert d[..|d| - 1] == drained;
  }

  /** The flag has one holder, and a nonempty queue has a writer on its way. */
  lemma HoldersInv(s: Sys, step: Step)
    requires Inv(s) && Enabled(s, step)
    ensures var s' := Next(s, step);
      && (forall i, j :: 0 <= i < j < |s'.writers| ==> !(Drains(s'.writers[i]) && Drains(s'.writers[j])))
      && (s'.draining <==> exists i :: 0 <= i < |s'.writers| && Drains(s'.writers[i]))
      && (s'.queue != [] ==> exists i :: 0 <= i < |s'.writers| && !s'.writers[i].Returned?)
  {
    hide Concat, Expand, InFlight;
    var i, s' := step.i, Next(s, step);
    assert s'.writers == s.writers[i := s'.writers[i]];
    assert Drains(s'.writers[i]) ==> Drains(s.writers[i]) || !s.draining;
    if s.draining {
      var h :| 0 <= h < |s.writers| && Drains(s.writers[h]);
      assert h != i ==> s'.writers[h] == s.writers[h];
    }
    if s'.draining && !s.draining { assert Drains(s'.writers[i]); }
    assert !s'.writers[i].Returned? || s'.queue == [] || s.draining || s' == s;
  }

  // ----- runs -----

  ghost predicate Initial(s: Sys) {
    && s.queue == [] && !s.draining && s.accepted == [] && s.drained == [] && s.out == []
    && forall i :: 0 <= i < |s.writers| ==> s.writers[i].Returned?
  }

  ghost predicate IsRun(states: seq<Sys>, steps: seq<Step>) {
    && |states| == |steps| + 1 && Initial(states[0])
    && forall n: nat :: n < |steps| ==> StepAt(states, steps, n)
  }

  ghost predicate StepAt(states: seq<Sys>, steps: seq<Step>, n: nat)
    requires n < |steps| && |states| == |steps| + 1
  {
    Enabled(states[n], steps[n]) && states[n + 1] == Next(states[n], steps[n])
  }

  lemma {:induction false} RunInv(states: seq<Sys>, steps: seq<Step>, n: nat)
    requires IsRun(states, steps) && n < |states|
    ensures Inv(states[n])
  {
    hide Inv, Next, Enabled;
    if n == 0 {
      InitialInv(states[0]);
    } else {
      RunInv(states, steps, n - 1);
      assert StepAt(states, steps, n - 1);
      StepInv(states[n - 1], steps[n - 1]);
    }
  }

  lemma InitialInv(s: Sys)
    requires Initial(s)
    ensures Inv(s)
  {
    NoneInFlight(s.writers);
  }

  /** What the device has received is always the expansion of a prefix of the accepted messages in
      acceptance order; rejected messages leave nothing. */
  lemma OutputIsPrefix(states: seq<Sys>, steps: seq<Step>, n: nat)
    requires IsRun(states, steps) && n < |states|
    ensures states[n].drained <= Concat(states[n].accepted) && states[n].out == Expand(states[n].drained)
  {
    RunInv(states, steps, n);
  }

  /** Nothing is stranded: once every writer has returned, every accepted byte is out. */
  lemma NothingStranded(states: seq<Sys>, steps: seq<Step>, n: nat)
    requires IsRun(states, steps) && n < |states|
    requires forall i :: 0 <= i < |states[n].writers| ==> states[n].writers[i].Returned?
    ensures states[n].queue == [] && !states[n].draining && states[n].out == Expand(Concat(states[n].accepted))
  {
    RunInv(states, steps, n);
    NoneInFlight(states[n].writers);
    assert states[n].drained + [] + [] == states[n].drained;
  }

  // ----- the drain ends -----

  /** Steps a writer is away from returning, apart from the bytes it still has to move. With bytes in
      the queue a writer at the end of its drain goes round again. */
  function Rank(pc: Pc, empty: bool): nat {
    match pc
    case Returned => 0
    case Rechecking => if empty then 1 else 4
    case Releasing => if empty then 2 else 5
    case Popping => if empty then 3 else 1
    case Writing(_) => if empty then 4 else 2
    case Enqueued => if empty then 5 else 3
    case Retrying => if empty then 5 else 3
  }

  function Ranks(writers: seq<Pc>, empty: bool): nat {
    if writers == [] then 0 else Rank(writers[0], empty) + Ranks(writers[1..], empty)
  }

  lemma {:induction false} RanksUpdate(writers: seq<Pc>, i: nat, pc: Pc, empty: bool)
    requires i < |writers|
    ensures Ranks(writers[i := pc], empty) + Rank(writers[i], empty) == Ranks(writers, empty) + Rank(pc, empty)
    decreases |writers|
  {
    if i == 0 {
      assert writers[i := pc][1..] == writers[1..];
    } else {
      assert writers[i := pc][1..] == writers[1..][i - 1 := pc];
      RanksUpdate(writers[1..], i - 1, pc, empty);
    }
  }

  lemma {:induction false} RanksBound(writers: seq<Pc>, empty: bool)
    ensures Ranks(writers, empty) <= 5 * |writers|
    decreases |writers|
  {
    if writers != [] { RanksBound(writers[1..], empty); }
  }

  function Units(s: Sys): nat {
    2 * |s.queue| + |InFlight(s.writers)|
  }

  /** Work left: a queued byte weighs two units, a popped byte one, and one unit outweighs all ranks. */
  function Work(s: Sys): nat {
    Units(s) * (5 * |s.writers| + 1) + Ranks(s.writers, s.queue == [])
  }

  /** A step moves bytes on, or brings its writer nearer to returning. */
  lemma StepMoves(s: Sys, step: Step)
    requires Inv(s) && Enabled(s, step) && !step.Write?
    ensures
      var s', i := Next(s, step), step.i;
      && i < |s.writers| == |s'.writers| && s'.writers == s.writers[i := s'.writers[i]]
      && (|| Units(s') < Units(s)
          || (Units(s') == Units(s) && s'.queue == s.queue
              && Rank(s'.writers[i], s.queue == []) < Rank(s.writers[i], s.queue == [])))
  {
    hide InFlight, Concat, Expand;
    var i, s' := step.i, Next(s, step);
    FlightOf(s, s', i);
  }

  /** Every step other than a new message leaves less work. */
  lemma StepLowersWork(s: Sys, step: Step)
    requires Inv(s) && Enabled(s, step) && !step.Write?
    ensures Work(Next(s, step)) < Work(s)
  {
    hide Inv, Units, Ranks, Rank, Next, Enabled;
    var i, s', unit := step.i, Next(s, step), 5 * |s.writers| + 1;
    StepMoves(s, step);
    if Units(s') < Units(s) {
      RanksBound(s'.writers, s'.queue == []);
      Outweigh(Units(s'), Units(s), unit, Ranks(s'.writers, s'.queue == []));
    } else {
      RanksUpdate(s.writers, i, s'.writers[i], s.queue == []);
    }
  }

  lemma Outweigh(a: nat, b: nat, unit: nat, rest: nat)
    requires a < b && rest < unit
    ensures a * unit + rest < b * unit
  {
    MulMono(a + 1, b, unit);
    assert (a + 1) * unit == a * unit + unit;
  }

  /** From the last message on a run takes no more steps than there was work, and a run that cannot
      go on has written every accepted byte. */
  lemma {:induction false} DrainEnds(states: seq<Sys>, steps: seq<Step>, n: nat)
    requires IsRun(states, steps) && n <= |steps|
    requires forall k :: n <= k < |steps| ==> !steps[k].Write?
    ensures |steps| - n + Work(states[|steps|]) <= Work(states[n])
    ensures
      var last := states[|steps|];
      (forall step: Step :: Enabled(last, step) ==> step.Write?) ==>
        last.queue == [] && last.out == Expand(Concat(last.accepted))
    decreases |steps| - n
  {
    hide Inv, Work, Next;
    var last := states[|steps|];
    if n < |steps| {
      RunInv(states, steps, n);
      assert StepAt(states, steps, n);
      StepLowersWork(states[n], steps[n]);
      DrainEnds(states, steps, n + 1);
    } else if forall step: Step :: Enabled(last, step) ==> step.Write? {
      forall i | 0 <= i < |last.writers| ensures last.writers[i].Returned? {
        if !last.writers[i].Returned? { NeverStuck(last, i); }
      }
      NothingStranded(states, steps, |steps|);
    }
  }

  /** A writer that has not returned has a next step, and it is not a message. */
  lemma NeverStuck(s: Sys, i: nat)
    requires i < |s.writers| && !s.writers[i].Returned?
    ensures exists step: Step :: Enabled(s, step) && !step.Write?
  {
    var step: Step :=
      match s.writers[i]
      case Enqueued => TryDrain(i)
      case Popping => Pop(i)
      case Writing(_) => Emit(i)
      case Releasing => Drop(i)
      case Rechecking => Recheck(i)
      case _ => Retry(i);
    assert Enabled(s, step);
  }

  // ----- the ring -----

  class ConsoleTx {
    const capacity: nat
    const ring: array<Byte>
    var head: nat
    var tail: nat
    var len: nat
    ghost var contents: seq<Byte>

    ghost predicate Valid()
      reads this, ring
    {
      && head < capacity == ring.Length && |contents| == len <= capacity && Holds(ring[..], head, contents)
      && tail == Index(head, capacity, len)
    }

    constructor (capacity: nat)
      requires 0 < capacity
      ensures Valid() && fresh(ring) && contents == [] && this.capacity == capacity
    {
      this.capacity := capacity;
      ring := new Byte[capacity](_ => 0);
      head, tail, len, contents := 0, 0, 0, [];
    }

    /** All of the bytes, or none. */
    method Push(bytes: seq<Byte>) returns (accepted: bool)
      requires Valid()
      modifies this`tail, this`len, this`contents, ring
      ensures Valid() && accepted == (|bytes| <= capacity - |old(contents)|)
      ensures contents == if accepted then old(contents) + bytes else old(contents)
    {
      hide Holds, Index;
      if |bytes| > capacity - len { return false; }
      var i := 0;
      ghost var before := contents;
      while i < |bytes|
        invariant i <= |bytes| <= capacity - len && contents == before + bytes[..i] && len == |before|
        invariant Holds(ring[..], head, contents) && tail == Index(head, capacity, len + i)
      {
        PushOne(ring[..], head, contents, bytes[i]);
        Advance(head, capacity, len + i);
        ring[tail] := bytes[i];
        tail := (tail + 1) % capacity;
        contents := contents + [bytes[i]];
        i := i + 1;
      }
      len := len + |bytes|;
      assert bytes[..i] == bytes;
      accepted := true;
    }

    /** Up to CHUNK bytes from the front. */
    method PopChunk() returns (chunk: seq<Byte>)
      requires Valid()
      modifies this`head, this`len, this`contents
      ensures Valid() && chunk == old(contents)[..if |old(contents)| < CHUNK then |old(contents)| else CHUNK]
      ensures contents == old(contents)[|chunk|..]
    {
      hide Holds, Index;
      var count := if len < CHUNK then len else CHUNK;
      chunk := [];
      ghost var all := contents;
      assert all[0..] == all;
      HeadIndex(head, capacity);
      while |chunk| < count
        invariant |chunk| <= count <= len == |all| <= capacity && head < capacity && chunk == all[..|chunk|]
        invariant Holds(ring[..], head, all[|chunk|..]) && tail == Index(head, capacity, len - |chunk|)
      {
        PopOne(ring[..], head, all[|chunk|..]);
        Advance(head, capacity, 0);
        HeadIndex(head, capacity);
        IndexShift(head, capacity, len - |chunk|);
        assert all[|chunk|..][1..] == all[|chunk| + 1..];
        chunk := chunk + [ring[head]];
        head := (head + 1) % capacity;
      }
      len := len - count;
      contents := all[count..];
    }

    /** Format a message from fragments; if one does not fit, the whole message is rolled back. */
    method TryWriteFragments(fragments: seq<seq<Byte>>) returns (accepted: bool)
      requires Valid()
      modifies this`tail, this`len, this`contents, ring
      ensures Valid() && accepted == (|Concat(fragments)| <= capacity - |old(contents)|)
      ensures contents == if accepted then old(contents) + Concat(fragments) else old(contents)
    {
      hide Holds, Index, Concat;
      var originalTail, originalLen := tail, len;
      ghost var before := contents;
      accepted := true;
      var i := 0;
      NoFragments(fragments);
      while i < |fragments| && accepted
        invariant i <= |fragments| && Valid() && before <= contents
        invariant accepted ==> contents == before + Concat(fragments[..i])
        invariant !accepted ==> |Concat(fragments)| > capacity - |before|
      {
        OneFragment(fragments, i);
        accepted := Push(fragments[i]);
        i := i + 1;
      }
      assert accepted ==> fragments[..i] == fragments;
      if !accepted {
        Prefix(ring[..], head, contents, |before|);
        assert contents[..|before|] == before;
        tail, len := originalTail, originalLen;
        contents := before;
      }
    }
  }

  lemma NoFragments(fragments: seq<seq<Byte>>)
    ensures Concat(fragments[..0]) == []
  {
  }

  lemma OneFragment(fragments: seq<seq<Byte>>, i: nat)
    requires i < |fragments|
    ensures Concat(fragments[..i + 1]) == Concat(fragments[..i]) + fragments[i]
    ensures |Concat(fragments[..i])| + |fragments[i]| <= |Concat(fragments)|
  {
    assert fragments[..i + 1] == fragments[..i] + [fragments[i]];
    ConcatAppend(fragments[..i], fragments[i]);
    ConcatPrefix(fragments, i + 1);
  }

  lemma {:induction false} ConcatPrefix(fragments: seq<seq<Byte>>, i: nat)
    requires i <= |fragments|
    ensures |Concat(fragments[..i])| <= |Concat(fragments)|
    decreases |fragments| - i
  {
    if i == |fragments| {
      assert fragments[..i] == fragments;
    } else {
      assert fragments[..i + 1] == fragments[..i] + [fragments[i]];
      ConcatAppend(fragments[..i], fragments[i]);
      ConcatPrefix(fragments, i + 1);
    }
  }
}
