/** Counter and monotonic time (kernel/src/time.rs:866-915). */
module TimeConvert {
  import opened Base
  import opened Arith

  const NANOS: nat := 1_000_000_000

  datatype Time = Time(seconds: nat, nanoseconds: nat)
  datatype ConvertError = InvalidFrequency | Overflow
  datatype Convert<T> = Ok(value: T) | Err(error: ConvertError)

  predicate AtMost(a: Time, b: Time) {
    a.seconds < b.seconds || (a.seconds == b.seconds && a.nanoseconds <= b.nanoseconds)
  }

  function CeilDiv(a: nat, b: nat): nat
    requires b > 0
  {
    if a % b == 0 then a / b else a / b + 1
  }

  function CheckedMul(a: nat, b: nat): Option<nat> {
    if a * b <= U64_MAX then Some(a * b) else None
  }

  /** Elapsed time at a counter value, rounded down. */
  function ToTime(counter: nat, frequency: nat): (r: Convert<Time>) {
    if frequency == 0 then Err(InvalidFrequency)
    else Ok(Time(counter / frequency, counter % frequency * NANOS / frequency))
  }

  /** First counter value at or after a time; a product that fits 64 bits avoids the wide division. */
  function ToCounter(t: Time, frequency: nat): (r: Convert<nat>) {
    if frequency == 0 then Err(InvalidFrequency)
    else if t.nanoseconds >= NANOS then Err(Overflow)
    else
      match CheckedMul(t.seconds, frequency)
      case None => Err(Overflow)
      case Some(whole) =>
        var fractional := match CheckedMul(t.nanoseconds, frequency)
          case Some(product) => Some(CeilDiv(product, NANOS))
          case None => Narrow(CeilDiv(t.nanoseconds * frequency, NANOS));
        if fractional.None? || whole + fractional.value > U64_MAX then Err(Overflow)
        else Ok(whole + fractional.value)
  }

  function Narrow(n: nat): Option<nat> {
    if n <= U64_MAX then Some(n) else None
  }

  /** The unbounded counter of a time. */
  function Exact(t: Time, frequency: nat): nat {
    t.seconds * frequency + CeilDiv(t.nanoseconds * frequency, NANOS)
  }

  lemma FloorGalois(a: nat, f: nat, k: nat)
    requires f > 0
    ensures k <= a / f <==> k * f <= a
  {
    var q := a / f;
    assert a == q * f + a % f;
    if k <= q { MulMono(k, q, f); } else { MulMono(q + 1, k, f); }
  }

  lemma FractionBounded(nanoseconds: nat, f: nat)
    requires nanoseconds < NANOS
    ensures CeilDiv(nanoseconds * f, NANOS) <= f
  {
    MulMono(nanoseconds, NANOS, f);
  }

  lemma CeilGalois(a: nat, k: nat)
    ensures CeilDiv(a, NANOS) <= k <==> a <= k * NANOS
  {
  }

  lemma FractionGalois(nanoseconds: nat, r: nat, f: nat)
    requires r < f
    ensures CeilDiv(nanoseconds * f, NANOS) <= r <==> nanoseconds <= r * NANOS / f
    ensures r * NANOS / f < NANOS
  {
    CeilGalois(nanoseconds * f, r);
    FloorGalois(r * NANOS, f, nanoseconds);
    FloorGalois(r * NANOS, f, NANOS);
    MulMono(r + 1, f, NANOS);
  }

  /** Whole seconds of a counter value, without division. */
  lemma SecondsSplit(seconds: nat, c: nat, f: nat)
    requires f > 0
    ensures seconds < c / f ==> seconds * f + f <= c - c % f
    ensures seconds == c / f ==> seconds * f == c - c % f
    ensures seconds > c / f ==> seconds * f >= c - c % f + f
  {
    var q := c / f;
    assert c - c % f == q * f;
    if seconds < q { MulMono(seconds + 1, q, f); }
    if seconds > q { MulMono(q + 1, seconds, f); }
  }

  /** A deadline is reached exactly when the time it was made from is reached: a sleep never ends
      early, and the deadline is the least counter with that property. */
  lemma Galois(t: Time, c: nat, f: nat)
    requires f > 0 && t.nanoseconds < NANOS
    ensures Exact(t, f) <= c <==> AtMost(t, ToTime(c, f).value)
    ensures ToTime(c, f).value.nanoseconds < NANOS
  {
    hide CeilDiv;
    FractionBounded(t.nanoseconds, f);
    FractionGalois(t.nanoseconds, c % f, f);
    SecondsSplit(t.seconds, c, f);
  }

  /** The 64-bit shortcut changes nothing, and the only overflow is that of the exact result. */
  lemma ToCounterExact(t: Time, f: nat)
    requires f <= U64_MAX
    ensures f == 0 ==> ToCounter(t, f) == Err(InvalidFrequency)
    ensures f > 0 && t.nanoseconds < NANOS ==>
      ToCounter(t, f) == if Exact(t, f) <= U64_MAX then Ok(Exact(t, f)) else Err(Overflow)
    ensures f > 0 && t.nanoseconds >= NANOS ==> ToCounter(t, f) == Err(Overflow)
  {
    if f > 0 && t.nanoseconds < NANOS { FractionBounded(t.nanoseconds, f); }
  }

  /** Hence a sleep until a representable deadline ends neither early nor later than necessary. */
  lemma SleepExact(t: Time, c: nat, f: nat)
    requires 0 < f <= U64_MAX && ToCounter(t, f).Ok?
    ensures ToCounter(t, f).value <= c <==> AtMost(t, ToTime(c, f).value)
  {
    ToCounterExact(t, f);
    Galois(t, c, f);
  }
}
