// Go's time.Time and time.Duration as the modelled code uses them: instants and
// durations are whole nanoseconds, a Duration is an int64.
module GoTime {

  /** time.Duration units, in nanoseconds. */
  const Second: int := 1_000_000_000
  const Minute: int := 60 * Second
  const Hour: int := 60 * Minute

  const MaxInt64: int := 0x7fff_ffff_ffff_ffff
  const MinInt64: int := -0x8000_0000_0000_0000

  /** A time.Time: nanoseconds since the Unix epoch. */
  type Time = int

  /** The zero time.Time, 00:00 UTC on January 1 of year 1. */
  const ZeroTime: Time := -62_135_596_800 * Second

  predicate IsZero(t: Time) { t == ZeroTime }

  predicate InInt64(x: int) { MinInt64 <= x <= MaxInt64 }

  /** Time.Sub: the difference a - b, saturated to the Duration range. */
  function Sub(a: Time, b: Time): (d: int)
    ensures InInt64(d)
    ensures InInt64(a - b) ==> d == a - b
    ensures a - b > MaxInt64 ==> d == MaxInt64
    ensures a - b < MinInt64 ==> d == MinInt64
  {
    if a - b > MaxInt64 then MaxInt64 else if a - b < MinInt64 then MinInt64 else a - b
  }

  /** Time.Truncate(time.Second): rounded down to a whole second (the zero time is one). */
  function TruncateSecond(t: Time): (r: Time)
    ensures r <= t < r + Second
    ensures r % Second == 0
  {
    (t / Second) * Second
  }

  /** Duration addition, which wraps around modulo 2^64. */
  function AddInt64(a: int, b: int): (r: int)
    requires InInt64(a) && InInt64(b)
    ensures InInt64(r)
    ensures InInt64(a + b) ==> r == a + b
    ensures (r - (a + b)) % 0x1_0000_0000_0000_0000 == 0
  {
    if a + b > MaxInt64 then a + b - 0x1_0000_0000_0000_0000
    else if a + b < MinInt64 then a + b + 0x1_0000_0000_0000_0000
    else a + b
  }

  /** A truncated time is unchanged by truncating it again. */
  lemma TruncateSecondIdempotent(t: Time)
    ensures TruncateSecond(TruncateSecond(t)) == TruncateSecond(t)
  {
    var r := TruncateSecond(t);
    assert r == (r / Second) * Second;
  }

  /** Shifting by whole seconds commutes with truncation. */
  lemma TruncateShift(t: Time, k: int)
    ensures TruncateSecond(t + k * Second) == TruncateSecond(t) + k * Second
  {
    DivShift(t, k);
  }

  /** Whole seconds since the epoch, shifted by k seconds. */
  lemma {:induction false} DivShift(t: Time, k: int)
    ensures (t + k * Second) / Second == t / Second + k
  {
    var q := t / Second;
    var m := t % Second;
    assert t + k * Second == (q + k) * Second + m;
    DivUnique(t + k * Second, q + k, m);
  }

  lemma DivUnique(x: int, q: int, m: int)
    requires x == q * Second + m && 0 <= m < Second
    ensures x / Second == q
  {
  }
}
