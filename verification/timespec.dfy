/** struct timespec, read as a number of nanoseconds. */
module Timespecs {
  const NANO_PER_SEC: int := 1_000_000_000

  datatype Timespec = Timespec(sec: int, nsec: int)

  function Total(t: Timespec): int {
    t.sec * NANO_PER_SEC + t.nsec
  }
}

/** Ruby numbers to struct timespec and back, over the reals. */
module TimespecConversion {

  import opened Timespecs

  const TIME_MIN: int := -0x8000_0000_0000_0000
  const TIME_MAX: int := 0x7fff_ffff_ffff_ffff

  datatype Num = Fixnum(n: int) | Float(x: real) | NotANumber
  datatype Result = Ok(ts: Timespec) | RangeError | TypeError

  predicate InRange(n: int) {
    TIME_MIN <= n <= TIME_MAX
  }

  /** The nearest whole number of nanoseconds, halves away from zero. */
  function RoundNanos(x: real): int {
    if x >= 0.0 then (x * 1e9 + 0.5).Floor else -(-x * 1e9 + 0.5).Floor
  }

  /** The integer part that modf(3) returns. */
  function Truncate(x: real): int {
    if x >= 0.0 then x.Floor else -(-x).Floor
  }

  /** The seconds field: negative numbers are split like a clock (nanoseconds never negative),
      others keep their integer part even when the fraction rounds up to a full second. */
  function Seconds(x: real): int {
    if x < 0.0 then RoundNanos(x) / NANO_PER_SEC else x.Floor
  }

  function Convert(num: Num): Result {
    match num
    case Fixnum(n) => if InRange(n) then Ok(Timespec(n, 0)) else RangeError
    case Float(x) =>
      if InRange(Seconds(x)) then Ok(Timespec(Seconds(x), RoundNanos(x) - Seconds(x) * NANO_PER_SEC)) else RangeError
    case NotANumber => TypeError
  }

  lemma FloorBounds(y: real, n: int)
    requires n as real <= y < n as real + 1.0
    ensures y.Floor == n
  {
  }

  lemma FloorShift(y: real, n: int)
    ensures (y + n as real).Floor == y.Floor + n
  {
    FloorBounds(y + n as real, y.Floor + n);
  }

  /** value2timespec, statement by statement: it computes the clock-style split of the rounded total. */
  method ValueToTimespec(num: Num) returns (r: Result)
    ensures r == Convert(num)
  {
    match num
    case Fixnum(n) => return if InRange(n) then Ok(Timespec(n, 0)) else RangeError;
    case NotANumber => return TypeError;
    case Float(x) =>
      var f := Truncate(x);
      var d := x - f as real;
      var nsec: int;
      if d >= 0.0 {
        nsec := (d * 1e9 + 0.5).Floor;
        PositivePart(x);
      } else {
        nsec := (-d * 1e9 + 0.5).Floor;
        NegativePart(x);
        if nsec > 0 {
          nsec := NANO_PER_SEC - nsec;
          f := f - 1;
        }
      }
      if !InRange(f) { return RangeError; }
      return Ok(Timespec(f, nsec));
  }

  lemma PositivePart(x: real)
    requires x - Truncate(x) as real >= 0.0
    ensures
      var f := Truncate(x);
      var nsec := ((x - f as real) * 1e9 + 0.5).Floor;
      && RoundNanos(x) == f * NANO_PER_SEC + nsec && Seconds(x) == f
  {
    var f := Truncate(x);
    var d := x - f as real;
    assert x * 1e9 + 0.5 == (d * 1e9 + 0.5) + (f * NANO_PER_SEC) as real;
    FloorShift(d * 1e9 + 0.5, f * NANO_PER_SEC);
    if x < 0.0 {
      // a negative whole number
      assert x == f as real;
      FloorBounds(-x * 1e9 + 0.5, -f * NANO_PER_SEC);
      FloorBounds(d * 1e9 + 0.5, 0);
    }
  }

  lemma NegativePart(x: real)
    requires x - Truncate(x) as real < 0.0
    ensures
      var f := Truncate(x);
      var nsec := (-(x - f as real) * 1e9 + 0.5).Floor;
      && 0 <= nsec <= NANO_PER_SEC && RoundNanos(x) == f * NANO_PER_SEC - nsec
      && Seconds(x) == if nsec > 0 then f - 1 else f
  {
    var f := Truncate(x);
    var d := x - f as real;
    assert -x * 1e9 + 0.5 == (-d * 1e9 + 0.5) + (-f * NANO_PER_SEC) as real;
    FloorShift(-d * 1e9 + 0.5, -f * NANO_PER_SEC);
  }

  /** When conversion succeeds, for every input: an integer exactly when it fits a time_t; a float exactly
      when, rounded to nanoseconds and split like a clock, its seconds do; anything else is a TypeError. */
  lemma ConvertsExactly(num: Num)
    ensures
      match num
      case Fixnum(n) =>
        Convert(num) == if -0x8000_0000_0000_0000 <= n < 0x8000_0000_0000_0000 then Ok(Timespec(n, 0)) else RangeError
      case Float(x) =>
        && !Convert(num).TypeError?
        && (Convert(num).Ok? <==> -9_223_372_036_854_775_808_000_000_000.5 < x * 1e9 && x < 9_223_372_036_854_775_808.0)
      case NotANumber => Convert(num) == TypeError
  {
    if num.Float? && num.x < 0.0 {
      var y := -num.x * 1e9 + 0.5;
      var least := 9_223_372_036_854_775_808_000_000_000;
      assert y.Floor <= least <==> y < least as real + 1.0;
      assert Seconds(num.x) >= TIME_MIN <==> -y.Floor >= -least;
    }
  }

  /** A whole number converts alike as a float and as an integer. */
  lemma WholeFloats(n: int)
    ensures Convert(Float(n as real)) == Convert(Fixnum(n))
  {
    FloorBounds(n as real, n);
    FloorBounds(n as real * 1e9 + 0.5, n * NANO_PER_SEC);
    FloorBounds(-(n as real) * 1e9 + 0.5, -n * NANO_PER_SEC);
  }

  /** For every number that converts, the result is within half a nanosecond of it (halves away from zero) and
      0 <= nsec <= 10^9; nsec reaches 10^9 exactly when the fraction of a non-negative number rounds up to a second. */
  lemma WithinHalfANanosecond(x: real)
    requires Convert(Float(x)).Ok?
    ensures
      var ts := Convert(Float(x)).ts;
      && -0.5 <= Total(ts) as real - x * 1e9 <= 0.5
      && (Total(ts) as real - x * 1e9 == 0.5 ==> x >= 0.0) && (Total(ts) as real - x * 1e9 == -0.5 ==> x < 0.0)
      && 0 <= ts.nsec <= NANO_PER_SEC
      && (ts.nsec == NANO_PER_SEC <==> x >= 0.0 && (x - x.Floor as real) * 1e9 + 0.5 >= 1e9)
  {
    if x >= 0.0 {
      PositivePart(x);
    }
  }

  /** timespec2num */
  function ToNum(ts: Timespec): Num {
    if ts.nsec == 0 then Fixnum(ts.sec) else Float(ts.sec as real + ts.nsec as real / 1e9)
  }

  /** Any normalised timespec survives the trip to a number and back. */
  lemma TimespecRoundTrip(ts: Timespec)
    requires InRange(ts.sec) && 0 <= ts.nsec < NANO_PER_SEC
    ensures Convert(ToNum(ts)) == Ok(ts) && (ToNum(ts).Fixnum? <==> ts.nsec == 0)
  {
    if ts.nsec != 0 {
      var x := ts.sec as real + ts.nsec as real / 1e9;
      var total := Total(ts);
      assert x * 1e9 == total as real;
      if x >= 0.0 {
        FloorBounds(x * 1e9 + 0.5, total);
        FloorBounds(x, ts.sec);
      } else {
        FloorBounds(-x * 1e9 + 0.5, -total);
        assert total / NANO_PER_SEC == ts.sec;
      }
    }
  }
}
