/**
 * Go's `time.Duration`: a signed 64-bit count of nanoseconds, with
 * `Hours()` and `Minutes()` as floating-point views (here exact reals).
 * `time.ParseDuration` is not modelled: it is a parameter of type
 * `DurationParser`, so what is proved holds for every parser.
 */
module Time {
  import opened Wrappers
  import opened Ints

  type Duration = Int64

  const Second: int := 1_000_000_000
  const Minute: int := 60 * Second
  const Hour: int := 60 * Minute

  /** `time.ParseDuration`: a duration or `None` for its error. */
  type DurationParser = string -> Option<Duration>

  /** Go's integer `/`, which truncates toward zero. */
  function Quo(a: int, b: int): (q: int)
    requires b > 0
    ensures a >= 0 ==> q * b <= a < q * b + b
    ensures a < 0 ==> q * b - b < a <= q * b
  {
    if a >= 0 then a / b else -((-a) / b)
  }

  /** `d.Hours()`: whole hours plus the remainder, which sums to exactly d / Hour. */
  function Hours(d: Duration): (h: real)
    ensures h == d as real / 3_600_000_000_000.0
  {
    var hour := Quo(d, Hour);
    var nsec := d - hour * Hour;
    hour as real + nsec as real / (60.0 * 60.0 * 1_000_000_000.0)
  }

  /** `d.Minutes()`: whole minutes plus the remainder, which sums to exactly d / Minute. */
  function Minutes(d: Duration): (m: real)
    ensures m == d as real / 60_000_000_000.0
  {
    var min := Quo(d, Minute);
    var nsec := d - min * Minute;
    min as real + nsec as real / (60.0 * 1_000_000_000.0)
  }

  lemma MinutesPerHour(d: Duration)
    ensures Minutes(d) / 60.0 == Hours(d)
    ensures d > 0 ==> Hours(d) > 0.0
    ensures d <= 0 ==> Hours(d) <= 0.0
  {
  }
}
