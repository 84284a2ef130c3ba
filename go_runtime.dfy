/**
 * The pieces of Go's runtime and standard library the plugin relies on:
 * fixed-width integers, time.Duration arithmetic and errors.Is.
 */
module GoRuntime {

  /** Go's int64; `int` is 64 bits wide on every platform the plugin is built for. */
  type Int64 = x: int | -0x8000_0000_0000_0000 <= x < 0x8000_0000_0000_0000

  /** Go's int8, the element type of the status columns. */
  type Int8 = x: int | -0x80 <= x < 0x80

  const MinDuration: int := -0x8000_0000_0000_0000
  const MaxDuration: int := 0x7fff_ffff_ffff_ffff

  /** time.Duration: a signed 64-bit count of nanoseconds. */
  type Duration = d: int | MinDuration <= d <= MaxDuration

  const Second: Duration := 1_000_000_000
  const Minute: Duration := 60 * Second
  const Hour: Duration := 60 * Minute

  /** Go's `/` on integers: the quotient truncated toward zero. */
  function Quo(a: int, b: int): int
    requires b > 0
  {
    if a >= 0 then a / b else -((-a) / b)
  }

  /**
   * Go's `%` on integers truncates toward zero, so the remainder takes the
   * sign of the dividend (Dafny's own `%` never returns a negative value).
   */
  function Rem(a: int, b: int): (r: int)
    requires b > 0
    ensures -b < r < b
    ensures a >= 0 ==> 0 <= r <= a
    ensures a <= 0 ==> a <= r <= 0
    ensures a == b * Quo(a, b) + r
  {
    if a >= 0 then
      assert a == b * (a / b) + a % b;
      a % b
    else
      var n := -a;
      assert n == b * (n / b) + n % b;
      assert b * Quo(a, b) == -(b * (n / b));
      -(n % b)
  }

  /**
   * time.Duration.Truncate: d rounded toward zero to a multiple of m;
   * a non-positive m leaves d unchanged.
   */
  function Truncate(d: Duration, m: Duration): (r: Duration)
    ensures m <= 0 ==> r == d
    ensures m > 0 ==> r == m * Quo(d, m)
    ensures m > 0 && d >= 0 ==> 0 <= r <= d && d - r < m
    ensures m > 0 && d <= 0 ==> d <= r <= 0 && r - d < m
  {
    if m <= 0 then d
    else
      d - Rem(d, m)
  }

  /**
   * time.Time.Sub over instants given in nanoseconds: the difference,
   * saturated to the range of Duration when it does not fit.
   */
  function Sub(t: int, u: int): (r: Duration)
    ensures MinDuration <= t - u <= MaxDuration ==> r == t - u
    ensures t - u > MaxDuration ==> r == MaxDuration
    ensures t - u < MinDuration ==> r == MinDuration
  {
    if t - u > MaxDuration then MaxDuration
    else if t - u < MinDuration then MinDuration
    else t - u
  }

  /** The sentinel errors the plugin compares against with errors.Is. */
  datatype Sentinel =
    | DeadlineExceeded                 // context.DeadlineExceeded
    | RemoteRequest                    // errRemoteRequest
    | RemoteResponse                   // errRemoteResponse
    | TimerangeLimitExceeded           // errTimerangeLimitExceeded
    | TelemetryRequestedOutsideBounds  // errTelemetryRequestedOutsideBounds

  /**
   * A Go error: its Error() text and the set of sentinels found on its
   * wrap chain.
   */
  datatype Error = Error(message: string, chain: set<Sentinel>)

  /** errors.Is(err, target). */
  predicate Is(err: Error, target: Sentinel) {
    target in err.chain
  }
}
