/**
 * Circuit-breaker settings of Custom_RoundTrippers_Middlewares/.../client:
 * which configurations build a breaker, the defaults for zero fields, the
 * conversions into gobreaker's field types, and the trip rule. The breaker's
 * own state machine belongs to the gobreaker library and is not modelled.
 */
module CircuitBreaker {
  import opened Wrappers

  /** Go `int` fields, as read from the environment. */
  datatype BreakerConfig = BreakerConfig(maxRequests: int, interval: int, timeout: int)

  const DefaultTimeout := 5
  const DefaultInterval := 3
  const DefaultMaxRequests := 3

  const NanosPerSecond := 1_000_000_000

  /** Conversion to `uint32`: the value modulo 2^32. */
  function Uint32(x: int): (r: int)
    ensures 0 <= r < 0x1_0000_0000
    ensures 0 <= x < 0x1_0000_0000 ==> r == x
    ensures (x - r) % 0x1_0000_0000 == 0
  {
    x % 0x1_0000_0000
  }

  /** Two's-complement wrap-around into `int64`. */
  function Int64(x: int): (r: int)
    ensures -0x8000_0000_0000_0000 <= r < 0x8000_0000_0000_0000
    ensures -0x8000_0000_0000_0000 <= x < 0x8000_0000_0000_0000 ==> r == x
    ensures (x - r) % 0x1_0000_0000_0000_0000 == 0
  {
    var m := x % 0x1_0000_0000_0000_0000;
    if m < 0x8000_0000_0000_0000 then m else m - 0x1_0000_0000_0000_0000
  }

  /** `time.Duration(n) * time.Second`: nanoseconds, with int64 wrap-around. */
  function Seconds(n: int): (d: int)
    ensures -0x8000_0000_0000_0000 <= d < 0x8000_0000_0000_0000
    ensures -9_223_372_036 <= n <= 9_223_372_036 ==> d == n * NanosPerSecond
    ensures (d - n * NanosPerSecond) % 0x1_0000_0000_0000_0000 == 0
  {
    var w := Int64(n);
    var d := Int64(w * NanosPerSecond);
    ScaleCongruent(w, n, NanosPerSecond);
    CongruentTrans(d, w * NanosPerSecond, n * NanosPerSecond);
    d
  }

  lemma CongruentTrans(a: int, b: int, c: int)
    requires (b - a) % 0x1_0000_0000_0000_0000 == 0 && (b - c) % 0x1_0000_0000_0000_0000 == 0
    ensures (a - c) % 0x1_0000_0000_0000_0000 == 0
  {
    var p := (b - a) / 0x1_0000_0000_0000_0000;
    var q := (b - c) / 0x1_0000_0000_0000_0000;
    assert a - c == 0x1_0000_0000_0000_0000 * (q - p);
  }

  /** Multiplying both sides keeps a congruence modulo 2^64. */
  lemma ScaleCongruent(x: int, y: int, c: int)
    requires (x - y) % 0x1_0000_0000_0000_0000 == 0
    ensures (x * c - y * c) % 0x1_0000_0000_0000_0000 == 0
  {
    var q := (x - y) / 0x1_0000_0000_0000_0000;
    assert x - y == 0x1_0000_0000_0000_0000 * q;
    assert x * c - y * c == (x - y) * c;
    assert x * c - y * c == 0x1_0000_0000_0000_0000 * (q * c);
  }

  /** The fields of `gobreaker.Settings` the client sets (the state-change logger aside). */
  datatype Settings = Settings(name: string, maxRequests: int, interval: int, timeout: int)

  /** Some field is set, so a breaker is wanted. */
  predicate Wanted(cfg: BreakerConfig)
  {
    cfg.timeout != 0 || cfg.interval != 0 || cfg.maxRequests != 0
  }

  /** Exactly-zero fields take their defaults; every other value is kept as given. */
  function WithDefaults(cfg: BreakerConfig): (c: BreakerConfig)
    ensures cfg.timeout != 0 ==> c.timeout == cfg.timeout
    ensures cfg.interval != 0 ==> c.interval == cfg.interval
    ensures cfg.maxRequests != 0 ==> c.maxRequests == cfg.maxRequests
    ensures cfg.timeout == 0 ==> c.timeout == DefaultTimeout
    ensures cfg.interval == 0 ==> c.interval == DefaultInterval
    ensures cfg.maxRequests == 0 ==> c.maxRequests == DefaultMaxRequests
  {
    BreakerConfig(
      if cfg.maxRequests == 0 then DefaultMaxRequests else cfg.maxRequests,
      if cfg.interval == 0 then DefaultInterval else cfg.interval,
      if cfg.timeout == 0 then DefaultTimeout else cfg.timeout)
  }

  /** After defaulting no field is zero, and defaulting again changes nothing. */
  lemma WithDefaultsIdempotent(cfg: BreakerConfig)
    ensures WithDefaults(cfg).maxRequests != 0 && WithDefaults(cfg).interval != 0 && WithDefaults(cfg).timeout != 0
    ensures WithDefaults(WithDefaults(cfg)) == WithDefaults(cfg)
    ensures Wanted(WithDefaults(cfg))
  {
  }

  /**
   * `configureCircuitBreaker`: no breaker when all three fields are zero;
   * otherwise the named breaker with the defaulted fields converted to
   * gobreaker's types. The error result is always nil.
   */
  function ConfigureCircuitBreaker(cfg: BreakerConfig): (r: (Option<Settings>, Option<string>))
    ensures r.1 == None
    ensures r.0.None? <==> cfg == BreakerConfig(0, 0, 0)
    ensures r.0.Some? ==> r.0.value.name == "HTTPClient"
    ensures r.0.Some? ==> r.0.value.maxRequests == Uint32(WithDefaults(cfg).maxRequests)
    ensures r.0.Some? ==> r.0.value.interval == Seconds(WithDefaults(cfg).interval)
    ensures r.0.Some? ==> r.0.value.timeout == Seconds(WithDefaults(cfg).timeout)
  {
    if Wanted(cfg) then
      var c := WithDefaults(cfg);
      (Some(Settings("HTTPClient", Uint32(c.maxRequests), Seconds(c.interval), Seconds(c.timeout))), None)
    else (None, None)
  }

  /** An unset timeout and interval give a breaker of 5 s and 3 s; whole seconds become nanoseconds. */
  lemma DefaultDurations(maxRequests: int)
    requires maxRequests != 0
    ensures ConfigureCircuitBreaker(BreakerConfig(maxRequests, 0, 0)).0 ==
      Some(Settings("HTTPClient", Uint32(maxRequests), 3_000_000_000, 5_000_000_000))
  {
  }

  /** About 292 years is the most that fits: the first whole second past that range wraps round to the opposite sign. */
  lemma SecondsRange()
    ensures Seconds(9_223_372_036) > 0 && Seconds(9_223_372_037) < 0
    ensures Seconds(-9_223_372_036) < 0 && Seconds(-9_223_372_037) > 0
  {
  }

  /** A negative request limit becomes a large unsigned one, as Go's conversion does. */
  lemma NegativeMaxRequests(m: int)
    requires -0x1_0000_0000 < m < 0
    ensures ConfigureCircuitBreaker(BreakerConfig(m, 0, 0)).0.value.maxRequests == m + 0x1_0000_0000
  {
  }

  /** `ReadyToTrip`: open once more than two consecutive requests have failed. */
  function ReadyToTrip(consecutiveFailures: nat): (trip: bool)
    ensures trip <==> consecutiveFailures >= 3
  {
    consecutiveFailures > 2
  }
}
