/**
 * The clamp and threshold policy, and the cached readings an accessory keeps:
 * how one fetched value (or `null`) changes them.
 */
module Policy {
  import opened Wrappers
  import opened Config

  function Min(a: real, b: real): real {
    if a <= b then a else b
  }

  function Max(a: real, b: real): real {
    if a >= b then a else b
  }

  /** `Math.max(lo, Math.min(hi, v))`. */
  function Clamp(lo: real, hi: real, v: real): (c: real)
    ensures c == lo || c == hi || c == v
    ensures lo <= hi ==> lo <= c <= hi
  {
    Max(lo, Min(hi, v))
  }

  /** Within a non-empty range the clamped value lies in the range, and a value already in it is kept. */
  lemma ClampInRange(lo: real, hi: real, v: real)
    requires lo <= hi
    ensures lo <= Clamp(lo, hi, v) <= hi
    ensures lo <= v <= hi ==> Clamp(lo, hi, v) == v
    ensures v < lo ==> Clamp(lo, hi, v) == lo
    ensures hi < v ==> Clamp(lo, hi, v) == hi
  {
  }

  /** Clamping is monotonic in the raw value and idempotent. */
  lemma ClampMonotonic(lo: real, hi: real, v: real, w: real)
    requires v <= w
    ensures Clamp(lo, hi, v) <= Clamp(lo, hi, w)
    ensures Clamp(lo, hi, Clamp(lo, hi, v)) == Clamp(lo, hi, v)
  {
  }

  /** With an inverted range the lower bound wins: `max` is applied last. */
  lemma ClampInvertedRange(lo: real, hi: real, v: real)
    requires hi < lo
    ensures Clamp(lo, hi, v) == lo
  {
  }

  /** `clamped > abnormalThreshold ? 1 : 0`. */
  function Detected(level: real, threshold: real): (d: int)
    ensures d == 0 || d == 1
    ensures d == 1 <==> level > threshold
  {
    if level > threshold then 1 else 0
  }

  const HumidityMin: real := 0.0
  const HumidityMax: real := 100.0

  // ---------------------------------------------------------------------
  // Cached readings
  // ---------------------------------------------------------------------

  datatype Readings = Readings(co2Level: real, co2Detected: int, temperature: real, humidity: real)

  /** The values a freshly built accessory reports before any fetch completes. */
  const DefaultReadings: Readings := Readings(400.0, 0, 20.0, 50.0)

  /** The CO2 update: a value sets the clamped level and its detection flag, `null` changes nothing. */
  function CommitCO2(r: Readings, b: Bounds, value: Option<real>): (r': Readings)
    ensures r'.temperature == r.temperature && r'.humidity == r.humidity
    ensures value.None? ==> r' == r
    ensures value.Some? ==> r'.co2Level == Clamp(b.minCO2, b.maxCO2, value.value)
    ensures value.Some? ==> (r'.co2Detected == 1 <==> r'.co2Level > b.abnormalThreshold)
    ensures value.Some? ==> (r'.co2Detected == 0 <==> r'.co2Level <= b.abnormalThreshold)
  {
    match value
    case None => r
    case Some(v) =>
      var level := Clamp(b.minCO2, b.maxCO2, v);
      r.(co2Level := level, co2Detected := Detected(level, b.abnormalThreshold))
  }

  /** The temperature update: a value sets the clamped temperature, `null` changes nothing. */
  function CommitTemperature(r: Readings, b: Bounds, value: Option<real>): (r': Readings)
    ensures r'.co2Level == r.co2Level && r'.co2Detected == r.co2Detected && r'.humidity == r.humidity
    ensures value.None? ==> r' == r
    ensures value.Some? ==> r'.temperature == Clamp(b.minTemperature, b.maxTemperature, value.value)
    ensures value.Some? && b.minTemperature <= b.maxTemperature ==>
              b.minTemperature <= r'.temperature <= b.maxTemperature
  {
    match value
    case None => r
    case Some(v) => r.(temperature := Clamp(b.minTemperature, b.maxTemperature, v))
  }

  /** The humidity update: a value sets the humidity clamped to the fixed range [0, 100]. */
  function CommitHumidity(r: Readings, value: Option<real>): (r': Readings)
    ensures r'.co2Level == r.co2Level && r'.co2Detected == r.co2Detected && r'.temperature == r.temperature
    ensures value.None? ==> r' == r
    ensures value.Some? ==> r'.humidity == Clamp(HumidityMin, HumidityMax, value.value)
    ensures value.Some? ==> HumidityMin <= r'.humidity <= HumidityMax
  {
    match value
    case None => r
    case Some(v) => r.(humidity := Clamp(HumidityMin, HumidityMax, v))
  }

  /**
   * One update cycle: CO2 always, temperature and humidity only when enabled.
   * The fetched values are those of the three concurrent requests (`null` on failure).
   */
  function Tick(r: Readings, b: Bounds, enableTemperature: bool, enableHumidity: bool,
                co2: Option<real>, temperature: Option<real>, humidity: Option<real>): (r': Readings)
    ensures r'.co2Level == CommitCO2(r, b, co2).co2Level && r'.co2Detected == CommitCO2(r, b, co2).co2Detected
    ensures !enableTemperature ==> r'.temperature == r.temperature
    ensures !enableHumidity ==> r'.humidity == r.humidity
  {
    var r1 := CommitCO2(r, b, co2);
    var r2 := if enableTemperature then CommitTemperature(r1, b, temperature) else r1;
    if enableHumidity then CommitHumidity(r2, humidity) else r2
  }

  /**
   * The three commits touch disjoint fields, so the order in which the
   * concurrent fetches complete does not change the outcome of a cycle.
   */
  lemma CommitsCommute(r: Readings, b: Bounds, c: Option<real>, t: Option<real>, h: Option<real>)
    ensures CommitTemperature(CommitCO2(r, b, c), b, t) == CommitCO2(CommitTemperature(r, b, t), b, c)
    ensures CommitHumidity(CommitCO2(r, b, c), h) == CommitCO2(CommitHumidity(r, h), b, c)
    ensures CommitHumidity(CommitTemperature(r, b, t), h) == CommitTemperature(CommitHumidity(r, h), b, t)
  {
  }

  /**
   * What one cycle leaves: each field is its own family's clamped value if
   * that family ran and fetched a value, and otherwise keeps its old value.
   * A failure in one family leaves the others' updates intact.
   */
  lemma TickFieldwise(r: Readings, b: Bounds, et: bool, eh: bool,
                      co2: Option<real>, temperature: Option<real>, humidity: Option<real>)
    ensures var r' := Tick(r, b, et, eh, co2, temperature, humidity);
      && (r'.co2Level == if co2.Some? then Clamp(b.minCO2, b.maxCO2, co2.value) else r.co2Level)
      && (r'.co2Detected == if co2.Some? then Detected(r'.co2Level, b.abnormalThreshold) else r.co2Detected)
      && (r'.temperature == if et && temperature.Some? then Clamp(b.minTemperature, b.maxTemperature, temperature.value) else r.temperature)
      && (r'.humidity == if eh && humidity.Some? then Clamp(HumidityMin, HumidityMax, humidity.value) else r.humidity)
  {
  }

  /** The readings an accessory can be observed in: the consistency each commit re-establishes. */
  predicate Consistent(r: Readings) {
    && (r.co2Detected == 0 || r.co2Detected == 1)
    && HumidityMin <= r.humidity <= HumidityMax
  }

  lemma {:induction false} TickKeepsConsistent(r: Readings, b: Bounds, et: bool, eh: bool,
                                               co2: Option<real>, t: Option<real>, h: Option<real>)
    requires Consistent(r)
    ensures Consistent(Tick(r, b, et, eh, co2, t, h))
  {
    var r1 := CommitCO2(r, b, co2);
    var r2 := if et then CommitTemperature(r1, b, t) else r1;
    assert Consistent(r1);
    assert Consistent(r2);
  }

  /** Scenario: a reading of 1500 ppm under default bounds is kept and flagged abnormal. */
  lemma AbnormalReadingScenario(r: Readings, c: SensorConfig)
    requires c.minCO2.None? && c.maxCO2.None? && c.abnormalThreshold.None?
    ensures CommitCO2(r, BoundsOf(c), Some(1500.0)).co2Level == 1500.0
    ensures CommitCO2(r, BoundsOf(c), Some(1500.0)).co2Detected == 1
  {
  }

  /** Scenario: a temperature of 999 under the default range is reported as 100. */
  lemma HotReadingScenario(r: Readings, c: SensorConfig)
    requires c.minTemperature.None? && c.maxTemperature.None?
    ensures CommitTemperature(r, BoundsOf(c), Some(999.0)).temperature == 100.0
  {
  }

  /** At the threshold itself the level is normal: the comparison is strict. */
  lemma ThresholdIsStrict(r: Readings, b: Bounds)
    requires b.minCO2 <= b.abnormalThreshold <= b.maxCO2
    ensures CommitCO2(r, b, Some(b.abnormalThreshold)).co2Detected == 0
  {
  }
}
