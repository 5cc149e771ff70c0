/**
 * The `CO2Accessory` class: one sensor's cached readings, the update methods
 * that overwrite them from fetched values, the getters that answer from the
 * cache, and the lifecycle of its polling timer.
 */
module Accessory {
  import opened Wrappers
  import opened JsonValue
  import opened Config
  import opened Policy
  import opened Resolver
  import opened Fetch
  import opened Host

  class CO2Accessory {
    const accessory: PlatformAccessory
    const config: SensorConfig
    const timers: Scheduler

    const minCO2: real
    const maxCO2: real
    const abnormalThreshold: real
    const minTemperature: real
    const maxTemperature: real

    var currentCO2Level: real
    var currentCO2Detected: int
    var currentTemperature: real
    var currentHumidity: real
    /** The handle of the polling timer, `None` once destroyed. */
    var updateInterval: Option<nat>

    function Thresholds(): Bounds {
      Bounds(minCO2, maxCO2, abnormalThreshold, minTemperature, maxTemperature)
    }

    /** The cache as a value. */
    function Cached(): Readings
      reads this
    {
      Readings(currentCO2Level, currentCO2Detected, currentTemperature, currentHumidity)
    }

    ghost predicate Valid()
      reads this
    {
      Thresholds() == BoundsOf(config) && Consistent(Cached())
    }

    /**
     * Reads the configuration from the accessory's context, takes the bounds
     * from it (`??` defaults), starts from the default readings and arms the
     * polling timer at `(updateInterval ?? 60) * 1000` ms.
     */
    constructor (platformAccessory: PlatformAccessory, timers: Scheduler)
      requires timers.Valid()
      modifies timers
      ensures Valid() && timers.Valid()
      ensures accessory == platformAccessory && this.timers == timers
      ensures config == ReadConfig(platformAccessory.config)
      ensures Cached() == DefaultReadings
      ensures updateInterval.Some? && updateInterval.value !in old(timers.active)
      ensures timers.active == old(timers.active)[updateInterval.value := IntervalMillis(config)]
    {
      accessory := platformAccessory;
      this.timers := timers;
      var c := ReadConfig(platformAccessory.config);
      config := c;
      var b := BoundsOf(c);
      minCO2 := b.minCO2;
      maxCO2 := b.maxCO2;
      abnormalThreshold := b.abnormalThreshold;
      minTemperature := b.minTemperature;
      maxTemperature := b.maxTemperature;
      currentCO2Level := DefaultReadings.co2Level;
      currentCO2Detected := DefaultReadings.co2Detected;
      currentTemperature := DefaultReadings.temperature;
      currentHumidity := DefaultReadings.humidity;
      updateInterval := None;
      new;
      StartPeriodicUpdates(IntervalMillis(config));
    }

    // -------------------------------------------------------------------
    // Getters: answer from the cache, never fetch.
    // -------------------------------------------------------------------

    method HandleCarbonDioxideDetectedGet() returns (detected: int)
      requires Valid()
      ensures detected == currentCO2Detected
      ensures detected == 0 || detected == 1
    {
      detected := currentCO2Detected;
    }

    method HandleCarbonDioxideLevelGet() returns (level: real)
      ensures level == currentCO2Level
    {
      level := currentCO2Level;
    }

    method HandleTemperatureGet() returns (temperature: real)
      ensures temperature == currentTemperature
    {
      temperature := currentTemperature;
    }

    method HandleHumidityGet() returns (humidity: real)
      requires Valid()
      ensures humidity == currentHumidity
      ensures HumidityMin <= humidity <= HumidityMax
    {
      humidity := currentHumidity;
    }

    // -------------------------------------------------------------------
    // Timer lifecycle
    // -------------------------------------------------------------------

    /** Disarms the current timer, if any, before arming the new one: at most one timer per accessory. */
    method StartPeriodicUpdates(interval: real)
      requires timers.Valid()
      modifies this`updateInterval, timers
      ensures timers.Valid()
      ensures updateInterval.Some? && updateInterval.value !in old(timers.active)
      ensures timers.active ==
        (if old(updateInterval).Some? then old(timers.active) - {old(updateInterval).value} else old(timers.active))
        [updateInterval.value := interval]
    {
      if updateInterval.Some? {
        timers.ClearInterval(updateInterval.value);
      }
      var handle := timers.SetInterval(interval);
      updateInterval := Some(handle);
    }

    /** Disarms the timer and forgets its handle; on a destroyed accessory it changes nothing. */
    method Destroy()
      requires timers.Valid()
      modifies this`updateInterval, timers
      ensures timers.Valid()
      ensures updateInterval.None?
      ensures old(updateInterval).Some? ==> timers.active == old(timers.active) - {old(updateInterval).value}
      ensures old(updateInterval).None? ==> unchanged(timers)
    {
      if updateInterval.Some? {
        timers.ClearInterval(updateInterval.value);
        updateInterval := None;
      }
    }

    // -------------------------------------------------------------------
    // Updates. Each writes only its own fields, and only when the fetch
    // produced a value; the fetch never throws.
    // -------------------------------------------------------------------

    method UpdateCO2Value(exchange: Exchange, natives: Natives)
      requires Valid()
      modifies this`currentCO2Level, this`currentCO2Detected
      ensures Valid()
      ensures Cached() == CommitCO2(old(Cached()), Thresholds(), FetchFamily(config, Primary, exchange, natives))
    {
      var fc := Resolve(config, Primary);
      var value := FetchValueFromApi(fc.url, Some(fc.jsonPath), fc.httpMethod, fc.headers, fc.body, fc.timeout,
                                     config.auth, exchange, natives);
      if value.Some? {
        var clampedValue := Clamp(minCO2, maxCO2, value.value);
        currentCO2Level := clampedValue;
        currentCO2Detected := if clampedValue > abnormalThreshold then 1 else 0;
      }
    }

    method UpdateTemperatureValue(exchange: Exchange, natives: Natives)
      requires Valid()
      modifies this`currentTemperature
      ensures Valid()
      ensures Cached() ==
        if config.enableTemperature
        then CommitTemperature(old(Cached()), Thresholds(), FetchFamily(config, Temperature, exchange, natives))
        else old(Cached())
    {
      if !config.enableTemperature {
        return;
      }
      var fc := Resolve(config, Temperature);
      var value := FetchValueFromApi(fc.url, Some(fc.jsonPath), fc.httpMethod, fc.headers, fc.body, fc.timeout,
                                     config.auth, exchange, natives);
      if value.Some? {
        currentTemperature := Clamp(minTemperature, maxTemperature, value.value);
      }
    }

    method UpdateHumidityValue(exchange: Exchange, natives: Natives)
      requires Valid()
      modifies this`currentHumidity
      ensures Valid()
      ensures Cached() ==
        if config.enableHumidity
        then CommitHumidity(old(Cached()), FetchFamily(config, Humidity, exchange, natives))
        else old(Cached())
    {
      if !config.enableHumidity {
        return;
      }
      var fc := Resolve(config, Humidity);
      var value := FetchValueFromApi(fc.url, Some(fc.jsonPath), fc.httpMethod, fc.headers, fc.body, fc.timeout,
                                     config.auth, exchange, natives);
      if value.Some? {
        currentHumidity := Clamp(HumidityMin, HumidityMax, value.value);
      }
    }

    /**
     * One polling cycle: CO2 always, temperature and humidity when enabled.
     * The three run concurrently in the source; they write disjoint fields,
     * so running them one after the other gives the same cache
     * (Policy.CommitsCommute).
     */
    method UpdateAllValues(co2Exchange: Exchange, temperatureExchange: Exchange, humidityExchange: Exchange,
                           natives: Natives)
      requires Valid()
      modifies this`currentCO2Level, this`currentCO2Detected, this`currentTemperature, this`currentHumidity
      ensures Valid()
      ensures Cached() == Tick(old(Cached()), Thresholds(), config.enableTemperature, config.enableHumidity,
                               FetchFamily(config, Primary, co2Exchange, natives),
                               FetchFamily(config, Temperature, temperatureExchange, natives),
                               FetchFamily(config, Humidity, humidityExchange, natives))
    {
      UpdateCO2Value(co2Exchange, natives);
      if config.enableTemperature {
        UpdateTemperatureValue(temperatureExchange, natives);
      }
      if config.enableHumidity {
        UpdateHumidityValue(humidityExchange, natives);
      }
    }
  }

  /**
   * Scenario: with `jsonPath` "co2", default bounds and the response
   * `{"co2": 1500}`, the cycle reports 1500 ppm and flags it abnormal.
   */
  lemma Co2ResponseScenario(c: SensorConfig, r: Readings, exchange: Exchange, natives: Natives)
    requires c.primary.jsonPath == Some("co2")
    requires c.minCO2.None? && c.maxCO2.None? && c.abnormalThreshold.None?
    requires exchange(RequestFor(c, Primary, natives.jsonParse)) == Success(JObject(map["co2" := JNumber(1500.0)]))
    ensures CommitCO2(r, BoundsOf(c), FetchFamily(c, Primary, exchange, natives)) == r.(co2Level := 1500.0, co2Detected := 1)
  {
    assert Nest(["co2"], JNumber(1500.0)) == JObject(map["co2" := JNumber(1500.0)]);
    assert Join(["co2"]) == "co2";
    ExtractNestedNumber(["co2"], 1500.0, natives.parseFloat);
  }

  /**
   * Scenario: the CO2 request fails while the temperature request, with
   * `temperatureJsonPath` "t", answers `{"t": 999}`; the CO2 fields keep
   * their values and the temperature becomes the default bound 100.
   */
  lemma PartialFailureScenario(c: SensorConfig, r: Readings, co2Exchange: Exchange, temperatureExchange: Exchange,
                               humidityExchange: Exchange, natives: Natives)
    requires c.enableTemperature && !c.enableHumidity
    requires c.temperature.jsonPath == Some("t")
    requires c.minTemperature.None? && c.maxTemperature.None?
    requires co2Exchange(RequestFor(c, Primary, natives.jsonParse)).Failure?
    requires temperatureExchange(RequestFor(c, Temperature, natives.jsonParse)) == Success(JObject(map["t" := JNumber(999.0)]))
    ensures Tick(r, BoundsOf(c), c.enableTemperature, c.enableHumidity,
                 FetchFamily(c, Primary, co2Exchange, natives),
                 FetchFamily(c, Temperature, temperatureExchange, natives),
                 FetchFamily(c, Humidity, humidityExchange, natives))
         == r.(temperature := 100.0)
  {
    assert Nest(["t"], JNumber(999.0)) == JObject(map["t" := JNumber(999.0)]);
    assert Join(["t"]) == "t";
    ExtractNestedNumber(["t"], 999.0, natives.parseFloat);
  }
}
