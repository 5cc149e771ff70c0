/**
 * The arguments each update method passes to the fetch: one resolver shared
 * by the three field families. Temperature and humidity fall back field by
 * field, with JavaScript's `||`, from their own override to the primary
 * value.
 */
module Resolver {
  import opened Wrappers
  import opened Config

  datatype Family = Primary | Temperature | Humidity

  /** The effective request fields of one family, before the fetch applies its own defaults. */
  datatype FieldConfig = FieldConfig(
    url: string,
    jsonPath: string,
    httpMethod: Option<HttpMethod>,
    headers: Option<Headers>,
    body: Option<string>,
    timeout: Option<real>)

  // `a || b` for each kind of optional value. A string is falsy when empty,
  // a number when zero, and a headers object (like every object) never.

  predicate TruthyString(a: Option<string>) {
    a.Some? && a.value != ""
  }

  predicate TruthyNumber(a: Option<real>) {
    a.Some? && a.value != 0.0
  }

  function OrString(a: Option<string>, b: Option<string>): Option<string> {
    if TruthyString(a) then a else b
  }

  function OrStringDefault(a: Option<string>, d: string): string {
    if TruthyString(a) then a.value else d
  }

  function OrNumber(a: Option<real>, b: Option<real>): Option<real> {
    if TruthyNumber(a) then a else b
  }

  function OrMethod(a: Option<HttpMethod>, b: Option<HttpMethod>): Option<HttpMethod> {
    if a.Some? then a else b
  }

  function OrHeaders(a: Option<Headers>, b: Option<Headers>): Option<Headers> {
    if a.Some? then a else b
  }

  function DefaultPath(f: Family): string {
    match f
    case Primary => "co2"
    case Temperature => "temp"
    case Humidity => "humidity"
  }

  function Overrides(c: SensorConfig, f: Family): RequestFields {
    match f
    case Primary => c.primary
    case Temperature => c.temperature
    case Humidity => c.humidity
  }

  function UrlOverride(c: SensorConfig, f: Family): Option<string> {
    match f
    case Primary => None
    case Temperature => c.temperatureUrl
    case Humidity => c.humidityUrl
  }

  /** The arguments of the family's `fetchValueFromAPI` call. */
  function Resolve(c: SensorConfig, f: Family): (r: FieldConfig)
    ensures r.jsonPath != ""
    ensures f == Primary ==>
      && r.url == c.url && r.httpMethod == c.primary.httpMethod && r.headers == c.primary.headers
      && r.body == c.primary.body && r.timeout == c.primary.timeout
  {
    if f == Primary then
      FieldConfig(c.url, OrStringDefault(c.primary.jsonPath, DefaultPath(f)), c.primary.httpMethod,
                  c.primary.headers, c.primary.body, c.primary.timeout)
    else
      var o := Overrides(c, f);
      FieldConfig(
        OrStringDefault(UrlOverride(c, f), c.url),
        OrStringDefault(OrString(o.jsonPath, c.primary.jsonPath), DefaultPath(f)),
        OrMethod(o.httpMethod, c.primary.httpMethod),
        OrHeaders(o.headers, c.primary.headers),
        OrString(o.body, c.primary.body),
        OrNumber(o.timeout, c.primary.timeout))
  }

  /**
   * The path chain: the family's own path if non-empty, else the primary
   * path if non-empty, else the family default. CO2 has only the last two.
   */
  lemma PathChain(c: SensorConfig, f: Family)
    ensures f == Primary ==>
      Resolve(c, f).jsonPath == (if TruthyString(c.primary.jsonPath) then c.primary.jsonPath.value else "co2")
    ensures f != Primary ==>
      Resolve(c, f).jsonPath ==
        if TruthyString(Overrides(c, f).jsonPath) then Overrides(c, f).jsonPath.value
        else if TruthyString(c.primary.jsonPath) then c.primary.jsonPath.value
        else DefaultPath(f)
  {
  }

  /** The CO2 request is built from the primary fields alone: no override ever reaches it. */
  lemma PrimaryIgnoresOverrides(c: SensorConfig, t: RequestFields, h: RequestFields, tu: Option<string>, hu: Option<string>)
    ensures Resolve(c.(temperature := t, humidity := h, temperatureUrl := tu, humidityUrl := hu), Primary)
         == Resolve(c, Primary)
  {
  }

  /**
   * Per-field independence: for a secondary family, each effective field is
   * its override when that is truthy (a headers object whenever present) and
   * the primary value otherwise, whatever the other fields hold.
   */
  lemma OverrideWinsPerField(c: SensorConfig, f: Family)
    requires f != Primary
    ensures var r := Resolve(c, f); var o := Overrides(c, f);
      && (r.url == if TruthyString(UrlOverride(c, f)) then UrlOverride(c, f).value else c.url)
      && (r.httpMethod == if o.httpMethod.Some? then o.httpMethod else c.primary.httpMethod)
      && (r.headers == if o.headers.Some? then o.headers else c.primary.headers)
      && (r.body == if TruthyString(o.body) then o.body else c.primary.body)
      && (r.timeout == if TruthyNumber(o.timeout) then o.timeout else c.primary.timeout)
  {
  }

  /** Changing one override field of a family changes no other effective field of it. */
  lemma OverridesIndependent(c: SensorConfig, f: Family, o': RequestFields)
    requires f != Primary
    ensures var o := Overrides(c, f);
      var c' := if f == Temperature then c.(temperature := o') else c.(humidity := o');
      var r := Resolve(c, f); var r' := Resolve(c', f);
      && r'.url == r.url
      && (o'.jsonPath == o.jsonPath ==> r'.jsonPath == r.jsonPath)
      && (o'.httpMethod == o.httpMethod ==> r'.httpMethod == r.httpMethod)
      && (o'.headers == o.headers ==> r'.headers == r.headers)
      && (o'.body == o.body ==> r'.body == r.body)
      && (o'.timeout == o.timeout ==> r'.timeout == r.timeout)
  {
  }

  /**
   * `||` is not `??`: an explicit empty body or zero timeout override falls
   * back to the primary value, whereas an explicit zero bound is kept.
   */
  lemma FalsyOverridesFallBack(c: SensorConfig, f: Family)
    requires f != Primary
    requires Overrides(c, f).timeout == Some(0.0) && Overrides(c, f).body == Some("")
    requires c.minCO2 == Some(0.0)
    ensures Resolve(c, f).timeout == c.primary.timeout
    ensures Resolve(c, f).body == c.primary.body
    ensures BoundsOf(c).minCO2 == 0.0
  {
  }

  /** Scenario: the temperature URL is the override when set, the sensor URL when not. */
  lemma TemperatureUrlScenario(c: SensorConfig, u: string)
    requires u != ""
    ensures Resolve(c.(temperatureUrl := None), Temperature).url == c.url
    ensures Resolve(c.(temperatureUrl := Some(u)), Temperature).url == u
  {
  }
}
