/**
 * The per-sensor configuration (the `CO2SensorConfig` interface of
 * src/types.ts), read from the raw JSON entry the platform configuration
 * holds, and the thresholds the accessory derives from it.
 */
module Config {
  import opened Wrappers
  import opened JsonValue

  datatype HttpMethod = GET | POST

  type Headers = map<string, string>

  datatype Auth = Auth(username: string, password: string)

  /** The request fields a family may set: shared by the primary endpoint and the two overrides. */
  datatype RequestFields = RequestFields(
    jsonPath: Option<string>,
    httpMethod: Option<HttpMethod>,
    headers: Option<Headers>,
    body: Option<string>,
    timeout: Option<real>)

  datatype SensorConfig = SensorConfig(
    name: string,
    url: string,
    updateInterval: Option<real>,
    primary: RequestFields,
    auth: Option<Auth>,
    minCO2: Option<real>,
    maxCO2: Option<real>,
    abnormalThreshold: Option<real>,
    enableTemperature: bool,
    temperatureUrl: Option<string>,
    temperature: RequestFields,
    minTemperature: Option<real>,
    maxTemperature: Option<real>,
    enableHumidity: bool,
    humidityUrl: Option<string>,
    humidity: RequestFields)

  // ---------------------------------------------------------------------
  // Reading a raw entry. A field holding a value of the wrong JSON type is
  // read as absent.
  // ---------------------------------------------------------------------

  function StringField(fields: map<string, Json>, key: string): (r: Option<string>)
    ensures r.Some? <==> key in fields && fields[key].JString?
    ensures r.Some? ==> fields[key] == JString(r.value)
  {
    if key in fields && fields[key].JString? then Some(fields[key].s) else None
  }

  function NumberField(fields: map<string, Json>, key: string): (r: Option<real>)
    ensures r.Some? <==> key in fields && fields[key].JNumber?
    ensures r.Some? ==> fields[key] == JNumber(r.value)
  {
    if key in fields && fields[key].JNumber? then Some(fields[key].n) else None
  }

  function MethodField(fields: map<string, Json>, key: string): (r: Option<HttpMethod>)
    ensures r == Some(GET) <==> key in fields && fields[key] == JString("GET")
    ensures r == Some(POST) <==> key in fields && fields[key] == JString("POST")
  {
    match StringField(fields, key)
    case Some(m) => if m == "GET" then Some(GET) else if m == "POST" then Some(POST) else None
    case None => None
  }

  /** A headers object: its string-valued members. */
  function HeadersField(fields: map<string, Json>, key: string): (r: Option<Headers>)
    ensures r.Some? <==> key in fields && fields[key].JObject?
    ensures r.Some? ==> forall h | h in r.value :: h in fields[key].fields && fields[key].fields[h] == JString(r.value[h])
    ensures r.Some? ==> forall h | h in fields[key].fields && fields[key].fields[h].JString? ::
                          h in r.value && r.value[h] == fields[key].fields[h].s
  {
    if key in fields && fields[key].JObject? then
      var h := fields[key].fields;
      Some(map k | k in h && h[k].JString? :: h[k].s)
    else None
  }

  function AuthField(fields: map<string, Json>): (r: Option<Auth>)
    ensures r.Some? <==> "auth" in fields && fields["auth"].JObject?
                         && StringField(fields["auth"].fields, "username").Some?
                         && StringField(fields["auth"].fields, "password").Some?
    ensures r.Some? ==> r.value == Auth(fields["auth"].fields["username"].s, fields["auth"].fields["password"].s)
  {
    if "auth" in fields && fields["auth"].JObject? then
      var a := fields["auth"].fields;
      match (StringField(a, "username"), StringField(a, "password"))
      case (Some(u), Some(p)) => Some(Auth(u, p))
      case _ => None
    else None
  }

  /** An enable flag is on when the member is present and truthy. */
  predicate FlagField(fields: map<string, Json>, key: string) {
    key in fields && Truthy(fields[key])
  }

  function FieldsOf(j: Json, prefix: string): RequestFields
  {
    var f := if j.JObject? then j.fields else map[];
    if prefix == "" then
      RequestFields(StringField(f, "jsonPath"), MethodField(f, "httpMethod"), HeadersField(f, "headers"),
                    StringField(f, "body"), NumberField(f, "timeout"))
    else
      RequestFields(StringField(f, prefix + "JsonPath"), MethodField(f, prefix + "HttpMethod"),
                    HeadersField(f, prefix + "Headers"), StringField(f, prefix + "Body"),
                    NumberField(f, prefix + "Timeout"))
  }

  /** `accessory.context.config as CO2SensorConfig`: the typed view of a raw sensor entry. */
  function ReadConfig(j: Json): (c: SensorConfig)
    ensures j.JObject? && StringField(j.fields, "name").Some? ==> c.name == j.fields["name"].s
    ensures j.JObject? && StringField(j.fields, "url").Some? ==> c.url == j.fields["url"].s
    ensures c.enableTemperature <==> j.JObject? && "enableTemperature" in j.fields && Truthy(j.fields["enableTemperature"])
    ensures c.enableHumidity <==> j.JObject? && "enableHumidity" in j.fields && Truthy(j.fields["enableHumidity"])
  {
    var f := if j.JObject? then j.fields else map[];
    SensorConfig(
      StringField(f, "name").GetOr(""),
      StringField(f, "url").GetOr(""),
      NumberField(f, "updateInterval"),
      FieldsOf(j, ""),
      AuthField(f),
      NumberField(f, "minCO2"),
      NumberField(f, "maxCO2"),
      NumberField(f, "abnormalThreshold"),
      FlagField(f, "enableTemperature"),
      StringField(f, "temperatureUrl"),
      FieldsOf(j, "temperature"),
      NumberField(f, "minTemperature"),
      NumberField(f, "maxTemperature"),
      FlagField(f, "enableHumidity"),
      StringField(f, "humidityUrl"),
      FieldsOf(j, "humidity"))
  }

  // ---------------------------------------------------------------------
  // Thresholds: `??` keeps an explicit 0, unlike `||`.
  // ---------------------------------------------------------------------

  datatype Bounds = Bounds(
    minCO2: real,
    maxCO2: real,
    abnormalThreshold: real,
    minTemperature: real,
    maxTemperature: real)

  const DefaultMinCO2: real := 0.0
  const DefaultMaxCO2: real := 5000.0
  const DefaultAbnormalThreshold: real := 1000.0
  const DefaultMinTemperature: real := -100.0
  const DefaultMaxTemperature: real := 100.0
  const DefaultUpdateIntervalSeconds: real := 60.0

  /** Each bound is the configured number when one is given (0 included), otherwise its default. */
  function BoundsOf(c: SensorConfig): (b: Bounds)
    ensures c.minCO2.Some? ==> b.minCO2 == c.minCO2.value
    ensures c.minCO2.None? ==> b.minCO2 == DefaultMinCO2
    ensures c.maxCO2.Some? ==> b.maxCO2 == c.maxCO2.value
    ensures c.maxCO2.None? ==> b.maxCO2 == DefaultMaxCO2
    ensures c.abnormalThreshold.Some? ==> b.abnormalThreshold == c.abnormalThreshold.value
    ensures c.abnormalThreshold.None? ==> b.abnormalThreshold == DefaultAbnormalThreshold
    ensures c.minTemperature.Some? ==> b.minTemperature == c.minTemperature.value
    ensures c.minTemperature.None? ==> b.minTemperature == DefaultMinTemperature
    ensures c.maxTemperature.Some? ==> b.maxTemperature == c.maxTemperature.value
    ensures c.maxTemperature.None? ==> b.maxTemperature == DefaultMaxTemperature
  {
    Bounds(
      c.minCO2.GetOr(DefaultMinCO2),
      c.maxCO2.GetOr(DefaultMaxCO2),
      c.abnormalThreshold.GetOr(DefaultAbnormalThreshold),
      c.minTemperature.GetOr(DefaultMinTemperature),
      c.maxTemperature.GetOr(DefaultMaxTemperature))
  }

  /** `(updateInterval ?? 60) * 1000`: the polling period in milliseconds. */
  function IntervalMillis(c: SensorConfig): (ms: real)
    ensures c.updateInterval.None? ==> ms == 60000.0
    ensures c.updateInterval.Some? ==> ms == c.updateInterval.value * 1000.0
  {
    c.updateInterval.GetOr(DefaultUpdateIntervalSeconds) * 1000.0
  }
}
