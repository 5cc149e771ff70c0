/**
 * `fetchValueFromAPI` and `extractValueFromJSON`: building the request,
 * and turning whatever the endpoint answered into a number or `null`.
 * The HTTP exchange itself is a parameter: a function from the request to
 * the parsed response body or the error the client raised.
 */
module Fetch {
  import opened Wrappers
  import opened JsonValue
  import opened Config
  import opened Resolver

  /** `parseFloat`: `None` stands for NaN. */
  type ParseFloat = string -> Option<real>

  /** `JSON.parse`: `None` when it throws. */
  type JsonParse = string -> Option<Json>

  datatype Natives = Natives(parseFloat: ParseFloat, jsonParse: JsonParse)

  // ---------------------------------------------------------------------
  // The request
  // ---------------------------------------------------------------------

  datatype Payload = JsonPayload(value: Json) | TextPayload(text: string)

  datatype Request = Request(
    httpMethod: HttpMethod,
    url: string,
    timeout: real,
    headers: Headers,
    auth: Option<Auth>,
    data: Option<Payload>)

  datatype HttpError = HttpError(message: string, status: Option<int>)

  /** One HTTP exchange: the response body (a string when it is not JSON) or the client's error. */
  type Exchange = Request -> Result<Json, HttpError>

  const DefaultTimeoutMillis: real := 5000.0

  /**
   * The request configuration: GET unless a method is given, `timeout || 5000`,
   * `headers || {}`, the sensor's credentials, and a body only for an explicit
   * POST with a non-empty body, sent as JSON when it parses and as text when not.
   */
  function BuildRequest(url: string, httpMethod: Option<HttpMethod>, headers: Option<Headers>,
                        body: Option<string>, timeout: Option<real>, auth: Option<Auth>,
                        jsonParse: JsonParse): (r: Request)
    ensures r.url == url && r.auth == auth
    ensures r.httpMethod == GET <==> httpMethod != Some(POST)
    ensures r.timeout == if TruthyNumber(timeout) then timeout.value else DefaultTimeoutMillis
    ensures r.timeout == DefaultTimeoutMillis <==> timeout.None? || timeout == Some(0.0) || timeout == Some(DefaultTimeoutMillis)
    ensures headers.None? ==> r.headers == map[]
    ensures headers.Some? ==> r.headers == headers.value
    ensures r.data.Some? <==> httpMethod == Some(POST) && TruthyString(body)
    ensures r.data.Some? ==> (r.data.value.JsonPayload? <==> jsonParse(body.value).Some?)
    ensures r.data.Some? && r.data.value.JsonPayload? ==> jsonParse(body.value) == Some(r.data.value.value)
    ensures r.data.Some? && r.data.value.TextPayload? ==> r.data.value.text == body.value
  {
    var data :=
      if httpMethod == Some(POST) && TruthyString(body) then
        match jsonParse(body.value)
        case Some(j) => Some(JsonPayload(j))
        case None => Some(TextPayload(body.value))
      else None;
    var m := match httpMethod case Some(m) => m case None => GET;
    assert m == GET <==> httpMethod != Some(POST);
    Request(m, url, if TruthyNumber(timeout) then timeout.value else DefaultTimeoutMillis,
            headers.GetOr(map[]), auth, data)
  }

  /** The request an update method sends for a family. */
  function RequestFor(c: SensorConfig, f: Family, jsonParse: JsonParse): Request {
    var fc := Resolve(c, f);
    BuildRequest(fc.url, fc.httpMethod, fc.headers, fc.body, fc.timeout, c.auth, jsonParse)
  }

  /** One set of credentials serves every family; there are no per-family credentials. */
  lemma AuthSharedByFamilies(c: SensorConfig, f: Family, jsonParse: JsonParse)
    ensures RequestFor(c, f, jsonParse).auth == c.auth
  {
  }

  // ---------------------------------------------------------------------
  // Extraction along a dotted path
  // ---------------------------------------------------------------------

  datatype ExtractError = PathNotFound(path: string, key: string) | NotANumber(path: string, actualType: string)

  /** The walk down the keys; it fails with the first key the current value does not have. */
  function Walk(v: Json, keys: seq<string>): (r: Result<Json, string>)
    ensures r.Failure? ==> r.error in keys
    decreases |keys|
  {
    if keys == [] then Success(v)
    else match Member(v, keys[0])
      case None => Failure(keys[0])
      case Some(child) => Walk(child, keys[1..])
  }

  /** The leaf conversion: a number as is, a string through `parseFloat`, anything else an error. */
  function LeafNumber(leaf: Json, path: string, parseFloat: ParseFloat): (r: Result<Option<real>, ExtractError>)
    ensures r.Success? <==> leaf.JNumber? || leaf.JString?
    ensures r.Failure? ==> r.error.NotANumber? && r.error.path == path
    ensures r.Failure? ==> r.error.actualType != "number" && r.error.actualType != "string"
  {
    match leaf
    case JNumber(n) => Success(Some(n))
    case JString(s) => Success(parseFloat(s))
    case _ => Failure(NotANumber(path, TypeOf(leaf)))
  }

  /** What `extractValueFromJSON(data, path)` returns (`None` is NaN) or throws. */
  function Extract(data: Json, path: string, parseFloat: ParseFloat): (r: Result<Option<real>, ExtractError>)
    ensures r.Failure? ==> r.error.path == path
    ensures r.Failure? && r.error.PathNotFound? ==> Walk(data, Split(path)).Failure? && r.error.key in Split(path)
    ensures r.Success? ==> Walk(data, Split(path)).Success?
    ensures Walk(data, Split(path)).Failure? ==> r == Failure(PathNotFound(path, Walk(data, Split(path)).error))
    ensures Walk(data, Split(path)).Success? ==>
      var leaf := Walk(data, Split(path)).value;
      && (leaf.JNumber? ==> r == Success(Some(leaf.n)))
      && (leaf.JString? ==> r == Success(parseFloat(leaf.s)))
      && (!leaf.JNumber? && !leaf.JString? ==> r == Failure(NotANumber(path, TypeOf(leaf))))
  {
    match Walk(data, Split(path))
    case Failure(key) => Failure(PathNotFound(path, key))
    case Success(leaf) => LeafNumber(leaf, path, parseFloat)
  }

  method ExtractValueFromJson(data: Json, path: string, parseFloat: ParseFloat)
    returns (r: Result<Option<real>, ExtractError>)
    ensures r == Extract(data, path, parseFloat)
  {
    var keys := Split(path);
    var value := data;
    var i := 0;
    while i < |keys|
      invariant 0 <= i <= |keys|
      invariant Walk(data, keys) == Walk(value, keys[i..])
    {
      var key := keys[i];
      assert keys[i..][0] == key && keys[i..][1..] == keys[i + 1..];
      match Member(value, key)
      case None =>
        return Failure(PathNotFound(path, key));
      case Some(child) =>
        value := child;
        i := i + 1;
    }
    if value.JNumber? {
      r := Success(Some(value.n));
    } else if value.JString? {
      r := Success(parseFloat(value.s));
    } else {
      r := Failure(NotANumber(path, TypeOf(value)));
    }
  }

  /** Walking `a + b` is walking `a` and then, from where it ends, `b`. */
  lemma {:induction false} WalkAppend(v: Json, a: seq<string>, b: seq<string>)
    ensures Walk(v, a + b) == match Walk(v, a)
                              case Failure(k) => Failure(k)
                              case Success(w) => Walk(w, b)
    decreases |a|
  {
    if a != [] {
      assert a + b != [] && (a + b)[0] == a[0] && (a + b)[1..] == a[1..] + b;
      match Member(v, a[0])
      case None =>
        assert Walk(v, a + b) == Failure(a[0]) == Walk(v, a);
      case Some(child) =>
        WalkAppend(child, a[1..], b);
        assert Walk(v, a + b) == Walk(child, a[1..] + b);
        assert Walk(v, a) == Walk(child, a[1..]);
    } else {
      assert a + b == b;
    }
  }

  /**
   * A failed walk fails exactly where the value reached so far lacks the key:
   * a falsy value, a string, a number or a boolean, or an object or array
   * without that key.
   */
  lemma {:induction false} WalkFailureAt(v: Json, keys: seq<string>) returns (i: nat)
    requires Walk(v, keys).Failure?
    ensures i < |keys| && keys[i] == Walk(v, keys).error
    ensures Walk(v, keys[..i]).Success? && Member(Walk(v, keys[..i]).value, keys[i]).None?
    decreases |keys|
  {
    match Member(v, keys[0])
    case None =>
      i := 0;
    case Some(child) =>
      var j := WalkFailureAt(child, keys[1..]);
      i := j + 1;
      assert keys[..i] == [keys[0]] + keys[1..][..j];
      WalkAppend(v, [keys[0]], keys[1..][..j]);
  }

  /** A container that is not an object fails the walk at the first key. */
  lemma WalkScalarFails(v: Json, keys: seq<string>)
    requires keys != [] && !(v.JObject? || v.JArray?)
    ensures Walk(v, keys) == Failure(keys[0])
  {
  }

  /** An array is indexed by the numerals of its indices. */
  lemma WalkArrayIndex(items: seq<Json>, n: nat, rest: seq<string>)
    requires n < |items|
    ensures Walk(JArray(items), [DecimalString(n)] + rest) == Walk(items[n], rest)
  {
    IndexKeyIff(DecimalString(n), n);
    assert DecimalString(n) != "length";
    assert ([DecimalString(n)] + rest)[1..] == rest;
  }

  /** The object that holds `leaf` under the chain of keys `keys`. */
  function Nest(keys: seq<string>, leaf: Json): Json
    decreases |keys|
  {
    if keys == [] then leaf else JObject(map[keys[0] := Nest(keys[1..], leaf)])
  }

  lemma {:induction false} WalkNest(keys: seq<string>, leaf: Json)
    ensures Walk(Nest(keys, leaf), keys) == Success(leaf)
    decreases |keys|
  {
    if keys != [] {
      WalkNest(keys[1..], leaf);
    }
  }

  /** Round trip: the dotted path of a chain of keys extracts the number stored under that chain. */
  lemma ExtractNestedNumber(keys: seq<string>, v: real, parseFloat: ParseFloat)
    requires |keys| >= 1
    requires forall k | 0 <= k < |keys| :: '.' !in keys[k]
    ensures Extract(Nest(keys, JNumber(v)), Join(keys), parseFloat) == Success(Some(v))
  {
    SplitOfJoin(keys);
    WalkNest(keys, JNumber(v));
  }

  /** The documented example: "sensor.co2" on `{ "sensor": { "co2": 450 } }` gives 450. */
  lemma SensorCo2Example(parseFloat: ParseFloat)
    ensures Extract(JObject(map["sensor" := JObject(map["co2" := JNumber(450.0)])]), "sensor.co2", parseFloat)
         == Success(Some(450.0))
  {
    var keys := ["sensor", "co2"];
    assert Nest(keys, JNumber(450.0)) == JObject(map["sensor" := JObject(map["co2" := JNumber(450.0)])]);
    assert Join(keys) == "sensor.co2";
    ExtractNestedNumber(keys, 450.0, parseFloat);
  }

  /** A successful extraction read a number leaf as is or a string leaf through `parseFloat`. */
  lemma ExtractLeaf(data: Json, path: string, parseFloat: ParseFloat, x: Option<real>)
    ensures Extract(data, path, parseFloat) == Success(x) <==>
      && Walk(data, Split(path)).Success?
      && var leaf := Walk(data, Split(path)).value;
         (leaf.JNumber? && x == Some(leaf.n)) || (leaf.JString? && x == parseFloat(leaf.s))
  {
  }

  // ---------------------------------------------------------------------
  // The response-to-number conversion
  // ---------------------------------------------------------------------

  /** Why `fetchValueFromAPI` returned `null`; each is logged and swallowed. */
  datatype FetchFailure =
    | RequestFailed(error: HttpError)
    | ObjectWithoutPath
    | Unparseable
    | ExtractFailed(cause: ExtractError)
    | NotANumberResult

  function FetchOutcome(response: Result<Json, HttpError>, jsonPath: Option<string>,
                        parseFloat: ParseFloat): (r: Result<real, FetchFailure>)
    ensures response.Failure? ==> r == Failure(RequestFailed(response.error))
    ensures r.Failure? && r.error.ExtractFailed? ==>
      TruthyString(jsonPath) && response.Success? && Extract(response.value, jsonPath.value, parseFloat).Failure?
    ensures r.Failure? && r.error.ObjectWithoutPath? ==> !TruthyString(jsonPath) && IsObjectType(response.value)
    ensures response.Success? && TruthyString(jsonPath) ==>
      var extracted := Extract(response.value, jsonPath.value, parseFloat);
      && (extracted.Failure? ==> r == Failure(ExtractFailed(extracted.error)))
      && (extracted == Success(None) ==> r == Failure(NotANumberResult))
      && (forall v :: extracted == Success(Some(v)) ==> r == Success(v))
    ensures response.Success? && !TruthyString(jsonPath) ==>
      && (IsObjectType(response.value) ==> r == Failure(ObjectWithoutPath))
      && (response.value.JBool? ==> r == Failure(Unparseable))
      && (response.value.JString? && parseFloat(response.value.s).None? ==> r == Failure(NotANumberResult))
      && (response.value.JNumber? ==> r == Success(response.value.n))
      && (response.value.JString? && parseFloat(response.value.s).Some? ==> r == Success(parseFloat(response.value.s).value))
  {
    match response
    case Failure(e) => Failure(RequestFailed(e))
    case Success(data) =>
      var number: Result<Option<real>, FetchFailure> :=
        if TruthyString(jsonPath) then
          match Extract(data, jsonPath.value, parseFloat)
          case Success(x) => Success(x)
          case Failure(e) => Failure(ExtractFailed(e))
        else
          match data
          case JNumber(n) => Success(Some(n))
          case JString(s) => Success(parseFloat(s))
          case _ => if TypeOf(data) == "object" then Failure(ObjectWithoutPath) else Failure(Unparseable);
      match number
      case Failure(f) => Failure(f)
      case Success(None) => Failure(NotANumberResult)
      case Success(Some(v)) => Success(v)
  }

  /** `fetchValueFromAPI`: never throws; every failure, NaN included, is `null`. */
  method FetchValueFromApi(url: string, jsonPath: Option<string>, httpMethod: Option<HttpMethod>,
                           headers: Option<Headers>, body: Option<string>, timeout: Option<real>,
                           auth: Option<Auth>, exchange: Exchange, natives: Natives)
    returns (value: Option<real>)
    ensures value == FetchOutcome(exchange(BuildRequest(url, httpMethod, headers, body, timeout, auth, natives.jsonParse)),
                                  jsonPath, natives.parseFloat).ToOption()
  {
    var request := BuildRequest(url, httpMethod, headers, body, timeout, auth, natives.jsonParse);
    var response := exchange(request);
    if response.Failure? {
      return None;
    }
    var data := response.value;
    var number: Option<real>;
    if TruthyString(jsonPath) {
      var extracted := ExtractValueFromJson(data, jsonPath.value, natives.parseFloat);
      if extracted.Failure? {
        return None;
      }
      number := extracted.value;
    } else if data.JNumber? {
      number := Some(data.n);
    } else if data.JString? {
      number := natives.parseFloat(data.s);
    } else {
      // An object (or null) body without a path, or a boolean: nothing to read.
      return None;
    }
    if number.None? {
      return None;
    }
    value := number;
  }

  /** With a path, the value is the extracted number; the HTTP error, the walk's error and NaN all give `null`. */
  lemma FetchWithPath(response: Result<Json, HttpError>, path: string, parseFloat: ParseFloat, v: real)
    requires path != ""
    ensures FetchOutcome(response, Some(path), parseFloat) == Success(v) <==>
      response.Success? && Extract(response.value, path, parseFloat) == Success(Some(v))
  {
  }

  /**
   * Without a path, a numeric body is the value and a string body is parsed;
   * an object, array or null body, a boolean body, an HTTP error and NaN all give `null`.
   */
  lemma FetchWithoutPath(response: Result<Json, HttpError>, jsonPath: Option<string>, parseFloat: ParseFloat, v: real)
    requires !TruthyString(jsonPath)
    ensures FetchOutcome(response, jsonPath, parseFloat) == Success(v) <==>
      response.Success? &&
      (response.value == JNumber(v) || (response.value.JString? && parseFloat(response.value.s) == Some(v)))
    ensures response.Success? && TypeOf(response.value) == "object" ==>
      FetchOutcome(response, jsonPath, parseFloat) == Failure(ObjectWithoutPath)
  {
  }

  /** A failed request is `null`, whatever the path. */
  lemma FetchRequestFailure(e: HttpError, jsonPath: Option<string>, parseFloat: ParseFloat)
    ensures FetchOutcome(Failure(e), jsonPath, parseFloat) == Failure(RequestFailed(e))
  {
  }

  /** Scenario: the plain-text body "450.5" with no path reads as 450.5 when `parseFloat` reads it so. */
  lemma PlainTextBodyScenario(parseFloat: ParseFloat)
    requires parseFloat("450.5") == Some(450.5)
    ensures FetchOutcome(Success(JString("450.5")), None, parseFloat).ToOption() == Some(450.5)
  {
  }

  /** What a family's update fetches: always along a non-empty path, so the no-path branch is never taken. */
  function FetchFamily(c: SensorConfig, f: Family, exchange: Exchange, natives: Natives): (v: Option<real>)
    ensures var response := exchange(RequestFor(c, f, natives.jsonParse));
      v.Some? <==>
        && response.Success?
        && Extract(response.value, Resolve(c, f).jsonPath, natives.parseFloat) == Success(Some(v.GetOr(0.0)))
    ensures var response := exchange(RequestFor(c, f, natives.jsonParse));
      v.None? <==>
        || response.Failure?
        || Extract(response.value, Resolve(c, f).jsonPath, natives.parseFloat).Failure?
        || Extract(response.value, Resolve(c, f).jsonPath, natives.parseFloat).value.None?
  {
    var fc := Resolve(c, f);
    FetchOutcome(exchange(RequestFor(c, f, natives.jsonParse)), Some(fc.jsonPath), natives.parseFloat).ToOption()
  }
}
