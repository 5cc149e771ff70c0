/**
 * The platform: validation of each raw sensor entry, the reconciliation of
 * configured sensors with the accessories the host restored from its cache,
 * and the cache of restored accessories itself. Calls into the host
 * (register, update, unregister) are recorded as events.
 */
module Platform {
  import opened Wrappers
  import opened JsonValue
  import opened Config
  import opened Host
  import opened Policy
  import opened Accessory

  // ---------------------------------------------------------------------
  // `String.prototype.trim`
  // ---------------------------------------------------------------------

  /** The white space and line terminators `trim` removes. */
  predicate IsJsWhitespace(c: char) {
    var n := c as int;
    || (0x09 <= n <= 0x0D) || n == 0x20 || n == 0xA0 || n == 0x1680
    || (0x2000 <= n <= 0x200A) || n == 0x2028 || n == 0x2029 || n == 0x202F
    || n == 0x205F || n == 0x3000 || n == 0xFEFF
  }

  predicate Blank(s: string) {
    forall i | 0 <= i < |s| :: IsJsWhitespace(s[i])
  }

  /** `trimStart`: drops the leading white space. */
  function TrimStart(s: string): (r: string)
    ensures |r| <= |s|
    decreases |s|
  {
    if s != [] && IsJsWhitespace(s[0]) then TrimStart(s[1..]) else s
  }

  /** `trimEnd`: drops the trailing white space. */
  function TrimEnd(s: string): (r: string)
    ensures |r| <= |s|
    decreases |s|
  {
    if s != [] && IsJsWhitespace(s[|s| - 1]) then TrimEnd(s[..|s| - 1]) else s
  }

  /** `trim`: a slice of `s` that neither starts nor ends with white space. */
  function Trim(s: string): (r: string)
    ensures |r| <= |s|
    ensures r == [] || (!IsJsWhitespace(r[0]) && !IsJsWhitespace(r[|r| - 1]))
  {
    var t := TrimStart(s);
    TrimStartShape(s);
    TrimEndShape(t);
    TrimEnd(t)
  }

  /** What `trimStart` removes is a white-space prefix, and it stops at the first other character. */
  lemma {:induction false} TrimStartShape(s: string)
    ensures var r := TrimStart(s);
      && (r == [] || !IsJsWhitespace(r[0]))
      && r == s[|s| - |r|..]
      && Blank(s[..|s| - |r|])
    decreases |s|
  {
    if s != [] && IsJsWhitespace(s[0]) {
      TrimStartShape(s[1..]);
      var r := TrimStart(s);
      assert s[1..][|s| - 1 - |r|..] == s[|s| - |r|..];
      assert s[..|s| - |r|] == [s[0]] + s[1..][..|s| - 1 - |r|];
    }
  }

  /** What `trimEnd` removes is a white-space suffix, and it stops at the last other character. */
  lemma {:induction false} TrimEndShape(s: string)
    ensures var r := TrimEnd(s);
      && (r == [] || !IsJsWhitespace(r[|r| - 1]))
      && r == s[..|r|]
      && Blank(s[|r|..])
    decreases |s|
  {
    if s != [] && IsJsWhitespace(s[|s| - 1]) {
      var init := s[..|s| - 1];
      TrimEndShape(init);
      var r := TrimEnd(s);
      assert init[..|r|] == s[..|r|];
      assert s[|r|..] == init[|r|..] + [s[|s| - 1]];
    }
  }

  /** `s.trim() === ''` exactly when every character of `s` is white space. */
  lemma TrimEmptyIffBlank(s: string)
    ensures Trim(s) == "" <==> Blank(s)
  {
    var t := TrimStart(s);
    TrimStartShape(s);
    TrimEndShape(t);
    assert s == s[..|s| - |t|] + t;
    if Trim(s) == "" {
      assert t[|TrimEnd(t)|..] == t;
      assert Blank(t);
      assert t == [];
      assert s[..|s| - |t|] == s;
    }
    if t != [] {
      assert s[|s| - |t|] == t[0];
    }
  }

  // ---------------------------------------------------------------------
  // `isValidSensorConfig`
  // ---------------------------------------------------------------------

  /** `!v || typeof v !== 'string' || v.trim() === ''` fails for the member `key`. */
  predicate HasRequiredString(config: Json, key: string) {
    match Member(config, key)
    case None => false
    case Some(v) => Truthy(v) && v.JString? && Trim(v.s) != ""
  }

  /** The entry is a truthy object with a non-blank string name and a non-blank string URL that parses. */
  predicate IsValidSensorConfig(config: Json, urlParses: string -> bool)
    ensures IsValidSensorConfig(config, urlParses) ==> config.JObject?
  {
    if !Truthy(config) || !IsObjectType(config) then false
    else if !HasRequiredString(config, "name") then false
    else if !HasRequiredString(config, "url") then false
    else urlParses(config.fields["url"].s)
  }

  /** A required member of an object is a string that is not all white space. */
  lemma HasRequiredStringIff(fields: map<string, Json>, key: string)
    ensures HasRequiredString(JObject(fields), key) <==>
      key in fields && fields[key].JString? && !Blank(fields[key].s)
  {
    if key in fields && fields[key].JString? {
      TrimEmptyIffBlank(fields[key].s);
    }
  }

  /** Validity spelled out: an array or any non-object is rejected, and so is a blank name or URL. */
  lemma ValidSensorConfigIff(config: Json, urlParses: string -> bool)
    ensures IsValidSensorConfig(config, urlParses) <==>
      && config.JObject?
      && "name" in config.fields && config.fields["name"].JString? && !Blank(config.fields["name"].s)
      && "url" in config.fields && config.fields["url"].JString? && !Blank(config.fields["url"].s)
      && urlParses(config.fields["url"].s)
  {
    match config
    case JObject(fields) =>
      HasRequiredStringIff(fields, "name");
      HasRequiredStringIff(fields, "url");
    case JArray(items) =>
      assert Member(config, "name").None?;
    case _ =>
  }

  /** A valid entry is read with its own name and URL. */
  lemma ValidConfigReadsNameAndUrl(config: Json, urlParses: string -> bool, generateUuid: string -> string)
    requires IsValidSensorConfig(config, urlParses)
    ensures ReadConfig(config).name == config.fields["name"].s && ReadConfig(config).url == config.fields["url"].s
    ensures ReadConfig(config).name != "" && ReadConfig(config).url != ""
    ensures UuidOf(config, generateUuid) == generateUuid(config.fields["url"].s + config.fields["name"].s)
  {
    ValidSensorConfigIff(config, urlParses);
  }

  // ---------------------------------------------------------------------
  // The reconciliation, as functions of the sensors and the cache
  // ---------------------------------------------------------------------

  /** `uuid.generate(sensorConfig.url + sensorConfig.name)`. */
  function UuidOf(sensor: Json, generateUuid: string -> string): string {
    var c := ReadConfig(sensor);
    generateUuid(c.url + c.name)
  }

  /** The valid entries, in order. */
  function ValidSensors(sensors: seq<Json>, urlParses: string -> bool): (valid: seq<Json>)
    ensures |valid| <= |sensors|
    ensures forall k | 0 <= k < |valid| :: IsValidSensorConfig(valid[k], urlParses)
    decreases |sensors|
  {
    if sensors == [] then []
    else
      var init := ValidSensors(sensors[..|sensors| - 1], urlParses);
      var last := sensors[|sensors| - 1];
      if IsValidSensorConfig(last, urlParses) then init + [last] else init
  }

  /** An entry is kept exactly when it is configured and valid: the filter drops nothing else. */
  lemma {:induction false} ValidSensorsMembers(sensors: seq<Json>, urlParses: string -> bool, x: Json)
    ensures x in ValidSensors(sensors, urlParses) <==> x in sensors && IsValidSensorConfig(x, urlParses)
    decreases |sensors|
  {
    if sensors != [] {
      var init := sensors[..|sensors| - 1];
      var last := sensors[|sensors| - 1];
      ValidSensorsMembers(init, urlParses, x);
      assert sensors == init + [last];
      assert x in sensors <==> x in init || x == last;
      var rest := ValidSensors(init, urlParses);
      if IsValidSensorConfig(last, urlParses) {
        assert ValidSensors(sensors, urlParses) == rest + [last];
        assert x in rest + [last] <==> x in rest || x == last;
      } else {
        assert ValidSensors(sensors, urlParses) == rest;
      }
    }
  }

  /** `this.accessories.find(a => a.UUID === uuid)`, as an index: the first match. */
  function FindIndex(accessories: seq<PlatformAccessory>, uuid: string): (r: Option<nat>)
    ensures r.Some? ==> r.value < |accessories| && accessories[r.value].uuid == uuid
    ensures r.Some? ==> forall k | 0 <= k < r.value :: accessories[k].uuid != uuid
    ensures r.None? ==> forall k | 0 <= k < |accessories| :: accessories[k].uuid != uuid
    decreases |accessories|
  {
    if accessories == [] then None
    else if accessories[0].uuid == uuid then Some(0)
    else match FindIndex(accessories[1..], uuid)
      case Some(i) => Some(i + 1)
      case None => None
  }

  /**
   * A handler created for `sensor`: it reads that entry, wraps an accessory
   * with the sensor's UUID, and that accessory is the cached one when the
   * cache has the UUID and a new one (named after the sensor) otherwise.
   */
  predicate Serves(h: CO2Accessory, sensor: Json, accessories: seq<PlatformAccessory>, generateUuid: string -> string) {
    var uuid := UuidOf(sensor, generateUuid);
    && h.config == ReadConfig(sensor)
    && h.accessory.uuid == uuid
    && match FindIndex(accessories, uuid)
       case Some(j) => h.accessory == accessories[j]
       case None => h.accessory !in accessories && h.accessory.displayName == ReadConfig(sensor).name
  }

  /** The k-th handler serves the k-th valid entry, for every k. */
  predicate ServedInOrder(handlers: seq<CO2Accessory>, valid: seq<Json>, accessories: seq<PlatformAccessory>,
                          generateUuid: string -> string) {
    |handlers| == |valid| && forall k | 0 <= k < |valid| :: Serves(handlers[k], valid[k], accessories, generateUuid)
  }

  lemma ServedInOrderExtend(handlers: seq<CO2Accessory>, valid: seq<Json>, h: CO2Accessory, sensor: Json,
                            accessories: seq<PlatformAccessory>, generateUuid: string -> string)
    requires ServedInOrder(handlers, valid, accessories, generateUuid)
    requires Serves(h, sensor, accessories, generateUuid)
    ensures ServedInOrder(handlers + [h], valid + [sensor], accessories, generateUuid)
  {
    forall k | 0 <= k < |valid| + 1
      ensures Serves((handlers + [h])[k], (valid + [sensor])[k], accessories, generateUuid)
    {
      if k < |valid| {
        assert (handlers + [h])[k] == handlers[k];
        assert (valid + [sensor])[k] == valid[k];
      }
    }
  }

  /**
   * The `context.config` a cached accessory ends with: the last valid entry
   * whose UUID finds it, or what it had before.
   */
  function ContextAfter(a: PlatformAccessory, initial: Json, accessories: seq<PlatformAccessory>,
                        valid: seq<Json>, generateUuid: string -> string): Json
    decreases |valid|
  {
    if valid == [] then initial
    else
      var before := ContextAfter(a, initial, accessories, valid[..|valid| - 1], generateUuid);
      ContextStep(a, before, accessories, valid[|valid| - 1], generateUuid)
  }

  /** One entry's effect on a cached accessory's context: it is overwritten when the entry's UUID finds it. */
  function ContextStep(a: PlatformAccessory, before: Json, accessories: seq<PlatformAccessory>,
                       sensor: Json, generateUuid: string -> string): Json
  {
    match FindIndex(accessories, UuidOf(sensor, generateUuid))
    case Some(j) => if accessories[j] == a then sensor else before
    case None => before
  }

  lemma ContextAfterExtend(a: PlatformAccessory, initial: Json, accessories: seq<PlatformAccessory>,
                            valid: seq<Json>, sensor: Json, generateUuid: string -> string)
    ensures ContextAfter(a, initial, accessories, valid + [sensor], generateUuid)
         == ContextStep(a, ContextAfter(a, initial, accessories, valid, generateUuid), accessories, sensor, generateUuid)
  {
    assert (valid + [sensor])[..|valid|] == valid;
  }

  datatype HostEvent =
    | Updated(accessory: PlatformAccessory)
    | Registered(uuid: string, displayName: string)
    | Unregistered(accessories: seq<PlatformAccessory>)

  /** The host call for one valid entry: update the cached accessory, or register a new one. */
  function EventFor(accessories: seq<PlatformAccessory>, sensor: Json, generateUuid: string -> string): HostEvent {
    var uuid := UuidOf(sensor, generateUuid);
    match FindIndex(accessories, uuid)
    case Some(j) => Updated(accessories[j])
    case None => Registered(uuid, ReadConfig(sensor).name)
  }

  function SensorEvents(accessories: seq<PlatformAccessory>, valid: seq<Json>, generateUuid: string -> string): (e: seq<HostEvent>)
    ensures |e| == |valid|
    decreases |valid|
  {
    if valid == [] then []
    else SensorEvents(accessories, valid[..|valid| - 1], generateUuid) + [EventFor(accessories, valid[|valid| - 1], generateUuid)]
  }

  lemma SensorEventsExtend(accessories: seq<PlatformAccessory>, valid: seq<Json>, sensor: Json,
                            generateUuid: string -> string)
    ensures SensorEvents(accessories, valid + [sensor], generateUuid)
         == SensorEvents(accessories, valid, generateUuid) + [EventFor(accessories, sensor, generateUuid)]
  {
    assert (valid + [sensor])[..|valid|] == valid;
  }

  function ConfiguredUuids(valid: seq<Json>, generateUuid: string -> string): (uuids: seq<string>)
    ensures |uuids| == |valid|
    ensures forall k | 0 <= k < |valid| :: uuids[k] == UuidOf(valid[k], generateUuid)
  {
    seq(|valid|, k requires 0 <= k < |valid| => UuidOf(valid[k], generateUuid))
  }

  /** The cached accessories whose UUID no valid entry produces. */
  function ToRemove(accessories: seq<PlatformAccessory>, configured: seq<string>): (r: seq<PlatformAccessory>)
    ensures |r| <= |accessories|
    ensures forall a | a in r :: a in accessories && a.uuid !in configured
    ensures forall a | a in accessories && a.uuid !in configured :: a in r
    decreases |accessories|
  {
    if accessories == [] then []
    else
      var rest := ToRemove(accessories[1..], configured);
      assert forall a | a in accessories :: a == accessories[0] || a in accessories[1..];
      if accessories[0].uuid in configured then rest else [accessories[0]] + rest
  }

  /** `unregisterPlatformAccessories` is called only with a non-empty list. */
  function RemovalEvents(toRemove: seq<PlatformAccessory>): seq<HostEvent> {
    if |toRemove| > 0 then [Unregistered(toRemove)] else []
  }

  /**
   * The removal set is exactly the cached accessories no valid configured
   * sensor maps to; a sensor that fails validation protects nothing.
   */
  lemma RemovalExact(accessories: seq<PlatformAccessory>, sensors: seq<Json>,
                     urlParses: string -> bool, generateUuid: string -> string, a: PlatformAccessory)
    ensures var valid := ValidSensors(sensors, urlParses);
      a in ToRemove(accessories, ConfiguredUuids(valid, generateUuid)) <==>
        a in accessories && forall k | 0 <= k < |valid| :: UuidOf(valid[k], generateUuid) != a.uuid
  {
    var valid := ValidSensors(sensors, urlParses);
    var configured := ConfiguredUuids(valid, generateUuid);
    if a.uuid in configured {
      var k :| 0 <= k < |configured| && configured[k] == a.uuid;
      assert UuidOf(valid[k], generateUuid) == a.uuid;
    }
  }

  /**
   * Newly created accessories are not added to the cache, so two valid
   * entries with the same UUID and no cached accessory each register one:
   * the host is asked to register the same UUID twice.
   */
  lemma SameUuidRegisteredTwice(accessories: seq<PlatformAccessory>, s1: Json, s2: Json, generateUuid: string -> string)
    requires UuidOf(s1, generateUuid) == UuidOf(s2, generateUuid)
    requires FindIndex(accessories, UuidOf(s1, generateUuid)).None?
    ensures var u := UuidOf(s1, generateUuid);
      SensorEvents(accessories, [s1, s2], generateUuid)
        == [Registered(u, ReadConfig(s1).name), Registered(u, ReadConfig(s2).name)]
  {
    assert [s1, s2][..1] == [s1];
    assert [s1][..0] == [];
  }

  /** An accessory that no valid entry maps to keeps its context. */
  lemma {:induction false} ContextKeptWhenUnmatched(a: PlatformAccessory, initial: Json, accessories: seq<PlatformAccessory>,
                                                     valid: seq<Json>, generateUuid: string -> string)
    requires forall k | 0 <= k < |valid| :: FindIndex(accessories, UuidOf(valid[k], generateUuid)).None?
               || accessories[FindIndex(accessories, UuidOf(valid[k], generateUuid)).value] != a
    ensures ContextAfter(a, initial, accessories, valid, generateUuid) == initial
    decreases |valid|
  {
    if valid != [] {
      var init := valid[..|valid| - 1];
      assert forall k | 0 <= k < |init| :: init[k] == valid[k];
      ContextKeptWhenUnmatched(a, initial, accessories, init, generateUuid);
    }
  }

  /** Growing the scanned prefix by a valid entry appends that entry. */
  lemma ValidSensorsKeep(items: seq<Json>, i: nat, urlParses: string -> bool)
    requires i < |items| && IsValidSensorConfig(items[i], urlParses)
    ensures ValidSensors(items[..i + 1], urlParses) == ValidSensors(items[..i], urlParses) + [items[i]]
  {
    assert items[..i + 1][..i] == items[..i];
  }

  /** Growing the scanned prefix by an invalid entry changes nothing. */
  lemma ValidSensorsSkip(items: seq<Json>, i: nat, urlParses: string -> bool)
    requires i < |items| && !IsValidSensorConfig(items[i], urlParses)
    ensures ValidSensors(items[..i + 1], urlParses) == ValidSensors(items[..i], urlParses)
  {
    assert items[..i + 1][..i] == items[..i];
  }

  lemma AppendAssociative<T>(a: seq<T>, b: seq<T>, c: seq<T>)
    ensures (a + b) + c == a + (b + c)
  {
  }

  lemma SliceOfAppend<T>(s: seq<T>, x: T, n: nat)
    requires n <= |s|
    ensures (s + [x])[n..] == s[n..] + [x] && (s + [x])[..n] == s[..n]
  {
  }

  // ---------------------------------------------------------------------
  // The handlers' polling timers
  // ---------------------------------------------------------------------

  /** The timers the handlers from index `from` on armed: each one's handle with its period. */
  ghost function TimerTable(handlers: seq<CO2Accessory>, from: nat): map<nat, real>
    reads handlers
    decreases |handlers|
  {
    if |handlers| <= from then map[]
    else
      var h := handlers[|handlers| - 1];
      var rest := TimerTable(handlers[..|handlers| - 1], from);
      match h.updateInterval
      case Some(t) => rest[t := IntervalMillis(h.config)]
      case None => rest
  }

  /**
   * Each handler from index `from` on is ready to poll: valid, still holding
   * the default readings, on the platform's scheduler, with a timer of its
   * own; the scheduler's table `active` is what it was (`before`) plus those
   * timers.
   */
  ghost predicate Armed(handlers: seq<CO2Accessory>, from: nat, before: map<nat, real>, timers: Scheduler,
                        active: map<nat, real>)
    reads handlers
  {
    && from <= |handlers|
    && (forall k | from <= k < |handlers| ::
          && handlers[k].Valid() && handlers[k].Cached() == DefaultReadings && handlers[k].timers == timers
          && handlers[k].updateInterval.Some? && handlers[k].updateInterval.value !in before)
    && (forall i, j | from <= i < j < |handlers| :: handlers[i].updateInterval != handlers[j].updateInterval)
    && active == before + TimerTable(handlers, from)
  }

  lemma {:induction false} TimerTableHasHandles(handlers: seq<CO2Accessory>, from: nat, k: nat)
    requires from <= k < |handlers| && handlers[k].updateInterval.Some?
    ensures handlers[k].updateInterval.value in TimerTable(handlers, from)
    decreases |handlers|
  {
    if k < |handlers| - 1 {
      TimerTableHasHandles(handlers[..|handlers| - 1], from, k);
    }
  }

  /** A handler that armed a fresh timer on the same scheduler extends the armed handlers. */
  lemma ArmedAppend(handlers: seq<CO2Accessory>, from: nat, h: CO2Accessory, before: map<nat, real>,
                    timers: Scheduler, active: map<nat, real>)
    requires Armed(handlers, from, before, timers, active)
    requires h.Valid() && h.Cached() == DefaultReadings && h.timers == timers
    requires h.updateInterval.Some? && h.updateInterval.value !in active
    ensures Armed(handlers + [h], from, before, timers, active[h.updateInterval.value := IntervalMillis(h.config)])
  {
    var hs := handlers + [h];
    forall k | from <= k < |handlers|
      ensures handlers[k].updateInterval != h.updateInterval
    {
      TimerTableHasHandles(handlers, from, k);
    }
    assert hs[..|handlers|] == handlers;
    var t := h.updateInterval.value;
    assert TimerTable(hs, from) == TimerTable(handlers, from)[t := IntervalMillis(h.config)];
    assert (before + TimerTable(handlers, from))[t := IntervalMillis(h.config)] == before + TimerTable(hs, from);
  }

  // ---------------------------------------------------------------------
  // The platform object
  // ---------------------------------------------------------------------

  predicate SensorsIsArray(sensors: Option<Json>) {
    sensors.Some? && sensors.value.JArray?
  }

  class CO2Platform {
    /** `config.sensors`, possibly absent or not an array. */
    const sensors: Option<Json>
    /** Whether `new URL(s)` succeeds. */
    const urlParses: string -> bool
    /** `api.hap.uuid.generate`. */
    const generateUuid: string -> string
    const timers: Scheduler

    /** Accessories restored from the host's cache. */
    var accessories: seq<PlatformAccessory>
    /** A handler for each valid configured sensor. */
    var activeAccessories: seq<CO2Accessory>
    /** The calls made into the host, in order. */
    var events: seq<HostEvent>

    constructor (sensors: Option<Json>, urlParses: string -> bool, generateUuid: string -> string, timers: Scheduler)
      ensures this.sensors == sensors && this.urlParses == urlParses && this.generateUuid == generateUuid
      ensures this.timers == timers
      ensures accessories == [] && activeAccessories == [] && events == []
    {
      this.sensors := sensors;
      this.urlParses := urlParses;
      this.generateUuid := generateUuid;
      this.timers := timers;
      accessories := [];
      activeAccessories := [];
      events := [];
    }

    /** The host restores a cached accessory: it joins the cache, and nothing else changes. */
    method ConfigureAccessory(accessory: PlatformAccessory)
      modifies this`accessories
      ensures accessories == old(accessories) + [accessory]
    {
      accessories := accessories + [accessory];
    }

    /**
     * The loop body for one valid entry: reuse the cached accessory with the
     * entry's UUID (its context becomes the entry) or register a new one, and
     * wrap it in a handler.
     */
    method AddHandler(sensorConfig: Json) returns (handler: CO2Accessory)
      requires timers.Valid()
      modifies this`activeAccessories, this`events, accessories, timers
      ensures timers.Valid()
      ensures fresh(handler) && handler.Valid() && handler.Cached() == DefaultReadings && handler.timers == timers
      ensures handler.updateInterval.Some? && handler.updateInterval.value !in old(timers.active)
      ensures timers.active == old(timers.active)[handler.updateInterval.value := IntervalMillis(handler.config)]
      ensures activeAccessories == old(activeAccessories) + [handler]
      ensures Serves(handler, sensorConfig, accessories, generateUuid)
      ensures events == old(events) + [EventFor(accessories, sensorConfig, generateUuid)]
      ensures forall a | a in accessories ::
        a.config == ContextStep(a, old(a.config), accessories, sensorConfig, generateUuid)
    {
      var c := ReadConfig(sensorConfig);
      var uuid := generateUuid(c.url + c.name);
      match FindIndex(accessories, uuid) {
        case Some(j) =>
          handler := ReuseCached(sensorConfig, j);
        case None =>
          handler := RegisterNew(sensorConfig);
      }
    }

    /** An entry whose UUID finds the cached accessory `j`: that accessory takes the entry as its context. */
    method ReuseCached(sensorConfig: Json, j: nat) returns (handler: CO2Accessory)
      requires timers.Valid()
      requires FindIndex(accessories, UuidOf(sensorConfig, generateUuid)) == Some(j)
      modifies this`activeAccessories, this`events, accessories, timers
      ensures timers.Valid()
      ensures fresh(handler) && handler.Valid() && handler.Cached() == DefaultReadings && handler.timers == timers
      ensures handler.updateInterval.Some? && handler.updateInterval.value !in old(timers.active)
      ensures timers.active == old(timers.active)[handler.updateInterval.value := IntervalMillis(handler.config)]
      ensures activeAccessories == old(activeAccessories) + [handler]
      ensures handler.accessory == accessories[j] && handler.config == ReadConfig(sensorConfig)
      ensures events == old(events) + [Updated(accessories[j])]
      ensures forall a | a in accessories :: a.config == if a == accessories[j] then sensorConfig else old(a.config)
    {
      var existing := accessories[j];
      existing.config := sensorConfig;
      handler := new CO2Accessory(existing, timers);
      activeAccessories := activeAccessories + [handler];
      events := events + [Updated(existing)];
    }

    /** An entry whose UUID no cached accessory has: a new accessory, named after it, is registered. */
    method RegisterNew(sensorConfig: Json) returns (handler: CO2Accessory)
      requires timers.Valid()
      requires FindIndex(accessories, UuidOf(sensorConfig, generateUuid)).None?
      modifies this`activeAccessories, this`events, timers
      ensures timers.Valid()
      ensures fresh(handler) && handler.Valid() && handler.Cached() == DefaultReadings && handler.timers == timers
      ensures handler.updateInterval.Some? && handler.updateInterval.value !in old(timers.active)
      ensures timers.active == old(timers.active)[handler.updateInterval.value := IntervalMillis(handler.config)]
      ensures activeAccessories == old(activeAccessories) + [handler]
      ensures fresh(handler.accessory) && handler.accessory.uuid == UuidOf(sensorConfig, generateUuid)
      ensures handler.accessory.displayName == ReadConfig(sensorConfig).name && handler.config == ReadConfig(sensorConfig)
      ensures handler.accessory.config == sensorConfig
      ensures events == old(events) + [Registered(UuidOf(sensorConfig, generateUuid), ReadConfig(sensorConfig).name)]
    {
      var c := ReadConfig(sensorConfig);
      var uuid := generateUuid(c.url + c.name);
      var accessory := new PlatformAccessory(c.name, uuid);
      accessory.config := sensorConfig;
      handler := new CO2Accessory(accessory, timers);
      activeAccessories := activeAccessories + [handler];
      events := events + [Registered(uuid, c.name)];
    }

    /**
     * What the first loop of the discovery has established after handling the
     * valid entries `valid`: the handlers added since `n` serve them in order,
     * each cached accessory's context is what they leave it (from `initial`),
     * and the host calls since `events0` are theirs.
     */
    ghost predicate Reconciled(n: nat, valid: seq<Json>, initial: map<PlatformAccessory, Json>, events0: seq<HostEvent>)
      reads this, accessories
    {
      && n <= |activeAccessories|
      && ServedInOrder(activeAccessories[n..], valid, accessories, generateUuid)
      && (forall a | a in accessories :: a in initial && a.config == ContextAfter(a, initial[a], accessories, valid, generateUuid))
      && events == events0 + SensorEvents(accessories, valid, generateUuid)
    }

    /** Adds the entry's handler while the handlers since `n` stay armed, each with its own timer. */
    method AddArmedHandler(sensorConfig: Json, ghost n: nat, ghost timers0: map<nat, real>)
      returns (handler: CO2Accessory)
      requires timers.Valid() && Armed(activeAccessories, n, timers0, timers, timers.active)
      modifies this`activeAccessories, this`events, accessories, timers
      ensures timers.Valid() && Armed(activeAccessories, n, timers0, timers, timers.active)
      ensures fresh(handler) && handler.Valid() && handler.Cached() == DefaultReadings && handler.timers == timers
      ensures handler.updateInterval.Some? && handler.updateInterval.value !in old(timers.active)
      ensures timers.active == old(timers.active)[handler.updateInterval.value := IntervalMillis(handler.config)]
      ensures activeAccessories == old(activeAccessories) + [handler]
      ensures Serves(handler, sensorConfig, accessories, generateUuid)
      ensures events == old(events) + [EventFor(accessories, sensorConfig, generateUuid)]
      ensures forall a | a in accessories ::
        a.config == ContextStep(a, old(a.config), accessories, sensorConfig, generateUuid)
    {
      ghost var before := activeAccessories;
      ghost var active0 := timers.active;
      handler := AddHandler(sensorConfig);
      assert Armed(before, n, timers0, timers, active0);
      ArmedAppend(before, n, handler, timers0, timers, active0);
    }

    /** The loop's step: one more valid entry on top of those already reconciled. */
    method ReconcileNext(sensorConfig: Json, ghost n: nat, ghost valid: seq<Json>,
                         ghost initial: map<PlatformAccessory, Json>, ghost events0: seq<HostEvent>,
                         ghost timers0: map<nat, real>)
      returns (handler: CO2Accessory)
      requires timers.Valid() && Reconciled(n, valid, initial, events0)
      requires Armed(activeAccessories, n, timers0, timers, timers.active)
      modifies this`activeAccessories, this`events, accessories, timers
      ensures timers.Valid() && Reconciled(n, valid + [sensorConfig], initial, events0)
      ensures Armed(activeAccessories, n, timers0, timers, timers.active)
      ensures fresh(handler) && activeAccessories == old(activeAccessories) + [handler]
      ensures activeAccessories[..n] == old(activeAccessories)[..n]
    {
      ghost var before := activeAccessories;
      assert ServedInOrder(before[n..], valid, accessories, generateUuid);
      handler := AddArmedHandler(sensorConfig, n, timers0);
      forall a | a in accessories
        ensures a.config == ContextAfter(a, initial[a], accessories, valid + [sensorConfig], generateUuid)
      {
        ContextAfterExtend(a, initial[a], accessories, valid, sensorConfig, generateUuid);
      }
      SensorEventsExtend(accessories, valid, sensorConfig, generateUuid);
      AppendAssociative(events0, SensorEvents(accessories, valid, generateUuid),
                        [EventFor(accessories, sensorConfig, generateUuid)]);
      ServedInOrderExtend(before[n..], valid, handler, sensorConfig, accessories, generateUuid);
      SliceOfAppend(before, handler, n);
    }

    /**
     * The first loop of the discovery: one handler per valid entry, in order,
     * on the cached accessory with the entry's UUID (whose context becomes the
     * entry) or on a newly registered one.
     */
    method AddHandlers(items: seq<Json>)
      requires timers.Valid()
      modifies this`activeAccessories, this`events, accessories, timers
      ensures timers.Valid()
      ensures var valid := ValidSensors(items, urlParses);
        var n := |old(activeAccessories)|;
        && n <= |activeAccessories| && activeAccessories[..n] == old(activeAccessories)
        && ServedInOrder(activeAccessories[n..], valid, accessories, generateUuid)
        && (forall a | a in accessories :: a.config == ContextAfter(a, old(a.config), accessories, valid, generateUuid))
        && events == old(events) + SensorEvents(accessories, valid, generateUuid)
        && Armed(activeAccessories, n, old(timers.active), timers, timers.active)
    {
      ghost var n := |activeAccessories|;
      ghost var timers0 := timers.active;
      ghost var initial := map a | a in accessories :: a.config;
      ghost var events0 := events;
      ghost var valid: seq<Json> := [];
      assert activeAccessories[n..] == [];
      var i := 0;
      while i < |items|
        invariant 0 <= i <= |items|
        invariant timers.Valid()
        invariant valid == ValidSensors(items[..i], urlParses)
        invariant Reconciled(n, valid, initial, events0)
        invariant activeAccessories[..n] == old(activeAccessories)
        invariant Armed(activeAccessories, n, timers0, timers, timers.active)
      {
        var sensorConfig := items[i];
        if IsValidSensorConfig(sensorConfig, urlParses) {
          ValidSensorsKeep(items, i, urlParses);
          ghost var valid' := valid + [sensorConfig];
          assert valid' == ValidSensors(items[..i + 1], urlParses);
          var handler := ReconcileNext(sensorConfig, n, valid, initial, events0, timers0);
          valid := valid';
        } else {
          ValidSensorsSkip(items, i, urlParses);
          assert valid == ValidSensors(items[..i + 1], urlParses);
        }
        i := i + 1;
      }
      assert items[..|items|] == items;
    }

    /** The second step of the discovery: unregister, in one call, the cached accessories no valid entry claims. */
    method RemoveStale(items: seq<Json>)
      modifies this`events
      ensures events == old(events) + RemovalEvents(ToRemove(accessories, ConfiguredUuids(ValidSensors(items, urlParses), generateUuid)))
    {
      var configuredUuids := ConfiguredUuids(ValidSensors(items, urlParses), generateUuid);
      var accessoriesToRemove := ToRemove(accessories, configuredUuids);
      if |accessoriesToRemove| > 0 {
        events := events + [Unregistered(accessoriesToRemove)];
      }
    }

    /**
     * Handlers for the valid entries, then the removal of the stale cached
     * accessories. Without a sensors array nothing happens.
     */
    method DiscoverDevices()
      requires timers.Valid()
      modifies this`activeAccessories, this`events, accessories, timers
      ensures timers.Valid()
      ensures !SensorsIsArray(sensors) ==>
        && activeAccessories == old(activeAccessories)
        && events == old(events)
        && unchanged(timers)
        && forall a | a in accessories :: a.config == old(a.config)
      ensures SensorsIsArray(sensors) ==>
        var valid := ValidSensors(sensors.value.items, urlParses);
        var n := |old(activeAccessories)|;
        && n <= |activeAccessories| && activeAccessories[..n] == old(activeAccessories)
        && ServedInOrder(activeAccessories[n..], valid, accessories, generateUuid)
        && (forall a | a in accessories :: a.config == ContextAfter(a, old(a.config), accessories, valid, generateUuid))
        && events == old(events) + SensorEvents(accessories, valid, generateUuid)
                     + RemovalEvents(ToRemove(accessories, ConfiguredUuids(valid, generateUuid)))
        && Armed(activeAccessories, n, old(timers.active), timers, timers.active)
    {
      if sensors.None? || !sensors.value.JArray? {
        return;
      }
      var items := sensors.value.items;
      AddHandlers(items);
      ghost var added := events;
      RemoveStale(items);
      AppendAssociative(old(events), SensorEvents(accessories, ValidSensors(items, urlParses), generateUuid),
                        RemovalEvents(ToRemove(accessories, ConfiguredUuids(ValidSensors(items, urlParses), generateUuid))));
    }
  }
}
