# CO2 REST API sensor plugin: a Dafny model

This project models the core of a home-automation platform plugin that
exposes CO2 sensors (with optional temperature and humidity readings) whose
values come from REST endpoints. Two source files are modelled:

- `src/co2Accessory.ts`: the per-sensor accessory.
  - It reads its configuration from the host accessory's context and derives the clamp bounds and the abnormal threshold (the `??` defaults).
  - It caches four readings, each with a default.
  - It polls on an interval timer.
  - For each of the three field families (CO2, temperature, humidity) it resolves the request fields. Temperature and humidity fall back field by field, through `||`, to the primary value and then to a default path.
  - It fetches a value, extracts it along a dotted JSON path and clamps it. For CO2 it also sets the detection flag.
  - The getters answer from the cache.
- `src/platform.ts`: the platform.
  - It validates each raw sensor entry.
  - It reconciles the configured sensors with the accessories the host restored from its cache: it updates a cached accessory or registers a new one, and creates one handler per valid entry in order.
  - It unregisters the cached accessories that no valid entry claims.

Modules, one per file:

| file | module | content |
|---|---|---|
| `wrappers.dfy` | `Wrappers` | `Option`, `Result` |
| `json.dfy` | `JsonValue` | JSON values with JavaScript truthiness and `typeof`, own-property lookup on objects and arrays, `split('.')` and its inverse |
| `config.dfy` | `Config` | the typed sensor configuration read from a raw entry, the bounds and the polling interval |
| `policy.dfy` | `Policy` | clamp, threshold and the cached readings as a value, with the commit each update performs |
| `resolver.dfy` | `Resolver` | the per-family request fields |
| `fetch.dfy` | `Fetch` | the request, path extraction and the response-to-number conversion |
| `host.dfy` | `Host` | the host's accessory object and the interval-timer table |
| `accessory.dfy` | `Accessory` | the `CO2Accessory` class |
| `platform.dfy` | `Platform` | validation, the reconciliation specification and the `CO2Platform` class |

The HTTP client, `JSON.parse`, `parseFloat`, `new URL` and the UUID
generator are parameters of the model. Calls into the host (update, register,
unregister) are recorded as a sequence of events on the platform object.

## Model

| member | source | states |
|---|---|---|
| JsonValue.TypeOf | src/co2Accessory.ts:367 | `typeof` is "object" exactly for null, arrays and objects |
| JsonValue.Member | src/co2Accessory.ts:367-368 | the lookup `value && typeof value === 'object' && key in value` succeeds only on a truthy object-typed value |
| JsonValue.IndexKeyIff | src/co2Accessory.ts:367 | an array has the own property `key` for an index n exactly when `key` is the decimal numeral of n |
| JsonValue.Split | src/co2Accessory.ts:363 | `split('.')` yields at least one piece, and no piece contains a dot |
| JsonValue.JoinOfSplit | src/co2Accessory.ts:363 | joining the pieces of a split with dots gives back the path |
| JsonValue.SplitOfJoin | src/co2Accessory.ts:363 | splitting the join of dot-free keys gives back the keys |
| Config.StringField | src/types.ts:3-43 | a string field of the typed configuration is present exactly when the raw entry has that member as a string, and it holds that string |
| Config.NumberField | src/types.ts:3-43 | a number field is present exactly when the raw member is a number, and it holds that number |
| Config.MethodField | src/types.ts:9 | the method is GET or POST exactly when the raw member is that string |
| Config.HeadersField | src/types.ts:10 | headers are present exactly when the member is an object; each header comes from a string member of it, and every string member becomes a header with that value |
| Config.AuthField | src/types.ts:13-16 | credentials are present exactly when `auth` is an object with string `username` and `password`, and then they are those two strings |
| Config.ReadConfig | src/co2Accessory.ts:34 | the typed view of an object entry carries the entry's own string name and URL; each enable flag is on exactly when the entry has that member and it is truthy (so the string "false" turns it on), as `if (this.config.enableTemperature)` tests it (src/co2Accessory.ts:158-159) |
| Config.BoundsOf | src/co2Accessory.ts:37-41 | each bound is the configured number when present, 0 included (`??`), and otherwise the default 0, 5000, 1000, -100 or 100 |
| Config.IntervalMillis | src/co2Accessory.ts:96 | the polling period is `(updateInterval ?? 60) * 1000` ms |
| Policy.Clamp | src/co2Accessory.ts:179 | the clamped value is the lower bound, the upper bound or the value itself, and within a non-empty range it lies in the range |
| Policy.ClampInRange | src/co2Accessory.ts:179 | within a non-empty range the clamped value lies in the range; a value inside is kept, one below gives the lower bound and one above gives the upper bound |
| Policy.ClampMonotonic | src/co2Accessory.ts:179 | clamping is monotonic and idempotent |
| Policy.ClampInvertedRange | src/co2Accessory.ts:179 | with min above max the result is always min, because `Math.max` is applied last |
| Policy.Detected | src/co2Accessory.ts:185 | the flag is 0 or 1, and it is 1 exactly when the level is strictly above the threshold |
| Policy.CommitCO2 | src/co2Accessory.ts:177-186 | a fetched value sets the clamped level and a flag that is 1 exactly when that level exceeds the threshold; `null` changes nothing; temperature and humidity are untouched |
| Policy.CommitTemperature | src/co2Accessory.ts:220-223 | a fetched value sets the temperature to its clamp into the configured bounds, so within them; `null` changes nothing; the other readings are untouched |
| Policy.CommitHumidity | src/co2Accessory.ts:257-260 | a fetched value sets the humidity to its clamp into [0, 100]; `null` changes nothing; the other readings are untouched |
| Policy.CommitsCommute | src/co2Accessory.ts:155-161 | the three concurrent updates commute: any completion order gives the same cache |
| Policy.Tick | src/co2Accessory.ts:155-161 | a cycle's CO2 readings are the CO2 commit of the fetched value, and a disabled family keeps its reading |
| Policy.TickFieldwise | src/co2Accessory.ts:155-161 | after a cycle, each reading is its family's clamped fetched value if that family ran and fetched one, and its old value otherwise; one family's failure does not affect the others |
| Policy.TickKeepsConsistent | src/co2Accessory.ts:155-161 | a cycle keeps the flag in {0, 1} and the humidity in [0, 100] |
| Policy.AbnormalReadingScenario | src/co2Accessory.ts:179-185 | with default bounds, 1500 ppm is kept and flagged abnormal |
| Policy.HotReadingScenario | src/co2Accessory.ts:222 | with the default temperature range, 999 is reported as 100 |
| Policy.ThresholdIsStrict | src/co2Accessory.ts:185 | a level equal to the threshold is normal |
| Resolver.Resolve | src/co2Accessory.ts:166-255 | every family's fetch gets a non-empty JSON path; the CO2 fetch sends the sensor's own URL, method, headers, body and timeout (src/co2Accessory.ts:169-174) |
| Resolver.PathChain | src/co2Accessory.ts:170 | the path is the family's own path if non-empty, else the primary path if non-empty, else "co2", "temp" or "humidity"; CO2 has only the last two steps |
| Resolver.PrimaryIgnoresOverrides | src/co2Accessory.ts:166-175 | no temperature or humidity override changes the CO2 request |
| Resolver.OverrideWinsPerField | src/co2Accessory.ts:210-218 | for temperature and humidity, each of URL, method, headers, body and timeout is the override when truthy and the primary value otherwise |
| Resolver.OverridesIndependent | src/co2Accessory.ts:247-255 | changing one override field changes no other effective field of that family |
| Resolver.FalsyOverridesFallBack | src/co2Accessory.ts:210-218 | an empty body or zero timeout override falls back to the primary value (`||`), whereas an explicit zero bound is kept (`??`) |
| Resolver.TemperatureUrlScenario | src/co2Accessory.ts:210 | the temperature URL is the override when set and the sensor URL otherwise |
| Fetch.BuildRequest | src/co2Accessory.ts:287-309 | GET unless POST is given; the timeout is the given one when it is set and non-zero, and 5000 otherwise (`timeout \|\| 5000`); headers or `{}`; the sensor's credentials; a body only for POST with a non-empty body, sent as parsed JSON when it parses and as the raw text otherwise |
| Fetch.AuthSharedByFamilies | src/co2Accessory.ts:295-300 | all families send the sensor's one set of credentials |
| Fetch.Walk | src/co2Accessory.ts:366-376 | a failed walk names one of the path's keys |
| Fetch.Extract | src/co2Accessory.ts:362-390 | a failed walk gives "not found" with the path and the first missing key; a leaf that is a number gives that number, a string gives its `parseFloat`, and anything else gives "not a number" with the path and the leaf's `typeof` |
| Fetch.LeafNumber | src/co2Accessory.ts:378-389 | a leaf converts exactly when it is a number or a string; otherwise the error names the path and a type that is neither "number" nor "string" |
| Fetch.ExtractValueFromJson | src/co2Accessory.ts:362-390 | the loop walks the keys and returns the extraction result: the walk's first missing key, or the leaf's number, parsed string or type error |
| Fetch.WalkAppend | src/co2Accessory.ts:366-376 | walking a concatenation of keys is walking the first part and then the second |
| Fetch.WalkFailureAt | src/co2Accessory.ts:367-375 | a failed walk fails at the first key that the value reached so far does not have |
| Fetch.WalkScalarFails | src/co2Accessory.ts:367 | a string, number, boolean or null fails the walk at the first key |
| Fetch.WalkArrayIndex | src/co2Accessory.ts:367-368 | an array is walked into by the numeral of an index |
| Fetch.WalkNest | src/co2Accessory.ts:366-376 | the walk along a chain of keys reaches the value nested under that chain |
| Fetch.ExtractNestedNumber | src/co2Accessory.ts:362-380 | round trip: the dotted join of dot-free keys extracts the number nested under those keys |
| Fetch.SensorCo2Example | src/co2Accessory.ts:358-362 | "sensor.co2" on `{"sensor": {"co2": 450}}` gives 450 |
| Fetch.ExtractLeaf | src/co2Accessory.ts:378-389 | extraction succeeds exactly when the walk reaches a number (taken as is) or a string (passed through `parseFloat`) |
| Fetch.FetchOutcome | src/co2Accessory.ts:313-343 | a failed request is reported as such. With a path, an extraction error is reported as that error, NaN as the NaN failure and a number as the result. Without a path, a number body is the result, a string body is its `parseFloat` (NaN is the NaN failure), an object-typed body is the "no path" error and a boolean is unparseable. Every case is given, so each failure kind occurs only under its own condition |
| Fetch.FetchValueFromApi | src/co2Accessory.ts:278-356 | sends the built request; the returned value is the outcome of the response (the extracted value with a path, and the body's number or parsed string without one), and every failure, including NaN, gives `null` |
| Fetch.FetchWithPath | src/co2Accessory.ts:316-318 | with a path, the result is v exactly when the request succeeded and extraction gave v |
| Fetch.FetchWithoutPath | src/co2Accessory.ts:319-336 | without a path, the result is v exactly when the body is the number v or a string that parses to v; an object, array or null body is the "no path" error |
| Fetch.FetchRequestFailure | src/co2Accessory.ts:344-355 | a failed request gives `null` whatever the path |
| Fetch.PlainTextBodyScenario | src/co2Accessory.ts:323-324 | a plain-text body "450.5" without a path reads as 450.5 |
| Fetch.FetchFamily | src/co2Accessory.ts:166-175 | a family's fetched value is present exactly when the request succeeded and extraction along the resolved path gave a number, and absent exactly when either failed or the result was NaN |
| Host.PlatformAccessory.constructor | src/platform.ts:94 | a new accessory carries the given name and UUID |
| Host.Scheduler.SetInterval | src/co2Accessory.ts:145-147 | arms a timer with the period under a fresh handle |
| Host.Scheduler.ClearInterval | src/co2Accessory.ts:141 | disarms exactly that handle |
| Accessory.CO2Accessory.constructor | src/co2Accessory.ts:30-41 | the configuration is read from the accessory's context, the bounds come from it, the cache holds the defaults 400, 0, 20 and 50, and one timer is armed at the configured interval |
| Accessory.CO2Accessory.HandleCarbonDioxideDetectedGet | src/co2Accessory.ts:106-109 | answers the cached flag, which is 0 or 1 |
| Accessory.CO2Accessory.HandleCarbonDioxideLevelGet | src/co2Accessory.ts:114-117 | answers the cached level without fetching |
| Accessory.CO2Accessory.HandleTemperatureGet | src/co2Accessory.ts:122-125 | answers the cached temperature without fetching |
| Accessory.CO2Accessory.HandleHumidityGet | src/co2Accessory.ts:130-133 | answers the cached humidity, which lies in [0, 100] |
| Accessory.CO2Accessory.StartPeriodicUpdates | src/co2Accessory.ts:138-150 | the previous timer, if any, is disarmed before a new one is armed, so the accessory holds at most one live timer |
| Accessory.CO2Accessory.Destroy | src/co2Accessory.ts:395-400 | disarms the accessory's timer and forgets its handle; a second call changes nothing |
| Accessory.CO2Accessory.UpdateCO2Value | src/co2Accessory.ts:166-199 | the cache becomes the CO2 commit of the value fetched along the resolved path; other readings are untouched and consistency is kept |
| Accessory.CO2Accessory.UpdateTemperatureValue | src/co2Accessory.ts:204-236 | the cache becomes the temperature commit of the fetched value |
| Accessory.CO2Accessory.UpdateHumidityValue | src/co2Accessory.ts:241-273 | the cache becomes the humidity commit of the fetched value |
| Accessory.CO2Accessory.UpdateAllValues | src/co2Accessory.ts:155-161 | one cycle: CO2 always, temperature and humidity only when enabled, each from its own fetch |
| Accessory.Co2ResponseScenario | src/co2Accessory.ts:166-186 | the response `{"co2": 1500}` with path "co2" and default bounds gives 1500 ppm flagged abnormal |
| Accessory.PartialFailureScenario | src/co2Accessory.ts:155-161 | a failed CO2 request leaves the CO2 readings unchanged while the temperature response `{"t": 999}` with path "t" becomes 100 |
| Platform.Trim | src/platform.ts:132 | the trimmed string is no longer than the input and neither starts nor ends with white space |
| Platform.TrimStartShape | src/platform.ts:132 | `trim` removes a white-space prefix and stops at the first other character |
| Platform.TrimEndShape | src/platform.ts:132 | `trim` removes a white-space suffix and stops at the last other character |
| Platform.TrimEmptyIffBlank | src/platform.ts:132 | `s.trim() === ''` exactly when every character of s is white space |
| Platform.HasRequiredStringIff | src/platform.ts:132-140 | a required member is present exactly when it is a string that is not all white space |
| Platform.IsValidSensorConfig | src/platform.ts:126-150 | a valid entry is an object |
| Platform.ValidSensorConfigIff | src/platform.ts:126-150 | an entry is valid exactly when it is an object (not an array), its name and URL are strings that are not all white space, and the URL parses |
| Platform.ValidConfigReadsNameAndUrl | src/platform.ts:70 | a valid entry is read with its own non-empty name and URL, which make up its UUID |
| Platform.ValidSensors | src/platform.ts:109-110 | the filtered list is no longer than the input and holds only valid entries |
| Platform.ValidSensorsMembers | src/platform.ts:109-110 | an entry is in the filtered list exactly when it is configured and valid |
| Platform.FindIndex | src/platform.ts:74 | the lookup finds the first cached accessory with the UUID, and finds none exactly when no cached accessory has it |
| Platform.ConfiguredUuids | src/platform.ts:109-111 | the k-th configured UUID is generated from the k-th valid entry |
| Platform.ToRemove | src/platform.ts:113-115 | the removal list holds the cached accessories whose UUID is not configured, and all of them |
| Platform.RemovalExact | src/platform.ts:108-115 | a cached accessory is removed exactly when no valid entry maps to it; an invalid entry protects nothing |
| Platform.ContextKeptWhenUnmatched | src/platform.ts:76-81 | a cached accessory that no valid entry finds keeps its context |
| Platform.SameUuidRegisteredTwice | src/platform.ts:89-105 | two valid entries with one UUID and no cached accessory each register that UUID, because new accessories are not added to the cache |
| Platform.CO2Platform.constructor | src/platform.ts:15-38 | the platform starts with an empty cache, no handlers and no host calls |
| Platform.CO2Platform.ConfigureAccessory | src/platform.ts:44-49 | a restored accessory joins the end of the cache, and nothing else changes |
| Platform.CO2Platform.AddHandler | src/platform.ts:69-105 | for one valid entry: the cached accessory with its UUID gets the entry as context and an update call, or a new accessory named after the entry is registered; a new handler reading the entry is appended, valid, holding the default readings, on the platform's scheduler, with one new timer at `(updateInterval ?? 60) * 1000` ms added to the table |
| Platform.CO2Platform.ReuseCached | src/platform.ts:76-88 | the accessory found by UUID takes the entry as its context, gets an update call and is served by a new armed handler; no other accessory changes |
| Platform.CO2Platform.RegisterNew | src/platform.ts:89-105 | a new accessory with the entry's UUID, name and context is registered and served by a new armed handler |
| Platform.CO2Platform.AddArmedHandler | src/co2Accessory.ts:96-97 | adding a handler keeps every handler since the start of the discovery valid, with default readings and its own distinct timer, and the timer table is exactly the earlier table plus those timers |
| Platform.CO2Platform.ReconcileNext | src/platform.ts:64-106 | one more valid entry keeps the loop's reconciliation (contexts, host calls, handlers in order) and the armed timers |
| Platform.CO2Platform.AddHandlers | src/platform.ts:64-106 | the loop appends one handler per valid entry in order, invalid entries are skipped, each cached accessory ends with the context of the last valid entry that finds it, and one host call is made per valid entry; each new handler is valid, holds the default readings and has its own timer, and the timer table gains exactly those timers |
| Platform.CO2Platform.RemoveStale | src/platform.ts:108-120 | a single unregister call with the stale accessories, made only when there are any |
| Platform.CO2Platform.DiscoverDevices | src/platform.ts:56-121 | without a sensors array nothing changes, timers included; otherwise the handlers, contexts and host calls of the loop are followed by the removal call |

Three helpers have no contract of their own:
- `Platform.UuidOf`, the UUID of an entry (src/platform.ts:70, 111). `Platform.ValidConfigReadsNameAndUrl` states it is generated from the entry's URL followed by its name, and `Platform.ConfiguredUuids` states the k-th UUID comes from the k-th valid entry.
- `Fetch.RequestFor`, the request a family sends (src/co2Accessory.ts:166-175, 210-218, 247-255). It is defined only by its body: `Fetch.BuildRequest` applied to the fields of `Resolver.Resolve` and the sensor's credentials. Those two members' contracts say what the request holds, and `Fetch.AuthSharedByFamilies` states the credentials.
- `Config.FlagField`, the `enableTemperature`/`enableHumidity` flags (src/co2Accessory.ts:158-159). `Config.ReadConfig` states that each flag is on exactly when the member is present and truthy, and `Policy.Tick` and `Accessory.CO2Accessory.UpdateAllValues` state what the flags switch.

## Left out

- HTTP: the axios exchange is a parameter (`Fetch.Exchange`) mapping a request to a response body or an error. Redirects, status handling and response decoding happen inside the client and are not modelled.
- `parseFloat`, `JSON.parse`, `new URL` and the UUID generator are parameters. NaN is modelled as `parseFloat` returning none. Numbers are reals: IEEE rounding, infinities and `-0` are not modelled.
- Timers: `setInterval`/`clearInterval` are modelled by a table of live handles (`Host.Scheduler`). The timer callback is not modelled; a caller runs `UpdateAllValues` for each tick. That is possible for a handler made by `AddHandler` or `ReconcileNext`, whose contracts state that it is newly allocated. It is not possible for the handlers that `DiscoverDevices` creates: see the `Platform.CO2Platform.DiscoverDevices` line below.
- Accessory.CO2Accessory.constructor: the initial `updateAllValues()` call is not made inside the constructor. It is the caller's first `UpdateAllValues`, because the fetch needs the exchange parameter. For handlers created by `DiscoverDevices`, neither this first update nor the periodic ones can be run in the model, for the reason given on the `Platform.CO2Platform.DiscoverDevices` line.
- Accessory.CO2Accessory.UpdateAllValues: the three updates run concurrently in the source, but in sequence here. `Policy.CommitsCommute` shows that the order does not change the cache. Interleaving with a later cycle is not modelled.
- Services and characteristics: creating and removing the HomeKit services, the accessory information (manufacturer, model, serial number, firmware), the characteristic `onGet` wiring and `updateCharacteristic` notifications are not modelled. The getters are modelled as reads of the cache.
- Logging: every log call is omitted. The error paths are kept as failure values (`Fetch.FetchFailure`, `Fetch.ExtractError`).
- Config.ReadConfig: a configuration field holding a value of the wrong JSON type is read as absent, whereas the source would pass it through untyped. This covers a method string other than "GET" or "POST" ("PUT", or "post" in lower case): the source hands it to axios (src/co2Accessory.ts:288), and for temperature and humidity it wins over the primary method through `||` (src/co2Accessory.ts:214, 251). It also covers non-string members of `headers`, which are dropped, and an `auth` object without string `username` and `password`, which is read as no credentials.
- JsonValue.Member: properties inherited through the prototype chain (e.g. `"toString" in {}`) are not modelled. Only own properties count, plus an array's canonical indices and `length`.
- The platform's constructor wiring to the `didFinishLaunching` event and `src/index.ts` (plugin registration) are not modelled. `DiscoverDevices` is called directly.
- Platform.CO2Platform.DiscoverDevices: it does not state that the handlers it creates are newly allocated objects. It does state that each one is `Valid()`, holds the default readings and has its own armed timer. Without freshness, a caller cannot include these handlers in its `modifies` frame. So the model cannot run the source's first `updateAllValues()` (src/co2Accessory.ts:99) or its periodic updates (src/co2Accessory.ts:145-147) on a discovered handler. Carrying freshness through the discovery loop made its proof exceed the resource limit. The handler objects of a previous discovery are not destroyed, and the source does not destroy them either. Unregistered accessories stay in the cache, as they do in the source.
- Platform.CO2Platform.AddHandlers: does not state that the handlers are newly allocated objects. Each `AddHandler` call states it for its own handler; across the loop, the handlers are told apart only by their distinct timer handles.
