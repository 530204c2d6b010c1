# WeatherAPI request service — a Dafny model

The weather widget in `script.js` talks to its weather provider through one object,
`WeatherAPI`. That object keeps two fields:

- `cache`: a `Map` from a request fingerprint to the decoded response.
- `lastRequestTime`: the clock reading of the last network attempt.

Its one public operation, `fetchWeatherData(endpoint, params)`, does these steps in order:

1. It checks its inputs.
2. It serves a cached response if there is one.
3. Otherwise it throttles network attempts to one per `RATE_LIMIT` (1000 ms).
4. It calls the network once, with the caller's parameters plus the forced `appid` and `units=metric`.
5. It caches the response only when the call succeeds, and normalises every failure to an `Error`.

`clearWeatherCache` empties the cache.

The model has five modules:

- `Basics` (`basics.dfy`): `Option` and `Result`. A `Result` is what the returned promise settles to.
- `Text` (`text.dfy`): the order JavaScript's default `sort` puts strings in (`Below`), `join`, and decimal numerals.
- `Params` (`params.dfy`): parameter objects as their own properties in insertion order. Holds the fingerprint `createCacheKey` and the query merge of `buildRequestUrl`.
- `Http` (`http.dfy`): what one network attempt can come back with, the status check of `executeRequest`, and `normalizeError`.
- `WeatherApi` (`weather_api.dfy`): the service itself. `Fetch` is a function from the old state to the new state, the result and the request sent, if any. The class `WeatherAPI` holds the two fields and reassigns them in `EnforceRateLimit`, `FetchWeatherData` and `ClearWeatherCache`. `FetchWeatherData` is proved to do exactly what `Fetch` says. `Run` chains calls one after another, and the throttle and cache properties are proved over any such sequence.

The environment comes in as parameters:

- `apiKey`: the configured `API_KEY`. An empty string means it is not configured.
- `Clock(now, lag)`: the first `Date.now()` of `enforceRateLimit`, and how far the second reading falls past `now` plus the delay. The model takes `lag >= 0`: an assumption about `Date.now()`, stated under "## Left out".
- `Outcome`: how the single `fetch` ends. It is a response with a status and a decoded body, an abort by the 5000 ms timer, or a rejection with some thrown value.

Other revisions of this widget expire cache entries after five minutes and retry failed requests twice. The `script.js` modelled here does neither: a hit is served until `clearWeatherCache` runs, and a failure is reported after one attempt. The model follows `script.js`.

## Model

| member | source | states |
|---|---|---|
| `Params.Names` | script.js:55 | `Object.keys(params)` lists one name per property, the name of the property at the same place |
| `Params.ValueOf` | script.js:57 | `params[key]` is defined exactly when `key` is one of the object's names, and then the object holds the pair `key=value` |
| `Params.Segments` | script.js:57 | The `map` gives one segment per sorted name |
| `Params.SegmentShape` | script.js:57 | Each segment is the name, then `=`, then the property's value printed as a template literal prints it (`undefined` for a missing property) |
| `Params.CreateCacheKey` | script.js:54-60 | The fingerprint is the endpoint followed by `?`; with no parameters it is exactly `endpoint?` |
| `Params.CacheKeySegments` | script.js:55-59 | For an object with distinct names, the query part of the fingerprint has exactly one segment per parameter, and each parameter's pair appears as `name=value` |
| `Params.CacheKeyOrderIndependent` | script.js:54-60 | Two parameter objects with the same name/value pairs give the same fingerprint, whatever order their properties were inserted in |
| `Params.SortNames` | script.js:55-56 | Sorting the property names gives a permutation of them, strictly ascending in the default sort order |
| `Params.InsertSorted` | script.js:55-56 | Inserting a new name into a strictly ascending list keeps it strictly ascending |
| `Params.StrictlySortedUnique` | script.js:55-56 | Only one strictly ascending list holds a given set of names, so the sorted key list does not depend on the input order |
| `Params.ValueOfPair` | script.js:57 | In an object with distinct names, `params[name]` is `value` exactly when the object holds the pair `name=value` |
| `Params.Assign` | script.js:77-81 | Setting a property gives it the new value and leaves every other property's value alone; an existing property keeps its place, a new one goes last |
| `Params.AssignShape` | script.js:77-81 | Setting a property keeps every existing property in its place, adds at most one, and never duplicates a name |
| `Params.MergeParams` | script.js:77-81 | The query always has `appid = API_KEY` and `units = metric`, overriding caller values of those names; every other caller parameter keeps its value and its place |
| `Text.Below` | script.js:56 | The default sort's comparison: code-point lexicographic order with a proper prefix first. It never ranks a name before itself, and ranks every proper prefix of a name before it. It differs from JavaScript's UTF-16 code-unit order only for characters outside the Basic Multilingual Plane (see "## Left out") |
| `Text.BelowIrreflexive` | script.js:56 | No name sorts before itself |
| `Text.BelowAsymmetric` | script.js:56 | Two names never sort before each other |
| `Text.BelowTotal` | script.js:56 | The default sort order ranks any two different names one way or the other |
| `Text.BelowTransitive` | script.js:56 | The default sort order is transitive |
| `Text.Join` | script.js:58 | `join('&')` of no segments is the empty string; otherwise the result starts with the first segment and ends with the last |
| `Text.Decimal` | script.js:96 | The printed status is a non-empty string of digits with no leading zero |
| `Text.DecimalRoundTrip` | script.js:96 | Reading the printed status back as a decimal number gives the status |
| `Http.IsOk` | script.js:95 | `response.ok` holds exactly for the 2xx statuses, those whose hundreds digit is 2 |
| `Http.StatusError` | script.js:96 | A status that is not ok throws an `Error` whose message starts with `API error: ` and goes on past it |
| `Http.NameOf` | script.js:104 | Reading `error.name`: every `Error` has a name; another thrown value has one exactly when it carries a `name` property |
| `Http.NewError` | script.js:105-107 | `new Error(message)` is an `Error` named `Error` carrying exactly `message` |
| `Http.ExecuteRequest` | script.js:85-100 | An attempt succeeds exactly when the response status is 200-299, and then yields the body; any other status throws `API error: <status>`; an abort and a rejection are passed on |
| `Http.StatusErrorRoundTrip` | script.js:95-97 | The status error is an `Error` whose message names the status, so the status can be read back from it |
| `Http.NormalizeError` | script.js:102-108 | Every normalised value is an `Error`: an abort becomes `Request timed out`, another `Error` passes unchanged, anything else is wrapped in `new Error(String(value))` |
| `Http.NormalizeErrorIdempotent` | script.js:102-108 | Normalising a normalised error changes nothing |
| `WeatherApi.RateLimitDelay` | script.js:62-70 | The wait is never negative and brings the time since the last attempt up to exactly `RATE_LIMIT` when it was below that; it is 0 once that much time has passed and at most `RATE_LIMIT` when the clock has not gone backwards |
| `WeatherApi.ThrottledTime` | script.js:62-73 | The new `lastRequestTime` is at least the old one plus `RATE_LIMIT`, and not before the first clock reading |
| `WeatherApi.WeatherAPI.EnforceRateLimit` | script.js:62-73 | Sleeps for the rate-limit delay and sets `lastRequestTime` to the clock reading after the wait, at least `RATE_LIMIT` after its old value |
| `WeatherApi.Fetch` | script.js:22-51 | Input errors come first and change nothing. A hit returns the stored payload with no network attempt and no change. A miss sends one request with the merged query and throttles. A success caches exactly `key -> response` and returns it. A failure leaves the cache alone and returns the normalised error |
| `WeatherApi.WeatherAPI.FetchWeatherData` | script.js:22-51 | The method's new `cache`, `lastRequestTime`, result and request sent are exactly those `Fetch` gives for the old state |
| `WeatherApi.FailureErrors` | script.js:39-50 | A failed attempt surfaces `API error: <status>`, `Request timed out` (for an abort or any rejection named `AbortError`), the rejected `Error` itself or the wrapped value, and never touches the cache |
| `WeatherApi.RepeatIsHit` | script.js:28-45 | After a successful call, the same call again is a hit returning the same payload with no network attempt and no state change, even with its parameters inserted in another order |
| `WeatherApi.SpacedCons` | script.js:62-73 | An attempt `RATE_LIMIT` after the previous one, followed by well-spaced attempts, makes a well-spaced sequence |
| `WeatherApi.AttemptsAreSpaced` | script.js:62-73 | Over any sequence of calls made one after another, each network attempt comes at least `RATE_LIMIT` after the previous one |
| `WeatherApi.FetchKeepsEntry` | script.js:31-45 | One call never removes a cached entry or changes its payload |
| `WeatherApi.CachedEntriesPersist` | script.js:31-45 | Until the cache is cleared, a cached entry stays present with the same payload over any sequence of calls |
| `WeatherApi.AfterClearEveryCallIsSent` | script.js:160-161 | With the cache emptied, every valid call goes to the network |
| `WeatherApi.ClearWeatherCache` | script.js:160-163 | Empties the cache and leaves `lastRequestTime` unchanged |
| `WeatherApi.WeatherAPI.constructor` | script.js:11-14 | A fresh service has an empty cache and `lastRequestTime` 0 |

## Left out

- ThrottledTime, EnforceRateLimit and AttemptsAreSpaced rely on `lag >= 0`. This assumes that `Date.now()` never runs backwards between the two readings of `enforceRateLimit`, and that a timer never wakes before its delay as `Date.now()` measures it. `Date.now()` is a wall clock: it can be set back and it is not the clock timers run on. With the clock set back by 1 ms after a call that did not wait, the new `lastRequestTime` would be only 999 ms after the old one.

- `fetch`, `AbortController`, `setTimeout`, `clearTimeout` and `Date.now` are browser I/O and timers. They appear only through the `Outcome` and `Clock` parameters. The timer is never cleared after a rejected `fetch`. This is harmless and not modelled.
- URL assembly is not modelled: `BASE_URL`, the `endpoint` path and the percent-encoding done by `URLSearchParams`. These are library behaviour. The model keeps only the merged parameter object, as the `query` of the request sent.
- The bodies are opaque `Json` values. Decoding a body that is not JSON is covered as a rejection. A cached object is shared by reference with every caller that gets it. The model treats payloads as values, so a caller mutating a cached object is not captured.
- Parameter values are modelled as the strings a template literal prints for them. Turning a number into its JavaScript string is not modelled.
- Names are compared as sequences of Unicode code points. JavaScript compares UTF-16 code units, which ranks characters outside the Basic Multilingual Plane differently.
- `Object.keys` lists integer-like names first, in numeric order. The model keeps plain insertion order. This changes where such names sit in the merged query. It does not change the fingerprint, which is sorted.
- A missing `API_KEY` or `endpoint` is modelled as the empty string. `null` and `undefined` behave the same in `script.js`, and an undeclared `API_KEY` would be a different error.
- `normalizeError(null)` and `normalizeError(undefined)` would throw, because reading `.name` fails on them. No `fetch` rejects with such a value, so the model has no case for it.
- `getWeatherData` and `getWeatherDataByCoords` (script.js:112-157) are callers, not part of the service. They run two or three fetches at once with `Promise.all`. Each throttled call then computes its delay from the same `lastRequestTime`, so the calls can wake together, closer than `RATE_LIMIT` apart. The model covers calls made one after another only. `processCurrentWeather` and `processForecastData` are not part of this model.
- `console.log` and `console.error` output is not modelled.
