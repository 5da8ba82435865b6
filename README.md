# Weather dashboard: cache and city search

This project models the client-side logic of the weather dashboard component
(`client/src/components/WeatherDashboard.js`). The component is a React view that looks up a city's current
weather and five-day forecast from a backend, and keeps results for thirty
minutes in a browser-local cache. Three parts are modelled:

- **The time-bounded cache** (`createCache`, module `TimedCache`). The
  browser's `localStorage` is the class `Storage`, whose field `items` maps
  keys to `Entry(timestamp, data)`. The object `createCache()` returns is the
  class `Cache`. It holds only a reference to the store, so the new wrapper
  built on every render sees what earlier wrappers stored. `Get` returns the
  data of an entry at most 1,800,000 ms old. It removes an entry it finds older
  than that, and that removal is the only expiry there is. `Set` stamps the
  entry with the current time. `Clear` removes the key. Each method is proved
  against a function of the stored map (`GetValue`, `GetStore`, `SetStore`,
  `ClearStore`), and the lemmas relate those functions.
- **The city search** (`fetchWeather`, module `Dashboard`). The component
  state `{weather, forecast, error, loading}` is the record `ViewState`.
  `FetchWeather` takes that state, the city as typed, the cache, the time, and
  the outcomes of the two HTTP requests as `Reply` values. It returns the new
  state and the list of requests it made. Its postconditions cover the blank
  search, the cache hit, the failed weather request, and a forecast request
  that succeeds, is not ok, or rejects.
- **Presentation helpers** (module `Display`): `convertTemp`, the unit
  toggle, the case-insensitive icon lookup, and the sampling of every eighth
  forecast item. The string built-ins these depend on (`trim` and
  `toLowerCase`) are in module `JsText`, and `null` is `Nullable.Option`.

Some behaviours of the code a reader might not expect; the model follows the code in each:

- When the forecast request fails on a cache miss, the code leaves the
  `forecast` state as it was. The previous city's forecast stays on screen,
  and it is not cleared. A later cache hit for the same city brings back a
  `null` forecast and clears it. `Dashboard.SearchAgain` states both halves.
- A failed weather request sets the error but keeps the previous
  `weather`/`forecast` state. Only the error is new.
- A rejected request (`fetch` or reading the body throws) is caught by the same
  `catch`. The error is then the exception's message. This holds for the
  forecast request too: a rejection there is fatal and nothing is cached. The
  model has a third reply, `Threw(message)`, for this.
- An unparseable cache entry is not treated as a miss. `JSON.parse` throws
  and the search shows the exception's message (see Left out).

## Model

| member | source | states |
|---|---|---|
| JsText.TrimEmptyIffBlank | client/src/components/WeatherDashboard.js:52 | `s.trim()` is empty exactly when every character of `s` is ECMAScript white space or a line terminator |
| JsText.TrimStart | client/src/components/WeatherDashboard.js:52 | the result is a suffix of the input and does not start with white space |
| JsText.TrimEnd | client/src/components/WeatherDashboard.js:52 | the result is a prefix of the input and does not end with white space |
| JsText.TrimStartRemovesOnlyWhitespace | client/src/components/WeatherDashboard.js:52 | every character that `TrimStart` drops from the front is white space |
| JsText.TrimEndRemovesOnlyWhitespace | client/src/components/WeatherDashboard.js:52 | every character that `TrimEnd` drops from the back is white space |
| JsText.IsJsWhitespace | client/src/components/WeatherDashboard.js:52 | the characters `trim` removes: the white space and line terminators of the ECMAScript specification, sections 12.2 and 12.3 |
| JsText.Trim | client/src/components/WeatherDashboard.js:52 | `s.trim()`: leading white space removed, then trailing white space |
| JsText.LowerChar | client/src/components/WeatherDashboard.js:62 | `A`..`Z` move to `a`..`z`, every other character is kept, and no upper-case letter remains |
| JsText.ToLowerCase | client/src/components/WeatherDashboard.js:62 | lower-casing keeps the length of the string |
| JsText.ToLowerCaseCharwise | client/src/components/WeatherDashboard.js:62 | `toLowerCase(s) == t` exactly when `t` has the length of `s` and each `t[i]` is the lower case of `s[i]` |
| JsText.ToLowerCaseAt | client/src/components/WeatherDashboard.js:62 | character `i` of the lower-cased string is the lower case of character `i` |
| JsText.ToLowerCaseIdempotent | client/src/components/WeatherDashboard.js:62 | lower-casing twice gives the same string as lower-casing once |
| JsText.ToLowerCaseHasNoUpper | client/src/components/WeatherDashboard.js:62 | a lower-cased string holds no upper-case ASCII letter |
| JsText.ToLowerCaseKeepsBlank | client/src/components/WeatherDashboard.js:52-62 | a city is white space only exactly when its lower-cased form is |
| TimedCache.GetValue | client/src/components/WeatherDashboard.js:11-23 | `get` returns data only for a stored key whose entry is at most thirty minutes old, and then returns the stored data; it returns `null` exactly when the key is absent or the entry is older |
| TimedCache.Expired | client/src/components/WeatherDashboard.js:17 | an entry is stale when `now - timestamp > 1800000`, with a strict comparison |
| TimedCache.GetStore | client/src/components/WeatherDashboard.js:11-20 | after `get`, the key is gone exactly when its entry was stale, and every other entry is untouched |
| TimedCache.SetStore | client/src/components/WeatherDashboard.js:24-30 | `set` stores `{timestamp: now, data}` under the key, adds no other key and keeps every other entry |
| TimedCache.ClearStore | client/src/components/WeatherDashboard.js:31-33 | `clear` removes only the key and is a no-op when the key is absent |
| TimedCache.Storage.constructor | client/src/components/WeatherDashboard.js:12 | a new store holds no entries; `localStorage` itself keeps entries from earlier visits, and every operation is proved for any store |
| TimedCache.Storage.GetItem | client/src/components/WeatherDashboard.js:12 | `getItem` returns the entry stored under the key, or `null` exactly when there is none |
| TimedCache.Storage.SetItem | client/src/components/WeatherDashboard.js:29 | `setItem` replaces the key's entry and nothing else |
| TimedCache.Storage.RemoveItem | client/src/components/WeatherDashboard.js:18 | `removeItem` deletes the key and nothing else |
| TimedCache.Cache.constructor | client/src/components/WeatherDashboard.js:9-10 | `createCache()` wraps the one shared store |
| TimedCache.Cache.Get | client/src/components/WeatherDashboard.js:11-23 | the returned value and the new store are those of `GetValue` and `GetStore` on the old store |
| TimedCache.Cache.Set | client/src/components/WeatherDashboard.js:24-30 | the new store is `SetStore` of the old store at time `now` |
| TimedCache.Cache.Clear | client/src/components/WeatherDashboard.js:31-33 | the new store is `ClearStore` of the old store |
| TimedCache.GetMissing | client/src/components/WeatherDashboard.js:12-13 | a key never set reads as `null` and the store is left unchanged |
| TimedCache.GetExpired | client/src/components/WeatherDashboard.js:17-20 | a stale entry reads as `null` and is removed, so every later read of that key returns `null` and changes nothing |
| TimedCache.GetFresh | client/src/components/WeatherDashboard.js:17-22 | a fresh entry's data is returned unchanged and the store is left as it was |
| TimedCache.SetThenGetFresh | client/src/components/WeatherDashboard.js:17-29 | `set(k, d)` at `t` and then `get(k)` at `t'` with `t' - t <= 1800000` returns `d` and keeps the entry |
| TimedCache.SetThenGetExpired | client/src/components/WeatherDashboard.js:17-29 | the same read with `t' - t > 1800000` returns `null` and leaves the store without `k` |
| TimedCache.FreshnessBoundary | client/src/components/WeatherDashboard.js:17 | an entry exactly 1,800,000 ms old is fresh, and one ms older is stale |
| TimedCache.SetOverwrites | client/src/components/WeatherDashboard.js:24-29 | a second `set` of a key replaces the first |
| TimedCache.OtherKeysUnaffected | client/src/components/WeatherDashboard.js:11-33 | `set`, `clear` and `get` on one key do not change what a read of any other key returns |
| TimedCache.ClearThenGet | client/src/components/WeatherDashboard.js:31-33 | after `clear(k)`, `get(k)` returns `null` |
| TimedCache.WrappersShareStore | client/src/components/WeatherDashboard.js:47 | what one wrapper sets, a wrapper created later over the same store returns within the window |
| Dashboard.InitialState | client/src/components/WeatherDashboard.js:41-45 | the component starts with no weather, no forecast, no error and not loading |
| Dashboard.IsBlankIffWhitespace | client/src/components/WeatherDashboard.js:52 | a search is rejected as blank exactly when the city is white space only |
| Dashboard.IsBlank | client/src/components/WeatherDashboard.js:52 | the rejection test `!city.trim()`: the trimmed city is empty |
| Dashboard.CacheKey | client/src/components/WeatherDashboard.js:62 | the key is `weather_` followed by one character per character of the city |
| Dashboard.CacheKeyIgnoresCase | client/src/components/WeatherDashboard.js:62 | two cities have the same cache key exactly when they lower-case alike |
| Dashboard.CacheKeyOfLowerCase | client/src/components/WeatherDashboard.js:62 | the lower-cased city hits the same entry as the city itself |
| Dashboard.CacheKeyKeepsSpaces | client/src/components/WeatherDashboard.js:62 | the key is not trimmed: a leading space gives a different entry |
| Dashboard.FetchFromBackend | client/src/components/WeatherDashboard.js:72-96 | on a miss: a weather reply that is not ok reports "City not found" (a rejection reports its message), makes one request and leaves the store alone; a successful one sets the weather and asks for the forecast, which is shown and cached, or cached as `null` when not ok, or reported as an error with nothing cached when it rejects |
| Dashboard.FetchWeather | client/src/components/WeatherDashboard.js:50-101 | a blank city sets the validation error and changes nothing else (no request, no cache access). A hit fills weather and forecast from the cached pair, clears the error, ends loading and makes no request. A miss asks for the weather first. If that reply is not ok, the error becomes "City not found" (or the rejection's message), weather and forecast are kept, and nothing is cached. If it succeeds, the forecast is asked for: both are shown and cached, or, when the forecast is not ok, the weather is shown, the forecast state is kept and `{weather, forecast: null}` is cached. A cached entry is stamped with the second clock reading, taken when the replies have settled (line 26), not with the time of the cache read (line 17). Loading ends false on every non-blank path |
| Dashboard.FirstSearchNotFound | client/src/components/WeatherDashboard.js:41-45 | a first search from the initial state (no weather, no forecast, no error, not loading) whose city is not cached and whose weather reply is not ok shows no weather or forecast, only "City not found", makes one request and leaves the store as it was |
| Dashboard.SearchAgain | client/src/components/WeatherDashboard.js:57-93 | after a successful search, a search for the same city in any case within thirty minutes of the time its result was cached makes no request and shows the same weather; a failed forecast comes back as `null` although the first search had kept the previous one |
| Display.Toggled | client/src/components/WeatherDashboard.js:144 | the toggle always changes the unit |
| Display.ToggleTwice | client/src/components/WeatherDashboard.js:144 | toggling twice restores the unit |
| Display.ConvertTemp | client/src/components/WeatherDashboard.js:104-106 | Celsius mode shows the temperature unchanged; in Fahrenheit mode `(r - 32) * 5/9` gives back the Celsius input |
| Display.ConvertTempFixedPoints | client/src/components/WeatherDashboard.js:104-106 | 0 °C shows as 32, 100 °C as 212 and -40 °C as -40 |
| Display.ConvertTempMonotonic | client/src/components/WeatherDashboard.js:104-106 | conversion keeps the order of temperatures in both units |
| Display.WeatherIcon | client/src/components/WeatherDashboard.js:109-117 | the icon is one from the table or the default |
| Display.WeatherIconIgnoresCase | client/src/components/WeatherDashboard.js:117 | conditions that lower-case alike get the same icon |
| Display.WeatherIconOfLowerCase | client/src/components/WeatherDashboard.js:117 | the lower-cased condition gets the same icon as the condition |
| Display.WeatherIconNonDefault | client/src/components/WeatherDashboard.js:110-117 | a condition gets a non-default icon exactly when its lower case is `clouds`, `rain`, `snow` or `thunderstorm` |
| Display.WeatherIconOfTableKey | client/src/components/WeatherDashboard.js:110-117 | each table row: a condition lower-casing to `clear` gets the yellow sun cloud, `clouds` the gray moon cloud, `rain` the blue rain cloud, `snow` the white snow cloud, `thunderstorm` the purple rain cloud |
| Display.WeatherIconOfRain | client/src/components/WeatherDashboard.js:113-117 | `Rain` gets the blue rain cloud |
| Display.WeatherIconOfClear | client/src/components/WeatherDashboard.js:111-117 | `Clear` gets the yellow sun cloud |
| Display.WeatherIconOfClouds | client/src/components/WeatherDashboard.js:112-117 | `Clouds` gets the gray moon cloud |
| Display.WeatherIconOfSnow | client/src/components/WeatherDashboard.js:114-117 | `Snow` gets the white snow cloud |
| Display.WeatherIconOfMist | client/src/components/WeatherDashboard.js:117 | `Mist`, missing from the table, gets the default icon |
| Display.SampleSkips | client/src/components/WeatherDashboard.js:232 | positions that are not multiples of eight add nothing to the result |
| Display.SampleFrom | client/src/components/WeatherDashboard.js:232 | `filter((item, index) => index % 8 === 0)` applied from a given position to the end of the list |
| Display.DailyForecast | client/src/components/WeatherDashboard.js:232 | the forecast cards: the filter applied to the whole list |
| Display.SampleStep | client/src/components/WeatherDashboard.js:232 | at a multiple of eight the filter keeps that item and continues at the next multiple of eight, or stops at the end of the list |
| Display.SampleFromMultiple | client/src/components/WeatherDashboard.js:232 | starting at a multiple of eight, the filter keeps the items at that position and every eighth one after it, in order |
| Display.DailyForecastPicksEveryEighth | client/src/components/WeatherDashboard.js:232 | for a list of length `n` the sample has `(n + 7) / 8` items and item `i` is `list[8 * i]` |
| Display.FortyItemsGiveFiveDays | client/src/components/WeatherDashboard.js:232 | a forty-item forecast gives exactly the items at positions 0, 8, 16, 24 and 32 |

Constants that hold the component's data are not listed as rows. They are `Display.InitialUnit` (the `useState('fahrenheit')` of line 44), `Display.IconTable` (the `iconMap` of lines 110-116), `Display.DefaultIcon` (the fallback at line 117), `TimedCache.MaxAgeMs` (the `30 * 60 * 1000` of line 17), and `Dashboard.CityRequired` and `Dashboard.CityNotFound` (the messages at lines 53 and 74).

## Left out

- JSON encoding of cache entries. Entries hold typed data. A stored string that `JSON.parse` rejects (line 15) makes the search show the exception's message through the `catch` at line 94; this is not modelled.
- `localStorage` failures, such as `setItem` running out of quota inside the `try`, are not modelled.
- The clock is a parameter. `FetchWeather` takes two readings: `now` for the cache read and `storedAt` for the cache write. The HTTP requests are replaced by their outcomes, passed in as `Reply` values. A `Request` records the city as typed and leaves out the URL encoding (`encodeURIComponent`).
- Asynchrony is not modelled. A search is one sequential step, so two overlapping searches racing each other cannot be expressed. Neither can the `loading` flag being true while a request is pending; only its final value is stated.
- JsText.ToLowerCase, JsText.LowerChar: lower-case ASCII `A`..`Z` only. JavaScript's `toLowerCase` also folds other Unicode letters, some of them into two characters. The Unicode case tables are not part of this model.
- Display.WeatherIcon: a lower-cased condition that names a property of `Object.prototype` (`constructor`, `__proto__`) makes the source's `iconMap[...]` return that property rather than an icon. The model gives the default icon for it.
- Display.ConvertTemp: uses real arithmetic. Floating-point rounding and the `Math.round` of the display are left out.
- Rendering (lines 121-253) is not modelled: the JSX layout, the unit label, date and time formatting, and the submit event (`preventDefault`). Two things are taken from it: the unit button at line 144 (`Display.Toggled`) and the sampling at line 232.
- The server (Spring controller, service, response classes, exception handler, security configuration) is not part of this model. The backend is an outside collaborator whose answers are the `Reply` inputs.
- The component shown has no air-quality lookup, no geolocation flow and no air-quality thresholds, so none is modelled.
