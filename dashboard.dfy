/**
  The city search of the weather dashboard (`fetchWeather`). The component's
  state is the record `ViewState`; a search reads it, consults the cache and,
  on a miss, asks the backend for the current weather and then for the
  forecast. The answers of the two HTTP requests are inputs (`Reply`): the
  search is one sequential step, and a reply is consumed only when the flow
  reaches the request it answers.
 */
module Dashboard {

  import opened Nullable
  import opened JsText
  import opened TimedCache

  /** The component state the search reads and writes. Weather (`W`) and
      forecast (`F`) payloads are passed through as the backend sends them. */
  datatype ViewState<+W, +F> = ViewState(weather: Option<W>, forecast: Option<F>, error: Option<string>, loading: bool)

  /** The state the component starts with. */
  function InitialState<W, F>(): (s: ViewState<W, F>)
    ensures s.weather.None? && s.forecast.None? && s.error.None? && !s.loading
  {
    ViewState(None, None, None, false)
  }

  /** What the cache holds for a city: `{weather, forecast}`, the forecast being
      `null` when its request failed. */
  datatype CachedPair<+W, +F> = CachedPair(weather: W, forecast: Option<F>)

  /** How a request settles: a successful response with its decoded body, a
      response whose `ok` is false, or a rejection (of `fetch` or of reading
      the body) carrying the error's message. */
  datatype Reply<+T> = Ok(data: T) | NotOk | Threw(message: string)

  /** The two backend requests a search can make, with the city as typed. */
  datatype Request = WeatherByCity(city: string) | ForecastByCity(city: string)

  const CityRequired: string := "Please enter a city name"
  const CityNotFound: string := "City not found"

  /** `!city.trim()`. */
  predicate IsBlank(city: string) {
    Trim(city) == []
  }

  /** A search is blank exactly when the city is white space only. */
  lemma IsBlankIffWhitespace(city: string)
    ensures IsBlank(city) <==> AllWhitespace(city)
  {
    TrimEmptyIffBlank(city);
  }

  /** The cache key of a search: `weather_` followed by the lower-cased city,
      which is not trimmed. */
  function CacheKey(city: string): (key: string)
    ensures |key| == |city| + 8 && key[..8] == "weather_"
  {
    "weather_" + ToLowerCase(city)
  }

  /** Searches that differ only in letter case share one cache entry. */
  lemma CacheKeyIgnoresCase(a: string, b: string)
    ensures ToLowerCase(a) == ToLowerCase(b) ==> CacheKey(a) == CacheKey(b)
    ensures CacheKey(a) == CacheKey(b) ==> ToLowerCase(a) == ToLowerCase(b)
  {
    if CacheKey(a) == CacheKey(b) {
      assert ToLowerCase(a) == CacheKey(a)[8..];
    }
  }

  /** Searching for the lower-cased city hits the same entry as the city itself. */
  lemma CacheKeyOfLowerCase(city: string)
    ensures CacheKey(ToLowerCase(city)) == CacheKey(city)
  {
    ToLowerCaseIdempotent(city);
  }

  /** The key is not trimmed: a leading space makes a different entry. */
  lemma CacheKeyKeepsSpaces(city: string)
    ensures CacheKey(" " + city) != CacheKey(city)
  {
  }

  /** True when a non-blank search found nothing fresh in the cache and
      therefore goes to the network. */
  ghost predicate Misses<W, F>(items: map<string, Entry<CachedPair<W, F>>>, city: string, now: int) {
    !IsBlank(city) && GetValue(items, CacheKey(city), now).None?
  }

  /** The network part of `fetchWeather`, reached on a cache miss: the weather
      request, then the forecast request, then the cache write, with a failure
      caught and reported as the error. Starts from state `s` and stores under
      `key` at time `storedAt`. */
  method FetchFromBackend<W, F>(s: ViewState<W, F>, city: string, key: string, cache: Cache<CachedPair<W, F>>,
                                weatherReply: Reply<W>, forecastReply: Reply<F>, storedAt: int)
      returns (t: ViewState<W, F>, requests: seq<Request>)
    modifies cache.store
    ensures !weatherReply.Ok? ==>
              && t == s.(error := Some(if weatherReply.NotOk? then CityNotFound else weatherReply.message))
              && requests == [WeatherByCity(city)]
              && cache.store.items == old(cache.store.items)
    ensures weatherReply.Ok? ==> requests == [WeatherByCity(city), ForecastByCity(city)]
    ensures weatherReply.Ok? && forecastReply.Ok? ==>
              && t == s.(weather := Some(weatherReply.data), forecast := Some(forecastReply.data))
              && cache.store.items == old(cache.store.items)[key := Entry(storedAt, CachedPair(weatherReply.data, Some(forecastReply.data)))]
    ensures weatherReply.Ok? && forecastReply.NotOk? ==>
              && t == s.(weather := Some(weatherReply.data))
              && cache.store.items == old(cache.store.items)[key := Entry(storedAt, CachedPair(weatherReply.data, None))]
    ensures weatherReply.Ok? && forecastReply.Threw? ==>
              && t == s.(weather := Some(weatherReply.data), error := Some(forecastReply.message))
              && cache.store.items == old(cache.store.items)
  {
    t, requests := s, [WeatherByCity(city)];
    match weatherReply {
      case NotOk =>
        t := t.(error := Some(CityNotFound));  // thrown, then caught
      case Threw(message) =>
        t := t.(error := Some(message));
      case Ok(data) =>
        t := t.(weather := Some(data));
        requests := requests + [ForecastByCity(city)];
        match forecastReply {
          case Threw(message) =>
            t := t.(error := Some(message));
          case NotOk =>
            cache.Set(key, CachedPair(data, None), storedAt);
          case Ok(forecastData) =>
            t := t.(forecast := Some(forecastData));
            cache.Set(key, CachedPair(data, Some(forecastData)), storedAt);
        }
    }
  }

  /** `fetchWeather`: one city search at time `now`, started from state `s`,
      using `cache`, with `weatherReply` and `forecastReply` the outcomes of
      the two requests should they be made. The clock is read twice, as in
      the component: `now` when the cache is consulted and `storedAt` when
      both replies have settled and the result is cached. Returns the new
      state and the requests made, in order. */
  method FetchWeather<W, F>(s: ViewState<W, F>, city: string, cache: Cache<CachedPair<W, F>>, now: int,
                            weatherReply: Reply<W>, forecastReply: Reply<F>, storedAt: int)
      returns (t: ViewState<W, F>, requests: seq<Request>)
    modifies cache.store
    // A blank search only reports the validation error.
    ensures IsBlank(city) ==>
              && t == s.(error := Some(CityRequired))
              && requests == []
              && cache.store.items == old(cache.store.items)
    // Any other search ends with loading off.
    ensures !IsBlank(city) ==> !t.loading
    // A cache hit fills weather and forecast from the entry and asks nothing.
    ensures !IsBlank(city) && GetValue(old(cache.store.items), CacheKey(city), now).Some? ==>
              var hit := GetValue(old(cache.store.items), CacheKey(city), now).value;
              && t == ViewState(Some(hit.weather), hit.forecast, None, false)
              && requests == []
              && cache.store.items == old(cache.store.items)
    // A miss first asks for the current weather.
    ensures Misses(old(cache.store.items), city, now) ==>
              |requests| >= 1 && requests[0] == WeatherByCity(city)
    // The weather request failing leaves weather and forecast alone, reports
    // the error and writes nothing to the cache (a stale entry is still purged).
    ensures Misses(old(cache.store.items), city, now) && !weatherReply.Ok? ==>
              && t == s.(error := Some(if weatherReply.NotOk? then CityNotFound else weatherReply.message), loading := false)
              && requests == [WeatherByCity(city)]
              && cache.store.items == GetStore(old(cache.store.items), CacheKey(city), now)
    // Otherwise the forecast is asked for next.
    ensures Misses(old(cache.store.items), city, now) && weatherReply.Ok? ==>
              requests == [WeatherByCity(city), ForecastByCity(city)]
    // Both succeed: both are shown and cached.
    ensures Misses(old(cache.store.items), city, now) && weatherReply.Ok? && forecastReply.Ok? ==>
              && t == ViewState(Some(weatherReply.data), Some(forecastReply.data), None, false)
              && cache.store.items == old(cache.store.items)[CacheKey(city) := Entry(storedAt, CachedPair(weatherReply.data, Some(forecastReply.data)))]
    // The forecast response is not ok: the new weather is shown, the forecast
    // state is left as it was, and the cache stores a null forecast.
    ensures Misses(old(cache.store.items), city, now) && weatherReply.Ok? && forecastReply.NotOk? ==>
              && t == s.(weather := Some(weatherReply.data), error := None, loading := false)
              && cache.store.items == old(cache.store.items)[CacheKey(city) := Entry(storedAt, CachedPair(weatherReply.data, None))]
    // The forecast request rejects: the new weather stays shown, the error is
    // reported and nothing is cached.
    ensures Misses(old(cache.store.items), city, now) && weatherReply.Ok? && forecastReply.Threw? ==>
              && t == s.(weather := Some(weatherReply.data), error := Some(forecastReply.message), loading := false)
              && cache.store.items == GetStore(old(cache.store.items), CacheKey(city), now)
  {
    t, requests := s, [];
    if IsBlank(city) {
      t := t.(error := Some(CityRequired));
      return;
    }
    t := t.(error := None, loading := true);

    // try
    var key := CacheKey(city);
    var cached := cache.Get(key, now);
    if cached.Some? {
      t := t.(weather := Some(cached.value.weather), forecast := cached.value.forecast, loading := false);
      t := t.(loading := false);  // finally
      return;
    }

    t, requests := FetchFromBackend(t, city, key, cache, weatherReply, forecastReply, storedAt);
    t := t.(loading := false);  // finally
  }

  /** The first search after the page opens, for a city the cache does not
      hold, whose weather request is not ok: no weather or forecast appears,
      only the error. */
  method FirstSearchNotFound<W, F>(store: Storage<CachedPair<W, F>>, city: string, now: int,
                                   forecastReply: Reply<F>, storedAt: int)
      returns (t: ViewState<W, F>, requests: seq<Request>)
    requires !IsBlank(city) && CacheKey(city) !in store.items
    modifies store
    ensures t == ViewState(None, None, Some(CityNotFound), false)
    ensures requests == [WeatherByCity(city)]
    ensures store.items == old(store.items)
  {
    var cache := new Cache(store);
    t, requests := FetchWeather(InitialState(), city, cache, now, NotOk, forecastReply, storedAt);
  }

  /** A successful search, cached at `stored`, followed within thirty minutes of
      that by a search for the same city in any letter case: the second one is answered from the cache,
      makes no request and shows the same weather. A forecast that had failed
      comes back from the cache as `null`, although the first search had left
      the previous forecast on screen. */
  method SearchAgain<W, F>(store: Storage<CachedPair<W, F>>, s: ViewState<W, F>, city: string, again: string,
                           t1: int, stored: int, t2: int, w: W, forecastReply: Reply<F>,
                           laterWeather: Reply<W>, laterForecast: Reply<F>)
      returns (first: ViewState<W, F>, second: ViewState<W, F>, requests: seq<Request>)
    requires !IsBlank(city) && ToLowerCase(again) == ToLowerCase(city)
    requires GetValue(store.items, CacheKey(city), t1).None?
    requires !forecastReply.Threw?
    requires t2 - stored <= MaxAgeMs
    modifies store
    ensures first.weather == Some(w) && first.error.None?
    ensures requests == []
    ensures second.weather == first.weather && second.error.None? && !second.loading
    ensures forecastReply.Ok? ==> second.forecast == first.forecast
    ensures forecastReply.NotOk? ==> first.forecast == s.forecast && second.forecast.None?
  {
    var cache := new Cache(store);
    var r1;
    first, r1 := FetchWeather(s, city, cache, t1, Ok(w), forecastReply, stored);
    CacheKeyIgnoresCase(again, city);
    assert !IsBlank(again) by {
      IsBlankIffWhitespace(city);
      IsBlankIffWhitespace(again);
      ToLowerCaseKeepsBlank(city);
      ToLowerCaseKeepsBlank(again);
    }
    var rerendered := new Cache(store);
    second, requests := FetchWeather(first, again, rerendered, t2, laterWeather, laterForecast, t2);
  }
}
