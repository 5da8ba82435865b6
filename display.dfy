/**
  The dashboard's presentation helpers: temperature conversion and the unit
  toggle, the condition-to-icon lookup, and the "one forecast item per day"
  sampling of the three-hourly forecast list.
 */
module Display {

  import opened JsText

  // ---------------------------------------------------------------------------
  // Units

  datatype Unit = Celsius | Fahrenheit

  /** The unit the dashboard starts in. */
  const InitialUnit: Unit := Fahrenheit

  /** The unit button: `unit === 'celsius' ? 'fahrenheit' : 'celsius'`. */
  function Toggled(u: Unit): (r: Unit)
    ensures r != u
  {
    if u == Celsius then Fahrenheit else Celsius
  }

  /** Toggling twice restores the unit. */
  lemma ToggleTwice(u: Unit)
    ensures Toggled(Toggled(u)) == u
  {
  }

  /** `convertTemp(temp)`: API temperatures are Celsius; in Fahrenheit mode they
      are shown as `temp * 9/5 + 32`. Real arithmetic stands for the source's
      floating point. */
  function ConvertTemp(unit: Unit, temp: real): (r: real)
    ensures unit == Celsius ==> r == temp
    ensures unit == Fahrenheit ==> (r - 32.0) * 5.0 / 9.0 == temp
  {
    if unit == Fahrenheit then temp * 9.0 / 5.0 + 32.0 else temp
  }

  /** Freezing and boiling points of water, and the point where both scales agree. */
  lemma ConvertTempFixedPoints()
    ensures ConvertTemp(Fahrenheit, 0.0) == 32.0
    ensures ConvertTemp(Fahrenheit, 100.0) == 212.0
    ensures ConvertTemp(Fahrenheit, -40.0) == -40.0
  {
  }

  /** Conversion keeps the order of temperatures, so the high stays above the low. */
  lemma ConvertTempMonotonic(unit: Unit, lo: real, hi: real)
    requires lo < hi
    ensures ConvertTemp(unit, lo) < ConvertTemp(unit, hi)
  {
  }

  // ---------------------------------------------------------------------------
  // Icons

  datatype Glyph = CloudSun | CloudMoon | CloudRain | CloudSnow

  /** The colour class of an icon. */
  datatype Tint = Yellow | Gray | Blue | White | Purple

  datatype Icon = Icon(glyph: Glyph, tint: Tint)

  /** `iconMap`, keyed by lower-case condition name. */
  const IconTable: map<string, Icon> := map[
    "clear" := Icon(CloudSun, Yellow),
    "clouds" := Icon(CloudMoon, Gray),
    "rain" := Icon(CloudRain, Blue),
    "snow" := Icon(CloudSnow, White),
    "thunderstorm" := Icon(CloudRain, Purple)
  ]

  /** The fallback for a condition missing from the table. */
  const DefaultIcon: Icon := Icon(CloudSun, Yellow)

  /** `getWeatherIcon(condition)`. */
  function WeatherIcon(condition: string): (r: Icon)
    ensures r == DefaultIcon || r in IconTable.Values
  {
    var key := ToLowerCase(condition);
    if key in IconTable then IconTable[key] else DefaultIcon
  }

  /** The lookup ignores case: two conditions that lower-case alike get one icon. */
  lemma WeatherIconIgnoresCase(a: string, b: string)
    requires ToLowerCase(a) == ToLowerCase(b)
    ensures WeatherIcon(a) == WeatherIcon(b)
  {
  }

  /** Looking up the lower-cased name gives the same icon as the original name. */
  lemma WeatherIconOfLowerCase(condition: string)
    ensures WeatherIcon(ToLowerCase(condition)) == WeatherIcon(condition)
  {
    ToLowerCaseIdempotent(condition);
  }

  /** A condition gets a non-default icon exactly when its lower-case name is one
      of the four table keys whose icon differs from the default. */
  lemma WeatherIconNonDefault(condition: string)
    ensures WeatherIcon(condition) != DefaultIcon <==>
            ToLowerCase(condition) in {"clouds", "rain", "snow", "thunderstorm"}
  {
  }

  /** Each row of the table: a condition whose lower case is a key gets that
      key's icon. */
  lemma WeatherIconOfTableKey(condition: string)
    ensures ToLowerCase(condition) == "clear" ==> WeatherIcon(condition) == Icon(CloudSun, Yellow)
    ensures ToLowerCase(condition) == "clouds" ==> WeatherIcon(condition) == Icon(CloudMoon, Gray)
    ensures ToLowerCase(condition) == "rain" ==> WeatherIcon(condition) == Icon(CloudRain, Blue)
    ensures ToLowerCase(condition) == "snow" ==> WeatherIcon(condition) == Icon(CloudSnow, White)
    ensures ToLowerCase(condition) == "thunderstorm" ==> WeatherIcon(condition) == Icon(CloudRain, Purple)
  {
  }

  /** The table as the API's condition names reach it. */
  lemma WeatherIconOfRain()
    ensures WeatherIcon("Rain") == Icon(CloudRain, Blue)
  {
    ToLowerCaseCharwise("Rain", "rain");
  }

  lemma WeatherIconOfClear()
    ensures WeatherIcon("Clear") == Icon(CloudSun, Yellow)
  {
    ToLowerCaseCharwise("Clear", "clear");
  }

  lemma WeatherIconOfClouds()
    ensures WeatherIcon("Clouds") == Icon(CloudMoon, Gray)
  {
    ToLowerCaseCharwise("Clouds", "clouds");
  }

  lemma WeatherIconOfSnow()
    ensures WeatherIcon("Snow") == Icon(CloudSnow, White)
  {
    ToLowerCaseCharwise("Snow", "snow");
  }

  /** "Mist" is not in the table and falls back to the default. */
  lemma WeatherIconOfMist()
    ensures WeatherIcon("Mist") == DefaultIcon
  {
    ToLowerCaseCharwise("Mist", "mist");
    assert "mist" !in IconTable.Keys by {
      assert IconTable.Keys == {"clear", "clouds", "rain", "snow", "thunderstorm"};
      assert "mist"[0] != "clear"[0] && "mist"[0] != "clouds"[0] && "mist"[0] != "rain"[0];
      assert "mist"[0] != "snow"[0] && "mist"[0] != "thunderstorm"[0];
    }
  }

  // ---------------------------------------------------------------------------
  // Forecast sampling

  /** `list.filter((item, index) => index % 8 === 0)` from position `from` on. */
  function SampleFrom<T>(list: seq<T>, from: nat): seq<T>
    requires from <= |list|
    decreases |list| - from
  {
    if from == |list| then []
    else (if from % 8 == 0 then [list[from]] else []) + SampleFrom(list, from + 1)
  }

  /** The forecast cards: every eighth item of the three-hourly list. */
  function DailyForecast<T>(list: seq<T>): seq<T> {
    SampleFrom(list, 0)
  }

  /** Positions that the filter drops contribute nothing. */
  lemma {:induction false} SampleSkips<T>(list: seq<T>, start: nat, stop: nat)
    requires start <= stop <= |list|
    requires forall j :: start <= j < stop ==> j % 8 != 0
    ensures SampleFrom(list, start) == SampleFrom(list, stop)
    decreases stop - start
  {
    if start < stop {
      SampleSkips(list, start + 1, stop);
    }
  }

  /** At a multiple of eight the filter keeps the item and then skips to the
      next multiple of eight (or to the end of the list). */
  lemma SampleStep<T>(list: seq<T>, from: nat)
    requires from < |list| && from % 8 == 0
    ensures SampleFrom(list, from) == [list[from]] + SampleFrom(list, if from + 8 <= |list| then from + 8 else |list|)
  {
    SampleSkips(list, from + 1, if from + 8 <= |list| then from + 8 else |list|);
  }

  /** From a multiple of eight on, the filter keeps the items at `from`,
      `from + 8`, `from + 16`, ... in order. */
  lemma {:induction false} SampleFromMultiple<T>(list: seq<T>, from: nat)
    requires from <= |list| && from % 8 == 0
    ensures |SampleFrom(list, from)| == (|list| - from + 7) / 8
    ensures forall i :: 0 <= i < |SampleFrom(list, from)| ==>
              from + 8 * i < |list| && SampleFrom(list, from)[i] == list[from + 8 * i]
    decreases |list| - from
  {
    if from < |list| {
      SampleStep(list, from);
      var r := SampleFrom(list, from);
      if from + 8 <= |list| {
        var rest := SampleFrom(list, from + 8);
        SampleFromMultiple(list, from + 8);
        assert r == [list[from]] + rest;
        forall i | 0 <= i < |r|
          ensures from + 8 * i < |list| && r[i] == list[from + 8 * i]
        {
          if i > 0 {
            assert r[i] == rest[i - 1];
            assert from + 8 * i == (from + 8) + 8 * (i - 1);
          }
        }
      } else {
        assert r == [list[from]] + SampleFrom(list, |list|);
        assert r == [list[from]];
      }
    }
  }

  /** The sampled forecast has `(n + 7) / 8` items for a list of `n`, and item
      `i` is `list[8 * i]`: indices 0, 8, 16, ... in their original order. */
  lemma DailyForecastPicksEveryEighth<T>(list: seq<T>)
    ensures |DailyForecast(list)| == (|list| + 7) / 8
    ensures forall i :: 0 <= i < |DailyForecast(list)| ==>
              8 * i < |list| && DailyForecast(list)[i] == list[8 * i]
  {
    SampleFromMultiple(list, 0);
  }

  /** The usual five-day, forty-item forecast becomes five cards. */
  lemma FortyItemsGiveFiveDays<T>(list: seq<T>)
    requires |list| == 40
    ensures DailyForecast(list) == [list[0], list[8], list[16], list[24], list[32]]
  {
    DailyForecastPicksEveryEighth(list);
  }
}
