/** The pure logic of one weather fetch: the weather-code table, the rule that
    turns the two API responses into a weather record, and the state change a
    single fetch attempt makes (success, scheduled retry, or final error).
    The HTTP calls are not modelled: an attempt's result is an input. */
module Weather {
  import opened Types

  // ---------------------------------------------------------------------------
  // Weather codes

  /** The forecast provider's weather codes and their English phrases. */
  const Descriptions: map<int, string> := map[
    0 := "Clear sky",
    1 := "Mainly clear",
    2 := "Partly cloudy",
    3 := "Overcast",
    45 := "Foggy",
    48 := "Depositing rime fog",
    51 := "Light drizzle",
    53 := "Moderate drizzle",
    55 := "Dense drizzle",
    61 := "Slight rain",
    63 := "Moderate rain",
    65 := "Heavy rain",
    71 := "Slight snow",
    73 := "Moderate snow",
    75 := "Heavy snow",
    77 := "Snow grains",
    80 := "Slight rain showers",
    81 := "Moderate rain showers",
    82 := "Violent rain showers",
    85 := "Slight snow showers",
    86 := "Heavy snow showers",
    95 := "Thunderstorm",
    96 := "Thunderstorm with slight hail",
    99 := "Thunderstorm with heavy hail"
  ]

  /** The phrase for a weather code; codes outside the table read "Unknown". */
  function GetWeatherDescription(code: int): (r: string)
    ensures code in Descriptions ==> r == Descriptions[code]
    ensures r == "Unknown" <==> code !in Descriptions
    ensures r != ""
  {
    if code in Descriptions && Descriptions[code] != "" then Descriptions[code] else "Unknown"
  }

  /** The table holds exactly these 24 codes; by the second postcondition of
      `GetWeatherDescription`, none of them reads "Unknown". */
  lemma DescriptionTable()
    ensures Descriptions.Keys == {0, 1, 2, 3, 45, 48, 51, 53, 55, 61, 63, 65, 71, 73, 75, 77, 80, 81, 82, 85, 86, 95, 96, 99}
  {
  }

  /** Three sample lookups: code 0 is a clear sky, code 61 slight rain, and
      code 4, which is not in the table, reads "Unknown". */
  lemma DescriptionExamples()
    ensures GetWeatherDescription(0) == "Clear sky"
    ensures GetWeatherDescription(61) == "Slight rain"
    ensures GetWeatherDescription(4) == "Unknown"
  {
  }

  // ---------------------------------------------------------------------------
  // Building the weather record

  /** The reverse-geocoding response's address; any field may be missing. */
  datatype Address = Address(city: Option<string>, town: Option<string>, village: Option<string>, countryCode: Option<string>)

  /** The forecast response's current conditions and hourly sequences. */
  datatype Current = Current(temperature: real, humidity: real, apparentTemperature: real, windSpeed: real, weatherCode: int)
  datatype Forecast = Forecast(current: Current, hourly: Hourly)

  /** A field counts when it is present and not empty. */
  predicate Given(field: Option<string>)
  {
    field.Some? && field.value != ""
  }

  /** The place name: the first given of city, town and village, else "Unknown". */
  function PlaceName(address: Address): (r: string)
    ensures r != ""
    ensures Given(address.city) ==> r == address.city.value
    ensures !Given(address.city) && Given(address.town) ==> r == address.town.value
    ensures !Given(address.city) && !Given(address.town) && Given(address.village) ==> r == address.village.value
    ensures r == "Unknown" || Some(r) in [address.city, address.town, address.village]
  {
    if Given(address.city) then address.city.value
    else if Given(address.town) then address.town.value
    else if Given(address.village) then address.village.value
    else "Unknown"
  }

  /** A geocoder answer carrying only a village is named after the village. */
  lemma VillageOnly(village: string)
    requires village != ""
    ensures PlaceName(Address(None, None, Some(village), None)) == village
  {
  }

  function UpperAscii(c: char): char
  {
    if 'a' <= c <= 'z' then (c as int - 32) as char else c
  }

  predicate HasNoLowerAscii(s: string)
  {
    forall i :: 0 <= i < |s| ==> !('a' <= s[i] <= 'z')
  }

  /** ASCII upper-casing: lower-case letters become capitals, nothing else moves. */
  function ToUpperAscii(s: string): (r: string)
    ensures |r| == |s|
    ensures HasNoLowerAscii(r)
    ensures forall i :: 0 <= i < |s| && !('a' <= s[i] <= 'z') ==> r[i] == s[i]
    ensures forall i :: 0 <= i < |s| && 'a' <= s[i] <= 'z' ==> r[i] as int == s[i] as int - 32
  {
    seq(|s|, i requires 0 <= i < |s| => UpperAscii(s[i]))
  }

  /** The country shown: the upper-cased country code, or empty when there is none. */
  function CountryCode(code: Option<string>): (r: string)
    ensures code.None? ==> r == ""
    ensures code.Some? ==> r == ToUpperAscii(code.value)
    ensures code.Some? ==> |r| == |code.value|
    ensures HasNoLowerAscii(r)
  {
    match code
    case None => ""
    case Some(c) => ToUpperAscii(c)
  }

  /** Normalising a country code twice changes nothing more. */
  lemma CountryCodeIdempotent(code: Option<string>)
    ensures CountryCode(Some(CountryCode(code))) == CountryCode(code)
  {
    var r := CountryCode(code);
    assert ToUpperAscii(r) == r;
  }

  /** The record a successful fetch publishes. The hourly forecast is always
      present, with the three sequences exactly as the provider sent them. */
  function BuildWeather(address: Address, forecast: Forecast): (w: WeatherData)
    ensures w.temp == forecast.current.temperature && w.humidity == forecast.current.humidity
    ensures w.feelsLike == forecast.current.apparentTemperature && w.windSpeed == forecast.current.windSpeed
    ensures w.hourly == Some(forecast.hourly)
    ensures |w.conditions| == 1 && w.conditions[0].icon == ""
    ensures w.conditions[0].main == w.conditions[0].description == GetWeatherDescription(forecast.current.weatherCode)
    ensures w.name == PlaceName(address) && w.name != ""
    ensures w.country == CountryCode(address.countryCode)
  {
    var description := GetWeatherDescription(forecast.current.weatherCode);
    WeatherData(
      forecast.current.temperature,
      forecast.current.humidity,
      forecast.current.apparentTemperature,
      [Condition(description, description, "")],
      PlaceName(address),
      CountryCode(address.countryCode),
      forecast.current.windSpeed,
      Some(forecast.hourly))
  }

  // ---------------------------------------------------------------------------
  // One fetch attempt

  const MaxRetries: nat := 3

  datatype Coordinate = Coordinate(lat: real, lon: real)

  /** A retry the attempt scheduled: after `delay` milliseconds, fetch `at` again. */
  datatype PendingRetry = PendingRetry(delay: nat, at: Coordinate)

  /** What the two concurrent requests of one attempt produced together. */
  datatype FetchOutcome = Fetched(address: Address, forecast: Forecast) | Failed

  /** The part of the application state a fetch attempt reads and writes. */
  datatype FetchState = FetchState(
    weather: Option<WeatherData>,
    loading: bool,
    error: Option<Text>,
    retryCount: nat,
    pending: seq<PendingRetry>)

  /** Linear backoff: the retry after the (count+1)-th failure waits 2000 ms per failure. */
  function Backoff(retryCount: nat): (d: nat)
    ensures retryCount < MaxRetries ==> 2000 <= d <= 2000 * MaxRetries
  {
    2000 * (retryCount + 1)
  }

  /** The state change of one attempt on `at`. It starts by raising the
      loading flag and clearing the error; a success publishes the record and
      resets the counter; a failure below the ceiling counts itself and
      schedules a retry of the same coordinate; a failure at the ceiling
      shows the error. Every attempt ends with the loading flag down. The
      counter is read as the current value of the state, not as a value
      captured when the attempt was scheduled. */
  function Attempt(s: FetchState, language: Language, at: Coordinate, outcome: FetchOutcome): (t: FetchState)
    ensures !t.loading
    ensures t.error.Some? <==> outcome.Failed? && s.retryCount >= MaxRetries
    ensures outcome.Fetched? ==>
      t.retryCount == 0 && t.pending == s.pending && t.weather == Some(BuildWeather(outcome.address, outcome.forecast))
    ensures outcome.Failed? ==> t.weather == s.weather
    ensures outcome.Failed? && s.retryCount < MaxRetries ==>
      t.retryCount == s.retryCount + 1 && t.pending == s.pending + [PendingRetry(Backoff(s.retryCount), at)]
    ensures outcome.Failed? && s.retryCount >= MaxRetries ==>
      t.retryCount == s.retryCount && t.pending == s.pending && t.error == Some(Translated(language, FetchError))
  {
    var started := s.(loading := true, error := None);
    var settled :=
      match outcome
      case Fetched(address, forecast) =>
        started.(weather := Some(BuildWeather(address, forecast)), retryCount := 0)
      case Failed =>
        if started.retryCount < MaxRetries then
          started.(retryCount := started.retryCount + 1,
                   pending := started.pending + [PendingRetry(Backoff(started.retryCount), at)])
        else
          started.(error := Some(Translated(language, FetchError)));
    settled.(loading := false)
  }

  /** The bound every reachable state keeps: the counter never passes the
      ceiling and every scheduled delay is one of 2, 4 or 6 seconds. */
  predicate Bounded(s: FetchState)
  {
    && s.retryCount <= MaxRetries
    && forall p :: p in s.pending ==> p.delay % 2000 == 0 && 2000 <= p.delay <= 2000 * MaxRetries
  }

  lemma AttemptKeepsBounded(s: FetchState, language: Language, at: Coordinate, outcome: FetchOutcome)
    requires Bounded(s)
    ensures Bounded(Attempt(s, language, at, outcome))
  {
  }

  /** The retries scheduled as the counter climbs from `from` to `to`. */
  function Schedule(at: Coordinate, from: nat, to: nat): (r: seq<PendingRetry>)
    requires from <= to
    ensures |r| == to - from
    ensures forall k :: 0 <= k < |r| ==> r[k] == PendingRetry(Backoff(from + k), at)
  {
    seq(to - from, k requires 0 <= k < to - from => PendingRetry(Backoff(from + k), at))
  }

  /** `n` failed attempts in a row on the same coordinate. */
  function Failures(s: FetchState, language: Language, at: Coordinate, n: nat): FetchState
    decreases n
  {
    if n == 0 then s else Failures(Attempt(s, language, at, Failed), language, at, n - 1)
  }

  /** The retry ceiling: from counter `c`, a run of `n` failures raises the
      counter to min(c + n, 3), schedules one retry per counted failure with
      delays 2000 * (k + 1), and shows the error exactly when the run goes
      past the ceiling. The weather on screen is untouched. */
  lemma {:induction false} FailureRun(s: FetchState, language: Language, at: Coordinate, n: nat)
    requires s.retryCount <= MaxRetries
    requires n > 0
    ensures var t := Failures(s, language, at, n);
      var top := Min(s.retryCount + n, MaxRetries);
      && t.retryCount == top
      && t.pending == s.pending + Schedule(at, s.retryCount, top)
      && t.weather == s.weather
      && !t.loading
      && (t.error.Some? <==> s.retryCount + n > MaxRetries)
    decreases n
  {
    var c := s.retryCount;
    var s1 := Attempt(s, language, at, Failed);
    var top := Min(c + n, MaxRetries);
    if n == 1 {
      assert Failures(s, language, at, 1) == s1;
      if c < MaxRetries {
        assert Schedule(at, c, top) == [PendingRetry(Backoff(c), at)];
      } else {
        assert Schedule(at, c, top) == [];
      }
    } else {
      FailureRun(s1, language, at, n - 1);
      if c < MaxRetries {
        assert s1.pending == s.pending + [PendingRetry(Backoff(c), at)];
        assert [PendingRetry(Backoff(c), at)] + Schedule(at, c + 1, top) == Schedule(at, c, top);
      } else {
        assert Schedule(at, c, top) == [] && Schedule(at, s1.retryCount, top) == [];
      }
    }
  }

  /** From a fresh counter, with the counter read as the current state:
      three failures schedule retries after 2, 4 and 6 seconds without any
      error; the fourth failure shows the error. */
  lemma RetryCeiling(s: FetchState, language: Language, at: Coordinate)
    requires s.retryCount == 0 && s.pending == []
    ensures var t := Failures(s, language, at, 3);
      && t.retryCount == 3 && t.error.None?
      && t.pending == [PendingRetry(2000, at), PendingRetry(4000, at), PendingRetry(6000, at)]
    ensures var t := Failures(s, language, at, 4);
      && t.retryCount == 3 && t.error == Some(Translated(language, FetchError))
      && |t.pending| == 3
  {
    FailureRun(s, language, at, 3);
    FailureRun(s, language, at, 4);
    assert Failures(s, language, at, 4) == Attempt(Failures(s, language, at, 3), language, at, Failed) by {
      FailuresLast(s, language, at, 3);
    }
  }

  /** A run of `n + 1` failures is a run of `n` followed by one more. */
  lemma {:induction false} FailuresLast(s: FetchState, language: Language, at: Coordinate, n: nat)
    ensures Failures(s, language, at, n + 1) == Attempt(Failures(s, language, at, n), language, at, Failed)
    decreases n
  {
    if n > 0 {
      FailuresLast(Attempt(s, language, at, Failed), language, at, n - 1);
    }
  }

  /** Two failures and then a success: the counter reads 1, then 2, then 0,
      and no error is ever shown. */
  lemma TwoFailuresThenSuccess(s: FetchState, language: Language, at: Coordinate, address: Address, forecast: Forecast)
    requires s.retryCount == 0
    ensures var s1 := Attempt(s, language, at, Failed);
      var s2 := Attempt(s1, language, at, Failed);
      var s3 := Attempt(s2, language, at, Fetched(address, forecast));
      && s1.retryCount == 1 && s2.retryCount == 2 && s3.retryCount == 0
      && s1.error.None? && s2.error.None? && s3.error.None?
      && s3.weather == Some(BuildWeather(address, forecast))
  {
  }

  // ---------------------------------------------------------------------------
  // What the application shows

  datatype Screen = Spinner | ErrorScreen(message: Text) | Blank | Dashboard(weather: WeatherData)

  /** The loading spinner wins over the error, the error over the dashboard;
      with neither and no record, nothing is shown. */
  function ScreenOf(s: FetchState): (r: Screen)
    ensures r.Spinner? <==> s.loading
    ensures r.ErrorScreen? <==> !s.loading && s.error.Some?
    ensures r.ErrorScreen? ==> r.message == s.error.value
    ensures r.Dashboard? <==> !s.loading && s.error.None? && s.weather.Some?
    ensures r.Dashboard? ==> r.weather == s.weather.value
  {
    if s.loading then Spinner
    else if s.error.Some? then ErrorScreen(s.error.value)
    else if s.weather.None? then Blank
    else Dashboard(s.weather.value)
  }

  /** After a scheduled retry the screen is not the error screen: an earlier
      record stays on display, and without one the screen is blank. */
  lemma RetryScheduledScreen(s: FetchState, language: Language, at: Coordinate)
    requires s.retryCount < MaxRetries
    ensures var r := ScreenOf(Attempt(s, language, at, Failed));
      && !r.ErrorScreen? && !r.Spinner?
      && (s.weather.Some? <==> r.Dashboard?)
  {
  }
}
