/** The dashboard's state and the handlers that change it: fetch attempts with
    their retry counter, the manual retry, choosing a searched location, the
    start-up position, and settings changes saved to one storage slot.
    Network results, the device position and timers arrive as arguments;
    a scheduled retry is recorded in `pending` rather than run. */
module App {
  import opened Types
  import opened Weather
  import Seasons
  import SettingsPanel

  /** The settings the application starts with: the stored ones when the slot
      holds any, otherwise Spanish with no saved locations. */
  function LoadSettings(slot: Option<Settings>): (s: Settings)
    ensures slot.Some? ==> s == slot.value
    ensures slot.None? ==> s.language == Es && s.locations == []
  {
    match slot
    case Some(saved) => saved
    case None => Settings(Es, [])
  }

  /** What the device positioning capability answered at start-up. */
  datatype Geolocation = Position(lat: real, lon: real) | PositionError | Unsupported

  class WeatherApp {
    var weather: Option<WeatherData>
    var loading: bool
    var error: Option<Text>
    var location: Coordinate
    var settings: Settings
    var retryCount: nat
    /** Retries scheduled and not yet fired, oldest first; none is ever cancelled. */
    var pending: seq<PendingRetry>
    /** The durable storage slot holding the saved settings. */
    var storage: Option<Settings>

    /** The fields one fetch attempt reads and writes. */
    function State(): FetchState
      reads this
    {
      FetchState(weather, loading, error, retryCount, pending)
    }

    /** The retry bound holds and the storage slot mirrors the settings. */
    ghost predicate Valid()
      reads this
    {
      Bounded(State()) && storage == Some(settings)
    }

    constructor(saved: Option<Settings>)
      ensures Valid()
      ensures settings == LoadSettings(saved)
      ensures weather.None? && loading && error.None? && retryCount == 0 && pending == []
      ensures location == Coordinate(0.0, 0.0)
    {
      weather := None;
      loading := true;
      error := None;
      location := Coordinate(0.0, 0.0);
      settings := LoadSettings(saved);
      retryCount := 0;
      pending := [];
      storage := Some(LoadSettings(saved));
    }

    /** One fetch attempt on (lat, lon) whose two requests produced `outcome`. */
    method FetchWeather(lat: real, lon: real, outcome: FetchOutcome)
      requires Valid()
      modifies this
      ensures Valid()
      ensures State() == Attempt(old(State()), settings.language, Coordinate(lat, lon), outcome)
      ensures location == old(location) && settings == old(settings) && storage == old(storage)
    {
      AttemptKeepsBounded(State(), settings.language, Coordinate(lat, lon), outcome);
      loading := true;
      error := None;
      match outcome {
        case Fetched(address, forecast) =>
          weather := Some(BuildWeather(address, forecast));
          retryCount := 0;
        case Failed =>
          if retryCount < MaxRetries {
            pending := pending + [PendingRetry(Backoff(retryCount), Coordinate(lat, lon))];
            retryCount := retryCount + 1;
          } else {
            error := Some(Translated(settings.language, FetchError));
          }
      }
      loading := false;
    }

    /** The timer of the `i`-th scheduled retry fires: it leaves the schedule
        and the same coordinate is fetched again. */
    method FireRetry(i: nat, outcome: FetchOutcome)
      requires Valid()
      requires i < |pending|
      modifies this
      ensures Valid()
      ensures State() == Attempt(old(State()).(pending := old(pending[..i] + pending[i + 1..])),
                                 settings.language, old(pending[i].at), outcome)
      ensures location == old(location) && settings == old(settings) && storage == old(storage)
    {
      var retry := pending[i];
      pending := pending[..i] + pending[i + 1..];
      assert forall p :: p in pending ==> p in old(pending);
      FetchWeather(retry.at.lat, retry.at.lon, outcome);
    }

    /** The error screen's retry button: the counter restarts at zero and the
        last stored location is fetched. */
    method HandleRetry(outcome: FetchOutcome)
      requires Valid()
      modifies this
      ensures Valid()
      ensures State() == Attempt(old(State()).(retryCount := 0), settings.language, old(location), outcome)
      ensures outcome.Failed? ==> retryCount == 1 && error.None? && pending == old(pending) + [PendingRetry(2000, old(location))]
      ensures location == old(location) && settings == old(settings) && storage == old(storage)
    {
      retryCount := 0;
      FetchWeather(location.lat, location.lon, outcome);
    }

    /** A search result was chosen: it becomes the stored location and exactly
        its coordinates are fetched. */
    method HandleLocationSelect(lat: real, lon: real, outcome: FetchOutcome)
      requires Valid()
      modifies this
      ensures Valid()
      ensures location == Coordinate(lat, lon)
      ensures State() == Attempt(old(State()), settings.language, Coordinate(lat, lon), outcome)
      ensures settings == old(settings) && storage == old(storage)
    {
      location := Coordinate(lat, lon);
      FetchWeather(lat, lon, outcome);
    }

    /** The start-up position request. A position is stored and fetched; a
        refusal or a missing capability shows its own message and stops the
        spinner, without any retry. */
    method Geolocate(answer: Geolocation, outcome: FetchOutcome)
      requires Valid()
      modifies this
      ensures Valid()
      ensures answer.Position? ==>
        location == Coordinate(answer.lat, answer.lon)
        && State() == Attempt(old(State()), settings.language, location, outcome)
      ensures answer.PositionError? ==>
        State() == old(State()).(error := Some(Translated(settings.language, EnableLocation)), loading := false)
      ensures answer.Unsupported? ==>
        State() == old(State()).(error := Some(Translated(settings.language, LocationNotSupported)), loading := false)
      ensures !answer.Position? ==> location == old(location)
      ensures settings == old(settings) && storage == old(storage)
    {
      match answer {
        case Position(lat, lon) =>
          location := Coordinate(lat, lon);
          FetchWeather(lat, lon, outcome);
        case PositionError =>
          error := Some(Translated(settings.language, EnableLocation));
          loading := false;
        case Unsupported =>
          error := Some(Translated(settings.language, LocationNotSupported));
          loading := false;
      }
    }

    /** New settings replace the old ones and are written, whole, to storage. */
    method HandleSettingsChange(newSettings: Settings)
      requires Valid()
      modifies this
      ensures Valid()
      ensures settings == newSettings && storage == Some(newSettings)
      ensures State() == old(State()) && location == old(location)
    {
      settings := newSettings;
      storage := Some(newSettings);
    }

    /** The settings panel's language buttons. */
    method ChangeLanguage(language: Language)
      requires Valid()
      modifies this
      ensures Valid()
      ensures settings == SettingsPanel.WithLanguage(old(settings), language)
      ensures State() == old(State()) && location == old(location)
    {
      HandleSettingsChange(SettingsPanel.WithLanguage(settings, language));
    }

    /** The settings panel's remove button on a saved location. */
    method RemoveSavedLocation(saved: SavedLocation)
      requires Valid()
      modifies this
      ensures Valid()
      ensures settings == SettingsPanel.RemoveLocation(old(settings), saved)
      ensures State() == old(State()) && location == old(location)
    {
      HandleSettingsChange(SettingsPanel.RemoveLocation(settings, saved));
    }

    /** Reading the storage slot back gives the current settings. */
    function Reload(): (s: Settings)
      reads this
      requires Valid()
      ensures s == settings
    {
      LoadSettings(storage)
    }

    /** The screen the current state renders. */
    function CurrentScreen(): (r: Screen)
      reads this
      ensures r == ScreenOf(State())
      ensures r.Spinner? <==> loading
      ensures r.ErrorScreen? <==> !loading && error.Some?
      ensures r.ErrorScreen? ==> error == Some(r.message)
      ensures r.Dashboard? <==> !loading && error.None? && weather.Some?
      ensures r.Dashboard? ==> weather == Some(r.weather)
    {
      ScreenOf(State())
    }

    /** The theme of the stored location in the given month: the table entry
        of the resolved season, which always exists; the theme is the
        light-on-dark one exactly in winter. */
    function CurrentTheme(month: int): (t: Seasons.Theme)
      reads this
      ensures Seasons.GetSeasonTheme(Seasons.GetSeason(location.lat, month).Name()) == Some(t)
      ensures t.textColor == "text-white" <==> Seasons.GetSeason(location.lat, month) == Seasons.Winter
    {
      Seasons.GetSeasonTheme(Seasons.GetSeason(location.lat, month).Name()).value
    }
  }

  /** A scenario: two failed attempts and a success on the same location
      leave no error and a reset counter. */
  method RecoverAfterTwoFailures(address: Address, forecast: Forecast)
  {
    var app := new WeatherApp(None);
    app.HandleLocationSelect(40.7, -74.0, Failed);
    assert app.retryCount == 1 && app.error.None?;
    assert app.pending == [PendingRetry(2000, Coordinate(40.7, -74.0))];
    app.FireRetry(0, Failed);
    assert app.retryCount == 2 && app.error.None?;
    assert app.pending == [PendingRetry(4000, Coordinate(40.7, -74.0))];
    app.FireRetry(0, Fetched(address, forecast));
    assert app.retryCount == 0 && app.error.None? && app.pending == [];
    assert app.CurrentScreen() == Dashboard(BuildWeather(address, forecast));
    assert Seasons.GetSeason(app.location.lat, 7) == Seasons.Summer;
  }
}
