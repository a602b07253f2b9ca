/** The records shared by the weather dashboard: the weather record built by a
    fetch, saved locations, the user settings and the closed set of languages.
    Numbers the application only carries around (temperatures, coordinates)
    are modelled as `real`; nothing here does floating-point arithmetic. */
module Types {

  datatype Option<+T> = None | Some(value: T)

  function Min(a: nat, b: nat): nat
  {
    if a <= b then a else b
  }

  /** The three interface languages; no other value inhabits the type. */
  datatype Language = Es | En | De

  /** The language code the application stores and passes to the locale APIs. */
  function LanguageCode(l: Language): string
  {
    match l
    case Es => "es"
    case En => "en"
    case De => "de"
  }

  /** Reads a language code; anything outside the closed set is rejected. */
  function ParseLanguage(code: string): (r: Option<Language>)
    ensures r.Some? <==> code in {"es", "en", "de"}
    ensures r.Some? ==> LanguageCode(r.value) == code
  {
    if code == "es" then Some(Es)
    else if code == "en" then Some(En)
    else if code == "de" then Some(De)
    else None
  }

  /** Every language has its own code, and reading it back gives the language. */
  lemma LanguageCodeRoundTrip(l: Language)
    ensures ParseLanguage(LanguageCode(l)) == Some(l)
    ensures forall m: Language :: LanguageCode(m) == LanguageCode(l) ==> m == l
  {
  }

  /** One localised interface string: the key of the message in a language.
      The translation tables themselves are not part of this model. */
  datatype TextKey = FetchError | EnableLocation | LocationNotSupported | Temperature | Precipitation
  datatype Text = Translated(language: Language, key: TextKey)

  /** A location the user saved; `id` is the key by which it is removed. */
  datatype SavedLocation = SavedLocation(id: string, name: string, lat: real, lon: real)

  datatype Settings = Settings(language: Language, locations: seq<SavedLocation>)

  /** One entry of the record's `weather` list. */
  datatype Condition = Condition(main: string, description: string, icon: string)

  /** The hourly forecast: three parallel sequences, present or absent as a whole. */
  datatype Hourly = Hourly(time: seq<string>, temperature: seq<real>, precipitation: seq<real>)

  datatype WeatherData = WeatherData(
    temp: real,
    humidity: real,
    feelsLike: real,
    conditions: seq<Condition>,
    name: string,
    country: string,
    windSpeed: real,
    hourly: Option<Hourly>)
}
