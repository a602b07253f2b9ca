/** The hourly chart's data: the first 24 hours of each hourly sequence, one
    line for temperature and one for precipitation probability. Chart styling
    beyond the line colours is not part of this model. */
module HourlyForecast {
  import opened Types

  /** How many hours the chart shows. */
  const HoursShown: nat := 24

  /** The first `n` entries of `s`, or all of them when there are fewer. */
  function Take<T>(s: seq<T>, n: nat): (r: seq<T>)
    ensures |r| == Min(|s|, n)
    ensures r <= s
  {
    if |s| <= n then s else s[..n]
  }

  /** An hour label: the timestamp formatted as a two-digit hour in the
      interface language. The locale formatting itself is left opaque. */
  datatype HourLabel = HourLabel(time: string, language: Language)

  datatype Dataset = Dataset(name: Text, data: seq<real>, borderColor: string, backgroundColor: string, axis: string)

  datatype ChartData = ChartData(labels: seq<HourLabel>, datasets: seq<Dataset>)

  /** The temperature line is white on the dark (winter) theme and near-black otherwise. */
  function TemperatureColor(textColor: string): (c: string)
    ensures c == "#fff" <==> textColor == "text-white"
    ensures c == "#1a1a1a" <==> textColor != "text-white"
  {
    if textColor == "text-white" then "#fff" else "#1a1a1a"
  }

  /** The area under the temperature line: translucent white on the dark theme,
      translucent black otherwise. */
  function TemperatureFill(textColor: string): (c: string)
    ensures c == "rgba(255,255,255,0.1)" <==> textColor == "text-white"
    ensures c == "rgba(0,0,0,0.1)" <==> textColor != "text-white"
  {
    if textColor == "text-white" then "rgba(255,255,255,0.1)" else "rgba(0,0,0,0.1)"
  }

  /** One label per shown timestamp, in order. */
  function Labels(time: seq<string>, language: Language): (r: seq<HourLabel>)
    ensures |r| == Min(|time|, HoursShown)
    ensures forall i :: 0 <= i < |r| ==> r[i] == HourLabel(time[i], language)
  {
    var shown := Take(time, HoursShown);
    seq(|shown|, i requires 0 <= i < |shown| => HourLabel(shown[i], language))
  }

  /** The chart built from a weather record; nothing when the record has no
      hourly forecast. */
  function Chart(weather: WeatherData, textColor: string, language: Language): (r: Option<ChartData>)
    ensures r.None? <==> weather.hourly.None?
    ensures r.Some? ==>
      var h := weather.hourly.value;
      && |r.value.labels| == Min(|h.time|, HoursShown)
      && (forall i :: 0 <= i < |r.value.labels| ==> r.value.labels[i] == HourLabel(h.time[i], language))
      && |r.value.datasets| == 2
      && r.value.datasets[0].name == Translated(language, Temperature)
      && r.value.datasets[0].data <= h.temperature
      && |r.value.datasets[0].data| == Min(|h.temperature|, HoursShown)
      && r.value.datasets[1].name == Translated(language, Precipitation)
      && r.value.datasets[1].data <= h.precipitation
      && |r.value.datasets[1].data| == Min(|h.precipitation|, HoursShown)
      && r.value.datasets[0].borderColor == TemperatureColor(textColor)
      && r.value.datasets[0].backgroundColor == TemperatureFill(textColor)
      && (r.value.datasets[0].borderColor == "#fff" <==> textColor == "text-white")
      && (r.value.datasets[0].backgroundColor == "rgba(255,255,255,0.1)" <==> textColor == "text-white")
      && r.value.datasets[1].borderColor == "#60a5fa"
  {
    match weather.hourly
    case None => None
    case Some(h) =>
      Some(ChartData(
        Labels(h.time, language),
        [ Dataset(Translated(language, Temperature), Take(h.temperature, HoursShown),
                  TemperatureColor(textColor), TemperatureFill(textColor), "y-temperature"),
          Dataset(Translated(language, Precipitation), Take(h.precipitation, HoursShown),
                  "#60a5fa", "rgba(96, 165, 250, 0.1)", "y-precipitation") ]))
  }

  /** Parallel hourly sequences stay parallel: labels and both lines have the
      same length, at most 24. */
  lemma ParallelStaysParallel(weather: WeatherData, textColor: string, language: Language)
    requires weather.hourly.Some?
    requires |weather.hourly.value.time| == |weather.hourly.value.temperature| == |weather.hourly.value.precipitation|
    ensures var c := Chart(weather, textColor, language).value;
      && |c.labels| == |c.datasets[0].data| == |c.datasets[1].data|
      && |c.labels| <= HoursShown
  {
  }

  /** With at least a day of data, exactly the first 24 entries of each sequence are shown. */
  lemma LongForecastShowsOneDay(weather: WeatherData, textColor: string, language: Language)
    requires weather.hourly.Some?
    requires var h := weather.hourly.value;
      |h.time| >= HoursShown && |h.temperature| >= HoursShown && |h.precipitation| >= HoursShown
    ensures var h := weather.hourly.value;
      var c := Chart(weather, textColor, language).value;
      && |c.labels| == HoursShown
      && c.datasets[0].data == h.temperature[..HoursShown]
      && c.datasets[1].data == h.precipitation[..HoursShown]
  {
  }
}
