/** The season resolver: a latitude and a month give one of four seasons, and
    each season names a fixed visual theme. Latitude is only compared with
    zero, so it is a `real`. */
module Seasons {
  import opened Types

  datatype Season = Spring | Summer | Autumn | Winter
  {
    /** The name the application passes around and looks themes up by. */
    function Name(): string
    {
      match this
      case Spring => "spring"
      case Summer => "summer"
      case Autumn => "autumn"
      case Winter => "winter"
    }

    /** The season half a year away: spring and autumn, summer and winter swap. */
    function Mirror(): (m: Season)
      ensures m != this
    {
      match this
      case Spring => Autumn
      case Summer => Winter
      case Autumn => Spring
      case Winter => Summer
    }
  }

  const SeasonNames: set<string> := {"spring", "summer", "autumn", "winter"}

  /** The northern-hemisphere calendar: spring 3-5, summer 6-8, autumn 9-11,
      winter every other month value. */
  function NorthernSeason(month: int): Season
  {
    if 3 <= month <= 5 then Spring
    else if 6 <= month <= 8 then Summer
    else if 9 <= month <= 11 then Autumn
    else Winter
  }

  /** Each northern season holds exactly its band of months. */
  lemma NorthernBands(month: int)
    ensures NorthernSeason(month) == Spring <==> 3 <= month <= 5
    ensures NorthernSeason(month) == Summer <==> 6 <= month <= 8
    ensures NorthernSeason(month) == Autumn <==> 9 <= month <= 11
    ensures NorthernSeason(month) == Winter <==> !(3 <= month <= 11)
  {
  }

  /** The resolver as the application writes it, hemisphere by hemisphere.
      Northern means strictly positive latitude, so the equator is southern;
      the southern bands are the northern calendar mirrored. */
  function GetSeason(lat: real, month: int): (s: Season)
    ensures lat > 0.0 ==> s == NorthernSeason(month)
    ensures lat <= 0.0 ==> s == NorthernSeason(month).Mirror()
    ensures s.Name() in SeasonNames
  {
    var isNorthern := lat > 0.0;
    if 3 <= month <= 5 then (if isNorthern then Spring else Autumn)
    else if 6 <= month <= 8 then (if isNorthern then Summer else Winter)
    else if 9 <= month <= 11 then (if isNorthern then Autumn else Spring)
    else (if isNorthern then Winter else Summer)
  }

  /** Away from the equator, negating the latitude mirrors the season. */
  lemma HemisphereMirror(lat: real, month: int)
    requires lat != 0.0
    ensures GetSeason(lat, month) == GetSeason(-lat, month).Mirror()
  {
  }

  /** On the equator the mirror property fails: latitude 0 is its own negation
      and counts as southern, and no season is its own mirror. */
  lemma EquatorBreaksMirror(month: int)
    ensures GetSeason(0.0, month) != GetSeason(0.0, month).Mirror()
  {
  }

  /** The fixed style bundle of one season. */
  datatype Theme = Theme(bgGradient: string, textColor: string, cardBg: string, icon: string)

  /** The theme table, looked up by season name; any other name has no entry. */
  function GetSeasonTheme(season: string): (r: Option<Theme>)
    ensures r.Some? <==> season in SeasonNames
    ensures r.Some? && r.value.textColor == "text-white" <==> season == "winter"
  {
    if season == "spring" then
      Some(Theme("from-pink-200 via-rose-200 to-pink-300", "text-gray-800", "bg-white/70", "\U{1F338}"))
    else if season == "summer" then
      Some(Theme("from-sky-400 via-blue-300 to-sky-300", "text-gray-800", "bg-white/60", "\U{2600}\U{FE0F}"))
    else if season == "autumn" then
      Some(Theme("from-amber-200 via-orange-200 to-yellow-200", "text-gray-800", "bg-white/70", "\U{1F342}"))
    else if season == "winter" then
      Some(Theme("from-blue-900 via-slate-800 to-blue-800", "text-white", "bg-white/20", "\U{2744}\U{FE0F}"))
    else None
  }

  /** Whatever the latitude and month, the resolved season has a theme, so the
      dashboard never looks up a missing entry. */
  lemma ResolvedSeasonHasTheme(lat: real, month: int)
    ensures GetSeasonTheme(GetSeason(lat, month).Name()).Some?
  {
  }

  /** Season names are distinct, so the table gives each season its own theme. */
  lemma SeasonNamesDistinct(s: Season, t: Season)
    requires s.Name() == t.Name()
    ensures s == t
  {
  }
}
