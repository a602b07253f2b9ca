# Weather dashboard: a Dafny model of its checkable core

The application is a browser weather dashboard. It finds a position (the
device's or a searched place), fetches the current conditions, an hourly
forecast and a place name, and shows them under a theme chosen by season and
hemisphere. This project models the parts with precise behaviour:

- `Types` (`types.dfy`): the weather record with its all-or-nothing hourly
  forecast, saved locations, settings and the closed language set
  `es`/`en`/`de`. Localised strings are opaque tokens `Translated(language, key)`.
- `Seasons` (`seasons.dfy`): the season resolver and the four-entry theme
  table. The resolver is proved against a reference definition: the northern
  calendar, mirrored for latitudes that are not strictly positive. The
  mirror property holds off the equator and fails on it.
- `SettingsPanel` (`settings.dfy`): the language change and the removal of a
  saved location by id, as settings-to-settings functions. Removal is proved
  to keep a subsequence with the same copies of every other location, to
  leave no entry with that id, and to be idempotent.
- `HourlyForecast` (`hourly_forecast.dfy`): the chart data. It holds the first 24
  entries of each hourly sequence, and nothing when the hourly forecast is absent.
- `Weather` (`weather.dfy`): the weather-code table, the construction of the
  record from the two API responses, and `Attempt`, the state change of one
  fetch attempt, with the retry counter read as the current state. In that
  reading, the retry ceiling and the 2/4/6-second backoff schedule are
  proved about runs of failed attempts (`FailureRun`, `RetryCeiling`).
- `App` (`app.dfy`): the class `WeatherApp`, whose fields are the
  application's state hooks: weather, loading, error, location, settings,
  retry counter, scheduled retries and the storage slot. The fetch handlers
  are proved equal to the `Attempt` function; the failure paths of the
  start-up position request instead set their own message and lower the
  loading flag. The language and removal handlers are proved equal to the
  settings functions, and every settings change is written to the slot. A
  scheduled retry is the record `PendingRetry(delay, coordinate)`, appended
  to `pending`. `FireRetry` fires one of them.

Two behaviours of the code worth knowing:

- After a failure that schedules a retry, the code's `finally` block lowers
  the loading flag (src/App.tsx:82-84). So the spinner does not stay up
  between retries. The screen is blank, or it keeps showing an earlier
  record (`Weather.RetryScheduledScreen`).
- Every retry calls the `fetchWeather` of the render that scheduled it
  (src/App.tsx:78), and that function reads the counter value of its own
  render (src/App.tsx:76). So all retries of one chain see the counter the
  chain started with. A chain that starts at 0 (start-up, or a new
  selection after a success) never reaches the error branch at
  src/App.tsx:79-81: it retries every 2000 ms for as long as the attempts
  fail, while the stored counter climbs past 3 through the updater at
  src/App.tsx:77. The model instead reads the counter as a field (see
  "## Left out"). In the model, the error appears on the fourth consecutive
  failure, after retries at 2, 4 and 6 seconds (`Weather.RetryCeiling`).

## Model

| member | source | states |
|---|---|---|
| Types.ParseLanguage | src/types.ts:38 | a code is accepted exactly when it is `es`, `en` or `de`, and the accepted language has that code |
| Types.LanguageCodeRoundTrip | src/types.ts:38 | every language reads back from its own code, and no two languages share a code |
| Seasons.GetSeason | src/utils/seasons.ts:1-8 | for strictly positive latitude the season is the northern calendar's; otherwise (equator included) it is that season mirrored; the name is always one of the four season names |
| Seasons.NorthernBands | src/utils/seasons.ts:4-7 | spring is exactly months 3-5, summer 6-8, autumn 9-11, winter every other month value (12, 1, 2 and out-of-range values) |
| Seasons.HemisphereMirror | src/utils/seasons.ts:2-7 | for non-zero latitude, negating it mirrors the season (spring with autumn, summer with winter) |
| Seasons.EquatorBreaksMirror | src/utils/seasons.ts:2 | at latitude 0, its own negation, the mirror property fails: latitude 0 counts as southern and no season is its own mirror |
| Seasons.GetSeasonTheme | src/utils/seasons.ts:10-39 | a theme exists exactly for the four season names; winter is the only one with text colour `text-white` |
| Seasons.SeasonNamesDistinct | src/utils/seasons.ts:11-36 | different seasons have different names, so each has its own table entry |
| Seasons.ResolvedSeasonHasTheme | src/App.tsx:191-192 | the season resolved for any latitude and month always has a theme |
| SettingsPanel.OfferedLanguages | src/components/Settings.tsx:52 | three distinct languages are offered, with codes among `es`, `en`, `de` |
| SettingsPanel.OfferedLanguagesComplete | src/components/Settings.tsx:52 | every language of the closed set is offered |
| SettingsPanel.WithLanguage | src/components/Settings.tsx:17-19 | the new settings carry the chosen language and the same locations sequence |
| SettingsPanel.RemoveById | src/components/Settings.tsx:24 | every remaining location was in the list and has a different id; the list does not grow |
| SettingsPanel.RemoveLocation | src/components/Settings.tsx:21-26 | the language is unchanged; the locations are those of `RemoveById` for the removed location's id, so every other location survives in order and as often as before, and none with that id remains |
| SettingsPanel.RemoveIsSubsequence | src/components/Settings.tsx:24 | removal keeps the survivors in their original relative order |
| SettingsPanel.RemoveKeepsOthers | src/components/Settings.tsx:24 | every location with another id occurs as often after removal as before |
| SettingsPanel.RemovePresentShrinks | src/components/Settings.tsx:24 | removing an id that is present makes the list shorter |
| SettingsPanel.RemoveAbsent | src/components/Settings.tsx:24 | removing an id nobody carries leaves the list unchanged |
| SettingsPanel.RemoveIdempotent | src/components/Settings.tsx:21-26 | removing the same location twice equals removing it once |
| SettingsPanel.UpdatesCommute | src/components/Settings.tsx:17-26 | a language change and a removal commute, since each touches only its own field |
| HourlyForecast.Take | src/components/HourlyForecast.tsx:48 | `slice(0, n)` gives a prefix of length min(length, n) |
| HourlyForecast.TemperatureColor | src/components/HourlyForecast.tsx:49 | the temperature line is `#fff` exactly when the theme's text colour is `text-white`, otherwise `#1a1a1a` |
| HourlyForecast.TemperatureFill | src/components/HourlyForecast.tsx:50 | the temperature line's fill is `rgba(255,255,255,0.1)` exactly when the theme's text colour is `text-white`, otherwise `rgba(0,0,0,0.1)` |
| HourlyForecast.Labels | src/components/HourlyForecast.tsx:42-44 | one label per element of `time[0 .. min(length, 24)]`, in order, formatted in the interface language |
| HourlyForecast.Chart | src/components/HourlyForecast.tsx:37-62 | nothing exactly when `hourly` is absent; otherwise labels as above, temperature first and precipitation second, each the prefix of its sequence of length min(length, 24); the temperature line is `TemperatureColor` and its fill `TemperatureFill` of the theme's text colour (`#fff` and white fill exactly for `text-white`, `#1a1a1a` and black fill otherwise), the precipitation line is `#60a5fa` |
| HourlyForecast.ParallelStaysParallel | src/components/HourlyForecast.tsx:42-56 | equal-length hourly sequences give labels and datasets of one common length, at most 24 |
| HourlyForecast.LongForecastShowsOneDay | src/components/HourlyForecast.tsx:42-56 | with at least 24 entries in each sequence, exactly the first 24 of each are shown |
| Weather.GetWeatherDescription | src/App.tsx:131-159 | a tabled code gives its phrase; the result is `Unknown` exactly for codes outside the table |
| Weather.DescriptionTable | src/App.tsx:132-157 | the table holds exactly the 24 codes 0, 1, 2, 3, 45, 48, 51, 53, 55, 61, 63, 65, 71, 73, 75, 77, 80, 81, 82, 85, 86, 95, 96, 99 |
| Weather.DescriptionExamples | src/App.tsx:133-158 | 0 reads `Clear sky`, 61 reads `Slight rain`, 4 reads `Unknown` |
| Weather.PlaceName | src/App.tsx:60 | the first of city, town and village that is present and non-empty, else `Unknown`; never empty |
| Weather.VillageOnly | src/App.tsx:60 | an address with only a village is named after the village |
| Weather.ToUpperAscii | src/App.tsx:62 | same length; lower-case ASCII letters become capitals and every other character is kept |
| Weather.CountryCode | src/App.tsx:62 | empty when the code is missing; otherwise the code upper-cased (`ToUpperAscii`), of the same length with no lower-case letter left |
| Weather.CountryCodeIdempotent | src/App.tsx:62 | normalising an already normalised country code changes nothing |
| Weather.BuildWeather | src/App.tsx:46-72 | temperature, humidity, feels-like and wind speed are the current conditions' values; the record always has all three hourly sequences, exactly as received; one condition entry whose main text and description are the code's phrase and whose icon is empty; the place name and country as above |
| Weather.Backoff | src/App.tsx:78 | while below the ceiling, the delay lies between 2000 and 6000 ms |
| Weather.Attempt | src/App.tsx:29-85 | with the counter read as the current state: every attempt ends with loading off; an error exactly when a failure meets a counter at the ceiling; success stores the record and resets the counter to 0; a failure below the ceiling adds 1 to the counter, schedules `(2000 * (count + 1), same coordinate)` and keeps the weather |
| Weather.AttemptKeepsBounded | src/App.tsx:76-81 | attempts keep the counter at most 3 and every scheduled delay at 2000, 4000 or 6000 ms |
| Weather.FailureRun | src/App.tsx:76-81 | from counter c, n failures raise the counter to min(c + n, 3) and schedule the retries with delays 2000 * (k + 1) for k from c up to that bound; they show the error exactly when c + n > 3 and leave the weather alone |
| Weather.RetryCeiling | src/App.tsx:76-81 | with the counter read as the current state, from a fresh counter three failures schedule 2000/4000/6000 ms without an error; a fourth shows the error and schedules nothing more |
| Weather.TwoFailuresThenSuccess | src/App.tsx:49-81 | two failures then a success: the counter reads 1, 2, 0, no error appears, and the record is stored |
| Weather.ScreenOf | src/App.tsx:161-189 | the spinner exactly while loading; otherwise the error screen, showing the stored error message, exactly when there is an error; otherwise the dashboard with the stored record when one exists |
| Weather.RetryScheduledScreen | src/App.tsx:76-84 | after a failure below the ceiling neither the spinner nor the error screen shows; an earlier record stays on display |
| App.LoadSettings | src/App.tsx:18-24 | the stored settings if present, else language `es` with no locations |
| App.WeatherApp.constructor | src/App.tsx:14-26 | starts loading, with no error or record, counter 0, location (0, 0), loaded settings, and the storage slot written |
| App.WeatherApp.FetchWeather | src/App.tsx:29-85 | the new state is `Attempt` of the old one, for this coordinate and the current language; location and settings unchanged |
| App.WeatherApp.FireRetry | src/App.tsx:78 | a scheduled retry leaves the schedule and runs `Attempt` on its own coordinate |
| App.WeatherApp.HandleRetry | src/App.tsx:126-129 | the counter restarts at 0 and the stored location is fetched; a failure then schedules a 2000 ms retry with counter 1 and no error |
| App.WeatherApp.HandleLocationSelect | src/App.tsx:117-120 | the location is stored and exactly those coordinates are fetched |
| App.WeatherApp.Geolocate | src/App.tsx:87-111 | a position is stored and fetched; a refusal or a missing capability sets its own message and stops loading, with no retry |
| App.WeatherApp.HandleSettingsChange | src/App.tsx:113-124 | the settings are replaced and written whole to the storage slot; the fetch state is untouched |
| App.WeatherApp.ChangeLanguage | src/components/Settings.tsx:17-19 | the settings become `WithLanguage` of the old ones and are saved |
| App.WeatherApp.RemoveSavedLocation | src/components/Settings.tsx:21-26 | the settings become `RemoveLocation` of the old ones and are saved |
| App.WeatherApp.Reload | src/App.tsx:113-115 | reading the storage slot back gives the current settings (save/load round trip) |
| App.WeatherApp.CurrentScreen | src/App.tsx:161-189 | the screen `ScreenOf` gives for the current state: the spinner exactly while loading, the error screen with the stored message exactly when not loading with an error, the dashboard with the stored record exactly when neither and a record exists |
| App.WeatherApp.CurrentTheme | src/App.tsx:191-192 | the theme is the table entry of the season resolved for the stored latitude and the month, an entry that always exists; it is light-on-dark exactly in winter |

## Left out

- HTTP calls (reverse geocoding, forecast, search) and their 10-second timeouts: each attempt's combined result is the input `FetchOutcome`, so one failing request fails the whole attempt.
- The place search component as a whole: it only sends a query, keeps the first 5 results and clears its input. A chosen result enters the model as `HandleLocationSelect`.
- Timers: a scheduled retry is a `PendingRetry` record, and the environment chooses when it fires (`FireRetry`). Delays are recorded, not waited out.
- Overlapping fetches: each attempt is applied atomically, so the interleaving of two in-flight fetches (whichever settles last wins) is not modelled.
- React closure semantics: the retry callback runs the `fetchWeather` captured by the render that scheduled it, and that function reads the counter value of its own render. The model reads `retryCount` as a field, so its retry ceiling and its 2/4/6-second schedule (`Weather.Attempt`, `Weather.FailureRun`, `Weather.RetryCeiling`) hold in the model only. As written, every retry of a chain reads the counter the chain started with. A chain started at 0 never shows the error and retries every 2000 ms for as long as the attempts fail, while the stored counter grows past 3. A chain started with a counter of 3 or more shows the error on its first failure.
- Translations: the translation table is not part of this model. Messages and dataset titles are `Translated(language, key)` tokens. Hour labels are `HourLabel(time, language)` tokens, standing for locale-dependent hour formatting.
- Persistence format: JSON encoding and parsing are not modelled. The slot holds a `Settings` value, and an unreadable or incompatible stored blob is not represented.
- Seasons.GetSeasonTheme: a name outside the four seasons gives no theme, whereas the source's plain object lookup returns an inherited member of `Object.prototype` for names such as `constructor`, `toString` or `__proto__`. The only caller passes a resolved season name, which always has a theme.
- App.WeatherApp.HandleRetry: reads `retryCount` as a field after resetting it, so a failed manual retry schedules a 2000 ms retry with counter 1 and no error. In the source, `setRetryCount(0)` does not change the counter the same call of `fetchWeather` reads. After an error from failed fetches that counter is at least 3, so there, as written, a failed manual retry shows the error again at once, schedules nothing, and leaves the counter at 0. After a position error (src/App.tsx:101-104, 107-109) the counter is still 0, and the model and the source agree: a 2000 ms retry is scheduled with counter 1 and no error.
- Weather.ToUpperAscii: upper-cases ASCII letters only, whereas JavaScript's `toUpperCase` also maps other Unicode letters.
- Weather.GetWeatherDescription: takes integer codes; a non-integer number sent by the provider is not represented (the table would give `Unknown`).
- Rendering, animation, icons, chart options and the presentational weather card: these are layout with no state or logic.
- Numbers are `real`, used only in comparisons with 0 and as carried values; floating-point rounding is not modelled.
