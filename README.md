# Weather dock: a Dafny model

The QGIS weather dock plugin fetches the Open-Meteo forecast for the centre of the visible map and shows it in a docked panel. This project models the three parts of `weather_dock_widget.py` that have logic to them, and proves properties about each.

- **Forecast table** (`display_weather_html`), module `Forecast` in `forecast.dfy`. The decoded payload is a `WeatherData` record. The row loop is a method that builds the table-body string. It is proved equal to a definition over `Row` records: one row per `hourly.time` entry, an "N/A" fallback for each cell, grey odd rows, a placeholder row when there is no data, units with a three-level fallback, and a title pluralised from the day count.
- **Request and outcome** (`FetchWeatherThread.run`), module `Fetch` in `fetch.dfy`. The request URL is built from an ordered parameter list. A parser reads it back, and the `forecast_days` value parses back to the thread's setting. The outcome of the `try` block is a datatype, and each failure maps to a message shape that can be recognised again.
- **Single-flight guard** (`update_weather` and the two callbacks), module `Dock` in `dock.dfy`. A transition function `Next` acts on the value of `fetch_thread` together with the threads the widget has started: which are still running, and which have emitted a signal whose callback has not yet run. Every event names its thread. Lemmas about event sequences show three things. Starts balance the threads that finish. An update made during a fetch is dropped and not queued. A burst of updates starts at most one fetch. The class `WeatherDockWidget` keeps these as fields and updates them by exactly those transitions.

`text.dfy` (`Text`) holds `str()` of an integer as the URL uses it, and the parsing that the proofs use to read URLs and messages back (`int()`, `str.split` on one character, prefix and suffix tests). `wrappers.dfy` holds `Option` and `dict.get`.

Library calls are parameters: the `.1f` formatter, `str()` of a number, the ISO-time-to-local-label conversion (which may fail), the wall-clock header text (which may fail), `str()` of a float coordinate, the `.4f` formatter, and the network-plus-JSON step (`network: string -> FetchOutcome`).

The code has no debounce timer, no queued follow-up fetch and no stale-result rejection: an update made during a fetch is dropped (weather_dock_widget.py:67-69). The guard tests `isRunning()`, not just that the field is set, so a thread whose `run` has returned but whose callback has not yet run does not block a new fetch. Each callback then sets `fetch_thread` to None whichever thread sent it (lines 97 and 102). `run` builds four message shapes from three `except` clauses (lines 288, 293 and 295); the `URLError` clause has two branches (lines 290 and 292). The "URL Error: …" shape (line 292) is reached only by a `URLError` without a `reason` attribute. The standard library's `URLError` and `HTTPError` always have one, so that branch is dead in practice; the model keeps it.

## Model

| member | source | states |
|---|---|---|
| `Forecast.RowsUpTo` | weather_dock_widget.py:140-167 | the loop's first n iterations produce exactly n rows |
| `Forecast.ForecastRows` | weather_dock_widget.py:140-141 | the row count is the length of `hourly.time`, whatever the other arrays' lengths |
| `Forecast.RowsUpToAt` | weather_dock_widget.py:141-158 | after n iterations, row k (k < n) holds the cells computed for index k |
| `Forecast.RowCountFollowsTimes` | weather_dock_widget.py:139-141 | one row per `hourly.time` entry; row i is built from index i of every array |
| `Forecast.CellsFallBackToNotAvailable` | weather_dock_widget.py:154-156 | temperature, wind and humidity cells are "N/A" exactly when i is past the array's end or the element is null, and otherwise show the formatted element (`.1f` for temperature and wind, `str()` for humidity) |
| `Forecast.RowsAlternate` | weather_dock_widget.py:158 | odd rows get "background-color: #f0f0f0;", even rows the empty style |
| `Forecast.TimeCellFallsBackToRaw` | weather_dock_widget.py:143-152 | the time cell is the local "%a %H:%M" label, or the raw string when conversion raises; a null entry makes `fromisoformat` raise and shows as "None" |
| `Forecast.RowHtml` | weather_dock_widget.py:160-167 | a row's HTML opens with `<tr style="…">` carrying the row's style and ends with `</tr>` |
| `Forecast.PlaceholderIffNoTimes` | weather_dock_widget.py:140-169 | the body is the single "No hourly forecast data available." row exactly when `hourly.time` is missing or empty |
| `Forecast.TemperatureUnit` | weather_dock_widget.py:129-130 | the current temperature unit is the payload's `current_units` value, "Â°C" when it has none |
| `Forecast.WindSpeedUnit` | weather_dock_widget.py:129-131 | the current wind unit is the payload's `current_units` value, "km/h" when it has none |
| `Forecast.HourlyUnitsOf` | weather_dock_widget.py:129-135 | hourly temperature and wind units fall back to the current units, then to "Â°C" and "km/h"; humidity falls back to "%" |
| `Forecast.CurrentReading` | weather_dock_widget.py:107-110 | a missing current temperature or wind speed shows "N/A"; a present one shows `str()` of the value |
| `Forecast.FormattedTime` | weather_dock_widget.py:119-126 | with no current time, or a falsy one, the header is "Unknown Time"; otherwise it is the local clock's text, or the raw current time when formatting the clock raises |
| `Forecast.HeaderTime` | weather_dock_widget.py:119-126 | the header is "Unknown Time" exactly when the payload's current time is falsy |
| `Forecast.TitlePluralIffSeveralDays` | weather_dock_widget.py:171-172 | the title ends in "Days)" exactly when the day count is above 1, ends in " Day)" otherwise, and starts "Hourly Forecast (<days> Day" |
| `Forecast.BuildForecastRows` | weather_dock_widget.py:137-169 | the string built by the loop equals the specified table body |
| `Forecast.DisplayWeatherHtml` | weather_dock_widget.py:104-172 | the values put in the page are the rendering of the payload and the setting read at draw time |
| `Text.IntToStringRoundTrip` | weather_dock_widget.py:279 | `int(str(days)) == days` for every integer, so the setting can be read back |
| `Fetch.QueryRoundTrip` | weather_dock_widget.py:273-281 | a parameter list with keys free of '=' and '&' and values free of '&' is recovered from its encoding |
| `Fetch.RequestUrlCarriesDays` | weather_dock_widget.py:273-281 | the URL parses back to the forecast endpoint with parameters latitude, longitude, current=temperature_2m,wind_speed_10m, hourly=temperature_2m,relative_humidity_2m,wind_speed_10m, forecast_days and timezone=auto, and `forecast_days` parses to the value given to the thread |
| `Fetch.Emitted` | weather_dock_widget.py:284-296 | the received signal is emitted exactly when the fetch succeeded |
| `Fetch.ErrorMessagesReadBack` | weather_dock_widget.py:288-296 | every failure becomes the error signal, never an exception, in the shape of its `except` clause and branch: "Network Error: <reason>", "URL Error: <e>", the fixed parse message, or "An unexpected error occurred: <msg>"; the reason or text can be read back |
| `Fetch.RunEmitsExactlyOne` | weather_dock_widget.py:269-296 | one run emits exactly one signal: the decoded record on success, the matching error message otherwise |
| `Forecast.ForecastTitle` | weather_dock_widget.py:171-172 | computes "Hourly Forecast (N Day)", with "Days" when N > 1; its properties are the contract of `Forecast.TitlePluralIffSeveralDays` |
| `Forecast.TimeCell` | weather_dock_widget.py:142-152 | computes the time cell; its properties are the contract of `Forecast.TimeCellFallsBackToRaw` |
| `Forecast.DataCell` | weather_dock_widget.py:154-156 | computes a data cell, the formatted element or "N/A"; its properties are the contract of `Forecast.CellsFallBackToNotAvailable` |
| `Forecast.RowStyle` | weather_dock_widget.py:158 | computes the row style; its properties are the contract of `Forecast.RowsAlternate` |
| `Forecast.RowAt` | weather_dock_widget.py:141-158 | computes the cells of row i from index i of every array; its properties are the contracts of `Forecast.RowsUpToAt` and `Forecast.RowCountFollowsTimes` |
| `Forecast.TableBody` | weather_dock_widget.py:137-169 | computes the rows' HTML or the placeholder row; its properties are the contracts of `Forecast.BuildForecastRows` and `Forecast.PlaceholderIffNoTimes` |
| `Forecast.RenderWeather` | weather_dock_widget.py:104-172 | computes every value the page interpolates; `Forecast.DisplayWeatherHtml` is proved to return it |
| `Fetch.RequestUrl` | weather_dock_widget.py:273-281 | computes the request URL from the ordered parameter list; its properties are the contract of `Fetch.RequestUrlCarriesDays` |
| `Fetch.Run` | weather_dock_widget.py:269-296 | computes the one signal a run emits; its properties are the contract of `Fetch.RunEmitsExactlyOne` |
| `Dock.Next` | weather_dock_widget.py:64-102 | one transition of the guard, as written or with the intended callback; its properties are the contracts of the `Dock` lemmas below |
| `Dock.NextKeepsValid` | weather_dock_widget.py:64-102 | every transition keeps thread ids fresh, and no thread is both running and awaiting its callback |
| `Dock.StartsBalanceFinishes` | weather_dock_widget.py:64-102 | over any event sequence, the threads started plus those running at the outset equal the threads whose `run` returned plus those running at the end |
| `Dock.UpdateWhileRunningIsDropped` | weather_dock_widget.py:66-69 | an update while the tracked thread runs leaves the state unchanged and has no effect on any later state or start (it is not queued) |
| `Dock.UpdateWhenIdleStarts` | weather_dock_widget.py:84-92 | with the tracked thread not running, an update starts a fresh thread for exactly its request and tracks it as running |
| `Dock.BurstStartsAtMostOne` | weather_dock_widget.py:64-92 | any run of updates with no thread end or callback between them starts at most one fetch, none if one was already running, and leaves a fetch running |
| `Dock.StaleCallbackStartsSecondFetch` | weather_dock_widget.py:67-102 | as written, the events update, thread 0 returns, update, thread 0's callback, update start three fetches and leave threads 1 and 2 running at once |
| `Dock.GuardedKeepsOneRunning` | weather_dock_widget.py:67-102 | with a callback that clears `fetch_thread` only for the thread it holds, only the tracked thread is ever running, so at most one is |
| `Dock.GuardedSingleFlight` | weather_dock_widget.py:26-102 | from the widget's initial state the intended guard never has two fetches running |
| `Dock.GuardedDiffersOnlyOnStaleCallback` | weather_dock_widget.py:94-102 | the intended callback differs from the written one only for a callback from a thread `fetch_thread` no longer holds |
| `Dock.TitleCanNameOtherDays` | weather_dock_widget.py:84-172 | as written, an update that changes the setting from 1 to 3 during a fetch is dropped, the tracked thread keeps `forecast_days` 1, and the page drawn with the setting 3 has a different title |
| `Dock.TitleMatchesFetchedDays` | weather_dock_widget.py:171-172 | drawn with the day count of the thread whose data is shown, the title names exactly the `forecast_days` value its URL carries |
| `Dock.WeatherDockWidget.constructor` | weather_dock_widget.py:26-38 | a new widget shows "Loading weather data..." with no fetch thread and no threads started |
| `Dock.WeatherDockWidget.UpdateWeather` | weather_dock_widget.py:64-92 | the state changes by the update transition; while the tracked thread runs the page is unchanged, otherwise it shows the loading message and tracks a fresh thread carrying the coordinates and the current `forecast_days` |
| `Dock.WeatherDockWidget.ThreadFinished` | weather_dock_widget.py:67 | when a thread's `run` returns, the state changes by the thread-done transition: `isRunning()` turns false and its callback is queued, the field unchanged |
| `Dock.WeatherDockWidget.OnWeatherDataReceived` | weather_dock_widget.py:94-97 | draws the forecast and sets `fetch_thread` to None, whichever thread sent the data |
| `Dock.WeatherDockWidget.OnWeatherDataError` | weather_dock_widget.py:99-102 | shows the error message and sets `fetch_thread` to None, whichever thread sent it |
| `Dock.WeatherDockWidget.Deliver` | weather_dock_widget.py:88-89 | each signal reaches exactly its connected callback: the state changes by that callback's transition, which leaves no fetch thread, and the page is the drawn forecast or the error panel |

## Left out

- The page templates (`show_message`, `show_error` and the large HTML/CSS literal) are left out. The model keeps only the values they interpolate (`Page`, `WeatherView`). A row's HTML keeps its tags and cell order but not the template's whitespace.
- The coordinate reprojection with `QgsCoordinateTransform` (lines 71-80) is a foreign geospatial library. `UpdateWeather` receives the centre already in WGS84.
- `urllib.request.urlopen` (with its 20-second timeout), `response.read()`, UTF-8 decoding and `json.loads` are I/O and foreign libraries. Their combined outcome is the `network` parameter.
- `datetime.fromisoformat`, `astimezone`, `strftime` and `datetime.now()` are time-zone library calls and the wall clock. They are parameters that may fail, plus the `now` text.
- Every failure of the local-time conversion (the `localTime` formatter) becomes the raw-string fallback. Line 151 catches only `ValueError` and `TypeError`, so an `OverflowError` from `astimezone` for an entry at the edge of the datetime range would escape `display_weather_html`; the model does not show that.
- The `.1f`, `.4f` and `str()` conversions of floats are floating point. They are opaque formatter parameters.
- `QThread` scheduling and queued signal delivery are concurrency. They become one-at-a-time events, each naming its thread, in any order the event sequence gives.
- A thread emitting its signal and its `run` returning are one event (`ThreadDone`), and a callback is taken only after it. The short interval in which the callback already ran while `isRunning()` is still true is not modelled.
- The class `WeatherDockWidget` models the code as written. The intended callback (`ReleaseIfCurrent`) exists only as the `guarded` variant of the transition function.
- Payloads that do not have Open-Meteo's shape make Python raise outside any `try`. Examples are a non-object `hourly`, strings inside the numeric arrays, and JSON null where a whole array or object is expected: `"temperature_2m": null` makes `len(None)` raise at line 154, and `"current": null` breaks line 108. They are not modelled: the hourly arrays are typed as numbers or null, and an absent object is an empty map.
- The loop's inner check `if i < len(hourly_times)` (line 144) is always true inside `range(len(hourly_times))`. It is not modelled as a separate branch.
- Fetch.RequestUrlCarriesDays: assumes the coordinates' text contains no '&', as Python's `str()` of a float never does.
- weather_dock.py (menu, toolbar and dock lifecycle, plus its visibility check before calling `update_weather`), settings_dialog.py (`QSettings` storage; Qt enforces the 1–7 range) and `__init__.py` are host glue. The setting comes in as a parameter.

## Findings

| source | as written | input that shows it | evidently intended | confidence | as-written member | corrected member |
|---|---|---|---|---|---|---|
| weather_dock_widget.py:37-102 | each callback sets `fetch_thread` to None whichever thread sent it, and the guard lets a new fetch start once the tracked thread's `run` has returned | update; thread 0's `run` returns before its callback runs; update (starts thread 1); thread 0's callback (clears the field); update: threads 1 and 2 run at once | as the comment at line 37 says, no two requests run at once: a callback clears `fetch_thread` only when it comes from the thread the field holds | not executed | `Dock.StaleCallbackStartsSecondFetch` | `Dock.GuardedKeepsOneRunning` |
| weather_dock_widget.py:84-172 | the forecast-days setting is read when the fetch starts (line 84) and again when the page is drawn (line 171) | setting 1, update; setting changed to 3, update dropped; the 1-day data is titled with 3 days | the title uses the day count the shown data was fetched for | not executed | `Dock.TitleCanNameOtherDays` | `Dock.TitleMatchesFetchedDays` |
