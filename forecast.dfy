/**
 * The decoded Open-Meteo forecast record and what `display_weather_html`
 * (weather_dock_widget.py) makes of it: the header time, the current
 * temperature and wind, the units, the section title and the hourly table.
 *
 * The library calls the method makes are parameters: the `.1f` float
 * formatter and `str()` of a number (both total), the ISO-time conversion to
 * a local "%a %H:%M" label (which may fail, as `ValueError`/`TypeError`), and
 * the wall-clock header text (which may fail the same way).
 */
module Forecast {
  import opened Wrappers
  import opened Text

  /** A JSON number as `json.loads` returns it. */
  datatype Number = Int(i: int) | Float(x: real)

  /** A JSON scalar: `None`, a number or a string. */
  datatype Scalar = Null | Num(n: Number) | Str(s: string)

  /**
   * The `hourly` object: parallel arrays indexed by hour. A key that is
   * absent is `None` here; an element that is JSON `null` is `None`.
   */
  datatype Hourly = Hourly(
    time: Option<seq<Option<string>>>,
    temperature: Option<seq<Option<Number>>>,
    windSpeed: Option<seq<Option<Number>>>,
    humidity: Option<seq<Option<Number>>>)

  /**
   * The decoded payload. An absent top-level object reads as an empty one
   * (`weather_data.get('current', {})`), so it is an empty map here.
   */
  datatype WeatherData = WeatherData(
    current: map<string, Scalar>,
    currentUnits: map<string, string>,
    hourly: Hourly,
    hourlyUnits: map<string, string>)

  /** The library formatting the method calls, none of it modelled. */
  datatype Formatters = Formatters(
    fixed1: Number -> string,             // f"{x:.1f}"
    show: Number -> string,               // str(x)
    localTime: string -> Option<string>)  // fromisoformat, astimezone, strftime("%a %H:%M"); None when it raises

  /** One forecast row's cells, before they are interpolated into HTML. */
  datatype Row = Row(style: string, time: string, temperature: string, windSpeed: string, humidity: string)

  /** The units each hourly column is labelled with. */
  datatype HourlyUnits = HourlyUnits(temperature: string, windSpeed: string, humidity: string)

  /** The values the page template interpolates. */
  datatype WeatherView = WeatherView(
    formattedTime: string,
    currentTemperature: string,
    temperatureUnit: string,
    currentWindSpeed: string,
    windSpeedUnit: string,
    forecastTitle: string,
    forecastRows: string)

  const NotAvailable := "N/A"
  const OddRowStyle := "background-color: #f0f0f0;"
  const DefaultTemperatureUnit := "Â°C"
  const DefaultWindSpeedUnit := "km/h"
  const DefaultHumidityUnit := "%"
  const UnknownTime := "Unknown Time"
  const Placeholder := "<tr>" + "<td colspan=\"4\" style=\"text-align: center;\">No hourly forecast data available.</td></tr>"

  // ---------------------------------------------------------------- Python values

  /** Python's `str()` of a scalar. */
  function Show(v: Scalar, f: Formatters): string {
    match v
    case Null => "None"
    case Num(n) => f.show(n)
    case Str(s) => s
  }

  /** Python's truth value of a scalar (`if current_time_str:`). */
  predicate Truthy(v: Scalar) {
    match v
    case Null => false
    case Num(n) => (match n case Int(i) => i != 0 case Float(x) => x != 0.0)
    case Str(s) => s != ""
  }

  function Times(d: WeatherData): seq<Option<string>> { d.hourly.time.GetOr([]) }
  function Temperatures(d: WeatherData): seq<Option<Number>> { d.hourly.temperature.GetOr([]) }
  function WindSpeeds(d: WeatherData): seq<Option<Number>> { d.hourly.windSpeed.GetOr([]) }
  function Humidities(d: WeatherData): seq<Option<Number>> { d.hourly.humidity.GetOr([]) }

  // ---------------------------------------------------------------- header and current conditions

  /**
   * The header line: "Unknown Time" unless the payload's current time is
   * truthy; then the local clock's text `now`, or the raw current time when
   * formatting the clock raised.
   */
  function FormattedTime(d: WeatherData, now: Option<string>, f: Formatters): (header: string)
    ensures "time" !in d.current ==> header == UnknownTime
    ensures "time" in d.current && !Truthy(d.current["time"]) ==> header == UnknownTime
    ensures "time" in d.current && Truthy(d.current["time"]) ==>
      header == (if now.Some? then now.value else Show(d.current["time"], f))
  {
    var t := Get(d.current, "time", Str(""));
    if !Truthy(t) then UnknownTime
    else match now
      case Some(text) => text
      case None => Show(t, f)
  }

  /**
   * A current reading (`temperature_2m` or `wind_speed_10m`) as Python's
   * `str()` shows it, "N/A" when the payload has none.
   */
  function CurrentReading(d: WeatherData, key: string, f: Formatters): (text: string)
    ensures key !in d.current ==> text == NotAvailable
    ensures key in d.current ==> text == Show(d.current[key], f)
  {
    Show(Get(d.current, key, Str(NotAvailable)), f)
  }

  // ---------------------------------------------------------------- units

  /** The current temperature unit, "Â°C" when the payload has none. */
  function TemperatureUnit(d: WeatherData): (unit: string)
    ensures "temperature_2m" !in d.currentUnits ==> unit == DefaultTemperatureUnit
    ensures "temperature_2m" in d.currentUnits ==> unit == d.currentUnits["temperature_2m"]
  {
    Get(d.currentUnits, "temperature_2m", DefaultTemperatureUnit)
  }

  /** The current wind-speed unit, "km/h" when the payload has none. */
  function WindSpeedUnit(d: WeatherData): (unit: string)
    ensures "wind_speed_10m" !in d.currentUnits ==> unit == DefaultWindSpeedUnit
    ensures "wind_speed_10m" in d.currentUnits ==> unit == d.currentUnits["wind_speed_10m"]
  {
    Get(d.currentUnits, "wind_speed_10m", DefaultWindSpeedUnit)
  }

  /**
   * The hourly units: the hourly value if present, else the current unit if
   * present, else "Â°C" / "km/h"; humidity falls back to "%" directly.
   */
  function HourlyUnitsOf(d: WeatherData): (u: HourlyUnits)
    ensures u.temperature ==
      if "temperature_2m" in d.hourlyUnits then d.hourlyUnits["temperature_2m"]
      else if "temperature_2m" in d.currentUnits then d.currentUnits["temperature_2m"]
      else DefaultTemperatureUnit
    ensures u.windSpeed ==
      if "wind_speed_10m" in d.hourlyUnits then d.hourlyUnits["wind_speed_10m"]
      else if "wind_speed_10m" in d.currentUnits then d.currentUnits["wind_speed_10m"]
      else DefaultWindSpeedUnit
    ensures u.humidity ==
      if "relative_humidity_2m" in d.hourlyUnits then d.hourlyUnits["relative_humidity_2m"]
      else DefaultHumidityUnit
  {
    HourlyUnits(
      Get(d.hourlyUnits, "temperature_2m", TemperatureUnit(d)),
      Get(d.hourlyUnits, "wind_speed_10m", WindSpeedUnit(d)),
      Get(d.hourlyUnits, "relative_humidity_2m", DefaultHumidityUnit))
  }

  // ---------------------------------------------------------------- title

  /** "Hourly Forecast (N Day)" or, when N > 1, "Hourly Forecast (N Days)". */
  function ForecastTitle(days: int): string {
    "Hourly Forecast (" + IntToString(days) + " Day" + (if days > 1 then "s" else "") + ")"
  }

  // ---------------------------------------------------------------- rows

  /** The time cell: the local label, the raw string when conversion raised, "None" for a null entry. */
  function TimeCell(t: Option<string>, f: Formatters): string {
    match t
    case None => "None"
    case Some(s) => (match f.localTime(s) case Some(local) => local case None => s)
  }

  /** A data cell: the formatted element, or "N/A" past the array's end or for a null element. */
  function DataCell(a: seq<Option<Number>>, i: nat, format: Number -> string): string {
    if i < |a| && a[i].Some? then format(a[i].value) else NotAvailable
  }

  function RowStyle(i: nat): string {
    if i % 2 != 0 then OddRowStyle else ""
  }

  /** The cells of row `i`, which exists for every entry of `hourly.time`. */
  function RowAt(d: WeatherData, f: Formatters, i: nat): Row
    requires i < |Times(d)|
  {
    Row(RowStyle(i), TimeCell(Times(d)[i], f),
        DataCell(Temperatures(d), i, f.fixed1),
        DataCell(WindSpeeds(d), i, f.fixed1),
        DataCell(Humidities(d), i, f.show))
  }

  /** The first `n` rows, in the order the loop appends them. */
  function RowsUpTo(d: WeatherData, f: Formatters, n: nat): (rows: seq<Row>)
    requires n <= |Times(d)|
    ensures |rows| == n
    decreases n
  {
    if n == 0 then [] else RowsUpTo(d, f, n - 1) + [RowAt(d, f, n - 1)]
  }

  /** One row per entry of `hourly.time`. */
  function ForecastRows(d: WeatherData, f: Formatters): (rows: seq<Row>)
    ensures |rows| == |Times(d)|
  {
    RowsUpTo(d, f, |Times(d)|)
  }

  /**
   * The HTML of one row (the template's whitespace is not kept): a `<tr>`
   * carrying the row's style, closed by `</tr>`.
   */
  function RowHtml(r: Row, u: HourlyUnits): (html: string)
    ensures "<tr style=\"" + r.style + "\">" <= html
    ensures EndsWith(html, "</tr>")
  {
    "<tr style=\"" + (r.style + "\">"
    + "<td class=\"time-cell\">" + r.time + "</td>"
    + "<td class=\"data-cell\">" + r.temperature + " " + u.temperature + "</td>"
    + "<td class=\"data-cell\">" + r.windSpeed + " " + u.windSpeed + "</td>"
    + "<td class=\"data-cell\">" + r.humidity + u.humidity + "</td>"
    + "</tr>")
  }

  /** The rows' HTML, concatenated in order. */
  function RowsHtml(rows: seq<Row>, u: HourlyUnits): string
    decreases |rows|
  {
    if rows == [] then "" else RowsHtml(rows[..|rows| - 1], u) + RowHtml(rows[|rows| - 1], u)
  }

  /** The table body: the rows when `hourly.time` is non-empty, else the placeholder row. */
  function TableBody(d: WeatherData, f: Formatters): string {
    if |Times(d)| > 0 then RowsHtml(ForecastRows(d, f), HourlyUnitsOf(d)) else Placeholder
  }

  /** Everything the page shows; `days` is the setting read when the page is drawn. */
  function RenderWeather(d: WeatherData, f: Formatters, now: Option<string>, days: int): WeatherView {
    WeatherView(FormattedTime(d, now, f), CurrentReading(d, "temperature_2m", f), TemperatureUnit(d),
                CurrentReading(d, "wind_speed_10m", f), WindSpeedUnit(d), ForecastTitle(days), TableBody(d, f))
  }

  // ---------------------------------------------------------------- the loop

  /** The row loop of `display_weather_html`, accumulating the body string. */
  method BuildForecastRows(d: WeatherData, f: Formatters) returns (rows: string)
    ensures rows == TableBody(d, f)
  {
    var times := Times(d);
    var units := HourlyUnitsOf(d);
    rows := "";
    if |times| > 0 {
      for i := 0 to |times|
        invariant rows == RowsHtml(RowsUpTo(d, f, i), units)
      {
        var row := RowAt(d, f, i);
        rows := rows + RowHtml(row, units);
        assert RowsUpTo(d, f, i + 1)[..i] == RowsUpTo(d, f, i);
      }
    } else {
      rows := Placeholder;
    }
  }

  /** `display_weather_html` without the page template: the values it interpolates. */
  method DisplayWeatherHtml(d: WeatherData, f: Formatters, now: Option<string>, days: int)
    returns (view: WeatherView)
    ensures view == RenderWeather(d, f, now, days)
  {
    var rows := BuildForecastRows(d, f);
    view := WeatherView(FormattedTime(d, now, f), CurrentReading(d, "temperature_2m", f), TemperatureUnit(d),
                        CurrentReading(d, "wind_speed_10m", f), WindSpeedUnit(d), ForecastTitle(days), rows);
  }

  // ---------------------------------------------------------------- properties

  /** The first `n` rows are exactly rows 0 .. n-1. */
  lemma {:induction false} RowsUpToAt(d: WeatherData, f: Formatters, n: nat)
    requires n <= |Times(d)|
    ensures |RowsUpTo(d, f, n)| == n
    ensures forall k :: 0 <= k < n ==> RowsUpTo(d, f, n)[k] == RowAt(d, f, k)
    decreases n
  {
    if n > 0 {
      RowsUpToAt(d, f, n - 1);
    }
  }

  /**
   * The table has one row per entry of `hourly.time`, whatever the lengths of
   * the other arrays, and row `i` shows what the payload holds at index `i`.
   */
  lemma RowCountFollowsTimes(d: WeatherData, f: Formatters)
    ensures |ForecastRows(d, f)| == |Times(d)|
    ensures forall i :: 0 <= i < |Times(d)| ==> ForecastRows(d, f)[i] == RowAt(d, f, i)
  {
    RowsUpToAt(d, f, |Times(d)|);
  }

  /**
   * Row `i`'s temperature cell is "N/A" exactly when `i` is past the end of
   * the temperature array or the element is null (given that the `.1f`
   * formatter, like Python's, never prints "N/A"); otherwise it is the
   * formatted element. The same holds for wind speed and, with `str()`, for
   * humidity.
   */
  lemma CellsFallBackToNotAvailable(d: WeatherData, f: Formatters, i: nat)
    requires i < |Times(d)|
    requires forall x :: f.fixed1(x) != NotAvailable
    requires forall x :: f.show(x) != NotAvailable
    ensures var r := ForecastRows(d, f)[i];
      && (r.temperature == NotAvailable <==> i >= |Temperatures(d)| || Temperatures(d)[i].None?)
      && (i < |Temperatures(d)| && Temperatures(d)[i].Some? ==> r.temperature == f.fixed1(Temperatures(d)[i].value))
      && (r.windSpeed == NotAvailable <==> i >= |WindSpeeds(d)| || WindSpeeds(d)[i].None?)
      && (i < |WindSpeeds(d)| && WindSpeeds(d)[i].Some? ==> r.windSpeed == f.fixed1(WindSpeeds(d)[i].value))
      && (r.humidity == NotAvailable <==> i >= |Humidities(d)| || Humidities(d)[i].None?)
      && (i < |Humidities(d)| && Humidities(d)[i].Some? ==> r.humidity == f.show(Humidities(d)[i].value))
  {
    RowCountFollowsTimes(d, f);
  }

  /** Odd rows are grey, even rows unstyled. */
  lemma RowsAlternate(d: WeatherData, f: Formatters, i: nat)
    requires i < |Times(d)|
    ensures ForecastRows(d, f)[i].style == (if i % 2 == 1 then OddRowStyle else "")
  {
    RowCountFollowsTimes(d, f);
  }

  /**
   * The time cell is the local label when conversion succeeds, the raw
   * string when it raises, and "None" (Python's str(None)) for a null entry.
   */
  lemma TimeCellFallsBackToRaw(d: WeatherData, f: Formatters, i: nat)
    requires i < |Times(d)|
    ensures Times(d)[i].None? ==> ForecastRows(d, f)[i].time == "None"
    ensures Times(d)[i].Some? ==> var t := Times(d)[i].value;
      ForecastRows(d, f)[i].time == (if f.localTime(t).Some? then f.localTime(t).value else t)
  {
    RowCountFollowsTimes(d, f);
  }

  /** A non-empty row list's HTML starts with its first row's HTML. */
  lemma {:induction false} RowsHtmlStartsWithFirst(rows: seq<Row>, u: HourlyUnits)
    requires |rows| > 0
    ensures RowHtml(rows[0], u) <= RowsHtml(rows, u)
    decreases |rows|
  {
    if |rows| > 1 {
      var init := rows[..|rows| - 1];
      RowsHtmlStartsWithFirst(init, u);
      assert init[0] == rows[0];
    }
  }

  lemma RowHtmlOpensStyledRow(r: Row, u: HourlyUnits)
    ensures |RowHtml(r, u)| > 3 && RowHtml(r, u)[3] == ' '
  {
  }

  /** The body is the placeholder row exactly when `hourly.time` is missing or empty. */
  lemma PlaceholderIffNoTimes(d: WeatherData, f: Formatters)
    ensures TableBody(d, f) == Placeholder <==> |Times(d)| == 0
    ensures d.hourly.time.None? ==> TableBody(d, f) == Placeholder
  {
    if |Times(d)| > 0 {
      var rows := ForecastRows(d, f);
      var units := HourlyUnitsOf(d);
      var body := RowsHtml(rows, units);
      assert TableBody(d, f) == body;
      RowsHtmlStartsWithFirst(rows, units);
      RowHtmlOpensStyledRow(rows[0], units);
      assert body[3] == ' ';
      assert Placeholder[3] == '>';
    }
  }

  /** The title says "Days" exactly when more than one day is set. */
  lemma TitlePluralIffSeveralDays(days: int)
    ensures EndsWith(ForecastTitle(days), "Days)") <==> days > 1
    ensures days <= 1 ==> EndsWith(ForecastTitle(days), " Day)")
    ensures StartsWith(ForecastTitle(days), "Hourly Forecast (" + IntToString(days) + " Day")
  {
    var t := ForecastTitle(days);
    var n := IntToString(days);
    if days > 1 {
      assert t == "Hourly Forecast (" + n + " Days)";
      assert t[|t| - 5..] == "Days)";
    } else {
      assert t == "Hourly Forecast (" + n + " Day)";
      assert t[|t| - 5..] == " Day)";
      assert t[|t| - 5] == ' ';
    }
  }

  /** The header is "Unknown Time" exactly when the payload's current time is falsy. */
  lemma HeaderTime(d: WeatherData, now: Option<string>, f: Formatters)
    requires now.None? ==> Show(Get(d.current, "time", Str("")), f) != UnknownTime
    requires now.Some? ==> now.value != UnknownTime
    ensures FormattedTime(d, now, f) == UnknownTime <==> !Truthy(Get(d.current, "time", Str("")))
  {
  }
}
