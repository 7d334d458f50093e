/**
 * `FetchWeatherThread` (weather_dock_widget.py): the request it sends to the
 * Open-Meteo forecast endpoint and the one signal it emits per run.
 *
 * The network call and `json.loads` are a parameter, `network`, that maps
 * the URL to the outcome of the `try` block; `str()` of a float coordinate is
 * the parameter `floatText`.
 */
module Fetch {
  import opened Wrappers
  import opened Text
  import opened Forecast

  /** The fields a `FetchWeatherThread` is constructed with. */
  datatype FetchRequest = FetchRequest(latitude: real, longitude: real, forecastDays: int)

  /** How the body of the `try` in `run` ended. */
  datatype FetchOutcome =
    | Fetched(data: WeatherData)                    // urlopen, read and json.loads succeeded
    | UrlError(reason: Option<string>, text: string) // urllib.error.URLError; `reason` if it has one, `text` is str(e)
    | JsonDecodeError                               // json.JSONDecodeError
    | OtherError(message: string)                   // any other Exception, `message` is str(e)

  /** The two signals of the thread. */
  datatype Signal = WeatherDataReceived(data: WeatherData) | WeatherDataError(message: string)

  const Endpoint := "https://api.open-meteo.com/v1/forecast"
  const CurrentFields := "temperature_2m,wind_speed_10m"
  const HourlyFields := "temperature_2m," + "relative_humidity_2m," + "wind_speed_10m"
  const NetworkErrorPrefix := "Network Error: "
  const UrlErrorPrefix := "URL Error: "
  const ParseErrorMessage := "Error: Could not parse " + "weather data from the server."
  const UnexpectedErrorPrefix := "An unexpected error occurred: "

  /** The query parameters of the request, in the order the URL lists them. */
  function QueryParameters(latitude: string, longitude: string, days: int): seq<(string, string)> {
    [("latitude", latitude), ("longitude", longitude), ("current", CurrentFields),
     ("hourly", HourlyFields), ("forecast_days", IntToString(days)), ("timezone", "auto")]
  }

  /** `key=value` pairs joined by '&'. */
  function EncodeQuery(params: seq<(string, string)>): string
    decreases |params|
  {
    if |params| == 0 then ""
    else if |params| == 1 then params[0].0 + "=" + params[0].1
    else params[0].0 + "=" + params[0].1 + "&" + EncodeQuery(params[1..])
  }

  /** The URL `run` opens. */
  function RequestUrl(req: FetchRequest, floatText: real -> string): string {
    Endpoint + "?" + EncodeQuery(QueryParameters(floatText(req.latitude), floatText(req.longitude), req.forecastDays))
  }

  /** The message of the error signal for each failure, as `run`'s `except` clauses build it. */
  function Emitted(o: FetchOutcome): (s: Signal)
    ensures s.WeatherDataReceived? <==> o.Fetched?
  {
    match o
    case Fetched(d) => WeatherDataReceived(d)
    case UrlError(reason, text) =>
      (match reason
       case Some(why) => WeatherDataError(NetworkErrorPrefix + why)
       case None => WeatherDataError(UrlErrorPrefix + text))
    case JsonDecodeError => WeatherDataError(ParseErrorMessage)
    case OtherError(m) => WeatherDataError(UnexpectedErrorPrefix + m)
  }

  /** One run of the thread: open the URL, then emit exactly one signal; nothing is raised. */
  function Run(req: FetchRequest, floatText: real -> string, network: string -> FetchOutcome): Signal {
    Emitted(network(RequestUrl(req, floatText)))
  }

  // ---------------------------------------------------------------- reading a URL back

  /** One `key=value` parameter, split at its first `=`; a parameter without `=` has an empty value. */
  function Parameter(piece: string): (string, string) {
    match SplitFirst(piece, '=')
    case Some(kv) => kv
    case None => (piece, "")
  }

  function Parameters(pieces: seq<string>): (params: seq<(string, string)>)
    ensures |params| == |pieces|
    decreases |pieces|
  {
    if pieces == [] then [] else [Parameter(pieces[0])] + Parameters(pieces[1..])
  }

  /** A query string's parameters in order. */
  function DecodeQuery(query: string): seq<(string, string)> {
    Parameters(Split(query, '&'))
  }

  /** A URL's endpoint and its query parameters, or `None` when it has no `?`. */
  function ParseUrl(url: string): Option<(string, seq<(string, string)>)> {
    match SplitFirst(url, '?')
    case None => None
    case Some(parts) => Some((parts.0, DecodeQuery(parts.1)))
  }

  /** The value of the first parameter named `key`. */
  function Lookup(params: seq<(string, string)>, key: string): Option<string>
    decreases |params|
  {
    if params == [] then None
    else if params[0].0 == key then Some(params[0].1)
    else Lookup(params[1..], key)
  }

  // ---------------------------------------------------------------- the error messages read back

  /** The four shapes of error message, recognised by their fixed text. */
  datatype ErrorShape = NetworkError(reason: string) | UrlErrorText(text: string) | ParseError | Unexpected(message: string) | Unrecognised

  function ShapeOf(message: string): ErrorShape {
    if StartsWith(message, NetworkErrorPrefix) then NetworkError(message[|NetworkErrorPrefix|..])
    else if StartsWith(message, UrlErrorPrefix) then UrlErrorText(message[|UrlErrorPrefix|..])
    else if message == ParseErrorMessage then ParseError
    else if StartsWith(message, UnexpectedErrorPrefix) then Unexpected(message[|UnexpectedErrorPrefix|..])
    else Unrecognised
  }

  /** The shape a failure is reported with. */
  function ExpectedShape(o: FetchOutcome): ErrorShape
    requires !o.Fetched?
  {
    match o
    case UrlError(reason, text) => if reason.Some? then NetworkError(reason.value) else UrlErrorText(text)
    case JsonDecodeError => ParseError
    case OtherError(m) => Unexpected(m)
  }

  // ---------------------------------------------------------------- properties

  /** Keys free of '=' and '&', and values free of '&', can be read back from the query. */
  predicate Encodable(params: seq<(string, string)>) {
    forall i :: 0 <= i < |params| ==> '=' !in params[i].0 && '&' !in params[i].0 && '&' !in params[i].1
  }

  lemma ParameterReadsBack(key: string, value: string)
    requires '=' !in key
    ensures Parameter(key + "=" + value) == (key, value)
  {
    assert key + "=" + value == key + ['='] + value;
    SplitFirstAfterPiece(key, '=', value);
  }

  /** Decoding an encoded, non-empty parameter list gives it back. */
  lemma {:induction false} QueryRoundTrip(params: seq<(string, string)>)
    requires |params| > 0 && Encodable(params)
    ensures DecodeQuery(EncodeQuery(params)) == params
    decreases |params|
  {
    var key, value := params[0].0, params[0].1;
    var piece := key + "=" + value;
    assert '&' !in piece;
    ParameterReadsBack(key, value);
    if |params| == 1 {
      SplitWhole(piece, '&');
    } else {
      var rest := EncodeQuery(params[1..]);
      assert EncodeQuery(params) == piece + ['&'] + rest;
      SplitAfterPiece(piece, '&', rest);
      QueryRoundTrip(params[1..]);
      assert params == [params[0]] + params[1..];
    }
  }

  /**
   * The URL reads back as the forecast endpoint with the fixed `current`,
   * `hourly` and `timezone=auto` parameters, the coordinates' text, and
   * `forecast_days` equal to the value the thread was constructed with.
   * (Python's `str()` of a float never contains '&'.)
   */
  lemma RequestUrlCarriesDays(req: FetchRequest, floatText: real -> string)
    requires '&' !in floatText(req.latitude) && '&' !in floatText(req.longitude)
    ensures ParseUrl(RequestUrl(req, floatText)) == Some((Endpoint,
      QueryParameters(floatText(req.latitude), floatText(req.longitude), req.forecastDays)))
    ensures var days := Lookup(ParseUrl(RequestUrl(req, floatText)).value.1, "forecast_days");
      days.Some? && ParseInt(days.value) == Some(req.forecastDays)
  {
    var lat, lon := floatText(req.latitude), floatText(req.longitude);
    var ps := QueryParameters(lat, lon, req.forecastDays);
    QueryParametersEncodable(lat, lon, req.forecastDays);
    QueryRoundTrip(ps);
    var q := EncodeQuery(ps);
    assert RequestUrl(req, floatText) == Endpoint + ['?'] + q;
    assert '?' !in Endpoint;
    SplitFirstAfterPiece(Endpoint, '?', q);
    LookupDays(lat, lon, req.forecastDays);
    IntToStringRoundTrip(req.forecastDays);
  }

  lemma LookupDays(latitude: string, longitude: string, days: int)
    ensures Lookup(QueryParameters(latitude, longitude, days), "forecast_days") == Some(IntToString(days))
  {
    var ps := QueryParameters(latitude, longitude, days);
    assert |ps[0].0| == 8 && |ps[1].0| == 9 && |ps[2].0| == 7 && |ps[3].0| == 6 && |ps[4].0| == 13;
    assert Lookup(ps, "forecast_days") == Lookup(ps[1..], "forecast_days");
    assert Lookup(ps[1..], "forecast_days") == Lookup(ps[2..], "forecast_days");
    assert Lookup(ps[2..], "forecast_days") == Lookup(ps[3..], "forecast_days");
    assert Lookup(ps[3..], "forecast_days") == Lookup(ps[4..], "forecast_days");
  }

  lemma QueryParametersEncodable(latitude: string, longitude: string, days: int)
    requires '&' !in latitude && '&' !in longitude
    ensures Encodable(QueryParameters(latitude, longitude, days))
  {
    var ps := QueryParameters(latitude, longitude, days);
    NoAmpersandInNumber(days);
    CurrentFieldsEncodable();
    HourlyFieldsEncodable();
    CoordinateKeysEncodable();
    FieldKeysEncodable();
    TrailingKeysEncodable();
    forall i | 0 <= i < |ps| ensures '=' !in ps[i].0 && '&' !in ps[i].0 && '&' !in ps[i].1 {
      if i == 0 { assert ps[i] == ("latitude", latitude); }
      else if i == 1 { assert ps[i] == ("longitude", longitude); }
      else if i == 2 { assert ps[i] == ("current", CurrentFields); }
      else if i == 3 { assert ps[i] == ("hourly", HourlyFields); }
      else if i == 4 { assert ps[i] == ("forecast_days", IntToString(days)); }
      else { assert ps[i] == ("timezone", "auto"); }
    }
  }

  lemma NoAmpersandInNumber(days: int)
    ensures '&' !in IntToString(days)
  {
    var n := IntToString(days);
    forall i | 0 <= i < |n| ensures n[i] != '&' {
      if days >= 0 { assert n == NatToString(days); }
      else { assert n == "-" + NatToString(-days); }
    }
  }

  lemma CurrentFieldsEncodable()
    ensures '&' !in CurrentFields
  {
  }

  lemma HourlyFieldsEncodable()
    ensures '&' !in HourlyFields
  {
  }

  lemma CoordinateKeysEncodable()
    ensures FixedKeyEncodable("latitude") && FixedKeyEncodable("longitude")
  {
  }

  lemma FieldKeysEncodable()
    ensures FixedKeyEncodable("current") && FixedKeyEncodable("hourly")
  {
  }

  lemma TrailingKeysEncodable()
    ensures FixedKeyEncodable("forecast_days") && FixedKeyEncodable("timezone") && '&' !in "auto"
  {
  }

  predicate FixedKeyEncodable(key: string) {
    '=' !in key && '&' !in key
  }

  /**
   * Every failure is reported by the error signal (never raised), and the
   * message has the shape of its `except` clause, from which the network
   * reason or the exception's text can be read back.
   */
  lemma ErrorMessagesReadBack(o: FetchOutcome)
    requires !o.Fetched?
    ensures Emitted(o).WeatherDataError?
    ensures ShapeOf(Emitted(o).message) == ExpectedShape(o)
  {
    var m := Emitted(o).message;
    match o
    case UrlError(reason, text) =>
      if reason.Some? {
        assert m == NetworkErrorPrefix + reason.value;
        assert m[|NetworkErrorPrefix|..] == reason.value;
      } else {
        assert m == UrlErrorPrefix + text;
        assert m[0] == 'U' && NetworkErrorPrefix[0] == 'N';
        assert m[|UrlErrorPrefix|..] == text;
      }
    case JsonDecodeError =>
      assert m[0] == 'E' && m[1] == 'r';
    case OtherError(msg) =>
      assert m == UnexpectedErrorPrefix + msg;
      assert m[0] == 'A';
      assert ParseErrorMessage[0] == 'E';
      assert m[|UnexpectedErrorPrefix|..] == msg;
  }

  /** A run emits the received signal with the decoded record exactly when the fetch succeeded. */
  lemma RunEmitsExactlyOne(req: FetchRequest, floatText: real -> string, network: string -> FetchOutcome)
    ensures var o := network(RequestUrl(req, floatText));
      && (Run(req, floatText, network).WeatherDataReceived? <==> o.Fetched?)
      && (o.Fetched? ==> Run(req, floatText, network).data == o.data)
      && (!o.Fetched? ==> ShapeOf(Run(req, floatText, network).message) == ExpectedShape(o))
  {
    var o := network(RequestUrl(req, floatText));
    if !o.Fetched? {
      ErrorMessagesReadBack(o);
    }
  }
}
