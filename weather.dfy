/** The weather tools: formatting of alert features, the alerts text for a
    state and the forecast text for a location. Each HTTP fetch is an input:
    `make_nws_request` is abstracted as a function from URL to the parsed
    dict, or `None` when the request failed. */
module Weather {
  import opened Wrappers
  import opened Text
  import opened Json

  const NwsApiBase := "https://api.weather.gov"
  const Separator := "\n---\n"

  const AlertsUnavailable := "경보를 가져올 수 없거나 경보가 없습니다."
  const NoActiveAlerts := "이 주에 활성 경보가 없습니다."
  const PointsUnavailable := "이 위치의 예보 데이터를 가져올 수 없습니다."
  const ForecastUnavailable := "상세 예보를 가져올 수 없습니다."

  const UnknownValue := "알 수 없음"
  const NoDescription := "설명 없음"
  const NoInstruction := "특별한 지침 없음"

  /** A parsed JSON response: `make_nws_request` returns a dict or `None`. */
  type Dict = map<string, Json>

  /** Python's `not d` for an optional dict. */
  predicate Falsy(d: Option<Dict>) {
    d.None? || d.value == map[]
  }

  /** What `props.get(key, default)` shows on a dict. */
  function Shown(fields: Dict, key: string, default: string): string {
    if key in fields then Str(fields[key]) else default
  }

  /** A caption without a newline followed by a value without one is one line. */
  lemma CaptionedLine(caption: string, value: string)
    requires NoNewline(caption) && NoNewline(value)
    ensures NoNewline(caption + value)
  {
    assert forall k :: 0 <= k < |caption + value| ==>
      (caption + value)[k] == if k < |caption| then caption[k] else value[k - |caption|];
  }

  /** Text laid out as lines between an empty first and an empty last line,
      as the triple-quoted f-strings are, starts with a newline. */
  lemma FramedStartsWithNewline(lines: seq<string>)
    requires |lines| >= 2 && lines[0] == ""
    ensures |Join("\n", lines)| > 0 && Join("\n", lines)[0] == '\n'
  {
    JoinHeadTail("\n", lines);
  }

  // ---------------------------------------------------------------------------
  // format_alert
  // ---------------------------------------------------------------------------

  /** The lines of an alert: the f-string spans seven lines, the first and
      the last empty, and each `props.get(key, default)` shows the value or
      the default. */
  function AlertLines(props: Dict): seq<string> {
    [ "",
      "이벤트: " + Shown(props, "event", UnknownValue),
      "지역: " + Shown(props, "areaDesc", UnknownValue),
      "심각도: " + Shown(props, "severity", UnknownValue),
      "설명: " + Shown(props, "description", NoDescription),
      "지침: " + Shown(props, "instruction", NoInstruction),
      "" ]
  }

  /** `format_alert(feature)`: raises on a feature that is not a dict, has
      no `properties`, or whose `properties` is not a dict (the first
      `props.get` then fails). */
  function FormatAlert(feature: Json): (r: Result<string, PyError>)
    ensures r.Ok? <==> feature.JObject? && "properties" in feature.fields
                       && feature.fields["properties"].JObject?
    ensures !feature.JObject? ==> r == Err(TypeError)
    ensures feature.JObject? && "properties" !in feature.fields ==> r == Err(KeyError("properties"))
    ensures feature.JObject? && "properties" in feature.fields && !feature.fields["properties"].JObject?
            ==> r == Err(AttributeError("get"))
  {
    var props :- Subscript(feature, "properties");
    if !props.JObject? then Err(AttributeError("get"))
    else Ok(Join("\n", AlertLines(props.fields)))
  }

  /** A formatted alert is five lines between an empty first and last line,
      each a caption followed by the property's value or, when the key is
      absent, its fixed default (provided no shown value holds a newline). */
  lemma FormatAlertLines(feature: Json, props: Dict)
    requires feature.JObject? && "properties" in feature.fields
    requires feature.fields["properties"] == JObject(props)
    requires NoNewline(Shown(props, "event", UnknownValue))
    requires NoNewline(Shown(props, "areaDesc", UnknownValue))
    requires NoNewline(Shown(props, "severity", UnknownValue))
    requires NoNewline(Shown(props, "description", NoDescription))
    requires NoNewline(Shown(props, "instruction", NoInstruction))
    ensures FormatAlert(feature).Ok?
    ensures SplitLines(FormatAlert(feature).value) ==
      [ "",
        "이벤트: " + Shown(props, "event", UnknownValue),
        "지역: " + Shown(props, "areaDesc", UnknownValue),
        "심각도: " + Shown(props, "severity", UnknownValue),
        "설명: " + Shown(props, "description", NoDescription),
        "지침: " + Shown(props, "instruction", NoInstruction),
        "" ]
  {
    CaptionedLine("이벤트: ", Shown(props, "event", UnknownValue));
    CaptionedLine("지역: ", Shown(props, "areaDesc", UnknownValue));
    CaptionedLine("심각도: ", Shown(props, "severity", UnknownValue));
    CaptionedLine("설명: ", Shown(props, "description", NoDescription));
    CaptionedLine("지침: ", Shown(props, "instruction", NoInstruction));
    SplitJoinLines(AlertLines(props));
  }

  /** Every formatted alert starts with a newline. */
  lemma FormatAlertStartsWithNewline(feature: Json)
    requires FormatAlert(feature).Ok?
    ensures |FormatAlert(feature).value| > 0 && FormatAlert(feature).value[0] == '\n'
  {
    FramedStartsWithNewline(AlertLines(feature.fields["properties"].fields));
  }

  // ---------------------------------------------------------------------------
  // Formatting a list element by element
  // ---------------------------------------------------------------------------

  /** `[f(x) for x in xs]` where f may raise: the texts in order, or the
      exception of the first element that raises. */
  function MapResult(f: Json -> Result<string, PyError>, xs: seq<Json>): (r: Result<seq<string>, PyError>)
    ensures r.Ok? <==> forall i :: 0 <= i < |xs| ==> f(xs[i]).Ok?
    ensures r.Ok? ==> |r.value| == |xs| && forall i :: 0 <= i < |xs| ==> r.value[i] == f(xs[i]).value
    ensures r.Err? ==> exists j :: 0 <= j < |xs| && f(xs[j]).Err? && r.error == f(xs[j]).error
                                   && forall i :: 0 <= i < j ==> f(xs[i]).Ok?
    decreases |xs|
  {
    if xs == [] then Ok([])
    else
      var first :- f(xs[0]);
      var rest :- MapResult(f, xs[1..]);
      assert forall i :: 1 <= i < |xs| ==> xs[i] == xs[1..][i - 1];
      Ok([first] + rest)
  }

  // ---------------------------------------------------------------------------
  // get_weather_alerts
  // ---------------------------------------------------------------------------

  /** The URL of the active alerts of a state: the API base, the alerts
      path, then the state code. */
  function AlertsUrl(state: string): (url: string)
    ensures |url| == |NwsApiBase| + |"/alerts/active/area/"| + |state|
    ensures url[..|NwsApiBase|] == NwsApiBase
    ensures url[|NwsApiBase|..|url| - |state|] == "/alerts/active/area/"
    ensures url[|url| - |state|..] == state
  {
    NwsApiBase + "/alerts/active/area/" + state
  }

  /** The alerts text for a fetch result. */
  function AlertsText(data: Option<Dict>): (r: Result<string, PyError>) {
    if Falsy(data) || "features" !in data.value then Ok(AlertsUnavailable)
    else
      var features := data.value["features"];
      if !Truthy(features) then Ok(NoActiveAlerts)
      else if !features.JArray? then Err(TypeError)  // iterating a non-list value
      else
        var alerts :- MapResult(FormatAlert, features.elems);
        Ok(Join(Separator, alerts))
  }

  /** `get_weather_alerts(state)`, with the fetch as a function of the URL. */
  function GetWeatherAlerts(state: string, fetch: string -> Option<Dict>): Result<string, PyError> {
    AlertsText(fetch(AlertsUrl(state)))
  }

  /** Texts that each start with a newline join to "" or to a text starting
      with a newline, so never to one of the fixed messages. */
  lemma JoinedTextsStartWithNewline(texts: seq<string>)
    requires forall i :: 0 <= i < |texts| ==> |texts[i]| > 0 && texts[i][0] == '\n'
    ensures Join(Separator, texts) == "" || Join(Separator, texts)[0] == '\n'
  {
    if |texts| > 0 {
      JoinStartsWithFirst(Separator, texts);
      assert Join(Separator, texts)[..|texts[0]|][0] == '\n';
    }
  }

  /** The three outcomes of the alerts tool. The "cannot fetch" message comes
      exactly when the fetch failed or the response lacks `features`, the
      "no active alerts" message exactly when `features` is falsy, and
      otherwise the formatted features, in order, joined by the separator. */
  lemma AlertsOutcomes(state: string, fetch: string -> Option<Dict>)
    ensures var data := fetch(AlertsUrl(state));
            GetWeatherAlerts(state, fetch) == Ok(AlertsUnavailable) <==> data.None? || "features" !in data.value
    ensures var data := fetch(AlertsUrl(state));
            GetWeatherAlerts(state, fetch) == Ok(NoActiveAlerts) <==>
              data.Some? && "features" in data.value && !Truthy(data.value["features"])
    ensures var data := fetch(AlertsUrl(state));
            data.Some? && "features" in data.value && data.value["features"].JArray?
            && Truthy(data.value["features"]) && GetWeatherAlerts(state, fetch).Ok?
            ==> var fs := data.value["features"].elems;
                exists alerts: seq<string> ::
                  && |alerts| == |fs|
                  && (forall i :: 0 <= i < |fs| ==> FormatAlert(fs[i]) == Ok(alerts[i]))
                  && GetWeatherAlerts(state, fetch) == Ok(Join(Separator, alerts))
  {
    var data := fetch(AlertsUrl(state));
    if data.Some? && "features" in data.value && Truthy(data.value["features"])
       && data.value["features"].JArray?
    {
      var fs := data.value["features"].elems;
      var m := MapResult(FormatAlert, fs);
      if m.Ok? {
        forall i | 0 <= i < |m.value|
          ensures |m.value[i]| > 0 && m.value[i][0] == '\n'
        {
          FormatAlertStartsWithNewline(fs[i]);
        }
        JoinedTextsStartWithNewline(m.value);
        assert AlertsUnavailable[0] != '\n' && NoActiveAlerts[0] != '\n';
      }
    }
  }

  // ---------------------------------------------------------------------------
  // get_weather_forecast
  // ---------------------------------------------------------------------------

  function Min(a: int, b: int): int {
    if a <= b then a else b
  }

  /** `periods[:5]`, as the `for` loop iterates it: the first five elements of
      a list, the first five characters of a string (each then fails to be
      subscripted by a key), and `TypeError` for any other value. */
  function FirstFive(periods: Json): (r: Result<seq<Json>, PyError>)
    ensures periods.JArray? ==> r == Ok(periods.elems[..Min(5, |periods.elems|)])
    ensures r.Ok? ==> |r.value| <= 5
    ensures r.Err? <==> !periods.JArray? && !periods.JStr?
    ensures r.Err? ==> r.error == TypeError
  {
    match periods
    case JArray(elems) => Ok(elems[..Min(5, |elems|)])
    case JStr(s) => Ok(seq(Min(5, |s|), i requires 0 <= i < Min(5, |s|) => JStr([s[i]])))
    case _ => Err(TypeError)
  }

  /** The lines of one period's f-string, first and last empty. */
  function PeriodLines(name: string, temperature: string, unit: string, windSpeed: string,
                       windDirection: string, detailed: string): seq<string>
  {
    [ "",
      name + ":",
      "온도: " + temperature + "°" + unit,
      "바람: " + windSpeed + " " + windDirection,
      "예보: " + detailed,
      "" ]
  }

  /** The f-string of one period: the keys are subscripted left to right and
      the first missing one raises. */
  function FormatPeriod(period: Json): (r: Result<string, PyError>)
    ensures r.Ok? <==> period.JObject? && "name" in period.fields && "temperature" in period.fields
                       && "temperatureUnit" in period.fields && "windSpeed" in period.fields
                       && "windDirection" in period.fields && "detailedForecast" in period.fields
    ensures !period.JObject? ==> r == Err(TypeError)
    ensures period.JObject? && "name" !in period.fields ==> r == Err(KeyError("name"))
    ensures r.Err? ==> r.error.TypeError? || r.error.KeyError?
  {
    var name :- Subscript(period, "name");
    var temperature :- Subscript(period, "temperature");
    var unit :- Subscript(period, "temperatureUnit");
    var windSpeed :- Subscript(period, "windSpeed");
    var windDirection :- Subscript(period, "windDirection");
    var detailed :- Subscript(period, "detailedForecast");
    Ok(Join("\n", PeriodLines(Str(name), Str(temperature), Str(unit), Str(windSpeed),
                              Str(windDirection), Str(detailed))))
  }

  /** A formatted period is its name line, the temperature, the wind and the
      detailed forecast, between an empty first and last line (provided the
      shown values hold no newline). */
  lemma FormatPeriodLines(fields: Dict)
    requires "name" in fields && "temperature" in fields && "temperatureUnit" in fields
    requires "windSpeed" in fields && "windDirection" in fields && "detailedForecast" in fields
    requires NoNewline(Str(fields["name"]) + ":")
    requires NoNewline("온도: " + Str(fields["temperature"]) + "°" + Str(fields["temperatureUnit"]))
    requires NoNewline("바람: " + Str(fields["windSpeed"]) + " " + Str(fields["windDirection"]))
    requires NoNewline(Str(fields["detailedForecast"]))
    ensures FormatPeriod(JObject(fields)).Ok?
    ensures SplitLines(FormatPeriod(JObject(fields)).value) ==
      [ "",
        Str(fields["name"]) + ":",
        "온도: " + Str(fields["temperature"]) + "°" + Str(fields["temperatureUnit"]),
        "바람: " + Str(fields["windSpeed"]) + " " + Str(fields["windDirection"]),
        "예보: " + Str(fields["detailedForecast"]),
        "" ]
  {
    CaptionedLine("예보: ", Str(fields["detailedForecast"]));
    SplitJoinLines(PeriodLines(Str(fields["name"]), Str(fields["temperature"]),
                               Str(fields["temperatureUnit"]), Str(fields["windSpeed"]),
                               Str(fields["windDirection"]), Str(fields["detailedForecast"])));
  }

  /** Every formatted period starts with a newline. */
  lemma FormatPeriodStartsWithNewline(period: Json)
    requires FormatPeriod(period).Ok?
    ensures |FormatPeriod(period).value| > 0 && FormatPeriod(period).value[0] == '\n'
  {
    var f := period.fields;
    FramedStartsWithNewline(PeriodLines(Str(f["name"]), Str(f["temperature"]), Str(f["temperatureUnit"]),
                                        Str(f["windSpeed"]), Str(f["windDirection"]),
                                        Str(f["detailedForecast"])));
  }

  /** The text for the `periods` value of a forecast response. */
  function PeriodsText(periods: Json): Result<string, PyError> {
    var shown :- FirstFive(periods);
    var texts :- MapResult(FormatPeriod, shown);
    Ok(Join(Separator, texts))
  }

  /** `get_weather_forecast` from the points response onwards; the forecast
      fetch is a function of the URL the points response names. */
  function ForecastText(points: Option<Dict>, fetch: Json -> Option<Dict>): Result<string, PyError> {
    if Falsy(points) then Ok(PointsUnavailable)
    else
      var props :- Subscript(JObject(points.value), "properties");
      var forecastUrl :- Subscript(props, "forecast");
      var forecast := fetch(forecastUrl);
      if Falsy(forecast) then Ok(ForecastUnavailable)
      else
        var forecastProps :- Subscript(JObject(forecast.value), "properties");
        var periods :- Subscript(forecastProps, "periods");
        PeriodsText(periods)
  }

  /** The loop of `get_weather_forecast`: each shown period is formatted and
      appended to `forecasts`, and the first one that raises ends the tool
      with its exception. */
  method FormatPeriods(shown: seq<Json>) returns (r: Result<seq<string>, PyError>)
    ensures r == MapResult(FormatPeriod, shown)
  {
    var forecasts: seq<string> := [];
    for i := 0 to |shown|
      invariant |forecasts| == i
      invariant forall k :: 0 <= k < i ==> FormatPeriod(shown[k]) == Ok(forecasts[k])
    {
      var forecast := FormatPeriod(shown[i]);
      if forecast.Err? {
        MapResultFirstError(FormatPeriod, shown, i);
        return Err(forecast.error);
      }
      forecasts := forecasts + [forecast.value];
    }
    MapResultAllOk(FormatPeriod, shown, forecasts);
    r := Ok(forecasts);
  }

  /** Elements that all format give exactly their texts. */
  lemma MapResultAllOk(f: Json -> Result<string, PyError>, xs: seq<Json>, texts: seq<string>)
    requires |texts| == |xs|
    requires forall k :: 0 <= k < |xs| ==> f(xs[k]) == Ok(texts[k])
    ensures MapResult(f, xs) == Ok(texts)
  {
    var m := MapResult(f, xs);
    assert m.Ok?;
    assert m.value == texts;
  }

  /** The first element that fails to format decides the exception. */
  lemma {:induction false} MapResultFirstError(f: Json -> Result<string, PyError>, xs: seq<Json>, j: nat)
    requires j < |xs| && f(xs[j]).Err?
    requires forall k :: 0 <= k < j ==> f(xs[k]).Ok?
    ensures MapResult(f, xs) == Err(f(xs[j]).error)
    decreases j
  {
    if j > 0 {
      assert f(xs[0]).Ok?;
      MapResultFirstError(f, xs[1..], j - 1);
      assert forall k :: 0 <= k < j - 1 ==> xs[1..][k] == xs[k + 1];
    }
  }

  /** `get_weather_forecast` after the points fetch; the forecast fetch is a
      function of the URL the points response names. */
  method GetWeatherForecast(points: Option<Dict>, fetch: Json -> Option<Dict>)
    returns (r: Result<string, PyError>)
    ensures r == ForecastText(points, fetch)
  {
    if points.None? || points.value == map[] {
      return Ok(PointsUnavailable);
    }
    var props :- Subscript(JObject(points.value), "properties");
    var forecastUrl :- Subscript(props, "forecast");
    var forecast := fetch(forecastUrl);
    if forecast.None? || forecast.value == map[] {
      return Ok(ForecastUnavailable);
    }
    var forecastProps :- Subscript(JObject(forecast.value), "properties");
    var periods :- Subscript(forecastProps, "periods");
    var shown :- FirstFive(periods);
    var forecasts :- FormatPeriods(shown);
    r := Ok(Join(Separator, forecasts));
  }

  /** Only the first five periods are rendered: a longer list gives the same
      text as its first five elements. */
  lemma PeriodsAtMostFive(ps: seq<Json>)
    ensures PeriodsText(JArray(ps)) == PeriodsText(JArray(ps[..Min(5, |ps|)]))
  {
    assert ps[..Min(5, |ps|)][..Min(5, |ps[..Min(5, |ps|)]|)] == ps[..Min(5, |ps|)];
  }

  /** A rendered list of periods is the first min(5, n) periods, each
      formatted, in order, joined by the separator. */
  lemma PeriodsPieces(ps: seq<Json>)
    requires PeriodsText(JArray(ps)).Ok?
    ensures var n := Min(5, |ps|);
            exists texts: seq<string> ::
              && |texts| == n
              && (forall i :: 0 <= i < n ==> FormatPeriod(ps[i]) == Ok(texts[i]))
              && PeriodsText(JArray(ps)) == Ok(Join(Separator, texts))
  {
    var shown := ps[..Min(5, |ps|)];
    assert FirstFive(JArray(ps)) == Ok(shown);
    var m := MapResult(FormatPeriod, shown);
    var texts := m.value;
    forall i | 0 <= i < |shown|
      ensures FormatPeriod(ps[i]) == Ok(texts[i])
    {
      assert shown[i] == ps[i];
    }
    assert PeriodsText(JArray(ps)) == Ok(Join(Separator, texts));
  }

  /** The two failure messages come exactly from a falsy points response and
      a falsy forecast response, before anything is formatted. */
  lemma ForecastFailureMessages(points: Option<Dict>, fetch: Json -> Option<Dict>)
    ensures ForecastText(points, fetch) == Ok(PointsUnavailable) <==> Falsy(points)
    ensures ForecastText(points, fetch) == Ok(ForecastUnavailable) <==>
              && !Falsy(points)
              && "properties" in points.value && points.value["properties"].JObject?
              && "forecast" in points.value["properties"].fields
              && Falsy(fetch(points.value["properties"].fields["forecast"]))
  {
    if !Falsy(points) && "properties" in points.value && points.value["properties"].JObject?
       && "forecast" in points.value["properties"].fields
    {
      var forecast := fetch(points.value["properties"].fields["forecast"]);
      if !Falsy(forecast) && "properties" in forecast.value && forecast.value["properties"].JObject?
         && "periods" in forecast.value["properties"].fields
      {
        PeriodsNeverAMessage(forecast.value["properties"].fields["periods"]);
      }
    }
  }

  /** A rendered list of periods is never one of the fixed messages. */
  lemma PeriodsNeverAMessage(periods: Json)
    ensures PeriodsText(periods) != Ok(PointsUnavailable)
    ensures PeriodsText(periods) != Ok(ForecastUnavailable)
  {
    var shown := FirstFive(periods);
    if shown.Ok? {
      var texts := MapResult(FormatPeriod, shown.value);
      if texts.Ok? {
        forall i | 0 <= i < |texts.value|
          ensures |texts.value[i]| > 0 && texts.value[i][0] == '\n'
        {
          FormatPeriodStartsWithNewline(shown.value[i]);
        }
        JoinedTextsStartWithNewline(texts.value);
        assert PointsUnavailable[0] != '\n' && ForecastUnavailable[0] != '\n';
      }
    }
  }
}
