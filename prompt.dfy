/**
 * The texts the weather route sends to the language model: the weather block built by
 * `formatWeatherDataForPrompt`, the system prompt chosen by `createSystemPromptForIntent` and
 * the user prompt of `analyzeWeatherWithLLM`.
 */
module Prompt {

  import opened Wrappers
  import opened Text
  import opened Js
  import opened Intent
  import opened Lookup
  import opened Context

  // ---------------------------------------------------------------- text helpers

  /** The lines of `xs` one after the other: the text a `forEach` that appends a line per item builds. */
  function ConcatMap<T>(xs: seq<T>, line: T -> string): string
    decreases |xs|
  {
    if |xs| == 0 then "" else ConcatMap(xs[..|xs| - 1], line) + line(xs[|xs| - 1])
  }

  /** Items that give the same line give the same text. */
  lemma {:induction false} ConcatMapSameLines<T>(xs: seq<T>, ys: seq<T>, f: T -> string, g: T -> string)
    requires |xs| == |ys|
    requires forall i :: 0 <= i < |xs| ==> f(xs[i]) == g(ys[i])
    ensures ConcatMap(xs, f) == ConcatMap(ys, g)
    decreases |xs|
  {
    if |xs| > 0 {
      ConcatMapSameLines(xs[..|xs| - 1], ys[..|ys| - 1], f, g);
    }
  }

  /** `xs.slice(0, n)` on a list and `s.substring(0, n)` on a string: the longest prefix of at most `n` items. */
  function First<T>(xs: seq<T>, n: nat): (r: seq<T>)
    ensures |r| <= n && |r| <= |xs|
    ensures |r| == n || |r| == |xs|
    ensures r == xs[..|r|]
  {
    if |xs| <= n then xs else xs[..n]
  }

  // ---------------------------------------------------------------- formatWeatherDataForPrompt

  /** `${getWindDirection(deg)}`: an undefined label renders as "undefined". */
  function WindText(degrees: real): string
  {
    match WindDirection(degrees)
    case Some(point) => point
    case None => "undefined"
  }

  const CurrentHeading: string := "CURRENT WEATHER:\n"
  const DailyHeading: string := "\nDAILY FORECAST:\n"
  const HourlyHeading: string := "\nHOURLY FORECAST (next 12 hours):\n"
  const UpcomingHeading: string := "\nUPCOMING HOURS:\n"
  const AlertsHeading: string := "\nWEATHER ALERTS:\n"
  const NoAlertsNotice: string := "\nNo weather alerts currently in effect.\n"
  const AstronomyHeading: string := "\nASTRONOMY INFO:\n"
  const ReferenceHeading: string := "\nREFERENCE DATA FOR EXPLANATIONS:\n"

  /** The five lines under the current-weather heading. */
  function CurrentLines(c: CurrentSummary): string
  {
    "Temperature: " + c.temperature.shown + "°F\n"
    + "Conditions: " + c.conditions + "\n"
    + "Feels Like: " + c.feelsLike.shown + "°F\n"
    + "Humidity: " + c.humidity.shown + "%\n"
    + "Wind: " + c.windSpeed.shown + " mph from " + WindText(c.windDirection) + "\n"
  }

  function CurrentBlock(c: CurrentSummary): string
  {
    CurrentHeading + CurrentLines(c)
  }

  function DetailLine(e: (string, Value)): string
  {
    e.0 + ": " + Show(e.1) + "\n"
  }

  function DayLine(d: DaySummary): string
  {
    d.date + ": High " + d.tempHigh.shown + "°F, Low " + d.tempLow.shown + "°F, " + d.conditions + "\n"
  }

  function HourLine(h: HourSummary): string
  {
    h.time + ": " + h.temp.shown + "°F, " + h.conditions + ", " + h.precipitation.shown
    + "% chance of precipitation\n"
  }

  /** Two lines per alert; the description is cut to 200 characters and always followed by "...". */
  function AlertText(a: AlertSummary): string
  {
    var (start, end) := if a.validity.Some? then a.validity.value else ("undefined", "undefined");
    a.event + ": " + First(a.description, 200) + "...\n"
    + "Valid: " + start + " to " + end + "\n\n"
  }

  /** The daily list of a forecast or comparison, when there is one. */
  function DailyPart(daily: Option<seq<DaySummary>>): string
  {
    if daily.Some? then DailyHeading + ConcatMap(daily.value, DayLine) else ""
  }

  /** The first 12 hours of a forecast, when there are hours. */
  function HourlyPart(hourly: Option<seq<HourSummary>>, intent: Intent): string
  {
    if intent == Forecast && hourly.Some?
    then HourlyHeading + ConcatMap(First(hourly.value, 12), HourLine)
    else ""
  }

  function ForecastSection(daily: Option<seq<DaySummary>>, hourly: Option<seq<HourSummary>>, intent: Intent): string
  {
    if intent == Forecast || intent == Comparison then DailyPart(daily) + HourlyPart(hourly, intent) else ""
  }

  function ActivitySection(hourly: Option<seq<HourSummary>>, intent: Intent): string
  {
    if intent == Activity && hourly.Some?
    then UpcomingHeading + ConcatMap(First(hourly.value, 6), HourLine)
    else ""
  }

  function AlertSection(alerts: Option<seq<AlertSummary>>, intent: Intent): string
  {
    if intent == Safety || intent == Alerts then
      (if alerts.Some? && |alerts.value| > 0
       then AlertsHeading + ConcatMap(alerts.value, AlertText)
       else NoAlertsNotice)
    else ""
  }

  function AstronomyLines(a: AstronomyInfo): string
  {
    "Sunrise: " + a.sunrise + "\n"
    + "Sunset: " + a.sunset + "\n"
    + "Moon Phase: " + MoonPhaseDescription(a.moonPhase) + "\n"
  }

  function AstronomySection(astronomy: Option<AstronomyInfo>, intent: Intent): string
  {
    if intent == Astronomy && astronomy.Some? then AstronomyHeading + AstronomyLines(astronomy.value)
    else ""
  }

  /** `details[key]` as a value: `undefined` for a key never set. */
  function Detail(ds: Details, key: string): Value
  {
    match DetailOf(ds, key)
    case Some(v) => v
    case None => Undefined
  }

  const AqiScale: string :=
    "AQI Scale: 0-50 (Good), 51-100 (Moderate), 101-150 (Unhealthy for Sensitive Groups), "
    + "151-200 (Unhealthy), 201-300 (Very Unhealthy), 301+ (Hazardous)\n"
  const UvScale: string :=
    "UV Index Scale: 0-2 (Low), 3-5 (Moderate), 6-7 (High), 8-10 (Very High), 11+ (Extreme)\n"

  /** A "Current ...: value" line, present only when the detail is truthy. */
  function ReferenceLine(name: string, v: Value): string
  {
    if Truthy(v) then "Current " + name + ": " + Show(v) + "\n" else ""
  }

  function ExplanationSection(details: Details, intent: Intent): string
  {
    if intent == Explanation then
      ReferenceHeading
      + ReferenceLine("Air Quality", Detail(details, "Air Quality"))
      + ReferenceLine("UV Index", Detail(details, "UV Index"))
      + AqiScale + UvScale
    else ""
  }

  /** The text `formatWeatherDataForPrompt(data, intent)` returns. */
  function PromptText(d: Extract, intent: Intent): (r: string)
    ensures StartsWith(r, CurrentBlock(d.current))
  {
    CurrentBlock(d.current) + ConcatMap(d.details, DetailLine)
    + ForecastSection(d.daily, d.hourly, intent) + ActivitySection(d.hourly, intent) + AlertSection(d.alerts, intent)
    + AstronomySection(d.astronomy, intent) + ExplanationSection(d.details, intent)
  }

  /** Appending the empty string changes nothing. */
  lemma AppendEmpty(s: string)
    ensures s + "" == s && "" + s == s
  {
  }

  /** Five appends in a row add the five pieces joined. */
  lemma AppendFive(o: string, a: string, b: string, c: string, d: string, e: string)
    ensures o + a + b + c + d + e == o + (a + b + c + d + e)
  {
  }

  /** `xs.forEach(x => { output += line(x) })`. */
  method AppendEach<T>(output: string, xs: seq<T>, line: T -> string) returns (r: string)
    ensures r == output + ConcatMap(xs, line)
  {
    r := output;
    var i := 0;
    while i < |xs|
      invariant 0 <= i <= |xs|
      invariant r == output + ConcatMap(xs[..i], line)
    {
      assert xs[..i + 1][..i] == xs[..i];
      r := r + line(xs[i]);
      i := i + 1;
    }
    assert xs[..|xs|] == xs;
  }

  /** The detail lines of `formatWeatherDataForPrompt`, written only when there are details. */
  method AppendDetails(output: string, details: Details) returns (r: string)
    ensures r == output + ConcatMap(details, DetailLine)
  {
    r := output;
    if |details| > 0 {
      r := AppendEach(r, details, DetailLine);
    } else {
      AppendEmpty(output);
    }
  }

  /** Two appends in a row add the two pieces joined. */
  lemma AppendTwo(o: string, a: string, b: string)
    ensures o + a + b == o + (a + b)
  {
  }

  /** A heading followed by a line per item. */
  method AppendList<T>(output: string, heading: string, xs: seq<T>, line: T -> string) returns (r: string)
    ensures r == output + (heading + ConcatMap(xs, line))
  {
    r := output + heading;
    r := AppendEach(r, xs, line);
    AppendTwo(output, heading, ConcatMap(xs, line));
  }

  /** The daily list of the forecast branch. */
  method AppendDaily(output: string, daily: Option<seq<DaySummary>>) returns (r: string)
    ensures r == output + DailyPart(daily)
  {
    r := output;
    if daily.Some? {
      r := AppendList(r, DailyHeading, daily.value, DayLine);
    } else {
      AppendEmpty(output);
    }
  }

  /** The hourly list of the forecast branch. */
  method AppendHourly(output: string, hourly: Option<seq<HourSummary>>, intent: Intent) returns (r: string)
    ensures r == output + HourlyPart(hourly, intent)
  {
    r := output;
    if intent == Forecast && hourly.Some? {
      r := AppendList(r, HourlyHeading, First(hourly.value, 12), HourLine);
    } else {
      AppendEmpty(output);
    }
  }

  /** The forecast branch of `formatWeatherDataForPrompt`. */
  method AppendForecast(output: string, data: Extract, intent: Intent) returns (r: string)
    ensures r == output + ForecastSection(data.daily, data.hourly, intent)
  {
    r := output;
    if intent == Forecast || intent == Comparison {
      r := AppendDaily(r, data.daily);
      r := AppendHourly(r, data.hourly, intent);
      AppendTwo(output, DailyPart(data.daily), HourlyPart(data.hourly, intent));
    } else {
      AppendEmpty(output);
    }
  }

  /** The activity branch of `formatWeatherDataForPrompt`. */
  method AppendActivity(output: string, data: Extract, intent: Intent) returns (r: string)
    ensures r == output + ActivitySection(data.hourly, intent)
  {
    r := output;
    if intent == Activity && data.hourly.Some? {
      r := AppendList(r, UpcomingHeading, First(data.hourly.value, 6), HourLine);
    } else {
      AppendEmpty(output);
    }
  }

  /** The safety and alerts branch of `formatWeatherDataForPrompt`. */
  method AppendAlerts(output: string, data: Extract, intent: Intent) returns (r: string)
    ensures r == output + AlertSection(data.alerts, intent)
  {
    r := output;
    if intent == Safety || intent == Alerts {
      if data.alerts.Some? && |data.alerts.value| > 0 {
        r := AppendList(r, AlertsHeading, data.alerts.value, AlertText);
      } else {
        r := r + NoAlertsNotice;
      }
    } else {
      AppendEmpty(output);
    }
  }

  /** The astronomy branch of `formatWeatherDataForPrompt`. */
  method AppendAstronomy(output: string, data: Extract, intent: Intent) returns (r: string)
    ensures r == output + AstronomySection(data.astronomy, intent)
  {
    r := output;
    if intent == Astronomy && data.astronomy.Some? {
      r := r + AstronomyHeading;
      r := r + AstronomyLines(data.astronomy.value);
      AppendTwo(output, AstronomyHeading, AstronomyLines(data.astronomy.value));
    } else {
      AppendEmpty(output);
    }
  }

  /** A reference line of the explanation branch, written only for a truthy detail. */
  method AppendReference(output: string, name: string, v: Value) returns (r: string)
    ensures r == output + ReferenceLine(name, v)
  {
    r := output;
    if Truthy(v) {
      r := r + ("Current " + name + ": " + Show(v) + "\n");
    } else {
      AppendEmpty(output);
    }
  }

  /** The explanation branch of `formatWeatherDataForPrompt`. */
  method AppendExplanation(output: string, data: Extract, intent: Intent) returns (r: string)
    ensures r == output + ExplanationSection(data.details, intent)
  {
    r := output;
    if intent == Explanation {
      r := r + ReferenceHeading;
      r := AppendReference(r, "Air Quality", Detail(data.details, "Air Quality"));
      r := AppendReference(r, "UV Index", Detail(data.details, "UV Index"));
      r := r + AqiScale;
      r := r + UvScale;
      AppendFive(output, ReferenceHeading, ReferenceLine("Air Quality", Detail(data.details, "Air Quality")),
        ReferenceLine("UV Index", Detail(data.details, "UV Index")), AqiScale, UvScale);
    } else {
      AppendEmpty(output);
    }
  }

  /** `formatWeatherDataForPrompt(data, intent)`, section by section. */
  method FormatWeatherDataForPrompt(data: Extract, intent: Intent) returns (output: string)
    ensures output == PromptText(data, intent)
  {
    output := "";
    output := output + CurrentHeading;
    output := output + CurrentLines(data.current);
    AppendEmpty(CurrentHeading);
    output := AppendDetails(output, data.details);
    output := AppendForecast(output, data, intent);
    output := AppendActivity(output, data, intent);
    output := AppendAlerts(output, data, intent);
    output := AppendAstronomy(output, data, intent);
    output := AppendExplanation(output, data, intent);
  }

  // ---------------------------------------------------------------- properties of the block

  lemma StartsWithConcat(a: string, b: string)
    ensures StartsWith(a + b, a)
  {
    assert (a + b)[..|a|] == a;
  }

  /** Every weather block opens with the current-weather heading and its five lines. */
  lemma PromptStartsWithCurrentWeather(d: Extract, intent: Intent)
    ensures StartsWith(PromptText(d, intent), CurrentHeading + CurrentLines(d.current))
  {
    var rest := ConcatMap(d.details, DetailLine)
      + ForecastSection(d.daily, d.hourly, intent) + ActivitySection(d.hourly, intent) + AlertSection(d.alerts, intent)
      + AstronomySection(d.astronomy, intent) + ExplanationSection(d.details, intent);
    AppendSix(CurrentBlock(d.current), ConcatMap(d.details, DetailLine), ForecastSection(d.daily, d.hourly, intent),
      ActivitySection(d.hourly, intent), AlertSection(d.alerts, intent), AstronomySection(d.astronomy, intent),
      ExplanationSection(d.details, intent));
    StartsWithConcat(CurrentBlock(d.current), rest);
  }

  lemma AppendSix(o: string, a: string, b: string, c: string, d: string, e: string, f: string)
    ensures o + a + b + c + d + e + f == o + (a + b + c + d + e + f)
  {
  }

  /**
   * The text holds every section after the current weather whole and in order: the detail
   * lines, then the forecast, activity, alerts, astronomy and explanation sections.
   */
  lemma PromptContainsSections(d: Extract, intent: Intent)
    ensures Contains(PromptText(d, intent), ConcatMap(d.details, DetailLine))
    ensures Contains(PromptText(d, intent), ForecastSection(d.daily, d.hourly, intent))
    ensures Contains(PromptText(d, intent), ActivitySection(d.hourly, intent))
    ensures Contains(PromptText(d, intent), AlertSection(d.alerts, intent))
    ensures Contains(PromptText(d, intent), AstronomySection(d.astronomy, intent))
    ensures Contains(PromptText(d, intent), ExplanationSection(d.details, intent))
  {
    var s1 := CurrentBlock(d.current);
    var s2 := ConcatMap(d.details, DetailLine);
    var s3 := ForecastSection(d.daily, d.hourly, intent);
    var s4 := ActivitySection(d.hourly, intent);
    var s5 := AlertSection(d.alerts, intent);
    var s6 := AstronomySection(d.astronomy, intent);
    var s7 := ExplanationSection(d.details, intent);
    ContainsSelf(s2); ContainsSelf(s3); ContainsSelf(s4); ContainsSelf(s5); ContainsSelf(s6); ContainsSelf(s7);
    ContainsInRight(s1, s2, s2);
    ContainsInLeft(s1 + s2, s3, s2); ContainsInRight(s1 + s2, s3, s3);
    var p3 := s1 + s2 + s3;
    ContainsInLeft(p3, s4, s2); ContainsInLeft(p3, s4, s3); ContainsInRight(p3, s4, s4);
    var p4 := p3 + s4;
    ContainsInLeft(p4, s5, s2); ContainsInLeft(p4, s5, s3); ContainsInLeft(p4, s5, s4);
    ContainsInRight(p4, s5, s5);
    var p5 := p4 + s5;
    ContainsInLeft(p5, s6, s2); ContainsInLeft(p5, s6, s3); ContainsInLeft(p5, s6, s4);
    ContainsInLeft(p5, s6, s5); ContainsInRight(p5, s6, s6);
    var p6 := p5 + s6;
    ContainsInLeft(p6, s7, s2); ContainsInLeft(p6, s7, s3); ContainsInLeft(p6, s7, s4);
    ContainsInLeft(p6, s7, s5); ContainsInLeft(p6, s7, s6); ContainsInRight(p6, s7, s7);
  }

  /**
   * A forecast shows at most 12 hours and an activity at most 6: hours past those never reach
   * the text.
   */
  lemma LaterHoursIgnored(d: Extract, intent: Intent, extra: seq<HourSummary>)
    requires intent == Forecast || intent == Activity
    requires d.hourly.Some? && |d.hourly.value| >= (if intent == Forecast then 12 else 6)
    ensures PromptText(d.(hourly := Some(d.hourly.value + extra)), intent) == PromptText(d, intent)
  {
    var h := d.hourly.value;
    var n := if intent == Forecast then 12 else 6;
    assert First(h + extra, n) == First(h, n);
  }

  /** Safety and alerts questions with no alert say so in the text. */
  lemma NoAlertsNoticeShown(d: Extract, intent: Intent)
    requires intent == Safety || intent == Alerts
    requires d.alerts.None? || d.alerts.value == []
    ensures Contains(PromptText(d, intent), NoAlertsNotice)
  {
    PromptContainsSections(d, intent);
  }

  /** An alert description longer than 200 characters is cut in the text. */
  function CutDescription(a: AlertSummary): AlertSummary
  {
    a.(description := First(a.description, 200))
  }

  /** Only the first 200 characters of each alert description reach the text. */
  lemma AlertDescriptionsCut(d: Extract, intent: Intent)
    requires d.alerts.Some?
    ensures var al := d.alerts.value;
      PromptText(d.(alerts := Some(seq(|al|, i requires 0 <= i < |al| => CutDescription(al[i])))), intent)
      == PromptText(d, intent)
  {
    var al := d.alerts.value;
    var cut := seq(|al|, i requires 0 <= i < |al| => CutDescription(al[i]));
    forall i | 0 <= i < |al|
      ensures AlertText(cut[i]) == AlertText(al[i])
    {
      AlertTextOfCut(al[i]);
    }
    ConcatMapSameLines(cut, al, AlertText, AlertText);
    var d' := d.(alerts := Some(cut));
    assert AlertSection(d'.alerts, intent) == AlertSection(d.alerts, intent);
  }

  /** Cutting the description of one alert does not change its lines. */
  lemma AlertTextOfCut(a: AlertSummary)
    ensures AlertText(CutDescription(a)) == AlertText(a)
  {
    var c := CutDescription(a);
    assert First(c.description, 200) == First(a.description, 200);
    assert c.event == a.event && c.validity == a.validity;
  }

  /** A forecast extract with daily data lists every day under "DAILY FORECAST:". */
  lemma ForecastListsDays(d: Extract)
    requires d.daily.Some?
    ensures Contains(PromptText(d, Forecast), DailyHeading + ConcatMap(d.daily.value, DayLine))
  {
    PromptContainsSections(d, Forecast);
    ContainsPrefix(DailyPart(d.daily), HourlyPart(d.hourly, Forecast));
    ContainsTransitive(PromptText(d, Forecast), ForecastSection(d.daily, d.hourly, Forecast), DailyPart(d.daily));
  }

  // ---------------------------------------------------------------- createSystemPromptForIntent

  /** `details["UV Index"] || uvIndex || "Not available"`, rendered. */
  function UvText(d: Extract): string
  {
    Show(Or(Or(Detail(d.details, "UV Index"), UvIndexValue(d)), Str("Not available")))
  }

  /** The factor lines of the clothing prompt that come before the UV index. */
  function ClothingFactors(c: CurrentSummary): string
  {
    "You're currently focused on providing clothing recommendations based on the weather.\n"
    + "Consider these key factors:\n"
    + "- Temperature: " + c.temperature.shown + "°F (feels like " + c.feelsLike.shown + "°F)\n"
    + "- Conditions: " + c.conditions + "\n"
    + "- Humidity: " + c.humidity.shown + "%\n"
    + "- Wind: " + c.windSpeed.shown + " mph\n"
  }

  function UvFactor(d: Extract): string
  {
    "- UV Index: " + UvText(d) + "\n"
  }

  const ClothingGuide: string :=
    "\n"
    + "For UV protection specifically:\n"
    + "- UV Index 0-2: No protection needed\n"
    + "- UV Index 3-5: Some protection recommended (hat, sunglasses)\n"
    + "- UV Index 6-7: Protection required (sunscreen SPF 30+, hat, sunglasses)\n"
    + "- UV Index 8-10: Extra protection needed (sunscreen SPF 50+, stay in shade during midday)\n"
    + "- UV Index 11+: Extreme protection required (minimize outdoor activities)\n"
    + "\n"
    + "Provide practical clothing advice that keeps the person comfortable, protected, and appropriate for the weather conditions."

  function ClothingPrompt(d: Extract): string
  {
    ClothingFactors(d.current) + UvFactor(d) + ClothingGuide
  }

  const ExplanationHead: string :=
    "You're providing a detailed explanation about weather concepts.\n"
    + "For UV Index explanation requests:\n"
    + "- Explain what the UV Index is (a measure of UV radiation strength)\n"
    + "- Describe the scale (0-11+)\n"
    + "- Describe health risks at different levels\n"
    + "- Provide specific protection recommendations for each level\n"
    + "- Connect the current UV Index value ("

  const ExplanationTail: string :=
    ") to what it means for the user\n"
    + "- Include time of day considerations (UV peaks at solar noon)\n"
    + "- Mention that UV can be present even on cloudy days\n"
    + "\n"
    + "For AQI explanation requests:\n"
    + "- Explain what the Air Quality Index measures\n"
    + "- Describe the AQI scale and categories\n"
    + "- Explain health implications of different AQI levels\n"
    + "- Connect to current AQI level if available\n"
    + "- Suggest protective measures for poor air quality\n"
    + "\n"
    + "For other weather concepts, provide clear, educational explanations that help the user understand the science behind the weather."

  function ExplanationPrompt(d: Extract): string
  {
    ExplanationHead + UvText(d) + ExplanationTail
  }

  /** The prompts that do not depend on the weather data. */
  function FixedPrompt(intent: Intent): string
  {
    match intent
    case Forecast =>
      "You're providing weather forecast information.\n"
      + "Focus on the forecast data and highlight weather patterns over the requested time period.\n"
      + "Be concise yet thorough in explaining temperature trends, precipitation chances, and conditions."
    case CurrentConditions =>
      "You're providing current weather conditions information.\n"
      + "Focus on the current temperature, conditions, and how it feels outside right now.\n"
      + "Include relevant details like humidity, wind, and visibility if they're significant."
    case Comparison =>
      "You're comparing weather conditions.\n"
      + "Focus on effectively comparing the elements the user is asking about.\n"
      + "Highlight meaningful differences or similarities in the weather patterns."
    case Activity =>
      "You're providing recommendations about suitable outdoor activities based on the weather.\n"
      + "Consider the current conditions, forecast, and any potential weather hazards.\n"
      + "Suggest specific activities that would be enjoyable and safe in the current weather."
    case Safety =>
      "You're providing weather safety advice.\n"
      + "Focus on potential weather hazards and appropriate safety measures.\n"
      + "Be clear and direct about any precautions that should be taken."
    case Astronomy =>
      "You're providing astronomy-related weather information.\n"
      + "Focus on conditions for skygazing, sunrise/sunset times, moon phases, or other celestial observations.\n"
      + "Consider cloud cover, visibility, and light pollution in your response."
    case Travel =>
      "You're providing weather advice related to travel.\n"
      + "Focus on how weather might impact travel plans, road conditions, or transportation.\n"
      + "Offer practical advice for dealing with the weather while traveling."
    case Alerts =>
      "You're providing information about weather alerts or warnings.\n"
      + "Focus on communicating any active weather alerts, their severity, and recommended precautions.\n"
      + "If no alerts are active, reassure the user about the current weather safety."
    case _ => ""
  }

  /**
   * `createSystemPromptForIntent(intent, data)`. The clothing prompt shows the UV text on a
   * factor line of its own; the explanation prompt asks the model to connect the UV text to
   * its meaning.
   */
  function CreateSystemPromptForIntent(intent: Intent, d: Extract): (r: string)
    ensures intent == Clothing ==> Contains(r, "- UV Index: " + UvText(d) + "\n")
    ensures intent == Explanation ==> Contains(r, UvText(d))
  {
    if intent == Clothing then
      ContainsMiddle(ClothingFactors(d.current), UvFactor(d), ClothingGuide);
      ClothingPrompt(d)
    else if intent == Explanation then
      ContainsMiddle(ExplanationHead, UvText(d), ExplanationTail);
      ExplanationPrompt(d)
    else FixedPrompt(intent)
  }

  /** Only the clothing and explanation prompts depend on the weather data. */
  lemma SystemPromptDataIndependent(intent: Intent, d1: Extract, d2: Extract)
    requires intent != Clothing && intent != Explanation
    ensures CreateSystemPromptForIntent(intent, d1) == CreateSystemPromptForIntent(intent, d2)
  {
  }

  /**
   * The UV index shown to the model falls back from the detail to `uvIndex` to "Not available"
   * by truthiness: a UV index of 0 reads "Not available", a truthy detail is shown as it is.
   */
  lemma UvTextFallback(d: Extract)
    ensures Truthy(Detail(d.details, "UV Index")) ==> UvText(d) == Show(Detail(d.details, "UV Index"))
    ensures !Truthy(Detail(d.details, "UV Index")) && Truthy(UvIndexValue(d)) ==> UvText(d) == Show(UvIndexValue(d))
    ensures !Truthy(Detail(d.details, "UV Index")) && !Truthy(UvIndexValue(d)) ==> UvText(d) == "Not available"
  {
  }

  // ---------------------------------------------------------------- the user prompt

  /** A turn of the conversation the weather route keeps: `{ role, content }`. */
  datatype Turn = Turn(role: string, content: Value)

  function HistoryLine(t: Turn): string
  {
    (if t.role == "user" then "Human" else "Assistant") + ": " + Show(t.content)
  }

  /** `history.map(...).join("\n")`. */
  function FormatHistory(history: seq<Turn>): string
  {
    Join(seq(|history|, i requires 0 <= i < |history| => HistoryLine(history[i])), "\n")
  }

  /** The history part of the user prompt: the formatted history and a blank line, if any. */
  function HistoryPart(history: seq<Turn>): string
  {
    var h := if |history| > 0 then FormatHistory(history) else "";
    if h != "" then h + "\n\n" else ""
  }

  function QuestionLine(question: Value): string
  {
    "My question is: \"" + Show(question) + "\""
  }

  /** The user prompt of `analyzeWeatherWithLLM`: history, the question and the weather block. */
  function UserPrompt(history: seq<Turn>, place: Place, question: Value, block: string): (r: string)
    ensures |block| <= |r| && r[|r| - |block|..] == block
  {
    HistoryPart(history)
    + "\nI need information about the weather in " + Show(place.city) + ", " + Show(place.country) + ". "
    + QuestionLine(question) + "\n\n" + block
  }

  /** The user prompt quotes the question and ends with the weather block. */
  lemma UserPromptCarriesQuestionAndBlock(history: seq<Turn>, place: Place, question: Value, block: string)
    ensures Contains(UserPrompt(history, place, question, block), QuestionLine(question))
    ensures var p := UserPrompt(history, place, question, block);
      |block| <= |p| && p[|p| - |block|..] == block
  {
    var pre := HistoryPart(history)
      + "\nI need information about the weather in " + Show(place.city) + ", " + Show(place.country) + ". ";
    var q := QuestionLine(question);
    var p := UserPrompt(history, place, question, block);
    assert p == pre + q + "\n\n" + block;
    ContainsSuffix(pre, q);
    ContainsInLeft(pre + q, "\n\n", q);
    ContainsInLeft(pre + q + "\n\n", block, q);
    var front := pre + q + "\n\n";
    assert p[|front|..] == block;
  }
}
