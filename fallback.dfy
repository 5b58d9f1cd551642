/**
 * The answers the weather route gives without the language model: `createFallbackAnswer`,
 * used when the model call fails, and the older `handleCommonWeatherQuestions`.
 */
module Fallback {

  import opened Wrappers
  import opened Text
  import opened Js
  import opened Intent
  import opened Context

  /** The pieces of a list of strings, one after the other. */
  function Concat(ps: seq<string>): string
    decreases |ps|
  {
    if |ps| == 0 then "" else Concat(ps[..|ps| - 1]) + ps[|ps| - 1]
  }

  // ---------------------------------------------------------------- clothing advice

  /** The five temperature bands of the clothing advice, from the warmest to the coldest. */
  const Bands: seq<string> := [
    "light, breathable clothing like shorts and t-shirts",
    "comfortable clothing like light pants or shorts and a t-shirt",
    "layers such as a light jacket or sweater",
    "a warm jacket, gloves, and a hat",
    "a heavy winter coat, layers, gloves, and a warm hat"
  ]

  const RainAdvice: string := " and bring an umbrella or raincoat"
  const SunAdvice: string := ". Don't forget sunscreen and sunglasses as the UV index is high"

  /** The band a temperature (in °F) falls in: above 85, above 70, above 55, above 40, or colder. */
  function BandIndex(temp: real): (i: nat)
    ensures i < |Bands|
    ensures i == 0 <==> temp > 85.0
    ensures i == 1 <==> 70.0 < temp <= 85.0
    ensures i == 2 <==> 55.0 < temp <= 70.0
    ensures i == 3 <==> 40.0 < temp <= 55.0
    ensures i == 4 <==> temp <= 40.0
  {
    if temp > 85.0 then 0
    else if temp > 70.0 then 1
    else if temp > 55.0 then 2
    else if temp > 40.0 then 3
    else 4
  }

  /** `data.uvIndex && data.uvIndex > 5`. */
  predicate UvHigh(uv: Option<Number>)
  {
    uv.Some? && uv.value.value != 0.0 && uv.value.value > 5.0
  }

  /** The pieces of the advice: the band, then the umbrella advice, then the sunscreen advice. */
  function ClothingParts(temp: real, conditions: string, uv: Option<Number>): seq<string>
  {
    [Bands[BandIndex(temp)]]
    + (if Contains(conditions, "rain") then [RainAdvice] else [])
    + (if UvHigh(uv) then [SunAdvice] else [])
  }

  /** The `clothing` text `createFallbackAnswer` builds. */
  function ClothingAdvice(temp: real, conditions: string, uv: Option<Number>): string
  {
    Concat(ClothingParts(temp, conditions, uv))
  }

  /** The five bands are five different texts, so the band picked is exactly one of them. */
  lemma BandsDistinct()
    ensures forall i, j :: 0 <= i < j < |Bands| ==> Bands[i] != Bands[j]
  {
    BandLengths();
    assert Bands[0][50] == 's' && Bands[4][50] == 't';
  }

  /** The lengths of the five bands and of the two suffixes. */
  lemma BandLengths()
    ensures |Bands[0]| == 51 && |Bands[1]| == 61 && |Bands[2]| == 40 && |Bands[3]| == 32 && |Bands[4]| == 51
    ensures |RainAdvice| == 34 && |SunAdvice| == 63
  {
  }

  /** A warmer temperature never moves the advice to a colder band. */
  lemma {:induction false} BandIndexAntitone(t1: real, t2: real)
    requires t1 <= t2
    ensures BandIndex(t2) <= BandIndex(t1)
  {
  }

  /**
   * The advice is the band of the temperature, followed by the umbrella advice exactly when the
   * conditions contain "rain" (lower case), followed by the sunscreen advice exactly when the UV
   * index is above 5; the band, umbrella and sunscreen pieces are three different texts.
   */
  lemma ClothingPartsMeaning(temp: real, conditions: string, uv: Option<Number>)
    ensures var ps := ClothingParts(temp, conditions, uv);
      && 1 <= |ps| <= 3
      && ps[0] == Bands[BandIndex(temp)]
      && (RainAdvice in ps <==> Contains(conditions, "rain"))
      && (SunAdvice in ps <==> UvHigh(uv))
      && (Contains(conditions, "rain") ==> ps[1] == RainAdvice)
      && (UvHigh(uv) ==> ps[|ps| - 1] == SunAdvice)
  {
    var ps := ClothingParts(temp, conditions, uv);
    BandLengths();
    var b := Bands[BandIndex(temp)];
    assert ps[0] == b;
    assert b != RainAdvice && b != SunAdvice && RainAdvice != SunAdvice;
  }

  /** The clothing branch of `createFallbackAnswer`: a band, then the optional suffixes. */
  method BuildClothingAdvice(temp: real, conditions: string, uv: Option<Number>) returns (clothing: string)
    ensures clothing == ClothingAdvice(temp, conditions, uv)
  {
    clothing := "";
    if temp > 85.0 {
      clothing := "light, breathable clothing like shorts and t-shirts";
    } else if temp > 70.0 {
      clothing := "comfortable clothing like light pants or shorts and a t-shirt";
    } else if temp > 55.0 {
      clothing := "layers such as a light jacket or sweater";
    } else if temp > 40.0 {
      clothing := "a warm jacket, gloves, and a hat";
    } else {
      clothing := "a heavy winter coat, layers, gloves, and a warm hat";
    }
    assert clothing == Bands[BandIndex(temp)];
    ghost var parts := [clothing];
    assert clothing == Concat(parts) by {
      assert parts[..0] == [];
    }
    if Contains(conditions, "rain") {
      clothing := clothing + RainAdvice;
      assert (parts + [RainAdvice])[..|parts|] == parts;
      parts := parts + [RainAdvice];
    }
    assert clothing == Concat(parts);
    if UvHigh(uv) {
      clothing := clothing + SunAdvice;
      assert (parts + [SunAdvice])[..|parts|] == parts;
      parts := parts + [SunAdvice];
    }
    assert clothing == Concat(parts);
    assert parts == ClothingParts(temp, conditions, uv);
  }

  // ---------------------------------------------------------------- createFallbackAnswer

  /** A reading in degrees Fahrenheit, as the answers show it. */
  function Degrees(n: Number): string
  {
    n.shown + "°F"
  }

  function CurrentTail(c: CurrentSummary): string
  {
    ", it's " + Degrees(c.temperature) + " with " + c.conditions + ". " + FeelsLike(c)
    + " with " + Humidity(c) + " and " + Wind(c) + "."
  }

  /** "It feels like ...°F", "...% humidity" and "wind at ... mph" of the current-conditions answer. */
  function FeelsLike(c: CurrentSummary): string { "It feels like " + Degrees(c.feelsLike) }
  function Humidity(c: CurrentSummary): string { c.humidity.shown + "% humidity" }
  function Wind(c: CurrentSummary): string { "wind at " + c.windSpeed.shown + " mph" }

  /** The first day of the forecast, when there is one. */
  function FirstDay(daily: Option<seq<DaySummary>>): string
  {
    if daily.Some? && |daily.value| > 0 then
      var day := daily.value[0];
      " The forecast shows: " + day.date + ": High " + Degrees(day.tempHigh) + ", Low "
      + Degrees(day.tempLow) + ", " + day.conditions + "."
    else ""
  }

  function ForecastTail(d: Extract): string
  {
    " is " + Degrees(d.current.temperature) + " with " + d.current.conditions + "." + FirstDay(d.daily)
  }

  function ClothingTail(d: Extract, clothing: string): string
  {
    " (" + Degrees(d.current.temperature) + ", " + d.current.conditions + "), I recommend wearing "
    + clothing + "."
  }

  function GenericTail(c: CurrentSummary): string
  {
    ", it's " + Degrees(c.temperature) + " with " + c.conditions
    + ". I'm sorry, but I couldn't provide more specific information about your question."
  }

  const CurrentOpening: string := "Currently in "
  const ForecastOpening: string := "The current temperature in "
  const ClothingOpening: string := "Based on the current weather in "

  /** The text `createFallbackAnswer(question, data, intent)` returns; the question is not read. */
  function FallbackAnswer(d: Extract, intent: Intent): (r: string)
    ensures StartsWith(r, (if intent == Forecast then ForecastOpening
                           else if intent == Clothing then ClothingOpening
                           else CurrentOpening) + d.location)
  {
    if intent == CurrentConditions then CurrentOpening + d.location + CurrentTail(d.current)
    else if intent == Forecast then ForecastOpening + d.location + ForecastTail(d)
    else if intent == Clothing then
      ClothingOpening + d.location
      + ClothingTail(d, ClothingAdvice(d.current.temperature.value, d.current.conditions, d.uvIndex))
    else CurrentOpening + d.location + GenericTail(d.current)
  }

  /** `createFallbackAnswer(question, data, intent)`. */
  method CreateFallbackAnswer(d: Extract, intent: Intent) returns (answer: string)
    ensures answer == FallbackAnswer(d, intent)
  {
    if intent == CurrentConditions {
      return CurrentOpening + d.location + CurrentTail(d.current);
    }
    if intent == Forecast {
      var response := ForecastOpening + d.location + (" is " + Degrees(d.current.temperature) + " with "
        + d.current.conditions + ".");
      if d.daily.Some? && |d.daily.value| > 0 {
        response := response + FirstDay(d.daily);
      }
      return response;
    }
    if intent == Clothing {
      var clothing := BuildClothingAdvice(d.current.temperature.value, d.current.conditions, d.uvIndex);
      return ClothingOpening + d.location + ClothingTail(d, clothing);
    }
    return CurrentOpening + d.location + GenericTail(d.current);
  }

  /** Every fallback answer names the location and so is never empty. */
  lemma FallbackNamesLocation(d: Extract, intent: Intent)
    ensures Contains(FallbackAnswer(d, intent), d.location)
    ensures |FallbackAnswer(d, intent)| > 0
  {
    var a := FallbackAnswer(d, intent);
    if intent == CurrentConditions {
      ContainsMiddle(CurrentOpening, d.location, CurrentTail(d.current));
    } else if intent == Forecast {
      ContainsMiddle(ForecastOpening, d.location, ForecastTail(d));
    } else if intent == Clothing {
      ContainsMiddle(ClothingOpening, d.location,
        ClothingTail(d, ClothingAdvice(d.current.temperature.value, d.current.conditions, d.uvIndex)));
    } else {
      ContainsMiddle(CurrentOpening, d.location, GenericTail(d.current));
    }
    assert |CurrentOpening| > 0 && |ForecastOpening| > 0 && |ClothingOpening| > 0;
  }

  /** The clothing answer carries the advice for the temperature, conditions and UV index. */
  lemma ClothingAnswerCarriesAdvice(d: Extract)
    ensures Contains(FallbackAnswer(d, Clothing),
      ClothingAdvice(d.current.temperature.value, d.current.conditions, d.uvIndex))
  {
    var adv := ClothingAdvice(d.current.temperature.value, d.current.conditions, d.uvIndex);
    var front := " (" + Degrees(d.current.temperature) + ", " + d.current.conditions + "), I recommend wearing ";
    ContainsMiddle(front, adv, ".");
    ContainsInRight(ClothingOpening + d.location, ClothingTail(d, adv), adv);
  }

  /** A text that holds the temperature and the conditions, with something between them. */
  lemma ContainsBoth(pre: string, t: string, mid: string, c: string, post: string)
    ensures Contains(pre + t + mid + c + post, t)
    ensures Contains(pre + t + mid + c + post, c)
  {
    ContainsMiddle(pre, t, mid + c + post);
    assert pre + t + (mid + c + post) == pre + t + mid + c + post;
    ContainsMiddle(pre + t + mid, c, post);
  }

  /** The current-conditions text shows the temperature and the conditions. */
  lemma CurrentTailShows(c: CurrentSummary)
    ensures Contains(CurrentTail(c), Degrees(c.temperature)) && Contains(CurrentTail(c), c.conditions)
  {
    var post := ". " + FeelsLike(c) + " with " + Humidity(c) + " and " + Wind(c) + ".";
    assert CurrentTail(c) == ", it's " + Degrees(c.temperature) + " with " + c.conditions + post;
    ContainsBoth(", it's ", Degrees(c.temperature), " with ", c.conditions, post);
  }

  /** The current-conditions text also shows the feels-like temperature, the humidity and the wind speed. */
  lemma CurrentTailShowsFigures(c: CurrentSummary)
    ensures Contains(CurrentTail(c), FeelsLike(c))
    ensures Contains(CurrentTail(c), Humidity(c))
    ensures Contains(CurrentTail(c), Wind(c))
  {
    var head := ", it's " + Degrees(c.temperature) + " with " + c.conditions + ". ";
    ContainsMiddle(head, FeelsLike(c), " with " + Humidity(c) + " and " + Wind(c) + ".");
    assert head + FeelsLike(c) + (" with " + Humidity(c) + " and " + Wind(c) + ".") == CurrentTail(c);
    ContainsMiddle(head + FeelsLike(c) + " with ", Humidity(c), " and " + Wind(c) + ".");
    assert head + FeelsLike(c) + " with " + Humidity(c) + (" and " + Wind(c) + ".") == CurrentTail(c);
    ContainsMiddle(head + FeelsLike(c) + " with " + Humidity(c) + " and ", Wind(c), ".");
  }

  /**
   * The current-conditions answer shows every current figure: the temperature and conditions,
   * the feels-like temperature, the humidity and the wind speed.
   */
  lemma CurrentAnswerShowsFigures(d: Extract)
    ensures var a := FallbackAnswer(d, CurrentConditions);
      Contains(a, "It feels like " + Degrees(d.current.feelsLike))
      && Contains(a, d.current.humidity.shown + "% humidity")
      && Contains(a, "wind at " + d.current.windSpeed.shown + " mph")
  {
    var c := d.current;
    CurrentTailShowsFigures(c);
    ContainsInRight(CurrentOpening + d.location, CurrentTail(c), FeelsLike(c));
    ContainsInRight(CurrentOpening + d.location, CurrentTail(c), Humidity(c));
    ContainsInRight(CurrentOpening + d.location, CurrentTail(c), Wind(c));
  }

  /** The generic text shows the temperature and the conditions. */
  lemma GenericTailShows(c: CurrentSummary)
    ensures Contains(GenericTail(c), Degrees(c.temperature)) && Contains(GenericTail(c), c.conditions)
  {
    var post := ". I'm sorry, but I couldn't provide more specific information about your question.";
    ContainsBoth(", it's ", Degrees(c.temperature), " with ", c.conditions, post);
  }

  /** The forecast text shows the current temperature and conditions. */
  lemma ForecastTailShows(d: Extract)
    ensures Contains(ForecastTail(d), Degrees(d.current.temperature))
    ensures Contains(ForecastTail(d), d.current.conditions)
  {
    var post := "." + FirstDay(d.daily);
    assert ForecastTail(d) == " is " + Degrees(d.current.temperature) + " with " + d.current.conditions + post;
    ContainsBoth(" is ", Degrees(d.current.temperature), " with ", d.current.conditions, post);
  }

  /** The clothing text shows the current temperature and conditions. */
  lemma ClothingTailShows(d: Extract, clothing: string)
    ensures Contains(ClothingTail(d, clothing), Degrees(d.current.temperature))
    ensures Contains(ClothingTail(d, clothing), d.current.conditions)
  {
    var post := "), I recommend wearing " + clothing + ".";
    assert ClothingTail(d, clothing) == " (" + Degrees(d.current.temperature) + ", " + d.current.conditions + post;
    ContainsBoth(" (", Degrees(d.current.temperature), ", ", d.current.conditions, post);
  }

  /** Every fallback answer shows the current temperature (in °F) and the current conditions. */
  lemma FallbackShowsCurrentWeather(d: Extract, intent: Intent)
    ensures Contains(FallbackAnswer(d, intent), Degrees(d.current.temperature))
    ensures Contains(FallbackAnswer(d, intent), d.current.conditions)
  {
    var t := Degrees(d.current.temperature);
    var c := d.current.conditions;
    if intent == CurrentConditions {
      CurrentTailShows(d.current);
      ContainsInRight(CurrentOpening + d.location, CurrentTail(d.current), t);
      ContainsInRight(CurrentOpening + d.location, CurrentTail(d.current), c);
    } else if intent == Forecast {
      ForecastTailShows(d);
      ContainsInRight(ForecastOpening + d.location, ForecastTail(d), t);
      ContainsInRight(ForecastOpening + d.location, ForecastTail(d), c);
    } else if intent == Clothing {
      var tail := ClothingTail(d, ClothingAdvice(d.current.temperature.value, c, d.uvIndex));
      ClothingTailShows(d, ClothingAdvice(d.current.temperature.value, c, d.uvIndex));
      ContainsInRight(ClothingOpening + d.location, tail, t);
      ContainsInRight(ClothingOpening + d.location, tail, c);
    } else {
      GenericTailShows(d.current);
      ContainsInRight(CurrentOpening + d.location, GenericTail(d.current), t);
      ContainsInRight(CurrentOpening + d.location, GenericTail(d.current), c);
    }
  }

  /**
   * A forecast answer with daily data shows the first day's date, high, low and conditions; without
   * daily data it ends after the current conditions.
   */
  lemma ForecastShowsFirstDay(d: Extract)
    ensures d.daily.Some? && |d.daily.value| > 0 ==>
      var day := d.daily.value[0];
      Contains(FallbackAnswer(d, Forecast),
        day.date + ": High " + Degrees(day.tempHigh) + ", Low " + Degrees(day.tempLow) + ", " + day.conditions)
    ensures d.daily.None? || d.daily.value == [] ==>
      FallbackAnswer(d, Forecast)
        == ForecastOpening + d.location + " is " + Degrees(d.current.temperature) + " with " + d.current.conditions + "."
  {
    if d.daily.Some? && |d.daily.value| > 0 {
      var day := d.daily.value[0];
      var line := day.date + ": High " + Degrees(day.tempHigh) + ", Low " + Degrees(day.tempLow) + ", " + day.conditions;
      assert FirstDay(d.daily) == " The forecast shows: " + line + ".";
      ContainsMiddle(" The forecast shows: ", line, ".");
      var now := " is " + Degrees(d.current.temperature) + " with " + d.current.conditions + ".";
      ContainsInRight(now, FirstDay(d.daily), line);
      ContainsInRight(ForecastOpening + d.location, ForecastTail(d), line);
    }
  }


  // ---------------------------------------------------------------- handleCommonWeatherQuestions

  const Apology: string := "I'm sorry, I don't have any weather data for "

  /** The reply about the first reading, whose `temperature` and `condition` are shown. */
  function ReadingReply(data: Value): string
    requires !data.Undefined? && !data.Null?
  {
    ", it's " + Show(Field(data, "temperature")) + " with " + Show(Field(data, "condition"))
    + " conditions. I don't have specific information to answer your question in detail."
  }

  /**
   * `handleCommonWeatherQuestions(weatherData, question, location)` for an array of readings
   * (`None` for a missing array): the first reading's temperature and condition, or an apology
   * when there is none. A first reading that is `null` or `undefined` throws; the question is
   * not read.
   */
  function HandleCommonWeatherQuestions(weatherData: Option<seq<Value>>, place: Place): (r: Result<string, string>)
    ensures r.Err? <==> weatherData.Some? && |weatherData.value| > 0
                        && (weatherData.value[0].Undefined? || weatherData.value[0].Null?)
  {
    if weatherData.None? || |weatherData.value| == 0 then
      Ok(Apology + LocationText(place) + " at the moment.")
    else
      var data := weatherData.value[0];
      if data.Undefined? || data.Null? then
        Err("TypeError: Cannot read properties of " + Show(data) + " (reading 'temperature')")
      else
        Ok(CurrentOpening + Show(place.city) + ReadingReply(data))
  }

  /** Every answer of `handleCommonWeatherQuestions` names the city. */
  lemma CommonAnswerNamesCity(weatherData: Option<seq<Value>>, place: Place)
    requires HandleCommonWeatherQuestions(weatherData, place).Ok?
    ensures Contains(HandleCommonWeatherQuestions(weatherData, place).value, Show(place.city))
  {
    if weatherData.None? || |weatherData.value| == 0 {
      ContainsPrefix(Show(place.city), ", " + Show(place.country));
      assert LocationText(place) == Show(place.city) + (", " + Show(place.country));
      ContainsMiddle(Apology, LocationText(place), " at the moment.");
      ContainsTransitive(Apology + LocationText(place) + " at the moment.", LocationText(place), Show(place.city));
    } else {
      ContainsMiddle(CurrentOpening, Show(place.city), ReadingReply(weatherData.value[0]));
    }
  }
}
