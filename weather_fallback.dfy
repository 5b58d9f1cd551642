/**
 * The canned replies the client falls back on when the weather API is unavailable: an ordered
 * list of keyword rules on the lower-cased question, ending in a generic reply.
 */
module WeatherFallback {

  import opened Text
  import opened Js

  /** The rule a question falls under, in the order the rules are tried. */
  datatype Topic = Rain | Layers | Sunscreen | Exercise | General

  /** The topic of an already lower-cased question. */
  function TopicOf(lower: string): Topic
  {
    if Contains(lower, "umbrella") || Contains(lower, "rain") then Rain
    else if Contains(lower, "jacket") || Contains(lower, "coat") then Layers
    else if Contains(lower, "sun") || Contains(lower, "sunscreen") then Sunscreen
    else if Contains(lower, "run") || Contains(lower, "exercise") then Exercise
    else General
  }

  const RainReply: string := ", I'd suggest checking the local forecast. If in doubt, bringing an umbrella is always a safe choice."
  const LayersReply: string := ", layering is usually a good approach. A light jacket might be useful for the morning and evening hours."
  const SunscreenReply: string := ", sunscreen is recommended for extended outdoor activities, even on cloudy days."
  const ExerciseReply: string := ", early morning or evening is typically best for outdoor exercise to avoid peak temperatures and UV exposure."
  const GeneralReply: string := " is generally pleasant this time of year. Check a local weather app for the most current forecast."

  /** The opening and the closing text of the reply for a topic; the location goes between them. */
  function Frame(t: Topic): (string, string)
  {
    match t
    case Rain => ("For ", RainReply)
    case Layers => ("For ", LayersReply)
    case Sunscreen => ("In ", SunscreenReply)
    case Exercise => ("For ", ExerciseReply)
    case General => ("The weather in ", GeneralReply)
  }

  /** `getFallbackResponse(question, location)`. */
  function GetFallbackResponse(question: string, location: Value): (r: string)
    ensures Contains(r, Show(location))
    ensures |r| > 0
  {
    var f := Frame(TopicOf(ToLower(question)));
    ContainsMiddle(f.0, Show(location), f.1);
    assert |f.0| > 0;
    f.0 + Show(location) + f.1
  }

  /** Matching ignores case: a question and its lower-cased form get the same reply. */
  lemma CaseInsensitive(question: string, location: Value)
    ensures GetFallbackResponse(ToLower(question), location) == GetFallbackResponse(question, location)
  {
    ToLowerIdempotent(question);
  }

  /** Rain and umbrellas come first, whatever else the question mentions. */
  lemma RainFirst(question: string, location: Value)
    requires Contains(ToLower(question), "rain") || Contains(ToLower(question), "umbrella")
    ensures GetFallbackResponse(question, location) == "For " + Show(location) + RainReply
  {
  }

  /** The "sunscreen" test never decides anything: a question with "sunscreen" already has "sun". */
  lemma SunscreenImpliesSun(lower: string)
    requires Contains(lower, "sunscreen")
    ensures Contains(lower, "sun")
  {
    assert "sunscreen" == "sun" + "screen";
    ContainsPrefix("sun", "screen");
    ContainsTransitive(lower, "sunscreen", "sun");
  }

  /** Any question with "sun" that no earlier rule caught gets the sunscreen reply. */
  lemma SunGetsSunscreen(question: string, location: Value)
    requires var lower := ToLower(question);
      Contains(lower, "sun") && !Contains(lower, "umbrella") && !Contains(lower, "rain")
      && !Contains(lower, "jacket") && !Contains(lower, "coat")
    ensures GetFallbackResponse(question, location) == "In " + Show(location) + SunscreenReply
  {
  }

  /** A question with none of the keywords gets the generic reply, and only such a question does. */
  lemma GeneralOnlyWithoutKeywords(question: string, location: Value)
    ensures var lower := ToLower(question);
      TopicOf(lower) == General <==>
        !Contains(lower, "umbrella") && !Contains(lower, "rain") && !Contains(lower, "jacket")
        && !Contains(lower, "coat") && !Contains(lower, "sun") && !Contains(lower, "run")
        && !Contains(lower, "exercise")
    ensures TopicOf(ToLower(question)) == General ==>
      GetFallbackResponse(question, location) == "The weather in " + Show(location) + GeneralReply
  {
    var lower := ToLower(question);
    if Contains(lower, "sunscreen") {
      SunscreenImpliesSun(lower);
    }
  }
}
