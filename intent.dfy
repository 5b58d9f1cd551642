/**
 * The two question classifiers of the weather route: `identifyQuestionIntent`, an ordered
 * list of substring rules over the lower-cased question with ten outcomes, and the older
 * three-way `categorizeQuestion`.
 */
module Intent {

  import opened Text

  /** The ten intent tags the weather route works with. */
  datatype Intent =
    | Explanation
    | Forecast
    | CurrentConditions
    | Clothing
    | Activity
    | Safety
    | Astronomy
    | Travel
    | Comparison
    | Alerts

  /** The tag string the source passes around for an intent. */
  function Tag(i: Intent): string
  {
    match i
    case Explanation => "explanation"
    case Forecast => "forecast"
    case CurrentConditions => "current_conditions"
    case Clothing => "clothing"
    case Activity => "activity"
    case Safety => "safety"
    case Astronomy => "astronomy"
    case Travel => "travel"
    case Comparison => "comparison"
    case Alerts => "alerts"
  }

  /** Distinct intents have distinct tags, so comparing tags is comparing intents. */
  lemma TagInjective(i: Intent, j: Intent)
    ensures Tag(i) == Tag(j) <==> i == j
  {
    if i != j {
      assert Tag(i)[..2] != Tag(j)[..2] || |Tag(i)| != |Tag(j)| || Tag(i)[2..] != Tag(j)[2..];
    }
  }

  /** Some keyword of `words` is a substring of `s`. */
  predicate AnyOf(s: string, words: seq<string>)
  {
    exists w :: w in words && Contains(s, w)
  }

  const AirQualityWords: seq<string> := ["air quality", "aqi", "pollution"]
  const ForecastWords: seq<string> :=
    ["forecast", "tomorrow", "next week", "this week", "upcoming", "future", "later", "tonight"]
  const CurrentWords: seq<string> :=
    ["current", "now", "temperature", "hot", "cold", "warm", "cool", "humidity", "pressure",
     "wind", "feels like", "real feel"]
  const ClothingWords: seq<string> :=
    ["wear", "dress", "clothes", "jacket", "coat", "layers", "sunscreen", "hat", "umbrella",
     "rain gear"]
  const ActivityWords: seq<string> :=
    ["activity", "exercise", "outdoor", "picnic", "hike", "run", "walk", "bike", "swimming",
     "beach"]
  const SafetyWords: seq<string> :=
    ["safe", "danger", "warning", "alert", "storm", "tornado", "hurricane", "flood", "lightning",
     "thunder"]
  const AstronomyWords: seq<string> := ["sunrise", "sunset", "moon", "star", "night sky", "astronomy"]
  const TravelWords: seq<string> := ["travel", "trip", "drive", "fly", "flight", "road", "traffic"]
  const ComparisonWords: seq<string> := ["compare", "difference", "vs", "versus", "than", "compared to"]
  const AlertWords: seq<string> := ["alert", "warning", "watch", "advisory"]

  /** The first rule: the UV index, ultraviolet, or sunscreen unless it is "need sunscreen". */
  predicate MentionsUv(lq: string)
  {
    Contains(lq, "uv index") || Contains(lq, "ultraviolet")
    || (Contains(lq, "sunscreen") && !Contains(lq, "need sunscreen"))
  }

  /** No rule of `identifyQuestionIntent` fires on the lower-cased question `lq`. */
  predicate NoKeyword(lq: string)
  {
    !MentionsUv(lq) && !AnyOf(lq, AirQualityWords) && !AnyOf(lq, ForecastWords)
    && !AnyOf(lq, CurrentWords) && !AnyOf(lq, ClothingWords) && !AnyOf(lq, ActivityWords)
    && !AnyOf(lq, SafetyWords) && !AnyOf(lq, AstronomyWords) && !AnyOf(lq, TravelWords)
    && !AnyOf(lq, ComparisonWords) && !AnyOf(lq, AlertWords)
  }

  /** The two explanation rules, which come before every other rule. */
  predicate AsksExplanation(lq: string)
  {
    MentionsUv(lq) || AnyOf(lq, AirQualityWords)
  }

  /**
   * `identifyQuestionIntent(question)`: the first rule whose keywords occur in the lower-cased
   * question decides. Each intent is given exactly when its rule fires and no earlier rule does;
   * current conditions is also the answer when no rule fires at all.
   */
  function IdentifyQuestionIntent(question: string): (r: Intent)
    ensures var lq := ToLower(question);
      r == Explanation <==> AsksExplanation(lq)
    ensures var lq := ToLower(question);
      r == Forecast <==> !AsksExplanation(lq) && AnyOf(lq, ForecastWords)
    ensures var lq := ToLower(question);
      r == CurrentConditions <==>
        (!AsksExplanation(lq) && !AnyOf(lq, ForecastWords) && AnyOf(lq, CurrentWords)) || NoKeyword(lq)
    ensures var lq := ToLower(question);
      r == Clothing <==>
        !AsksExplanation(lq) && !AnyOf(lq, ForecastWords) && !AnyOf(lq, CurrentWords)
        && AnyOf(lq, ClothingWords)
    ensures var lq := ToLower(question);
      r == Activity <==>
        !AsksExplanation(lq) && !AnyOf(lq, ForecastWords) && !AnyOf(lq, CurrentWords)
        && !AnyOf(lq, ClothingWords) && AnyOf(lq, ActivityWords)
    ensures var lq := ToLower(question);
      r == Safety <==>
        !AsksExplanation(lq) && !AnyOf(lq, ForecastWords) && !AnyOf(lq, CurrentWords)
        && !AnyOf(lq, ClothingWords) && !AnyOf(lq, ActivityWords) && AnyOf(lq, SafetyWords)
    ensures var lq := ToLower(question);
      r == Astronomy <==>
        !AsksExplanation(lq) && !AnyOf(lq, ForecastWords) && !AnyOf(lq, CurrentWords)
        && !AnyOf(lq, ClothingWords) && !AnyOf(lq, ActivityWords) && !AnyOf(lq, SafetyWords)
        && AnyOf(lq, AstronomyWords)
    ensures var lq := ToLower(question);
      r == Travel <==>
        !AsksExplanation(lq) && !AnyOf(lq, ForecastWords) && !AnyOf(lq, CurrentWords)
        && !AnyOf(lq, ClothingWords) && !AnyOf(lq, ActivityWords) && !AnyOf(lq, SafetyWords)
        && !AnyOf(lq, AstronomyWords) && AnyOf(lq, TravelWords)
    ensures var lq := ToLower(question);
      r == Comparison <==>
        !AsksExplanation(lq) && !AnyOf(lq, ForecastWords) && !AnyOf(lq, CurrentWords)
        && !AnyOf(lq, ClothingWords) && !AnyOf(lq, ActivityWords) && !AnyOf(lq, SafetyWords)
        && !AnyOf(lq, AstronomyWords) && !AnyOf(lq, TravelWords) && AnyOf(lq, ComparisonWords)
    ensures var lq := ToLower(question);
      r == Alerts <==>
        !AsksExplanation(lq) && !AnyOf(lq, ForecastWords) && !AnyOf(lq, CurrentWords)
        && !AnyOf(lq, ClothingWords) && !AnyOf(lq, ActivityWords) && !AnyOf(lq, SafetyWords)
        && !AnyOf(lq, AstronomyWords) && !AnyOf(lq, TravelWords) && !AnyOf(lq, ComparisonWords)
        && AnyOf(lq, AlertWords)
  {
    var lq := ToLower(question);
    if MentionsUv(lq) then Explanation
    else if AnyOf(lq, AirQualityWords) then Explanation
    else if AnyOf(lq, ForecastWords) then Forecast
    else if AnyOf(lq, CurrentWords) then CurrentConditions
    else if AnyOf(lq, ClothingWords) then Clothing
    else if AnyOf(lq, ActivityWords) then Activity
    else if AnyOf(lq, SafetyWords) then Safety
    else if AnyOf(lq, AstronomyWords) then Astronomy
    else if AnyOf(lq, TravelWords) then Travel
    else if AnyOf(lq, ComparisonWords) then Comparison
    else if AnyOf(lq, AlertWords) then Alerts
    else CurrentConditions
  }

  /** The UV rule comes first: "uv index" or "ultraviolet" wins whatever else the question says. */
  lemma UvRuleWins(question: string)
    requires Contains(ToLower(question), "uv index") || Contains(ToLower(question), "ultraviolet")
    ensures IdentifyQuestionIntent(question) == Explanation
  {
  }

  /**
   * A question with any forecast keyword ("forecast", "tomorrow", "later", "tonight", ...) is a
   * forecast unless it is about UV or air quality.
   */
  lemma ForecastWordIsForecast(question: string)
    requires AnyOf(ToLower(question), ForecastWords)
    requires !MentionsUv(ToLower(question)) && !AnyOf(ToLower(question), AirQualityWords)
    ensures IdentifyQuestionIntent(question) == Forecast
  {
  }

  /** "tomorrow" and "tonight" are forecast keywords: such a question is a forecast unless it is about UV or air quality. */
  lemma TomorrowOrTonightIsForecast(question: string)
    requires Contains(ToLower(question), "tomorrow") || Contains(ToLower(question), "tonight")
    requires !MentionsUv(ToLower(question)) && !AnyOf(ToLower(question), AirQualityWords)
    ensures IdentifyQuestionIntent(question) == Forecast
  {
    if Contains(ToLower(question), "tomorrow") {
      assert "tomorrow" in ForecastWords;
    } else {
      assert "tonight" in ForecastWords;
    }
    ForecastWordIsForecast(question);
  }

  /**
   * The alerts rule is reached only through "watch" or "advisory": its other keywords, "alert"
   * and "warning", are keywords of the earlier safety rule.
   */
  lemma AlertsOnlyThroughWatchOrAdvisory(question: string)
    requires IdentifyQuestionIntent(question) == Alerts
    ensures Contains(ToLower(question), "watch") || Contains(ToLower(question), "advisory")
    ensures !Contains(ToLower(question), "alert") && !Contains(ToLower(question), "warning")
  {
    AlertsAfterSafety(ToLower(question));
  }

  /** The alert keywords that are not safety keywords are "watch" and "advisory". */
  lemma AlertsAfterSafety(lq: string)
    requires AnyOf(lq, AlertWords) && !AnyOf(lq, SafetyWords)
    ensures Contains(lq, "watch") || Contains(lq, "advisory")
    ensures !Contains(lq, "alert") && !Contains(lq, "warning")
  {
    assert "alert" in SafetyWords && "warning" in SafetyWords;
    var w :| w in AlertWords && Contains(lq, w);
    assert w == "watch" || w == "advisory";
  }

  /** When no keyword of any rule occurs, the intent is the default, current conditions. */
  lemma DefaultIsCurrentConditions(question: string)
    requires NoKeyword(ToLower(question))
    ensures IdentifyQuestionIntent(question) == CurrentConditions
  {
  }

  /** The explanation intent comes from the UV and air-quality rules and from nothing else. */
  lemma ExplanationOnlyFromUvOrAirQuality(question: string)
    ensures IdentifyQuestionIntent(question) == Explanation <==>
      MentionsUv(ToLower(question)) || AnyOf(ToLower(question), AirQualityWords)
  {
  }

  /**
   * "need sunscreen" escapes the UV rule but not the clothing rule, whose keyword "sunscreen"
   * it contains.
   */
  lemma NeedSunscreenIsClothing(question: string)
    requires Contains(ToLower(question), "need sunscreen")
    requires !Contains(ToLower(question), "uv index") && !Contains(ToLower(question), "ultraviolet")
    requires !AnyOf(ToLower(question), AirQualityWords) && !AnyOf(ToLower(question), ForecastWords)
    requires !AnyOf(ToLower(question), CurrentWords)
    ensures IdentifyQuestionIntent(question) == Clothing
  {
    var lq := ToLower(question);
    assert "need " + "sunscreen" == "need sunscreen";
    ContainsSuffix("need ", "sunscreen");
    ContainsTransitive(lq, "need sunscreen", "sunscreen");
    assert "sunscreen" in ClothingWords;
  }

  /**
   * Keywords are matched as substrings, not words: "what" contains the clothing keyword "hat",
   * so a "what" question that no earlier rule claims is a clothing question.
   */
  lemma WhatIsClothing(question: string)
    requires Contains(ToLower(question), "what")
    requires !MentionsUv(ToLower(question)) && !AnyOf(ToLower(question), AirQualityWords)
    requires !AnyOf(ToLower(question), ForecastWords) && !AnyOf(ToLower(question), CurrentWords)
    ensures IdentifyQuestionIntent(question) == Clothing
  {
    var lq := ToLower(question);
    assert "w" + "hat" == "what";
    ContainsSuffix("w", "hat");
    ContainsTransitive(lq, "what", "hat");
    assert "hat" in ClothingWords;
  }

  /** The three categories of `categorizeQuestion`. */
  datatype Category = ForecastQuestion | ActivityQuestion | General

  /**
   * `categorizeQuestion(question)`: forecast words decide first; an activity question needs both
   * a "can i"/"should i" and a "walk"/"run"/"outside"; everything else is general.
   */
  function CategorizeQuestion(question: string): (r: Category)
    ensures r == ForecastQuestion <==> AnyOf(ToLower(question), ["forecast", "tomorrow", "later", "tonight"])
    ensures r == ActivityQuestion <==>
      !AnyOf(ToLower(question), ["forecast", "tomorrow", "later", "tonight"])
      && AnyOf(ToLower(question), ["can i", "should i"]) && AnyOf(ToLower(question), ["walk", "run", "outside"])
    ensures r == ActivityQuestion ==>
      (Contains(ToLower(question), "can i") || Contains(ToLower(question), "should i"))
      && (Contains(ToLower(question), "walk") || Contains(ToLower(question), "run")
          || Contains(ToLower(question), "outside"))
    ensures r == General <==>
      !AnyOf(ToLower(question), ["forecast", "tomorrow", "later", "tonight"])
      && !(AnyOf(ToLower(question), ["can i", "should i"])
           && AnyOf(ToLower(question), ["walk", "run", "outside"]))
  {
    var lq := ToLower(question);
    if AnyOf(lq, ["forecast", "tomorrow", "later", "tonight"]) then ForecastQuestion
    else if AnyOf(lq, ["can i", "should i"]) && AnyOf(lq, ["walk", "run", "outside"]) then ActivityQuestion
    else General
  }

  /** The older classifier ignores case too: a question and its lower-cased form fall in the same category. */
  lemma CategorizeIgnoresCase(question: string)
    ensures CategorizeQuestion(ToLower(question)) == CategorizeQuestion(question)
  {
    ToLowerIdempotent(question);
  }

  /**
   * The two classifiers agree on forecasts: every keyword of the older classifier's forecast
   * rule is a forecast keyword of the newer one, which only the explanation rules precede.
   */
  lemma CategorizeForecastAgrees(question: string)
    requires CategorizeQuestion(question) == ForecastQuestion
    ensures IdentifyQuestionIntent(question) in {Explanation, Forecast}
  {
    var lq := ToLower(question);
    var w :| w in ["forecast", "tomorrow", "later", "tonight"] && Contains(lq, w);
    assert w in ForecastWords;
  }

  /**
   * An activity question by the older classifier that says "walk" or "run" is never a safety,
   * astronomy, travel, comparison or alerts question for the newer one: the activity rule
   * comes first.
   */
  lemma CategorizeActivityAgrees(question: string)
    requires CategorizeQuestion(question) == ActivityQuestion
    requires Contains(ToLower(question), "walk") || Contains(ToLower(question), "run")
    ensures IdentifyQuestionIntent(question) in {Explanation, Forecast, CurrentConditions, Clothing, Activity}
  {
    var lq := ToLower(question);
    if Contains(lq, "walk") {
      assert "walk" in ActivityWords;
    } else {
      assert "run" in ActivityWords;
    }
  }
}
