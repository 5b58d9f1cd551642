/**
 * The simple weather endpoint: it checks the request, simulates the weather for the location
 * (only the season flags are modelled; the random readings are a parameter) and answers from
 * an ordered list of keyword rules.
 */
module SimpleRoute {

  import opened Wrappers
  import opened Text
  import opened Js

  // ---------------------------------------------------------------- seasons

  /** `location.lat > 0`: the equator counts as southern. */
  predicate IsNorthern(lat: real)
  {
    lat > 0.0
  }

  /** June to September in the north, December to March in the south (months count from 0). */
  predicate IsSummer(month: int, lat: real)
  {
    (IsNorthern(lat) && (month >= 5 && month <= 8)) || (!IsNorthern(lat) && (month <= 2 || month >= 11))
  }

  /** December to March in the north, June to September in the south. */
  predicate IsWinter(month: int, lat: real)
  {
    (IsNorthern(lat) && (month <= 2 || month >= 11)) || (!IsNorthern(lat) && (month >= 5 && month <= 8))
  }

  /**
   * No month is both summer and winter; the two hemispheres swap them; April, May, October and
   * November are neither; on the equator the southern seasons apply.
   */
  lemma SeasonsExclusive(month: int, lat: real)
    ensures !(IsSummer(month, lat) && IsWinter(month, lat))
    ensures lat != 0.0 ==> (IsSummer(month, lat) <==> IsWinter(month, -lat))
    ensures month in {3, 4, 9, 10} ==> !IsSummer(month, lat) && !IsWinter(month, lat)
    ensures lat == 0.0 ==> (IsSummer(month, lat) <==> month <= 2 || month >= 11)
  {
  }

  // ---------------------------------------------------------------- the simulated condition

  /**
   * The conditions `generateSimpleWeatherData` draws from in a season; `coin` is the
   * `Math.random()` inside the list. Outside summer and winter the list has three entries.
   */
  function ConditionChoices(month: int, lat: real, coin: real): seq<string>
  {
    if IsSummer(month, lat) then ["Sunny", "Partly Cloudy", "Clear", "Hot"]
    else if IsWinter(month, lat) then ["Cloudy", "Cold", "Partly Cloudy", if coin > 0.7 then "Snow" else "Overcast"]
    else ["Cloudy", "Partly Cloudy", if coin > 0.7 then "Rain" else "Clear"]
  }

  /** `Math.floor(pick * n)` for a draw `pick` of `Math.random()`: an index below `n`. */
  function DrawIndex(pick: real, n: nat): (i: nat)
    requires 0.0 <= pick < 1.0 && n > 0
    ensures i < n
    ensures i as real <= pick * n as real < i as real + 1.0
  {
    assert pick * n as real < n as real;
    (pick * n as real).Floor
  }

  /**
   * The condition as the source draws it, `choices[Math.floor(pick * 4)]` whatever the length of
   * the list: outside summer and winter a draw of 0.75 or more reads past the three entries and
   * gives `undefined` (`None`).
   */
  function SimulatedCondition(month: int, lat: real, coin: real, pick: real): (r: Option<string>)
    requires 0.0 <= pick < 1.0
    ensures r.None? <==> !IsSummer(month, lat) && !IsWinter(month, lat) && pick >= 0.75
    ensures r.Some? ==> r.value in ConditionChoices(month, lat, coin)
  {
    var choices := ConditionChoices(month, lat, coin);
    var i := DrawIndex(pick, 4);
    if i < |choices| then Some(choices[i]) else None
  }

  /**
   * The draw scaled by the length of the list, `choices[Math.floor(pick * choices.length)]`: always
   * one of the season's conditions, and the same draw as the source's in summer and winter.
   */
  function SimulatedConditionCorrected(month: int, lat: real, coin: real, pick: real): (r: string)
    requires 0.0 <= pick < 1.0
    ensures r in ConditionChoices(month, lat, coin)
    ensures IsSummer(month, lat) || IsWinter(month, lat) ==> SimulatedCondition(month, lat, coin, pick) == Some(r)
  {
    var choices := ConditionChoices(month, lat, coin);
    choices[DrawIndex(pick, |choices|)]
  }

  // ---------------------------------------------------------------- generateSimpleResponse

  /**
   * The simulated current readings, already formatted (`72°F`, `55%`, `8 mph`); the condition is
   * `None` when the draw left it `undefined`.
   */
  datatype SimpleData = SimpleData(temperature: string, condition: Option<string>, humidity: string, wind: string)

  /** `${condition}`: an `undefined` condition is rendered as "undefined". */
  function Shown(condition: Option<string>): string
  {
    match condition
    case Some(c) => c
    case None => "undefined"
  }

  /** The rule that answers, after the jacket rule has given way when the temperature does not parse. */
  datatype Rule = TemperatureRule | UmbrellaRule | JacketRule(degrees: int) | RunRule | DefaultRule

  predicate AsksTemperature(lower: string)
  {
    Contains(lower, "temperature") || Contains(lower, "how hot") || Contains(lower, "how cold")
  }

  predicate AsksUmbrella(lower: string)
  {
    Contains(lower, "umbrella") || Contains(lower, "rain")
  }

  predicate AsksJacket(lower: string)
  {
    Contains(lower, "jacket") || Contains(lower, "coat") || Contains(lower, "wear")
  }

  predicate AsksRun(lower: string)
  {
    Contains(lower, "run") || Contains(lower, "jog") || Contains(lower, "exercise")
  }

  /** The message reaches one of the two rules that call `condition.toLowerCase()`. */
  predicate ReadsCondition(lower: string)
  {
    !AsksTemperature(lower) && (AsksUmbrella(lower) || (!AsksJacket(lower) && AsksRun(lower)))
  }

  /** The rule for a lower-cased message and the readings. */
  function RuleOf(lower: string, data: SimpleData): Rule
  {
    if AsksTemperature(lower) then TemperatureRule
    else if AsksUmbrella(lower) then UmbrellaRule
    else if AsksJacket(lower) then
      (match ParseInt(data.temperature)
       case Some(t) => JacketRule(t)
       case None => DefaultRule)
    else if AsksRun(lower) then RunRule
    else DefaultRule
  }

  /** The conditions are defined and mention rain, in any case. */
  predicate Rainy(data: SimpleData)
  {
    data.condition.Some? && Contains(ToLower(data.condition.value), "rain")
  }

  const BringUmbrella: string := " You should bring an umbrella!"
  const NoUmbrella: string := " You probably don't need an umbrella today."
  const WarmCoat: string := ", you should wear a warm coat."
  const LightJacket: string := ", a light jacket would be comfortable."
  const NoJacket: string := ", you probably don't need a jacket."
  const WetRun: string := " If you don't mind getting wet, you can go for a run."

  /** "with a temperature of ..." after the city. */
  function WithTemperature(data: SimpleData): string
  {
    " with a temperature of " + data.temperature + "."
  }

  /** The text before and the text after the city name, for a rule. */
  function Frame(rule: Rule, data: SimpleData): (string, string)
  {
    var condition := Shown(data.condition);
    match rule
    case TemperatureRule =>
      ("The current temperature in ", " is " + data.temperature + ". The conditions are " + condition + ".")
    case UmbrellaRule =>
      ("It's currently " + condition + " in ",
       WithTemperature(data) + (if Rainy(data) then BringUmbrella else NoUmbrella))
    case JacketRule(t) =>
      ("With a temperature of " + data.temperature + " in ",
       if t < 50 then WarmCoat else if t < 65 then LightJacket else NoJacket)
    case RunRule =>
      if Rainy(data) then ("It's currently " + condition + " in ", WithTemperature(data) + WetRun)
      else ("The conditions in ", " are generally good for running today. It's " + condition
                                  + " with a temperature of " + data.temperature + ". Enjoy your run!")
    case DefaultRule =>
      ("The current weather in ", " is " + condition + " with a temperature of " + data.temperature
                                  + ". The humidity is " + data.humidity + " and wind speed is " + data.wind + ".")
  }

  /**
   * `generateSimpleResponse(message, location, weatherData)` with the city already rendered: it
   * throws exactly when the condition is `undefined` and the message reaches the umbrella or the
   * run rule; every reply contains the city.
   */
  function GenerateSimpleResponse(message: string, city: string, data: SimpleData): (r: Result<string, string>)
    ensures r.Err? <==> data.condition.None? && ReadsCondition(ToLower(message))
    ensures r.Err? ==> r.error == UndefinedRead("toLowerCase")
    ensures r.Ok? ==> Contains(r.value, city)
  {
    var rule := RuleOf(ToLower(message), data);
    if data.condition.None? && (rule.UmbrellaRule? || rule.RunRule?) then Err(UndefinedRead("toLowerCase"))
    else
      var f := Frame(rule, data);
      ContainsMiddle(f.0, city, f.1);
      Ok(f.0 + city + f.1)
  }

  /**
   * For an umbrella question there is a reply exactly when the condition is defined, and it ends
   * by advising an umbrella exactly when the conditions mention rain, in any case.
   */
  lemma UmbrellaFollowsConditions(message: string, city: string, data: SimpleData)
    requires var lower := ToLower(message); !AsksTemperature(lower) && AsksUmbrella(lower)
    ensures var r := GenerateSimpleResponse(message, city, data);
      (r.Ok? <==> data.condition.Some?)
      && (r.Ok? ==> |BringUmbrella| <= |r.value|
                    && (r.value[|r.value| - |BringUmbrella|..] == BringUmbrella <==> Rainy(data)))
  {
    if data.condition.Some? {
      var r := GenerateSimpleResponse(message, city, data).value;
      var front := "It's currently " + data.condition.value + " in " + city + WithTemperature(data);
      assert r == front + (if Rainy(data) then BringUmbrella else NoUmbrella);
      assert BringUmbrella[|BringUmbrella| - 1] == '!' && NoUmbrella[|NoUmbrella| - 1] == '.';
      assert |BringUmbrella| <= |NoUmbrella|;
      if !Rainy(data) {
        assert r[|r| - 1] == '.';
        assert r[|r| - |BringUmbrella|..][|BringUmbrella| - 1] == r[|r| - 1];
      }
    }
  }

  /**
   * A temperature question is answered first, whatever else the message asks; an `undefined`
   * condition is printed as "undefined".
   */
  lemma TemperatureFirst(message: string, city: string, data: SimpleData)
    requires AsksTemperature(ToLower(message))
    ensures GenerateSimpleResponse(message, city, data)
      == Ok("The current temperature in " + city + " is " + data.temperature + ". The conditions are "
            + Shown(data.condition) + ".")
  {
    var tail := " is " + data.temperature + ". The conditions are " + Shown(data.condition) + ".";
    assert GenerateSimpleResponse(message, city, data) == Ok("The current temperature in " + city + tail);
    assert "The current temperature in " + city + tail
      == "The current temperature in " + city + " is " + data.temperature + ". The conditions are "
         + Shown(data.condition) + ".";
  }

  /**
   * Umbrella and rain come before jackets and running: a message that also asks about a jacket
   * or a run gets the umbrella reply, or the `TypeError` when the condition is `undefined`.
   */
  lemma UmbrellaBeforeJacketAndRun(message: string, city: string, data: SimpleData)
    requires var lower := ToLower(message); !AsksTemperature(lower) && AsksUmbrella(lower)
    ensures GenerateSimpleResponse(message, city, data)
      == if data.condition.None? then Err(UndefinedRead("toLowerCase"))
         else Ok("It's currently " + data.condition.value + " in " + city + WithTemperature(data)
                 + (if Rainy(data) then BringUmbrella else NoUmbrella))
  {
    if data.condition.Some? {
      var tail := WithTemperature(data) + (if Rainy(data) then BringUmbrella else NoUmbrella);
      assert GenerateSimpleResponse(message, city, data)
        == Ok("It's currently " + data.condition.value + " in " + city + tail);
      assert "It's currently " + data.condition.value + " in " + city + tail
        == "It's currently " + data.condition.value + " in " + city + WithTemperature(data)
           + (if Rainy(data) then BringUmbrella else NoUmbrella);
    }
  }

  /** A jacket question is answered by the parsed temperature: below 50 a coat, below 65 a light jacket, otherwise none. */
  lemma JacketBands(message: string, city: string, data: SimpleData, t: int)
    requires var lower := ToLower(message); !AsksTemperature(lower) && !AsksUmbrella(lower) && AsksJacket(lower)
    requires ParseInt(data.temperature) == Some(t)
    ensures var front := "With a temperature of " + data.temperature + " in " + city;
      GenerateSimpleResponse(message, city, data)
      == Ok(front + (if t < 50 then WarmCoat else if t < 65 then LightJacket else NoJacket))
  {
  }

  /** A temperature with no leading number sends a jacket question to the default reply. */
  lemma UnparsedTemperatureFallsThrough(message: string, city: string, data: SimpleData)
    requires var lower := ToLower(message); !AsksTemperature(lower) && !AsksUmbrella(lower) && AsksJacket(lower)
    requires ParseInt(data.temperature) == None
    ensures GenerateSimpleResponse(message, city, data)
      == GenerateSimpleResponse("", city, data)
  {
    var e := ToLower("");
    assert e == "";
    assert !Contains("", "temperature") && !Contains("", "how hot") && !Contains("", "how cold");
    assert !Contains("", "umbrella") && !Contains("", "rain");
    assert !Contains("", "jacket") && !Contains("", "coat") && !Contains("", "wear");
    assert !Contains("", "run") && !Contains("", "jog") && !Contains("", "exercise");
  }

  /** The simulated temperatures (`Math.floor(...) + "°F"`) always parse back to their number. */
  lemma SimulatedTemperatureParses(n: int)
    ensures ParseInt(IntToString(n) + "°F") == Some(n)
  {
    var rest := "°F";
    assert rest[0] == '°';
    ParseIntOfRendered(n, rest);
  }

  // ---------------------------------------------------------------- POST

  /** What the endpoint answers: the reply with the readings, or an error with its HTTP status. */
  datatype SimpleResponse = Answered(response: string, weatherData: SimpleData) | Failed(status: nat, error: string)

  /**
   * `POST` with the parsed body, `data` being the simulated readings: 400 without a location or
   * a message; 500 when `generateSimpleResponse` throws, for a message that is not a string or
   * an `undefined` condition reaching the umbrella or run rule.
   */
  function Post(location: Value, message: Value, data: SimpleData): (r: SimpleResponse)
    ensures r.Failed? && r.status == 400 <==> !Truthy(location) || !Truthy(message)
    ensures r.Failed? && r.status == 500 <==>
      Truthy(location) && Truthy(message)
      && (!message.Str? || (data.condition.None? && ReadsCondition(ToLower(message.s))))
    ensures r.Answered? <==>
      Truthy(location) && Truthy(message) && message.Str?
      && !(data.condition.None? && ReadsCondition(ToLower(message.s)))
    ensures r.Answered? ==> r.weatherData == data && Contains(r.response, Show(Field(location, "city")))
  {
    if !Truthy(location) || !Truthy(message) then Failed(400, "Location and message are required")
    else if !message.Str? then Failed(500, "Failed to process request")
    else
      match GenerateSimpleResponse(message.s, Show(Field(location, "city")), data)
      case Ok(reply) => Answered(reply, data)
      case Err(_) => Failed(500, "Failed to process request")
  }

  /**
   * In April, May, October and November (outside summer and winter) a draw of 0.75 or more
   * leaves the condition `undefined`, and an umbrella or run question then gets a 500.
   */
  lemma UndefinedConditionFails(location: Value, message: Value, month: int, lat: real, coin: real, pick: real,
                                temperature: string, humidity: string, wind: string)
    requires 0.0 <= pick < 1.0 && pick >= 0.75
    requires !IsSummer(month, lat) && !IsWinter(month, lat)
    requires Truthy(location) && Truthy(message) && message.Str? && ReadsCondition(ToLower(message.s))
    ensures var data := SimpleData(temperature, SimulatedCondition(month, lat, coin, pick), humidity, wind);
      data.condition.None? && Post(location, message, data) == Failed(500, "Failed to process request")
  {
  }

  /** With the corrected draw every string message with a location is answered. */
  lemma CorrectedConditionAnswers(location: Value, message: Value, month: int, lat: real, coin: real, pick: real,
                                  temperature: string, humidity: string, wind: string)
    requires 0.0 <= pick < 1.0
    requires Truthy(location) && Truthy(message) && message.Str?
    ensures var c := SimulatedConditionCorrected(month, lat, coin, pick);
      Post(location, message, SimpleData(temperature, Some(c), humidity, wind)).Answered?
  {
  }
}
