/**
 * The mock chat endpoint: it checks the request, builds the location string and picks one of
 * five canned replies by keywords of the lower-cased message.
 */
module ChatRoute {

  import opened Text
  import opened Js

  /** What the endpoint answers: the reply, or an error with its HTTP status. */
  datatype ChatResponse = Replied(response: string) | Failed(status: nat, error: string)

  /** `${location.city}, ${location.admin}, ${location.country}`. */
  function LocationString(location: Value): (r: string)
    requires !location.Undefined? && !location.Null?
    ensures Contains(r, ", " + Show(Field(location, "admin")) + ", ")
    ensures Field(location, "admin").Undefined? ==> Contains(r, ", undefined, ")
  {
    var city := Show(Field(location, "city"));
    var admin := Show(Field(location, "admin"));
    var country := Show(Field(location, "country"));
    ContainsMiddle(city, ", " + admin + ", ", country);
    assert city + (", " + admin + ", ") + country == city + ", " + admin + ", " + country;
    assert Field(location, "admin").Undefined? ==> ", " + admin + ", " == ", undefined, ";
    city + ", " + admin + ", " + country
  }

  /** The rule a message falls under, in the order the rules are tried. */
  datatype Topic = Rain | Layers | Exercise | Sun | Other

  /** The topic of an already lower-cased message. */
  function TopicOf(lower: string): Topic
  {
    if Contains(lower, "umbrella") || Contains(lower, "rain") then Rain
    else if Contains(lower, "jacket") || Contains(lower, "coat") then Layers
    else if Contains(lower, "run") || Contains(lower, "exercise") then Exercise
    else if Contains(lower, "sun") || Contains(lower, "sunscreen") then Sun
    else Other
  }

  const RainTail: string := ", there's a moderate chance of rain today. It might be a good idea to bring an umbrella just to be safe."
  const LayersTail: string := " today, temperatures will range between 55-68°F. A light jacket might be comfortable in the morning and evening."
  const ExerciseTail: string := " are good for running today. The air quality is good and there's a light breeze. Morning would be the best time."
  const SunTail: string := " today is moderate. If you'll be outside for more than 30 minutes, wearing sunscreen would be advisable."
  const OtherTail: string := " today is partly cloudy with temperatures around 65°F. It's generally pleasant with a light breeze from the west."

  /** The opening and the closing text of the reply for a topic; the location string goes between them. */
  function Frame(t: Topic): (string, string)
  {
    match t
    case Rain => ("For ", RainTail)
    case Layers => ("In ", LayersTail)
    case Exercise => ("The conditions in ", ExerciseTail)
    case Sun => ("The UV index for ", SunTail)
    case Other => ("The weather in ", OtherTail)
  }

  /** The reply for a lower-cased message. */
  function Reply(lower: string, place: string): (r: string)
    ensures Contains(r, place)
  {
    var f := Frame(TopicOf(lower));
    ContainsMiddle(f.0, place, f.1);
    f.0 + place + f.1
  }

  /**
   * `POST` with the parsed body: 400 without a location or a message; a message that is not a
   * string throws at `toLowerCase` and gives 500.
   */
  function Post(location: Value, message: Value): (r: ChatResponse)
    ensures r.Failed? && r.status == 400 <==> !Truthy(location) || !Truthy(message)
    ensures r.Replied? <==> Truthy(location) && Truthy(message) && message.Str?
    ensures r.Replied? ==> Contains(r.response, LocationString(location))
  {
    if !Truthy(location) || !Truthy(message) then Failed(400, "Location and message are required")
    else if !message.Str? then Failed(500, "Failed to process request")
    else Replied(Reply(ToLower(message.s), LocationString(location)))
  }

  /** The location string is the three fields, comma separated, in this order. */
  lemma LocationStringParts(city: string, admin: string, country: string, rest: map<string, Value>)
    ensures LocationString(Obj(rest["city" := Str(city)]["admin" := Str(admin)]["country" := Str(country)]))
      == city + ", " + admin + ", " + country
  {
  }

  /** Umbrella and rain come first, whatever else the message mentions. */
  lemma RainFirst(lower: string, place: string)
    requires Contains(lower, "umbrella") || Contains(lower, "rain")
    ensures Reply(lower, place) == "For " + place + RainTail
  {
  }

  /** Running beats sun here: a message with both "run" and "sun" gets the running reply. */
  lemma RunBeforeSun(lower: string, place: string)
    requires Contains(lower, "run") && Contains(lower, "sun")
    requires !Contains(lower, "umbrella") && !Contains(lower, "rain")
    requires !Contains(lower, "jacket") && !Contains(lower, "coat")
    ensures Reply(lower, place) == "The conditions in " + place + ExerciseTail
  {
  }

  /** The default reply comes only when none of the keywords appears. */
  lemma OtherOnlyWithoutKeywords(lower: string)
    ensures TopicOf(lower) == Other <==>
      !Contains(lower, "umbrella") && !Contains(lower, "rain") && !Contains(lower, "jacket")
      && !Contains(lower, "coat") && !Contains(lower, "run") && !Contains(lower, "exercise")
      && !Contains(lower, "sun")
  {
    if Contains(lower, "sunscreen") {
      assert "sunscreen" == "sun" + "screen";
      ContainsPrefix("sun", "screen");
      ContainsTransitive(lower, "sunscreen", "sun");
    }
  }

  /** Matching ignores case. */
  lemma CaseInsensitive(location: Value, message: string)
    ensures Post(location, Str(ToLower(message))) == Post(location, Str(message))
  {
    ToLowerIdempotent(message);
    assert Truthy(Str(ToLower(message))) <==> Truthy(Str(message));
  }
}
