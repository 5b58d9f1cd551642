/**
 * The lookup tables of the weather route: the 16-point compass label of a wind bearing, the
 * moon-phase names, the air-quality descriptions and the token budget per intent.
 */
module Lookup {

  import opened Wrappers
  import opened Intent

  /** `Math.round(x)`: the nearest integer, halves rounded up. */
  function JsRound(x: real): (r: int)
    ensures x - 0.5 < r as real <= x + 0.5
  {
    (x + 0.5).Floor
  }

  /**
   * The `%` operator of JavaScript on integers: the remainder of the division truncated toward
   * zero, which takes the sign of the dividend.
   */
  function JsRem(a: int, b: int): (r: int)
    requires b > 0
    ensures a >= 0 ==> 0 <= r < b
    ensures a < 0 ==> -b < r <= 0
    ensures a == b * (if a >= 0 then a / b else -((-a) / b)) + r
  {
    if a >= 0 then a % b else -((-a) % b)
  }

  const Directions: seq<string> :=
    ["N", "NNE", "NE", "ENE", "E", "ESE", "SE", "SSE", "S", "SSW", "SW", "WSW", "W", "WNW", "NW", "NNW"]

  /** The table index `Math.round(degrees / 22.5) % 16` of `getWindDirection`. */
  function CompassIndex(degrees: real): (r: int)
    ensures -16 < r < 16
    ensures r < 0 ==> degrees < -11.25
  {
    JsRem(JsRound(degrees / 22.5), 16)
  }

  /**
   * `getWindDirection(degrees)`: the label at the index, or `None` where the index is negative
   * and the array read gives `undefined`.
   */
  function WindDirection(degrees: real): (r: Option<string>)
    ensures r.Some? <==> CompassIndex(degrees) >= 0
    ensures r.Some? ==> r.value in Directions
  {
    var index := CompassIndex(degrees);
    if 0 <= index < 16 then Some(Directions[index]) else None
  }

  /** Every non-negative bearing has a label; 0 and 360 degrees are both north. */
  lemma WindDirectionTotal(degrees: real)
    requires degrees >= 0.0
    ensures WindDirection(degrees).Some?
    ensures WindDirection(0.0) == Some("N") && WindDirection(360.0) == Some("N")
  {
    assert JsRound(0.0 / 22.5) == 0;
    assert 360.0 / 22.5 == 16.0;
    assert JsRound(16.0) == 16;
  }

  /** A full turn does not change the label of a non-negative bearing. */
  lemma WindDirectionPeriodic(degrees: real)
    requires degrees >= 0.0
    ensures WindDirection(degrees + 360.0) == WindDirection(degrees)
  {
    var x := degrees / 22.5;
    assert (degrees + 360.0) / 22.5 == x + 16.0;
    var k := JsRound(x);
    assert JsRound(x + 16.0) == k + 16 by {
      assert (x + 16.0 + 0.5).Floor == (x + 0.5).Floor + 16;
    }
    assert k >= 0;
    assert (k + 16) % 16 == k % 16;
  }

  /**
   * A bearing a little below zero rounds to a negative index, which the truncating `%` keeps
   * negative: there is no label.
   */
  lemma WindDirectionUndefinedBelowZero(degrees: real)
    requires -348.75 < degrees < -11.25
    ensures WindDirection(degrees) == None
  {
    var k := JsRound(degrees / 22.5);
    assert -15 <= k <= -1;
  }

  /** The eight names of the lunar cycle, from new moon round to waning crescent. */
  const MoonPhaseNames: seq<string> :=
    ["New Moon", "Waxing Crescent", "First Quarter", "Waxing Gibbous", "Full Moon",
     "Waning Gibbous", "Last Quarter", "Waning Crescent"]

  /** `getMoonPhase(phase)`. */
  function MoonPhase(phase: real): (r: string)
    ensures r in MoonPhaseNames
    ensures r == "New Moon" <==> phase == 0.0 || phase == 1.0
    ensures r == "Full Moon" <==> phase == 0.5
  {
    if phase == 0.0 || phase == 1.0 then "New Moon"
    else if phase < 0.25 then "Waxing Crescent"
    else if phase == 0.25 then "First Quarter"
    else if phase < 0.5 then "Waxing Gibbous"
    else if phase == 0.5 then "Full Moon"
    else if phase < 0.75 then "Waning Gibbous"
    else if phase == 0.75 then "Last Quarter"
    else "Waning Crescent"
  }

  /** `getMoonPhaseDescription(phase)`: as `getMoonPhase`, with "Unknown" past a full cycle. */
  function MoonPhaseDescription(phase: real): (r: string)
    ensures r in MoonPhaseNames || r == "Unknown"
    ensures r == "Unknown" <==> phase > 1.0
  {
    if phase == 0.0 || phase == 1.0 then "New Moon"
    else if phase < 0.25 then "Waxing Crescent"
    else if phase == 0.25 then "First Quarter"
    else if phase < 0.5 then "Waxing Gibbous"
    else if phase == 0.5 then "Full Moon"
    else if phase < 0.75 then "Waning Gibbous"
    else if phase == 0.75 then "Last Quarter"
    else if phase < 1.0 then "Waning Crescent"
    else "Unknown"
  }

  /**
   * The two moon-phase tables agree exactly up to a full cycle; past it the description says
   * "Unknown" where the phase name says "Waning Crescent".
   */
  lemma MoonPhaseTablesAgree(phase: real)
    ensures MoonPhase(phase) == MoonPhaseDescription(phase) <==> phase <= 1.0
    ensures phase > 1.0 ==> MoonPhase(phase) == "Waning Crescent" && MoonPhaseDescription(phase) == "Unknown"
  {
  }

  /** The quarter points are named exactly, and both ends of the cycle are a new moon. */
  lemma MoonPhaseQuarterNames()
    ensures MoonPhaseDescription(0.0) == "New Moon" && MoonPhaseDescription(1.0) == "New Moon"
    ensures MoonPhaseDescription(0.25) == "First Quarter"
    ensures MoonPhaseDescription(0.5) == "Full Moon"
    ensures MoonPhaseDescription(0.75) == "Last Quarter"
  {
  }

  const AqiLevels: seq<string> :=
    ["Good", "Moderate", "Unhealthy for Sensitive Groups", "Unhealthy", "Very Unhealthy", "Hazardous"]

  /**
   * `getAQIDescription(aqi)`: values 1 to 5 index the level table (a fractional value there
   * reads `undefined`: `None`); other values are banded on the US scale.
   */
  function AqiDescription(aqi: real): (r: Option<string>)
    ensures r.None? <==> 1.0 <= aqi <= 5.0 && aqi != aqi.Floor as real
    ensures r.Some? ==> r.value in AqiLevels
  {
    if 1.0 <= aqi <= 5.0 then
      (if aqi == aqi.Floor as real then Some(AqiLevels[aqi.Floor - 1]) else None)
    else if aqi <= 50.0 then Some("Good")
    else if aqi <= 100.0 then Some("Moderate")
    else if aqi <= 150.0 then Some("Unhealthy for Sensitive Groups")
    else if aqi <= 200.0 then Some("Unhealthy")
    else if aqi <= 300.0 then Some("Very Unhealthy")
    else Some("Hazardous")
  }

  /** The position of a level in the table, from best to worst. */
  function Severity(level: string): nat
  {
    if level == "Good" then 0
    else if level == "Moderate" then 1
    else if level == "Unhealthy for Sensitive Groups" then 2
    else if level == "Unhealthy" then 3
    else if level == "Very Unhealthy" then 4
    else 5
  }

  /**
   * On the US scale (above 5) a larger index never reads as better air; the two scales do not
   * join up: 5 is "Very Unhealthy" on the 1-5 scale while 6 is "Good" on the US scale.
   */
  lemma AqiSeverityMonotone(a: real, b: real)
    requires 5.0 < a <= b
    ensures Severity(AqiDescription(a).value) <= Severity(AqiDescription(b).value)
    ensures AqiDescription(5.0) == Some("Very Unhealthy") && AqiDescription(6.0) == Some("Good")
  {
    assert (5.0).Floor == 5;
  }

  /** `getMaxTokensForIntent(intent)`: the response-length budget for an intent. */
  function MaxTokensForIntent(intent: Intent): (r: nat)
    ensures 300 <= r <= 800
    ensures r == 800 <==> intent == Explanation
    ensures r == 300 <==> intent == CurrentConditions
    ensures r == 600 <==> intent == Forecast
    ensures r == 500 <==> intent !in {CurrentConditions, Forecast, Explanation}
  {
    match intent
    case CurrentConditions => 300
    case Forecast => 600
    case Explanation => 800
    case _ => 500
  }
}
