/**
 * The input validators that the command-line parser runs on every positional
 * value (s2310710040.py:22-65). Each one either accepts the raw value or
 * falls back to the default it is given; none of them ever fails.
 */
module Validation {
  import opened Wrappers

  /** The road types `check_road` accepts, in the order of its list. */
  const RoadTypes: seq<string> := ["concrete", "ice", "water", "gravel", "sand"]

  /** The road conditions `check_condition` accepts, in the order of its list. */
  const Conditions: seq<string> := ["dry", "wet", "aquaplaning"]

  /** The defaults the parser hands to the validators (s2310710040.py:69-89). */
  const DefaultMass: real := 2000.0
  const DefaultRoadType: string := "concrete"
  const DefaultCondition: string := "dry"
  const DefaultVelocity: real := 27.5

  /** A value is a road type exactly when it is one of the five names. */
  predicate IsRoadType(s: string) {
    s == "concrete" || s == "ice" || s == "water" || s == "gravel" || s == "sand"
  }

  /** A value is a condition exactly when it is one of the three names. */
  predicate IsCondition(s: string) {
    s == "dry" || s == "wet" || s == "aquaplaning"
  }

  /**
   * `check_float`: `parsed` is what Python's `float()` made of the raw text
   * (None when it raised ValueError). The parsed number is returned as it is,
   * with no range check; the default is returned only when parsing failed.
   */
  function CheckFloat(parsed: Option<real>, default: real): (r: real)
    ensures parsed.Some? ==> r == parsed.value
    ensures parsed.None? ==> r == default
  {
    match parsed
    case Some(x) => x
    case None => default
  }

  /**
   * `check_road`: the raw value when it is in the list of road types,
   * otherwise the default, and never anything else.
   */
  function CheckRoad(value: string, default: string): (r: string)
    ensures value in RoadTypes ==> r == value
    ensures value !in RoadTypes ==> r == default
  {
    if value in RoadTypes then value else default
  }

  /**
   * `check_condition`: the raw value when it is in the list of conditions,
   * otherwise the default, and never anything else.
   */
  function CheckCondition(value: string, default: string): (r: string)
    ensures value in Conditions ==> r == value
    ensures value !in Conditions ==> r == default
  {
    if value in Conditions then value else default
  }

  /** The source's lists hold exactly the five road types and three conditions. */
  lemma ListsAreTheNamedValues(s: string)
    ensures s in RoadTypes <==> IsRoadType(s)
    ensures s in Conditions <==> IsCondition(s)
  {
    assert RoadTypes == ["concrete"] + ["ice"] + ["water"] + ["gravel"] + ["sand"];
  }

  /**
   * With a valid default, `check_road` always yields a valid road type, and it
   * keeps the raw value exactly when that value is a road type.
   */
  lemma CheckRoadIsValid(value: string, default: string)
    requires IsRoadType(default)
    ensures IsRoadType(CheckRoad(value, default))
    ensures CheckRoad(value, default) == value <==> IsRoadType(value) || value == default
  {
    ListsAreTheNamedValues(value);
  }

  /**
   * With a valid default, `check_condition` always yields a valid condition,
   * and it keeps the raw value exactly when that value is a condition.
   */
  lemma CheckConditionIsValid(value: string, default: string)
    requires IsCondition(default)
    ensures IsCondition(CheckCondition(value, default))
    ensures CheckCondition(value, default) == value <==> IsCondition(value) || value == default
  {
    ListsAreTheNamedValues(value);
  }

  /** Validating an already validated value changes nothing. */
  lemma CheckRoadIdempotent(value: string, default: string)
    requires IsRoadType(default)
    ensures CheckRoad(CheckRoad(value, default), default) == CheckRoad(value, default)
  {
    ListsAreTheNamedValues(value);
    ListsAreTheNamedValues(default);
  }

  /** Validating an already validated condition changes nothing. */
  lemma CheckConditionIdempotent(value: string, default: string)
    requires IsCondition(default)
    ensures CheckCondition(CheckCondition(value, default), default) == CheckCondition(value, default)
  {
    ListsAreTheNamedValues(value);
    ListsAreTheNamedValues(default);
  }

  /**
   * `check_float` applies no range check: zero and negative numbers pass
   * through, and a number equal to the default cannot be told apart from a
   * failed parse.
   */
  lemma CheckFloatNoRangeCheck(parsed: Option<real>, default: real)
    ensures CheckFloat(parsed, default) == default <==> parsed.None? || parsed.value == default
    ensures parsed.Some? && parsed.value <= 0.0 ==> CheckFloat(parsed, default) <= 0.0
  {
  }

  /** The defaults the parser supplies are themselves valid. */
  lemma DefaultsAreValid()
    ensures IsRoadType(DefaultRoadType) && IsCondition(DefaultCondition)
    ensures CheckRoad(DefaultRoadType, DefaultRoadType) == DefaultRoadType
    ensures CheckCondition(DefaultCondition, DefaultCondition) == DefaultCondition
  {
    ListsAreTheNamedValues(DefaultRoadType);
    ListsAreTheNamedValues(DefaultCondition);
  }
}
