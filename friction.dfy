/**
 * The friction resolver (s2310710040.py:13-19, 95-122): a seven-entry table
 * keyed by the (road type, condition) pair, with a fallback that returns the
 * dry-concrete coefficient and forces the road type to "concrete" while
 * leaving the condition as it was.
 */
module Friction {
  import Validation

  /** The friction coefficients of s2310710040.py:13-19. */
  const DryConcrete: real := 0.5
  const WetConcrete: real := 0.35
  const DryIce: real := 0.15
  const WetIce: real := 0.08
  const Aquaplaning: real := 0.05
  const DryGravel: real := 0.35
  const DrySand: real := 0.3

  /** The seven supported pairs, as a table: the reference the branch chain must agree with. */
  const Table: map<(string, string), real> := map[
    ("concrete", "dry") := DryConcrete,
    ("concrete", "wet") := WetConcrete,
    ("ice", "dry") := DryIce,
    ("ice", "wet") := WetIce,
    ("water", "aquaplaning") := Aquaplaning,
    ("gravel", "dry") := DryGravel,
    ("sand", "dry") := DrySand
  ]

  /** The outcome of the branch chain: the coefficient it picks, or a miss. */
  datatype Lookup = Hit(coefficient: real) | Miss

  /** The branch chain of `friction_calculation`, without its side effect. */
  function LookupPair(road: string, condition: string): (r: Lookup)
    ensures r.Hit? <==> (road, condition) in Table
    ensures r.Hit? ==> r.coefficient == Table[(road, condition)]
  {
    if road == "concrete" && condition == "dry" then Hit(DryConcrete)
    else if road == "concrete" && condition == "wet" then Hit(WetConcrete)
    else if road == "ice" && condition == "dry" then Hit(DryIce)
    else if road == "ice" && condition == "wet" then Hit(WetIce)
    else if road == "water" && condition == "aquaplaning" then Hit(Aquaplaning)
    else if road == "gravel" && condition == "dry" then Hit(DryGravel)
    else if road == "sand" && condition == "dry" then Hit(DrySand)
    else Miss
  }

  /** What `friction_calculation` leaves behind: the coefficient and the road type afterwards. */
  datatype Resolution = Resolution(coefficient: real, road: string)

  /**
   * The resolver as a function of the pair: a hit keeps the road type, a miss
   * gives the dry-concrete coefficient and the road type "concrete".
   */
  function Resolve(road: string, condition: string): (r: Resolution)
    ensures (road, condition) in Table ==> r == Resolution(Table[(road, condition)], road)
    ensures (road, condition) !in Table ==> r == Resolution(DryConcrete, "concrete")
  {
    match LookupPair(road, condition)
    case Hit(c) => Resolution(c, road)
    case Miss => Resolution(DryConcrete, "concrete")
  }

  /** The parsed command-line arguments, which `friction_calculation` updates in place. */
  class Args {
    var Mass: real
    var RoadType: string
    var Condition: string
    var Velocity: real
    var Steepness: real

    constructor (mass: real, road: string, condition: string, velocity: real, steepness: real)
      ensures Mass == mass && RoadType == road && Condition == condition
      ensures Velocity == velocity && Steepness == steepness
    {
      Mass, RoadType, Condition := mass, road, condition;
      Velocity, Steepness := velocity, steepness;
    }

    /**
     * `friction_calculation`: returns the coefficient of the current pair and,
     * on a miss, overwrites the road type with "concrete". The condition and
     * every other argument stay as they were.
     */
    method FrictionCalculation() returns (friction: real)
      modifies this`RoadType
      ensures friction == Resolve(old(RoadType), Condition).coefficient
      ensures RoadType == Resolve(old(RoadType), Condition).road
      ensures Condition == old(Condition)
    {
      if RoadType == "concrete" && Condition == "dry" {
        friction := DryConcrete;
      } else if RoadType == "concrete" && Condition == "wet" {
        friction := WetConcrete;
      } else if RoadType == "ice" && Condition == "dry" {
        friction := DryIce;
      } else if RoadType == "ice" && Condition == "wet" {
        friction := WetIce;
      } else if RoadType == "water" && Condition == "aquaplaning" {
        friction := Aquaplaning;
      } else if RoadType == "gravel" && Condition == "dry" {
        friction := DryGravel;
      } else if RoadType == "sand" && Condition == "dry" {
        friction := DrySand;
      } else {
        friction := DryConcrete;
        RoadType := "concrete";
      }
    }
  }

  /** Every supported pair is made of a valid road type and a valid condition. */
  lemma TableKeysAreValid(road: string, condition: string)
    requires (road, condition) in Table
    ensures Validation.IsRoadType(road) && Validation.IsCondition(condition)
  {
  }

  /** The resolved coefficient is always one of the seven constants, so 0 < mu <= 0.5. */
  lemma CoefficientInRange(road: string, condition: string)
    ensures var mu := Resolve(road, condition).coefficient;
      mu in {DryConcrete, WetConcrete, DryIce, WetIce, Aquaplaning, DryGravel, DrySand}
    ensures 0.0 < Resolve(road, condition).coefficient <= DryConcrete
  {
  }

  /** A valid road type stays valid through resolution (a miss replaces it by "concrete"). */
  lemma ResolvedRoadIsValid(road: string, condition: string)
    requires Validation.IsRoadType(road)
    ensures Validation.IsRoadType(Resolve(road, condition).road)
  {
  }

  /**
   * A miss leaves the condition alone although the diagnostic claims it is
   * reset to "dry": resolving the reported pair again gives a different
   * coefficient exactly when the first lookup missed with condition "wet".
   */
  lemma ReportedPairDisagrees(road: string, condition: string)
    ensures var first := Resolve(road, condition);
      first.coefficient != Resolve(first.road, condition).coefficient
      <==> (road, condition) !in Table && condition == "wet"
  {
  }

  /** The example pair water/wet: 0.5 is returned, yet concrete/wet reads 0.35. */
  lemma WaterWetExample()
    ensures Resolve("water", "wet") == Resolution(DryConcrete, "concrete")
    ensures Resolve("concrete", "wet").coefficient == WetConcrete
  {
  }
}
