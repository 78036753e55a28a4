/**
 * The module-level pipeline of s2310710040.py:92-161: resolve the friction
 * coefficient (possibly overwriting the road type), derive the deceleration,
 * sample the braking run and compute the rule-of-thumb estimate. Rounding to
 * two decimals for display is not modelled; everything is exact.
 */
module Simulation {
  import Friction
  import Kinematics
  import RuleOfThumb
  import Validation

  /** `scipy.constants.g`, standard gravity in m/s^2 (defined exactly). */
  const StandardGravity: real := 9.80665

  /** What the program hands to the plots for one run. */
  datatype Report = Report(
    friction: real,                  // FRICTION
    acceleration: real,              // acceleration (a deceleration magnitude)
    run: Kinematics.Series,          // time, brakingvelocity, brakingdistance
    brakingTime: real,               // time[-1]
    brakingDistance: real,           // brakingdistance[-1]
    thumb: RuleOfThumb.Estimate,     // sstop, sstop_danger and their parts
    thumbTimeNormal: real,           // stoppingtime_normal
    thumbTimeDanger: real)           // stoppingtime_danger

  /**
   * Everything computed after the coefficient is known. The run ends at the
   * stop: its last time is v0/a and its last distance v0^2/(2a).
   */
  function Compute(friction: real, mass: real, velocity: real, g: real, cosTheta: real): (r: Report)
    requires mass != 0.0 && friction * g * cosTheta != 0.0 && velocity != 0.0
    ensures r.friction == friction && r.acceleration == friction * g * cosTheta
    ensures r.brakingTime == velocity / r.acceleration
    ensures r.brakingDistance == velocity * velocity / (2.0 * r.acceleration)
    ensures r.run == Kinematics.Simulate(velocity, r.acceleration)
    ensures r.thumb == RuleOfThumb.Distances(velocity)
    ensures r.thumbTimeNormal == r.thumb.stop / velocity
    ensures r.thumbTimeDanger == r.thumb.stopDanger / velocity
  {
    var a := Kinematics.Deceleration(friction, mass, g, cosTheta);
    var run := Kinematics.Simulate(velocity, a);
    Kinematics.SimulateLastSample(velocity, a);
    RuleOfThumb.StopTimesOverVelocity(velocity);
    Report(friction, a, run, run.time[|run.time| - 1], run.distance[|run.time| - 1],
      RuleOfThumb.Distances(velocity),
      RuleOfThumb.StopTimeNormal(velocity), RuleOfThumb.StopTimeDanger(velocity))
  }

  /**
   * One run of the program on parsed arguments: `friction_calculation` first
   * (which may set the road type to "concrete"), then the formulas. The cosine
   * of the slope angle is a parameter.
   */
  method Run(args: Friction.Args, g: real, cosTheta: real) returns (r: Report)
    requires args.Mass != 0.0 && g * cosTheta != 0.0 && args.Velocity != 0.0
    modifies args
    ensures args.RoadType == Friction.Resolve(old(args.RoadType), args.Condition).road
    ensures args.Condition == old(args.Condition) && args.Mass == old(args.Mass)
    ensures args.Velocity == old(args.Velocity) && args.Steepness == old(args.Steepness)
    ensures r == Compute(Friction.Resolve(old(args.RoadType), args.Condition).coefficient,
                         args.Mass, args.Velocity, g, cosTheta)
  {
    var friction := args.FrictionCalculation();
    Friction.CoefficientInRange(old(args.RoadType), args.Condition);
    assert friction * (g * cosTheta) != 0.0;
    r := Compute(friction, args.Mass, args.Velocity, g, cosTheta);
  }

  /** Default arguments: concrete/dry, 2000 kg, 27.5 m/s, slope 0 (so the cosine is 1). */
  lemma ConcreteDryScenario()
    ensures Friction.Resolve(Validation.DefaultRoadType, Validation.DefaultCondition)
      == Friction.Resolution(0.5, "concrete")
    ensures var r := Compute(0.5, Validation.DefaultMass, Validation.DefaultVelocity, StandardGravity, 1.0);
      && r.acceleration == 4.903325
      && 5.60 < r.brakingTime < 5.61
      && 77.11 < r.brakingDistance < 77.12
  {
    var r := Compute(0.5, Validation.DefaultMass, Validation.DefaultVelocity, StandardGravity, 1.0);
    assert r.brakingDistance == 756.25 / 9.80665;
  }

  /** Ice and wet at 20 m/s on a flat road. */
  lemma IceWetScenario()
    ensures Friction.Resolve("ice", "wet") == Friction.Resolution(0.08, "ice")
    ensures var r := Compute(0.08, Validation.DefaultMass, 20.0, StandardGravity, 1.0);
      && r.acceleration == 0.784532
      && 25.49 < r.brakingTime < 25.50
  {
  }

  /** An unsupported pair, water and dry: the dry-concrete coefficient and road type "concrete". */
  lemma WaterDryScenario()
    ensures Friction.Resolve("water", "dry") == Friction.Resolution(0.5, "concrete")
  {
  }
}
