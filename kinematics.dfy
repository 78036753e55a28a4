/**
 * The physics model (s2310710040.py:127-143): the friction force on an
 * inclined surface gives a constant deceleration, and velocity and distance
 * follow the constant-deceleration formulas until the vehicle stops.
 * Standard gravity `g` and the cosine of the slope angle are parameters.
 */
module Kinematics {
  import Sampling

  /** The normal force `Mass * g * cos(angle)`. */
  function NormalForce(mass: real, g: real, cosTheta: real): real {
    mass * g * cosTheta
  }

  /**
   * `acceleration = FRICTION * Fnorm / Mass`: the magnitude of the
   * deceleration. The mass cancels; no slope-parallel gravity term is added.
   */
  function Deceleration(mu: real, mass: real, g: real, cosTheta: real): (a: real)
    requires mass != 0.0
    ensures a == mu * g * cosTheta
  {
    var fFriction := mu * NormalForce(mass, g, cosTheta);
    assert fFriction == (mu * g * cosTheta) * mass;
    fFriction / mass
  }

  /** The time at which the velocity reaches zero, `velocity / acceleration`. */
  function StopTime(v0: real, a: real): real
    requires a != 0.0
  {
    v0 / a
  }

  /** `brakingvelocity` at time t. */
  function Velocity(v0: real, a: real, t: real): real {
    v0 - a * t
  }

  /** `brakingdistance` at time t, written as the source writes it. */
  function Distance(v0: real, a: real, t: real): real {
    (1.0 / 2.0) * t * (2.0 * v0 - a * t)
  }

  /** Positive friction, gravity and cosine give a positive deceleration whatever the mass. */
  lemma DecelerationPositive(mu: real, mass: real, g: real, cosTheta: real)
    requires mass != 0.0 && mu > 0.0 && g > 0.0 && cosTheta > 0.0
    ensures Deceleration(mu, mass, g, cosTheta) > 0.0
  {
    assert mu * g > 0.0;
  }

  /** The source's distance formula is the textbook `v0*t - a*t^2/2`. */
  lemma DistanceIsTextbookForm(v0: real, a: real, t: real)
    ensures Distance(v0, a, t) == v0 * t - a * t * t / 2.0
  {
  }

  /** The velocity is exactly zero at the stop time. */
  lemma VelocityZeroAtStop(v0: real, a: real)
    requires a != 0.0
    ensures Velocity(v0, a, StopTime(v0, a)) == 0.0
  {
    assert a * (v0 / a) == v0;
  }

  /** The distance at the stop time is `v0^2 / (2a)`. */
  lemma DistanceAtStop(v0: real, a: real)
    requires a != 0.0
    ensures Distance(v0, a, StopTime(v0, a)) == v0 * v0 / (2.0 * a)
  {
    var t := v0 / a;
    assert a * t == v0;
    assert Distance(v0, a, t) == (1.0 / 2.0) * t * v0;
    assert (1.0 / 2.0) * t * v0 * (2.0 * a) == v0 * v0;
  }

  /** Velocity and distance satisfy `v^2 = v0^2 - 2*a*s` at every time. */
  lemma VelocitySquared(v0: real, a: real, t: real)
    ensures Velocity(v0, a, t) * Velocity(v0, a, t) == v0 * v0 - 2.0 * a * Distance(v0, a, t)
  {
    var at := a * t;
    assert Velocity(v0, a, t) * Velocity(v0, a, t) == v0 * v0 - 2.0 * v0 * at + at * at;
    assert 2.0 * a * Distance(v0, a, t) == 2.0 * v0 * at - at * at;
  }

  /** With a >= 0 the velocity never increases. */
  lemma VelocityNonIncreasing(v0: real, a: real, t1: real, t2: real)
    requires a >= 0.0 && t1 <= t2
    ensures Velocity(v0, a, t2) <= Velocity(v0, a, t1)
  {
    assert a * (t2 - t1) >= 0.0;
  }

  /** On [0, v0/a] with a > 0 the velocity stays between 0 and v0. */
  lemma VelocityBounds(v0: real, a: real, t: real)
    requires a > 0.0 && 0.0 <= t <= StopTime(v0, a)
    ensures 0.0 <= Velocity(v0, a, t) <= v0
  {
    VelocityNonIncreasing(v0, a, 0.0, t);
    VelocityNonIncreasing(v0, a, t, v0 / a);
    VelocityZeroAtStop(v0, a);
  }

  /** On [0, v0/a] with a > 0 the distance never decreases. */
  lemma DistanceNonDecreasing(v0: real, a: real, t1: real, t2: real)
    requires a > 0.0 && 0.0 <= t1 <= t2 <= StopTime(v0, a)
    ensures Distance(v0, a, t1) <= Distance(v0, a, t2)
  {
    // s(t2) - s(t1) = (t2 - t1) * (v0 - a * (t1 + t2) / 2), and a * (t1 + t2) <= 2 * v0
    var stop := v0 / a;
    assert a * stop == v0;
    assert a * t1 <= a * stop && a * t2 <= a * stop;
    var mid := v0 - a * (t1 + t2) / 2.0;
    assert mid >= 0.0;
    assert Distance(v0, a, t2) - Distance(v0, a, t1) == (t2 - t1) * mid;
    assert (t2 - t1) * mid >= 0.0;
  }

  /** The braking run: its time samples and the velocity and distance at each. */
  datatype Series = Series(time: seq<real>, velocity: seq<real>, distance: seq<real>)

  /**
   * `time = np.linspace(0, velocity / acceleration)` and the two curves
   * evaluated on it, sample by sample.
   */
  function Simulate(v0: real, a: real): (s: Series)
    requires a != 0.0
    ensures |s.time| == |s.velocity| == |s.distance| == Sampling.DefaultCount
    ensures forall i :: 0 <= i < |s.time| ==>
      s.velocity[i] == Velocity(v0, a, s.time[i]) && s.distance[i] == Distance(v0, a, s.time[i])
  {
    var time := Sampling.Linspace(0.0, StopTime(v0, a), Sampling.DefaultCount);
    Series(time,
      seq(|time|, i requires 0 <= i < |time| => Velocity(v0, a, time[i])),
      seq(|time|, i requires 0 <= i < |time| => Distance(v0, a, time[i])))
  }

  /** The last sample of a run is the stop itself, whatever the sign of a. */
  lemma SimulateLastSample(v0: real, a: real)
    requires a != 0.0
    ensures var s := Simulate(v0, a); var last := |s.time| - 1;
      && s.time[last] == StopTime(v0, a)
      && s.velocity[last] == 0.0
      && s.distance[last] == v0 * v0 / (2.0 * a)
  {
    Sampling.LinspaceEnds(0.0, StopTime(v0, a), Sampling.DefaultCount);
    VelocityZeroAtStop(v0, a);
    DistanceAtStop(v0, a);
  }

  /**
   * The invariant of a braking run with a > 0 and v0 >= 0: it starts at full
   * speed, velocity never rises, distance never falls, and the last sample is
   * the stop itself (time v0/a, velocity 0, distance v0^2/(2a)).
   */
  lemma SimulateInvariant(v0: real, a: real)
    requires a > 0.0 && v0 >= 0.0
    ensures var s := Simulate(v0, a);
      && s.time[0] == 0.0 && s.velocity[0] == v0 && s.distance[0] == 0.0
      && (forall i, j :: 0 <= i <= j < |s.time| ==> s.velocity[j] <= s.velocity[i])
      && (forall i, j :: 0 <= i <= j < |s.time| ==> s.distance[i] <= s.distance[j])
      && s.time[|s.time| - 1] == StopTime(v0, a)
      && s.velocity[|s.time| - 1] == 0.0
      && s.distance[|s.time| - 1] == v0 * v0 / (2.0 * a)
  {
    var s := Simulate(v0, a);
    var n := Sampling.DefaultCount;
    var stop := StopTime(v0, a);
    assert stop >= 0.0;
    Sampling.LinspaceEnds(0.0, stop, n);
    forall i, j | 0 <= i <= j < |s.time|
      ensures s.velocity[j] <= s.velocity[i] && s.distance[i] <= s.distance[j]
    {
      Sampling.LinspaceAscending(0.0, stop, n, i, j);
      VelocityNonIncreasing(v0, a, s.time[i], s.time[j]);
      DistanceNonDecreasing(v0, a, s.time[i], s.time[j]);
    }
    VelocityZeroAtStop(v0, a);
    DistanceAtStop(v0, a);
  }
}
