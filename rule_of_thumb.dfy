/**
 * The driving-school rule of thumb (s2310710040.py:146-161): stopping
 * distances from the speed alone, in a normal and a danger variant. It never
 * sees the mass, the road, the condition or the slope.
 */
module RuleOfThumb {
  import Sampling

  /** `thumbvelo`: the speed in km/h. */
  function Kmh(velocity: real): real {
    velocity * 3.6
  }

  /** The two variants' distances, as the source names them. */
  datatype Estimate = Estimate(
    normal: real,       // snormal: (km/h / 10)^2
    danger: real,       // sdanger: half of snormal
    reaction: real,     // sreaction: (km/h / 10) * 3
    stop: real,         // sstop
    stopDanger: real)   // sstop_danger

  /** The distances of s2310710040.py:146-152 for an initial velocity in m/s. */
  function Distances(velocity: real): (e: Estimate)
    ensures e.stop == e.normal + e.reaction && e.stopDanger == e.danger + e.reaction
    ensures e.normal >= 0.0 && e.danger == e.normal / 2.0
  {
    var thumbvelo := Kmh(velocity);
    var snormal := (thumbvelo / 10.0) * (thumbvelo / 10.0);
    var sdanger := snormal * 1.0 / 2.0;
    var sreaction := (thumbvelo / 10.0) * 3.0;
    Estimate(snormal, sdanger, sreaction, snormal + sreaction, sdanger + sreaction)
  }

  /** `stoppingtime_normal`: the normal stopping distance over the speed converted back to m/s. */
  function StopTimeNormal(velocity: real): real
    requires velocity != 0.0
  {
    Distances(velocity).stop / (Kmh(velocity) / 3.6)
  }

  /** `stoppingtime_danger`: the danger stopping distance over the speed converted back to m/s. */
  function StopTimeDanger(velocity: real): real
    requires velocity != 0.0
  {
    Distances(velocity).stopDanger / (Kmh(velocity) / 3.6)
  }

  /** In closed form: sstop = 0.1296 v^2 + 1.08 v and sstop_danger = 0.0648 v^2 + 1.08 v. */
  lemma DistancesInVelocity(velocity: real)
    ensures Distances(velocity).stop == 0.1296 * velocity * velocity + 1.08 * velocity
    ensures Distances(velocity).stopDanger == 0.0648 * velocity * velocity + 1.08 * velocity
  {
  }

  /** The danger distance never exceeds the normal one; they differ by half of snormal. */
  lemma DangerNotLonger(velocity: real)
    ensures Distances(velocity).stopDanger <= Distances(velocity).stop
    ensures Distances(velocity).stop - Distances(velocity).stopDanger == Distances(velocity).normal / 2.0
  {
  }

  /** Converting to km/h and back gives the velocity again, so each time is distance over velocity. */
  lemma StopTimesOverVelocity(velocity: real)
    requires velocity != 0.0
    ensures StopTimeNormal(velocity) == Distances(velocity).stop / velocity
    ensures StopTimeDanger(velocity) == Distances(velocity).stopDanger / velocity
  {
    assert Kmh(velocity) / 3.6 == velocity;
  }

  /** For a positive velocity the danger time is never longer than the normal time. */
  lemma DangerTimeNotLonger(velocity: real)
    requires velocity > 0.0
    ensures StopTimeDanger(velocity) <= StopTimeNormal(velocity)
  {
    StopTimesOverVelocity(velocity);
    DangerNotLonger(velocity);
    var e := Distances(velocity);
    assert e.stopDanger / velocity <= e.stop / velocity by {
      assert (e.stop - e.stopDanger) / velocity >= 0.0;
    }
  }

  /** The worked numbers for 27.5 m/s, which is 99 km/h. */
  lemma DefaultVelocityExample()
    ensures Kmh(27.5) == 99.0
    ensures Distances(27.5) == Estimate(98.01, 49.005, 29.7, 127.71, 78.705)
    ensures StopTimeNormal(27.5) == 127.71 / 27.5
    ensures StopTimeDanger(27.5) == 78.705 / 27.5
  {
    StopTimesOverVelocity(27.5);
  }

  /** The ramps drawn for both variants: distance from 0 to the stopping distance against time. */
  datatype Ramp = Ramp(time: seq<real>, distance: seq<real>)

  /** `sstop_list` with `timeintsstop`, and `sstop_danger_list` with `timeintsstopdanger`. */
  function Ramps(velocity: real): (r: (Ramp, Ramp))
    requires velocity != 0.0
    ensures |r.0.time| == |r.0.distance| == |r.1.time| == |r.1.distance| == Sampling.DefaultCount
  {
    var n := Sampling.DefaultCount;
    var e := Distances(velocity);
    (Ramp(Sampling.Linspace(0.0, StopTimeNormal(velocity), n), Sampling.Linspace(0.0, e.stop, n)),
     Ramp(Sampling.Linspace(0.0, StopTimeDanger(velocity), n), Sampling.Linspace(0.0, e.stopDanger, n)))
  }

  /** Each ramp runs from (0, 0) to (its stopping time, its stopping distance). */
  lemma RampEnds(velocity: real)
    requires velocity != 0.0
    ensures var r := Ramps(velocity); var last := Sampling.DefaultCount - 1;
      && r.0.time[0] == 0.0 && r.0.distance[0] == 0.0
      && r.0.time[last] == StopTimeNormal(velocity) && r.0.distance[last] == Distances(velocity).stop
      && r.1.time[0] == 0.0 && r.1.distance[0] == 0.0
      && r.1.time[last] == StopTimeDanger(velocity) && r.1.distance[last] == Distances(velocity).stopDanger
  {
    var n := Sampling.DefaultCount;
    Sampling.LinspaceEnds(0.0, StopTimeNormal(velocity), n);
    Sampling.LinspaceEnds(0.0, Distances(velocity).stop, n);
    Sampling.LinspaceEnds(0.0, StopTimeDanger(velocity), n);
    Sampling.LinspaceEnds(0.0, Distances(velocity).stopDanger, n);
  }
}
