/**
 * Evenly spaced samples over a closed interval, as `np.linspace(start, stop, num)`
 * builds them for the time axes (s2310710040.py:132, 154-161), over exact reals.
 */
module Sampling {

  /** numpy's default sample count, used by every call in the program. */
  const DefaultCount: nat := 50

  /** The distance between neighbouring samples, `(stop - start) / (num - 1)`. */
  function Step(start: real, stop: real, num: nat): real
    requires num >= 2
  {
    (stop - start) / ((num - 1) as real)
  }

  /** The i-th of `num` evenly spaced points from `start` to `stop`. */
  function Point(start: real, stop: real, num: nat, i: nat): real
    requires num >= 2
  {
    if i == num - 1 then stop else start + (i as real) * Step(start, stop, num)
  }

  /** `np.linspace(start, stop, num)` for num >= 2, whose last sample is `stop` itself. */
  function Linspace(start: real, stop: real, num: nat): (r: seq<real>)
    requires num >= 2
    ensures |r| == num
    ensures forall i :: 0 <= i < num ==> r[i] == Point(start, stop, num, i)
  {
    seq(num, i requires 0 <= i < num => Point(start, stop, num, i))
  }

  /** The first sample is `start` and the last is exactly `stop`. */
  lemma LinspaceEnds(start: real, stop: real, num: nat)
    requires num >= 2
    ensures Linspace(start, stop, num)[0] == start
    ensures Linspace(start, stop, num)[num - 1] == stop
  {
  }

  /** Every sample lies on the straight line from `start` to `stop`. */
  lemma PointOnLine(start: real, stop: real, num: nat, i: nat)
    requires num >= 2 && i < num
    ensures Point(start, stop, num, i) == start + (i as real) * Step(start, stop, num)
  {
    var n := (num - 1) as real;
    if i == num - 1 {
      assert (stop - start) / n * n == stop - start;
    }
  }

  /** For start <= stop the samples ascend and stay inside [start, stop]. */
  lemma LinspaceAscending(start: real, stop: real, num: nat, i: nat, j: nat)
    requires num >= 2 && start <= stop
    requires i <= j < num
    ensures start <= Linspace(start, stop, num)[i] <= Linspace(start, stop, num)[j] <= stop
  {
    PointAscending(start, stop, num, i, j);
  }

  /** The ordering of the samples, stated on Point directly. */
  lemma PointAscending(start: real, stop: real, num: nat, i: nat, j: nat)
    requires num >= 2 && start <= stop
    requires i <= j < num
    ensures start <= Point(start, stop, num, i) <= Point(start, stop, num, j) <= stop
  {
    StepSpansInterval(start, stop, num);
    IndexBetween(i, j, num - 1);
    ScaleBetween(i as real, j as real, (num - 1) as real, Step(start, stop, num));
    PointOnLine(start, stop, num, i);
    PointOnLine(start, stop, num, j);
  }

  /** Ordered indices stay ordered as reals. */
  lemma IndexBetween(i: nat, j: nat, n: nat)
    requires i <= j <= n
    ensures 0.0 <= i as real <= j as real <= n as real
  {
  }

  /** Scaling ordered non-negative reals by h >= 0 keeps their order. */
  lemma ScaleBetween(x: real, y: real, n: real, h: real)
    requires 0.0 <= x <= y <= n && h >= 0.0
    ensures 0.0 <= x * h <= y * h <= n * h
  {
    MulMonotone(0.0, x, h);
    MulMonotone(x, y, h);
    MulMonotone(y, n, h);
  }

  /** The step is non-negative on an ascending interval, and num - 1 steps cover it. */
  lemma StepSpansInterval(start: real, stop: real, num: nat)
    requires num >= 2 && start <= stop
    ensures Step(start, stop, num) >= 0.0
    ensures ((num - 1) as real) * Step(start, stop, num) == stop - start
  {
  }

  lemma MulMonotone(x: real, y: real, h: real)
    requires h >= 0.0 && x <= y
    ensures x * h <= y * h
  {
  }
}
