# Braking simulation: verified model of the computation core

The program `s2310710040.py` simulates a vehicle braking. It takes five
positional command-line values: mass, road type, road condition, initial
velocity and slope. It validates each value and picks a friction coefficient
from a seven-entry table keyed by (road type, condition). From that it derives
a constant deceleration, then samples velocity and distance over time until
the vehicle stops. Next to that physics run it computes the driving-school
"rule of thumb" stopping distances, which depend on speed alone. Everything
else in the program is plotting.

This project models that core in Dafny:

- `Validation` (validation.dfy): `check_float`, `check_road` and `check_condition`.
  Python's `float()` is abstracted as an `Option<real>` parse result (module `Wrappers`).
- `Friction` (friction.dfy): the seven coefficients and the branch chain of
  `friction_calculation`, proved equal to a reference `map` table.
  The parsed arguments are a class `Args` whose road type
  `FrictionCalculation` overwrites in place on a miss.
- `Sampling` (sampling.dfy): `np.linspace` over exact reals, with numpy's
  default 50 samples and its rule that the last sample is `stop` itself.
- `Kinematics` (kinematics.dfy): deceleration from the friction force,
  v(t) = v0 − a·t and s(t) = ½·t·(2·v0 − a·t), and the sampled run.
- `RuleOfThumb` (rule_of_thumb.dfy): km/h conversion, the normal, danger and
  reaction distances, the stopping times and the display ramps.
- `Simulation` (simulation.dfy): the module-level pipeline, plus the worked
  scenarios with `g` = 9.80665 m/s² (the exact value of `scipy.constants.g`).

All arithmetic is exact `real` arithmetic. The model states the intended
algebra, not floating-point rounding.

## Model

| member | source | states |
|---|---|---|
| Validation.CheckFloat | s2310710040.py:22-35 | a successful parse is returned unchanged, whatever its sign; a failed parse gives the default |
| Validation.CheckFloatNoRangeCheck | s2310710040.py:30-35 | the result equals the default iff parsing failed or the parsed number is the default; zero and negative numbers pass through |
| Validation.CheckRoad | s2310710040.py:37-50 | the raw value when it is in the road-type list, otherwise the default |
| Validation.CheckCondition | s2310710040.py:52-65 | the raw value when it is in the condition list, otherwise the default |
| Validation.ListsAreTheNamedValues | s2310710040.py:45-61 | membership in the two lists is exactly "one of concrete/ice/water/gravel/sand" and "one of dry/wet/aquaplaning" |
| Validation.CheckRoadIsValid | s2310710040.py:45-50 | with a valid default the result is always a valid road type, and it equals the input iff the input is valid or is the default |
| Validation.CheckConditionIsValid | s2310710040.py:60-65 | with a valid default the result is always a valid condition, and it equals the input iff the input is valid or is the default |
| Validation.CheckRoadIdempotent | s2310710040.py:45-50 | validating a validated road type again changes nothing |
| Validation.CheckConditionIdempotent | s2310710040.py:60-65 | validating a validated condition again changes nothing |
| Validation.DefaultsAreValid | s2310710040.py:74-81 | the parser's defaults "concrete" and "dry" are valid and pass their validators unchanged |
| Friction.LookupPair | s2310710040.py:101-114 | the branch chain hits exactly on the seven pairs of the reference table, with the table's coefficient |
| Friction.Resolve | s2310710040.py:101-122 | a supported pair gives its coefficient and keeps the road type; any other pair gives 0.5 and road type "concrete" |
| Friction.Args.constructor | s2310710040.py:68-90 | the parsed arguments hold the five given values |
| Friction.Args.FrictionCalculation | s2310710040.py:95-122 | returns the resolved coefficient, sets the road type to the resolved one, and leaves the condition (and every other field) unchanged |
| Friction.TableKeysAreValid | s2310710040.py:101-114 | every supported pair is made of a valid road type and a valid condition |
| Friction.CoefficientInRange | s2310710040.py:13-19 | the resolved coefficient is one of the seven constants, so 0 < mu <= 0.5 |
| Friction.ResolvedRoadIsValid | s2310710040.py:115-120 | a valid road type is still valid after resolution |
| Friction.ReportedPairDisagrees | s2310710040.py:115-120 | resolving the reported pair again gives another coefficient iff the first lookup missed with condition "wet" |
| Friction.WaterWetExample | s2310710040.py:103-120 | water/wet yields 0.5 and road type "concrete", while concrete/wet looks up 0.35 |
| Sampling.LinspaceEnds | s2310710040.py:132 | the sampled times start at 0 and end exactly at the stop time |
| Sampling.PointOnLine | s2310710040.py:132 | every sample, the last one included, lies at start + i·step |
| Sampling.LinspaceAscending | s2310710040.py:132 | for start <= stop the samples ascend and lie within [start, stop] |
| Kinematics.Deceleration | s2310710040.py:127-131 | the mass cancels: the deceleration is mu·g·cos(angle), with no slope-parallel gravity term |
| Kinematics.DecelerationPositive | s2310710040.py:127-131 | positive mu, g and cosine give a positive deceleration for any non-zero mass |
| Kinematics.DistanceIsTextbookForm | s2310710040.py:134 | ½·t·(2·v0 − a·t) equals v0·t − a·t²/2 |
| Kinematics.VelocityZeroAtStop | s2310710040.py:132-133 | the velocity at t = v0/a is exactly 0 |
| Kinematics.DistanceAtStop | s2310710040.py:132-134 | the distance at t = v0/a is v0²/(2a) |
| Kinematics.VelocitySquared | s2310710040.py:133-134 | v(t)² = v0² − 2·a·s(t) at every time |
| Kinematics.VelocityNonIncreasing | s2310710040.py:133 | with a >= 0 the velocity never increases over time |
| Kinematics.VelocityBounds | s2310710040.py:132-133 | on [0, v0/a] the velocity stays between 0 and v0 |
| Kinematics.DistanceNonDecreasing | s2310710040.py:132-134 | on [0, v0/a] with a > 0 the distance never decreases |
| Kinematics.Simulate | s2310710040.py:132-134 | 50 time samples, each paired with v(t) and s(t) |
| Kinematics.SimulateLastSample | s2310710040.py:132-143 | the last sample is the stop: time v0/a, velocity 0, distance v0²/(2a) |
| Kinematics.SimulateInvariant | s2310710040.py:132-134 | for a > 0 and v0 >= 0 the run starts at (0, v0, 0), velocity is non-increasing, distance non-decreasing |
| RuleOfThumb.Distances | s2310710040.py:146-152 | each stopping distance is its braking part plus the reaction distance; the danger part is half the normal one |
| RuleOfThumb.DistancesInVelocity | s2310710040.py:146-152 | sstop = 0.1296·v² + 1.08·v and sstop_danger = 0.0648·v² + 1.08·v |
| RuleOfThumb.DangerNotLonger | s2310710040.py:148-152 | sstop_danger <= sstop, and they differ by half of snormal |
| RuleOfThumb.StopTimesOverVelocity | s2310710040.py:157-158 | the km/h round trip cancels, so each stopping time is its distance over the velocity |
| RuleOfThumb.DangerTimeNotLonger | s2310710040.py:157-158 | for a positive velocity the danger time is never longer than the normal time |
| RuleOfThumb.DefaultVelocityExample | s2310710040.py:146-158 | for 27.5 m/s (99 km/h): 98.01, 49.005, 29.7, 127.71 and 78.705 exactly |
| RuleOfThumb.Ramps | s2310710040.py:154-161 | both display ramps have 50 time and 50 distance samples |
| RuleOfThumb.RampEnds | s2310710040.py:154-161 | each ramp runs from (0, 0) to (its stopping time, its stopping distance) |
| Simulation.Compute | s2310710040.py:127-158 | the report carries the sampled run of `Simulate` and the rule-of-thumb distances of the velocity; its braking time is v0/a and braking distance v0²/(2a), with a = mu·g·cos; the rule-of-thumb times are those distances over the velocity |
| Simulation.Run | s2310710040.py:92-161 | resolves the coefficient on the arguments (road type possibly overwritten, condition kept), then computes the report from it |
| Simulation.ConcreteDryScenario | s2310710040.py:101-143 | concrete/dry, 27.5 m/s, flat: mu 0.5, a = 4.903325, stop time in (5.60, 5.61), distance in (77.11, 77.12) |
| Simulation.IceWetScenario | s2310710040.py:107-143 | ice/wet, 20 m/s, flat: mu 0.08, a = 0.784532, stop time in (25.49, 25.50) |
| Simulation.WaterDryScenario | s2310710040.py:115-120 | water/dry falls back to 0.5 and road type "concrete" |

## Notes on the source

- When the pair misses, the diagnostic says the condition is reset to "dry",
  but the code leaves `args.Condition` unchanged.
  `Friction.ReportedPairDisagrees` characterises when the reported pair then
  disagrees with the returned coefficient. The model follows the code.
- The program uses `scipy.constants.g` = 9.80665, and so do the scenarios.
  With g rounded to 9.81 the ice/wet stop time at 20 m/s would read 25.48 s.
  With 9.80665 it is about 25.49 s.

## Left out

- Argument parsing: the argparse wiring and the module-level `args`
  (s2310710040.py:68-90) are not modelled. `Friction.Args` holds the parsed values.
- Parsing text as a number: Python's `float()` is a library call. `CheckFloat`
  receives its outcome as an `Option<real>`.
- Non-finite numbers: Python's `float()` also accepts "nan", "inf" and
  "infinity", which then flow into NaN or infinite series. The parse result
  here is a finite `real`, so the model does not cover those inputs.
- Diagnostics: every `print` is output only and is not modelled.
- The angle: `math.radians`, `math.cos` and `scipy.constants.g` are foreign
  float calls. The cosine and `g` are real parameters.
- Rounding: `round(..., 2)` and floating-point rounding in general are not
  modelled, because all arithmetic is exact.
- Division by zero: mass 0, zero deceleration and velocity 0 make the source
  raise `ZeroDivisionError`. These are preconditions (`requires`), not
  modelled error paths.
- Plotting: figures, text boxes, the PDF file name, `savefig` and `plt.show`
  (s2310710040.py:164-263) are presentation and I/O.
- RuleOfThumb.Ramps: states only the sample counts. Where the ramps start and end is in `RampEnds`.
