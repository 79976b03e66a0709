# Workout metrics calculator, modelled in Dafny

The fitness tracker takes the raw readings of one workout (number of steps or
strokes, duration in hours, weight in kilograms, and the kind's own
parameters) and computes the distance in kilometres, the mean speed in km/h
and the calories burned, for three kinds of training: running, sports walking
and swimming. A sensor package (a three-letter code and a list of positional
values) is turned into a workout by a lookup table, and every workout yields a
summary record.

The model works over Dafny `real`, the exact counterpart of the tracker's
floats:

- `training.dfy`, module `Training`: the workout as a tagged datatype
  (`Running`, `SportsWalking`, `Swimming`), the constants `LEN_STEP` (0.65,
  overridden by swimming with 1.38), `M_IN_KM` (1000) and the minutes
  coefficient (60), and the per-kind getters: `Distance`, `MeanSpeed`
  (swimming's pool-based override included) and `SpentCalories`, with the
  walking formula's floor division kept as `.Floor`.
- `info.dfy`, module `Info`: the summary record `InfoMessage` and
  `ShowTrainingInfo`.
- `packages.dfy`, module `Packages`: `ReadPackage`, the lookup table from
  `SWM`, `RUN`, `WLK` to the kinds, with an explicit error for an unknown code
  and for positional data of the wrong length, and the round trip between a
  workout and its package.
- `facts.dfy`, module `TrainingFacts`: what the formulas depend on,
  monotonicity of the running calories, the effect of the walking floor
  division.
- `samples.dfy`, module `Samples`: the three sample packages of the tracker's
  driver, and an unknown code.

Division by zero is not handled by the tracker (Python raises
`ZeroDivisionError`), so the mean speed requires a non-zero duration and the
calories require, in addition, a non-zero height for walking
(`Training.NoZeroDivision`).

Swimming overrides `LEN_STEP` with 1.38 (homework.py:102), so the swimming
sample's distance is 720 * 1.38 / 1000 = 0.9936 km; the running sample's
calories are ((18 * 9.75 - 20) * 75) / 1000 * 1 * 60 = 699.75.

## Model

| member | source | states |
|---|---|---|
| Training.StepLength | homework.py:30-102 | the step length is positive, it is the 1.38 override exactly for swimming, and it is 0.65 for running and walking |
| Training.Distance | homework.py:43-46 | a non-negative action count gives a non-negative distance |
| TrainingFacts.DistanceFormula | homework.py:43-46 | distance is action * 1.38 / 1000 for swimming and action * 0.65 / 1000 for running and walking |
| TrainingFacts.DistanceIndependence | homework.py:43-46 | distance depends only on the action count and on whether the workout is a swim |
| TrainingFacts.SwimmingDistanceOverride | homework.py:114-116 | swimming reuses the base distance formula with its own step length: for equal action counts a swim's distance is 1.38/0.65 times a run's or a walk's |
| TrainingFacts.DistanceMonotone | homework.py:43-46 | more actions of the same kind never give a shorter distance |
| Training.MeanSpeed | homework.py:48-51 | for running and walking, mean speed times duration is the distance; for swimming it is the pool distance; requires a non-zero duration |
| Training.PoolDistance | homework.py:118-122 | the pool distance in km times 1000 is pool length times pool count |
| TrainingFacts.MeanSpeedMonotone | homework.py:48-51 | with a fixed positive duration, more steps give a higher (or, for equal counts, the same) mean speed |
| TrainingFacts.SwimmingIndependentOfAction | homework.py:118-127 | the swimming mean speed is length * count / 1000 / duration, and neither it nor the swimming calories depend on the stroke count |
| TrainingFacts.RunningCaloriesMonotoneInSpeed | homework.py:71-76 | for positive weight and duration the running calories are non-decreasing in the mean speed, strictly increasing for a strictly higher speed |
| TrainingFacts.RunningCaloriesMonotoneInAction | homework.py:71-76 | for a run of fixed positive weight and duration, more steps burn more calories |
| TrainingFacts.RunningCaloriesClosedForm | homework.py:71-76 | the running calories equal 0.000702 * action * weight - 1.2 * duration * weight: the duration cancels from the speed term |
| Training.TrainingType | homework.py:67-101 | the kind name is one of "Running", "SportsWalking", "Swimming" (the `training_type` of each subclass, lines 69, 81, 101), and it is "Swimming" exactly for swimming |
| Training.MeanSpeedFromInputs | homework.py:48-122 | the mean speed is action * 0.65 / 1000 / duration for running and walking, and length * count / 1000 / duration for swimming |
| Training.RunningCaloriesAt | homework.py:73-75 | for positive weight and duration the running formula is positive exactly when 18 * speed > 20 and zero exactly when 18 * speed = 20 |
| Training.SwimmingCaloriesAt | homework.py:126 | for a positive weight the swimming formula is positive exactly when speed > -1.1; a zero weight gives zero calories |
| Training.WalkingCaloriesForTerm | homework.py:93-95 | with a non-negative height term, weight and duration the walking formula is at least its weight term 0.035 * weight * duration * 60 |
| Training.WalkingCaloriesAt | homework.py:91-96 | with a positive height the floored walking formula is at least the weight term, and it equals the weight term when speed^2 < height |
| Training.SpentCalories | homework.py:71-127 | each kind's calories are its own formula (running, lines 71-76; walking, 91-96; swimming, 124-127) applied to its own mean speed written out from the inputs: action * 0.65 / 1000 / duration for running and walking, length * count / 1000 / duration for swimming |
| Training.WalkingHeightTerm | homework.py:94 | the floor-divided height term q satisfies q <= speed^2 / height < q + 1 |
| TrainingFacts.SquareBelowHeight | homework.py:94 | a squared speed below the height implies a positive height and a height term of 0 |
| TrainingFacts.WalkingSlowCalories | homework.py:91-96 | when speed^2 < height the height term is 0 and the walking calories are 0.035 * weight * duration * 60 |
| TrainingFacts.WalkingTermMonotone | homework.py:93-95 | the walking calories grow with the height term for non-negative weight and positive duration |
| TrainingFacts.WalkingTermStep | homework.py:93-95 | one more unit of height term adds 0.029 * weight * duration * 60 calories |
| TrainingFacts.WalkingFloorBracket | homework.py:91-96 | the floored walking calories never exceed the ordinary-division value and, for positive weight, fall short of it by less than 0.029 * weight * duration * 60 |
| Info.ShowTrainingInfo | homework.py:57-64 | the summary copies the kind name and the duration and takes distance, speed and calories from the kind's getters; for running and walking its speed times duration is its distance |
| Packages.Code | homework.py:132-136 | each kind's code is in the table and maps back to that kind |
| Packages.CodeUnique | homework.py:132-136 | a code found in the table is the code of the kind it maps to |
| Packages.Construct | homework.py:138 | the record built from positional data has the chosen kind, takes action, duration and weight from the first three values, and its positional fields (height; pool length and count) are exactly the data |
| Packages.ReadPackage | homework.py:130-139 | an unknown code is an error naming the code; a known code with data of the wrong length is an arity error; otherwise the result is a workout of the table's kind whose positional fields are the data |
| Packages.ReadPackageRoundTrip | homework.py:130-139 | every workout is read back from its own code and fields |
| Packages.ReadPackageOnlyFrom | homework.py:130-139 | a package that reads successfully is the code and the fields of the workout it yields |
| Samples.SwimmingSample | homework.py:151 | `SWM` with [720, 1, 80, 25, 40] gives a swim whose summary is distance 0.9936, speed 1.0, calories 336.0 |
| Samples.RunningSample | homework.py:152 | `RUN` with [15000, 1, 75] gives a run whose summary is distance 9.75, speed 9.75, calories 699.75 |
| Samples.WalkingSample | homework.py:153 | `WLK` with [9000, 1, 75, 180] gives a walk whose summary is distance 5.85, speed 5.85, calories 157.5 |
| Samples.UnknownCodeSample | homework.py:137 | an unknown code yields the unknown-type error and no workout |

## Left out

- Text rendering of the summary (`InfoMessage.get_message`, with three decimal places): decimal formatting of floats; the summary is modelled as a record of fields.
- IEEE-754 rounding: all arithmetic is exact over `real`, so every stated equality holds of the mathematical formulas, not necessarily bit-for-bit of the floats.
- The `main` function's printing and the driver loop over the sample packages: I/O; the sample values appear as the lemmas of module `Samples`.
- The base `Training.get_spent_calories` (which returns `None`) and the base training type `''`: placeholders that no package reaches.
- Python's `int` hints on the action count and the pool count: Python does not enforce them and both enter float arithmetic only, so every field is a `real`.
- Python's positional-argument errors when `training_class(*data)` gets the wrong number of values: modelled as the explicit `WrongArity` error, not as an exception.
- Zero duration, or zero height for walking: the tracker raises `ZeroDivisionError` and nothing handles it, so the formulas require them non-zero.
