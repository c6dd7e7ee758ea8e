# Workout statistics calculator, modelled in Dafny

This project models the core of a small fitness tracker. It computes distance, mean speed and calories burned for three workout kinds: running, sports walking and swimming. It also models the factory that turns a type code and a list of sensor readings into a workout, and the summary record assembled from the three numbers. The repository has two revisions of the same logic, and each gets its own module:

- `workouts.dfy`, module `Workouts`, models `homework.py`. It holds the `Workout` datatype with one constructor per subclass of `Training`, the `InfoMessage` record, the formulas, `show_training_info` and the factory `read_package`. That factory returns a workout, nothing (unknown code) or an argument mismatch.
- `refactor.dfy`, module `Refactor`, models `oop_refactor.py`. It has its own constants, with Swimming's coefficients renamed `COEF_1`/`COEF_2`, and its own formula functions, each proved equal to the first revision's. Its `read_package` builds a workout and summarises it in one call. Its `main` runs over a batch of packages.

Every quantity is an exact `real`. The formulas are rational expressions, so nothing is approximated. Python's exceptions become values:

- `TypeError` from `*data` unpacking becomes `ArgMismatch`, decided by the number of readings.
- `ZeroDivisionError` from a zero duration, or a zero height when walking, becomes `ZeroDivision`. This only arises in the second revision's `read_package`, because that one summarises; the first revision's factory never divides.
- The formula functions themselves require a nonzero duration, and for walking a nonzero height. The predicate `Workouts.Computable` states this condition.

The base class's "not implemented" calorie branch has no counterpart. The variant set is closed, and `SpentCalories` has a case for each variant.

The sensor list is `seq<int>`, following the `list[int]` annotation of `read_package`. Duration, weight and height are passed to the constructors as `int`-valued reals. A workout with fractional readings can be built directly as a `Workout` value.

The Running sample (15000 steps, 1 h, 75 kg) works out to exactly 797.805 kcal, which the three-decimal template shows as 797.805. The sports-walking sample gives exactly 349.251747525 kcal.

Summarising is a pure function of an immutable value. Calling it twice therefore gives the same record by construction, and no lemma is needed for that.

## Model

| member | source | states |
|---|---|---|
| Workouts.Distance | homework.py:39-41 | distance in km times 1000 equals the steps times the step length (0.65 m, or 1.38 m for Swimming); it is non-negative exactly when the step count is |
| Workouts.MeanSpeed | homework.py:43-135 | for Running and SportsWalking, speed times duration is the distance; for Swimming, speed times duration times 1000 is pool length times pool count; defined only for a nonzero duration |
| Workouts.SwimmingSpeedIgnoresAction | homework.py:132-135 | Swimming's speed does not depend on the stroke count, while its distance does (equal distances exactly when the stroke counts are equal) |
| Workouts.SpentCalories | homework.py:74-130 | each variant's own calorie formula (its class's `get_spent_calories`), defined on readings with nonzero duration and, when walking, nonzero height; it equals the multiplied-out form over the raw readings |
| Workouts.RunningCalories | homework.py:74-80 | Running calories `(18*speed + 1.79) * weight / 1000 * (duration*60)` equal `weight * (0.000702*action + 0.1074*duration)` |
| Workouts.WalkingCalories | homework.py:100-106 | SportsWalking calories `(0.035*weight + (speed*0.278)^2/(height/100)*0.029*weight) * (duration*60)` equal `60*weight*(0.035*duration + 2.9*(0.0001807*action)^2/(height*duration))` |
| Workouts.SwimmingCalories | homework.py:127-130 | Swimming calories `(speed + 1.1) * 2 * weight * duration`, with the pool-based speed, equal `weight * (0.002*length_pool*count_pool + 2.2*duration)` |
| Workouts.RunningCaloriesExpansion | homework.py:76-80 | for any speed whose product with the duration is the distance, Running's expression multiplies out to the linear form above |
| Workouts.WalkingCaloriesExpansion | homework.py:102-106 | for any speed whose product with the duration is the distance, SportsWalking's expression multiplies out to the form above |
| Workouts.SwimmingCaloriesExpansion | homework.py:129-130 | for any speed whose product with the duration is the pool length swum in km, Swimming's expression multiplies out to the form above |
| Workouts.ShowTrainingInfo | homework.py:53-59 | the record carries the class name, the duration unchanged, and that variant's own distance, speed and calories |
| Workouts.Code | homework.py:141-145 | every workout kind has one of the three recognised codes |
| Workouts.Parameters | homework.py:31-125 | a workout's constructor arguments number the arity of its code (3, 4 or 5) |
| Workouts.ReadPackage | homework.py:138-150 | an unknown code gives no workout, exactly; a known code with the wrong number of readings is an argument mismatch, exactly; otherwise the workout has that code and its constructor arguments are the readings, in order |
| Workouts.ParametersDetermineWorkout | homework.py:31-37 | two workouts with the same code and the same constructor arguments are equal, so the factory's result is pinned down by its inputs |
| Workouts.ReadPackageRoundTrip | homework.py:146-147 | for a workout whose readings are whole numbers, feeding its code and argument list to the factory builds that very workout |
| Workouts.SwimmingSample | homework.py:161 | package `SWM [720, 1, 80, 25, 40]` gives distance 0.9936 km, speed 1.0 km/h and 336.0 kcal |
| Workouts.RunningSample | homework.py:162 | package `RUN [15000, 1, 75]` gives 9.75 km, 9.75 km/h and 797.805 kcal |
| Workouts.WalkingSample | homework.py:163 | package `WLK [9000, 1, 75, 180]` gives 5.85 km, 5.85 km/h and 349.251747525 kcal |
| Workouts.FactoryErrorSamples | homework.py:146-150 | `RUN` with two readings is an argument mismatch; code `XYZ` builds nothing |
| Refactor.Distance | oop_refactor.py:35-38 | the refactored distance, with `len_step` 0.65 or 1.38, equals the first revision's for every workout |
| Refactor.MeanSpeed | oop_refactor.py:40-137 | the refactored mean speed, with Swimming's override, equals the first revision's whenever the duration is nonzero |
| Refactor.SpentCalories | oop_refactor.py:71-130 | the refactored calories, with Swimming's renamed `COEF_1 = 1.1`, `COEF_2 = 2`, equal the first revision's for every computable workout |
| Refactor.ShowTrainingInfo | oop_refactor.py:52-59 | the refactored summary record equals the first revision's record |
| Refactor.SummaryBounds | oop_refactor.py:35-137 | assumes non-negative step and pool counts and positive duration, weight and height; then the workout is computable, distance and speed are non-negative, and calories are strictly positive for every kind |
| Refactor.ReadPackage | oop_refactor.py:140-156 | gives the warning exactly for an unknown code; gives an argument mismatch exactly for a wrong reading count; gives a zero division exactly when the duration reading, or a walk's height reading, is 0; otherwise prints the summary of the workout the factory builds, with the duration reading unchanged |
| Refactor.Main | oop_refactor.py:159-160 | prints at most one line per package; line i is what package i's `read_package` printed; a completed run printed one line per package; an aborted run stopped at the first package that raised, with that fault |
| Refactor.RunBatch | oop_refactor.py:160 | applies the step to each package in order and stops at the first raise: it prints at most one line per package, and one line for every package when it completes |
| Refactor.RunBatchSpec | oop_refactor.py:160 | a list comprehension over packages in which a raised fault escapes: it prints at most one line per package, line i is what package i printed, it completes after every package or aborts at the first one that raised, with that fault |
| Refactor.RunBatchAppend | oop_refactor.py:160 | running a batch `xs + ys` is running `xs` and, if it completed, then `ys`, with the lines concatenated in order (for any per-package step) |
| Refactor.MainAppend | oop_refactor.py:160 | running a batch `xs + ys` is running `xs` and, if it completed, then `ys`, with the lines concatenated in order |
| Refactor.MainCompletes | oop_refactor.py:160 | a batch in which no package raises completes and prints exactly one line per package |
| Refactor.SampleRun | oop_refactor.py:163-167 | the script's three sample packages print their three summaries, in order, and the run completes |
| Refactor.FaultSamples | oop_refactor.py:148-156 | an unknown code prints the warning and the next package's summary still follows, the run completing; an argument mismatch aborts the batch before later packages; a zero duration raises a zero division |

## Left out

- Text rendering of the record (`InfoMessage.get_message`, `InfoMessage.__str__`, the `{:.3f}` template) is left out. It is float-to-decimal formatting of a fixed message; the model keeps the record's fields, and its warning is the value `UnknownWarning`.
- `print` calls are not modelled as I/O. The second revision's output is modelled as the sequence of lines `Main` returns.
- IEEE-754 rounding and overflow are left out. All arithmetic is exact `real`, and Python's unbounded `int` is Dafny's `int`.
- `dataclasses.asdict` and the dataclass machinery are replaced by the `InfoMessage` datatype.
- The first revision's `main(training)` and its `__main__` loop are printing glue and are left out. Their sample data appear as the sample lemmas.
- `Training.get_spent_calories` raising `NotImplementedError` cannot occur, because there is no bare `Training` value to call it on.
- Python's dynamic typing is left out. A reading that is not a number, passed to a constructor, is not modelled; readings are `int`, as annotated.
