/**
 * Workout statistics as homework.py computes them: three workout kinds that
 * share one base contract (distance, mean speed, calories, summary record),
 * and the factory that turns a type code and a list of sensor readings into
 * a workout.
 *
 * Every quantity is an exact `real`; the source's floating-point rounding is
 * not modelled.
 */
module Workouts {

  // Constants of the base class Training.
  /** Metres in a kilometre. */
  const M_IN_KM: real := 1000.0
  /** Minutes in an hour. */
  const H_IN_MIN: real := 60.0
  /** Step length in metres, inherited by Running and SportsWalking. */
  const LEN_STEP: real := 0.65

  // Constants of Running.
  const CALORIES_MEAN_SPEED_MULTIPLIER: real := 18.0
  const CALORIES_MEAN_SPEED_SHIFT: real := 1.79

  // Constants of SportsWalking.
  const WALK_COEF_1: real := 0.035
  const WALK_COEF_2: real := 0.029
  /** Factor from km/h to m/s, as the source rounds it. */
  const KM_H_IN_M_S: real := 0.278
  /** Centimetres in a metre. */
  const CM_IN_M: real := 100.0

  // Constants of Swimming.
  /** Length of one stroke in metres; Swimming overrides LEN_STEP with it. */
  const SWIM_LEN_STEP: real := 1.38
  const NUMBER_1: real := 1.1
  const NUMBER_2: real := 2.0

  /**
   * One workout, as one of the three subclasses of Training.  `action` is
   * the number of steps or strokes, `duration` is in hours, `weight` in kg,
   * `height` in cm, `lengthPool` in metres and `countPool` is the number of
   * pool lengths swum.
   */
  datatype Workout =
    | Running(action: int, duration: real, weight: real)
    | SportsWalking(action: int, duration: real, weight: real, height: real)
    | Swimming(action: int, duration: real, weight: real, lengthPool: int, countPool: int)

  /** The summary record of one workout (InfoMessage). */
  datatype InfoMessage = InfoMessage(
    trainingType: string,
    duration: real,
    distance: real,
    speed: real,
    calories: real)

  /** The class name that the summary record carries, `type(self).__name__`. */
  function TypeName(w: Workout): string
  {
    match w
    case Running(_, _, _) => "Running"
    case SportsWalking(_, _, _, _) => "SportsWalking"
    case Swimming(_, _, _, _, _) => "Swimming"
  }

  /** The step length the workout's class sees. */
  function StepLength(w: Workout): real
  {
    if w.Swimming? then SWIM_LEN_STEP else LEN_STEP
  }

  function Square(x: real): real
  {
    x * x
  }

  /** Distance in km: steps (or strokes) times the step length in metres. */
  function Distance(w: Workout): (km: real)
    ensures km * M_IN_KM == w.action as real * StepLength(w)
    ensures w.action >= 0 <==> km >= 0.0
  {
    w.action as real * StepLength(w) / M_IN_KM
  }

  /**
   * Mean speed in km/h.  Running and SportsWalking use the base definition,
   * distance over time; Swimming overrides it with the length swum in the
   * pool, which does not depend on the stroke count.
   */
  function MeanSpeed(w: Workout): (kmh: real)
    requires w.duration != 0.0
    ensures !w.Swimming? ==> kmh * w.duration == Distance(w)
    ensures w.Swimming? ==> kmh * w.duration * M_IN_KM == (w.lengthPool * w.countPool) as real
  {
    if w.Swimming? then
      (w.lengthPool * w.countPool) as real / M_IN_KM / w.duration
    else
      Distance(w) / w.duration
  }

  /**
   * Swimming's speed comes from the pool alone: two swims that differ only
   * in their stroke count have the same speed, though not the same distance.
   */
  lemma SwimmingSpeedIgnoresAction(a1: int, a2: int, duration: real, weight: real, lengthPool: int, countPool: int)
    requires duration != 0.0
    ensures MeanSpeed(Swimming(a1, duration, weight, lengthPool, countPool))
            == MeanSpeed(Swimming(a2, duration, weight, lengthPool, countPool))
    ensures (Distance(Swimming(a1, duration, weight, lengthPool, countPool))
             == Distance(Swimming(a2, duration, weight, lengthPool, countPool)))
            <==> a1 == a2
  {
  }

  /**
   * The readings for which the calorie formulas divide by no zero: a
   * nonzero duration, and for SportsWalking also a nonzero height.
   */
  predicate Computable(w: Workout)
  {
    w.duration != 0.0 && (w.SportsWalking? ==> w.height != 0.0)
  }

  /**
   * Calories written directly over the raw readings, with the speed and the
   * unit conversions multiplied out.  Running and Swimming need no division
   * at all; SportsWalking still divides by height and duration.
   */
  function CaloriesFromReadings(w: Workout): real
    requires Computable(w)
  {
    match w
    case Running(action, duration, weight) =>
      weight * (0.000702 * action as real + 0.1074 * duration)
    case SportsWalking(action, duration, weight, height) =>
      60.0 * weight * (0.035 * duration
                       + 2.9 * Square(0.0001807 * action as real) / (height * duration))
    case Swimming(_, duration, weight, lengthPool, countPool) =>
      weight * (0.002 * (lengthPool * countPool) as real + 2.2 * duration)
  }

  /**
   * Calories spent, by the workout's own formula (its class's
   * get_spent_calories).  The base class's "not implemented" branch has no
   * counterpart: every kind has a case.
   */
  function SpentCalories(w: Workout): (kcal: real)
    requires Computable(w)
    ensures kcal == CaloriesFromReadings(w)
  {
    match w
    case Running(_, _, _) => RunningCalories(w)
    case SportsWalking(_, _, _, _) => WalkingCalories(w)
    case Swimming(_, _, _, _, _) => SwimmingCalories(w)
  }

  /** Running: `(18 * speed + 1.79) * weight / 1000 * minutes`. */
  function RunningCalories(w: Workout): (kcal: real)
    requires w.Running? && Computable(w)
    ensures kcal == CaloriesFromReadings(w)
  {
    var speed := MeanSpeed(w);
    RunningCaloriesExpansion(speed, w.duration, w.weight, w.action as real);
    (CALORIES_MEAN_SPEED_MULTIPLIER * speed + CALORIES_MEAN_SPEED_SHIFT)
    * w.weight / M_IN_KM * (w.duration * H_IN_MIN)
  }

  /** SportsWalking: weight term plus squared speed in m/s over height in m, per minute. */
  function WalkingCalories(w: Workout): (kcal: real)
    requires w.SportsWalking? && Computable(w)
    ensures kcal == CaloriesFromReadings(w)
  {
    var speed := MeanSpeed(w);
    WalkingCaloriesExpansion(speed, w.duration, w.weight, w.height, w.action as real);
    (WALK_COEF_1 * w.weight
     + (Square(speed * KM_H_IN_M_S) / (w.height / CM_IN_M)) * WALK_COEF_2 * w.weight)
    * (w.duration * H_IN_MIN)
  }

  /** Swimming: `(speed + 1.1) * 2 * weight * duration`, with the pool-based speed. */
  function SwimmingCalories(w: Workout): (kcal: real)
    requires w.Swimming? && Computable(w)
    ensures kcal == CaloriesFromReadings(w)
  {
    var speed := MeanSpeed(w);
    SwimmingCaloriesExpansion(speed, w.duration, w.weight, (w.lengthPool * w.countPool) as real);
    (speed + NUMBER_1) * NUMBER_2 * w.weight * w.duration
  }

  /** Running's formula with the speed `s` (so that `s * d` is the distance) multiplied out. */
  lemma RunningCaloriesExpansion(s: real, d: real, weight: real, action: real)
    requires s * d == action * 0.65 / 1000.0
    ensures (18.0 * s + 1.79) * weight / 1000.0 * (d * 60.0)
            == weight * (0.000702 * action + 0.1074 * d)
  {
    calc {
      (18.0 * s + 1.79) * weight / 1000.0 * (d * 60.0);
      0.06 * weight * (18.0 * (s * d) + 1.79 * d);
    }
  }

  /** SportsWalking's formula with the speed `s` multiplied out. */
  lemma WalkingCaloriesExpansion(s: real, d: real, weight: real, height: real, action: real)
    requires d != 0.0 && height != 0.0
    requires s * d == action * 0.65 / 1000.0
    ensures (WALK_COEF_1 * weight + (Square(s * KM_H_IN_M_S) / (height / CM_IN_M)) * WALK_COEF_2 * weight)
            * (d * H_IN_MIN)
            == 60.0 * weight * (0.035 * d + 2.9 * Square(0.0001807 * action) / (height * d))
  {
    var v := 0.0001807 * action;
    var q := Square(s * KM_H_IN_M_S);
    assert s * 0.278 * d == v;
    assert q * (d * d) == Square(v);
    assert q * d == Square(v) / d;
    calc {
      (0.035 * weight + (q / (height / 100.0)) * 0.029 * weight) * (d * 60.0);
      60.0 * weight * (0.035 * d + 2.9 * (q * d) / height);
      60.0 * weight * (0.035 * d + 2.9 * (Square(v) / d) / height);
      60.0 * weight * (0.035 * d + 2.9 * Square(v) / (height * d));
    }
  }

  /** Swimming's formula with the pool-based speed `s` multiplied out. */
  lemma SwimmingCaloriesExpansion(s: real, d: real, weight: real, pool: real)
    requires s * d * 1000.0 == pool
    ensures (s + 1.1) * 2.0 * weight * d == weight * (0.002 * pool + 2.2 * d)
  {
    calc {
      (s + 1.1) * 2.0 * weight * d;
      2.0 * weight * (s * d + 1.1 * d);
    }
  }

  /**
   * Summary record of a workout (show_training_info): the class name, the
   * duration as given, and the workout's own distance, speed and calories.
   */
  function ShowTrainingInfo(w: Workout): (info: InfoMessage)
    requires Computable(w)
    ensures info.trainingType == TypeName(w) && info.duration == w.duration
    ensures info.distance == Distance(w) && info.speed == MeanSpeed(w)
    ensures info.calories == SpentCalories(w)
  {
    InfoMessage(TypeName(w), w.duration, Distance(w), MeanSpeed(w), SpentCalories(w))
  }

  /**
   * What read_package gives back: a constructed workout, nothing (the
   * warning for an unknown code), or the TypeError raised when the unpacked
   * readings do not match the constructor's parameters.
   */
  datatype Construction = Constructed(training: Workout) | UnknownType | ArgMismatch

  /** The codes read_package recognises. */
  predicate KnownCode(code: string)
  {
    code == "SWM" || code == "RUN" || code == "WLK"
  }

  /** The number of positional readings the code's constructor takes. */
  function Arity(code: string): nat
    requires KnownCode(code)
  {
    if code == "SWM" then 5 else if code == "RUN" then 3 else 4
  }

  /** The code that selects the workout's class. */
  function Code(w: Workout): (code: string)
    ensures KnownCode(code)
  {
    match w
    case Running(_, _, _) => "RUN"
    case SportsWalking(_, _, _, _) => "WLK"
    case Swimming(_, _, _, _, _) => "SWM"
  }

  /** The workout's constructor arguments, in declaration order. */
  function Parameters(w: Workout): (p: seq<real>)
    ensures |p| == Arity(Code(w))
  {
    match w
    case Running(action, duration, weight) =>
      [action as real, duration, weight]
    case SportsWalking(action, duration, weight, height) =>
      [action as real, duration, weight, height]
    case Swimming(action, duration, weight, lengthPool, countPool) =>
      [action as real, duration, weight, lengthPool as real, countPool as real]
  }

  /** The sensor readings as the numbers the constructors receive. */
  function AsReals(data: seq<int>): (r: seq<real>)
    ensures |r| == |data| && forall i :: 0 <= i < |data| ==> r[i] == data[i] as real
  {
    seq(|data|, i requires 0 <= i < |data| => data[i] as real)
  }

  /**
   * The factory read_package: looks the code up and binds the readings
   * positionally to the chosen constructor.
   */
  function ReadPackage(workoutType: string, data: seq<int>): (c: Construction)
    ensures c == UnknownType <==> !KnownCode(workoutType)
    ensures c == ArgMismatch <==> KnownCode(workoutType) && |data| != Arity(workoutType)
    ensures c.Constructed? ==> Code(c.training) == workoutType && Parameters(c.training) == AsReals(data)
  {
    if workoutType == "SWM" then
      if |data| == 5 then
        Constructed(Swimming(data[0], data[1] as real, data[2] as real, data[3], data[4]))
      else
        ArgMismatch
    else if workoutType == "RUN" then
      if |data| == 3 then
        Constructed(Running(data[0], data[1] as real, data[2] as real))
      else
        ArgMismatch
    else if workoutType == "WLK" then
      if |data| == 4 then
        Constructed(SportsWalking(data[0], data[1] as real, data[2] as real, data[3] as real))
      else
        ArgMismatch
    else
      UnknownType
  }

  /** A workout is determined by its code and its constructor arguments. */
  lemma ParametersDetermineWorkout(w1: Workout, w2: Workout)
    requires Code(w1) == Code(w2) && Parameters(w1) == Parameters(w2)
    ensures w1 == w2
  {
  }

  /** Every reading of the workout is a whole number. */
  predicate WholeReadings(w: Workout)
  {
    forall x :: x in Parameters(w) ==> x == x.Floor as real
  }

  /**
   * Round trip: a workout whose readings are whole numbers is exactly what
   * read_package builds from its code and its own argument list.
   */
  lemma ReadPackageRoundTrip(w: Workout)
    requires WholeReadings(w)
    ensures
      var p := Parameters(w);
      ReadPackage(Code(w), seq(|p|, i requires 0 <= i < |p| => p[i].Floor)) == Constructed(w)
  {
  }

  // The three sample packages of the script.

  lemma SwimmingSample()
    ensures ReadPackage("SWM", [720, 1, 80, 25, 40]) == Constructed(Swimming(720, 1.0, 80.0, 25, 40))
    ensures ShowTrainingInfo(Swimming(720, 1.0, 80.0, 25, 40))
            == InfoMessage("Swimming", 1.0, 0.9936, 1.0, 336.0)
  {
  }

  lemma RunningSample()
    ensures ReadPackage("RUN", [15000, 1, 75]) == Constructed(Running(15000, 1.0, 75.0))
    ensures ShowTrainingInfo(Running(15000, 1.0, 75.0))
            == InfoMessage("Running", 1.0, 9.75, 9.75, 797.805)
  {
  }

  lemma WalkingSample()
    ensures ReadPackage("WLK", [9000, 1, 75, 180]) == Constructed(SportsWalking(9000, 1.0, 75.0, 180.0))
    ensures ShowTrainingInfo(SportsWalking(9000, 1.0, 75.0, 180.0))
            == InfoMessage("SportsWalking", 1.0, 5.85, 5.85, 349.251747525)
  {
  }

  /** "RUN" with two readings is an argument mismatch; an unknown code builds nothing. */
  lemma FactoryErrorSamples()
    ensures ReadPackage("RUN", [15000, 1]) == ArgMismatch
    ensures ReadPackage("XYZ", [15000, 1, 75]) == UnknownType
  {
  }
}
