/**
 * The refactored revision, oop_refactor.py: the same three workout kinds
 * with the constants written afresh (Swimming's coefficients renamed
 * COEF_1 and COEF_2, the step length lower-cased), a read_package that
 * constructs and summarises in one call, and a batch entry point.
 *
 * The workout and record values are those of module Workouts; the functions
 * here are this revision's own formulas, each proved equal to the other
 * revision's.
 */
module Refactor {
  import Workouts

  // Constants of the base class Training.
  const M_IN_KM: real := 1000.0
  const H_IN_MIN: real := 60.0
  /** Default step length in metres. */
  const LEN_STEP: real := 0.65

  // Constants of Running.
  const CALORIES_MEAN_SPEED_MULTIPLIER: real := 18.0
  const CALORIES_MEAN_SPEED_SHIFT: real := 1.79

  // Constants of SportsWalking.
  const WALK_COEF_1: real := 0.035
  const WALK_COEF_2: real := 0.029
  const KM_H_IN_M_S: real := 0.278
  const CM_IN_M: real := 100.0

  // Constants of Swimming.
  const SWIM_COEF_1: real := 1.1
  const SWIM_COEF_2: real := 2.0
  const SWIM_LEN_STEP: real := 1.38

  type Workout = Workouts.Workout
  type InfoMessage = Workouts.InfoMessage

  /** Distance in km; equal to the first revision's for every workout. */
  function Distance(w: Workout): (km: real)
    ensures km == Workouts.Distance(w)
  {
    var lenStep := if w.Swimming? then SWIM_LEN_STEP else LEN_STEP;
    w.action as real * lenStep / M_IN_KM
  }

  /** Mean speed in km/h, Swimming's pool-based override included. */
  function MeanSpeed(w: Workout): (kmh: real)
    requires w.duration != 0.0
    ensures kmh == Workouts.MeanSpeed(w)
  {
    if w.Swimming? then
      (w.lengthPool * w.countPool) as real / M_IN_KM / w.duration
    else
      Distance(w) / w.duration
  }

  /**
   * Calories spent, with this revision's constants; equal to the first
   * revision's (where Swimming used NUMBER_1 and NUMBER_2).
   */
  function SpentCalories(w: Workout): (kcal: real)
    requires Workouts.Computable(w)
    ensures kcal == Workouts.SpentCalories(w)
  {
    match w
    case Running(_, duration, weight) =>
      (CALORIES_MEAN_SPEED_MULTIPLIER * MeanSpeed(w) + CALORIES_MEAN_SPEED_SHIFT)
      * weight / M_IN_KM * (duration * H_IN_MIN)
    case SportsWalking(_, duration, weight, height) =>
      (WALK_COEF_1 * weight
       + (Workouts.Square(MeanSpeed(w) * KM_H_IN_M_S) / (height / CM_IN_M)) * WALK_COEF_2 * weight)
      * (duration * H_IN_MIN)
    case Swimming(_, duration, weight, _, _) =>
      (MeanSpeed(w) + SWIM_COEF_1) * SWIM_COEF_2 * weight * duration
  }

  /** The summary record; the same record the first revision assembles. */
  function ShowTrainingInfo(w: Workout): (info: InfoMessage)
    requires Workouts.Computable(w)
    ensures info == Workouts.ShowTrainingInfo(w)
  {
    Workouts.InfoMessage(Workouts.TypeName(w), w.duration, Distance(w), MeanSpeed(w), SpentCalories(w))
  }

  /**
   * Readings a workout plausibly has: no negative counts, and a positive
   * duration, weight and (for SportsWalking) height.
   */
  predicate Plausible(w: Workout)
  {
    && w.action >= 0 && w.duration > 0.0 && w.weight > 0.0
    && (w.SportsWalking? ==> w.height > 0.0)
    && (w.Swimming? ==> w.lengthPool >= 0 && w.countPool >= 0)
  }

  /** On plausible readings distance and speed are never negative and calories are positive. */
  lemma SummaryBounds(w: Workout)
    requires Plausible(w)
    ensures Workouts.Computable(w)
    ensures ShowTrainingInfo(w).distance >= 0.0
    ensures ShowTrainingInfo(w).speed >= 0.0
    ensures ShowTrainingInfo(w).calories > 0.0
  {
  }

  /** Faults that read_package lets escape to its caller. */
  datatype Fault =
    | ArgMismatch   // TypeError: the readings do not fit the constructor
    | ZeroDivision  // ZeroDivisionError: zero duration, or zero height when walking

  /** One line written to standard output. */
  datatype Line = Summary(info: InfoMessage) | UnknownWarning

  /** The effect of one read_package call: a line printed, or a fault raised. */
  datatype Report = Printed(line: Line) | Raised(fault: Fault)

  /**
   * read_package of this revision: builds the workout as the first
   * revision's factory does, then prints its summary; an unknown code
   * prints the warning instead.
   */
  function ReadPackage(workoutType: string, data: seq<int>): (r: Report)
    ensures r == Printed(UnknownWarning) <==> !Workouts.KnownCode(workoutType)
    ensures r == Raised(ArgMismatch)
            <==> Workouts.KnownCode(workoutType) && |data| != Workouts.Arity(workoutType)
    ensures r == Raised(ZeroDivision)
            <==> && Workouts.KnownCode(workoutType) && |data| == Workouts.Arity(workoutType)
                 && (data[1] == 0 || (workoutType == "WLK" && data[3] == 0))
    ensures r.Printed? && r.line.Summary? ==>
              var c := Workouts.ReadPackage(workoutType, data);
              c.Constructed? && Workouts.Computable(c.training)
              && r.line.info == Workouts.ShowTrainingInfo(c.training)
              && r.line.info.duration == data[1] as real
  {
    match Workouts.ReadPackage(workoutType, data)
    case UnknownType => Printed(UnknownWarning)
    case ArgMismatch => Raised(ArgMismatch)
    case Constructed(w) =>
      if Workouts.Computable(w) then Printed(Summary(ShowTrainingInfo(w))) else Raised(ZeroDivision)
  }

  /** One entry of the batch: a type code and its sensor readings. */
  datatype Package = Package(workoutType: string, data: seq<int>)

  /** How a batch run ended: every package was processed, or a fault stopped it. */
  datatype Outcome = Completed | Aborted(fault: Fault)

  /** The lines a batch run printed, in order, and how it ended. */
  datatype Trace = Trace(lines: seq<Line>, outcome: Outcome)

  /** The report of one package, `read_package(*package)`. */
  function Process(p: Package): Report
  {
    ReadPackage(p.workoutType, p.data)
  }

  /**
   * A list comprehension that applies `step` to each package in order.  A
   * raised fault leaves the comprehension, so the packages after it are not
   * processed.
   */
  function RunBatch(packages: seq<Package>, step: Package -> Report): (t: Trace)
    ensures |t.lines| <= |packages|
    ensures t.outcome == Completed ==> |t.lines| == |packages|
  {
    if packages == [] then
      Trace([], Completed)
    else
      match step(packages[0])
      case Raised(fault) => Trace([], Aborted(fault))
      case Printed(line) =>
        var rest := RunBatch(packages[1..], step);
        Trace([line] + rest.lines, rest.outcome)
  }

  /**
   * What a batch run prints: at most one line per package, line i being
   * what package i printed; it completes after all packages or aborts at
   * the first one that raised, with that fault.
   */
  lemma {:induction false} RunBatchSpec(packages: seq<Package>, step: Package -> Report)
    ensures var t := RunBatch(packages, step);
      && |t.lines| <= |packages|
      && (forall i :: 0 <= i < |t.lines| ==> step(packages[i]) == Printed(t.lines[i]))
      && (t.outcome == Completed ==> |t.lines| == |packages|)
      && (t.outcome.Aborted? ==>
            |t.lines| < |packages| && step(packages[|t.lines|]) == Raised(t.outcome.fault))
  {
    if packages != [] && step(packages[0]).Printed? {
      RunBatchSpec(packages[1..], step);
      var rest := RunBatch(packages[1..], step);
      var t := RunBatch(packages, step);
      forall i | 0 <= i < |t.lines|
        ensures step(packages[i]) == Printed(t.lines[i])
      {
        if i > 0 {
          assert packages[i] == packages[1..][i - 1];
          assert t.lines[i] == rest.lines[i - 1];
        }
      }
    }
  }

  /**
   * main: one read_package call per package, in input order, stopping at
   * the first package that raises.
   */
  function Main(packages: seq<Package>): (t: Trace)
    ensures |t.lines| <= |packages|
    ensures forall i :: 0 <= i < |t.lines| ==> Process(packages[i]) == Printed(t.lines[i])
    ensures t.outcome == Completed ==> |t.lines| == |packages|
    ensures t.outcome.Aborted? ==>
              |t.lines| < |packages| && Process(packages[|t.lines|]) == Raised(t.outcome.fault)
  {
    RunBatchSpec(packages, Process);
    RunBatch(packages, Process)
  }

  /** Running two batches one after the other is running their concatenation. */
  lemma {:induction false} RunBatchAppend(xs: seq<Package>, ys: seq<Package>, step: Package -> Report)
    ensures RunBatch(xs + ys, step)
            == if RunBatch(xs, step).outcome == Completed
               then Trace(RunBatch(xs, step).lines + RunBatch(ys, step).lines, RunBatch(ys, step).outcome)
               else RunBatch(xs, step)
  {
    if xs == [] {
      assert xs + ys == ys;
    } else {
      assert (xs + ys)[0] == xs[0];
      assert (xs + ys)[1..] == xs[1..] + ys;
      match step(xs[0])
      case Raised(_) =>
      case Printed(line) =>
        RunBatchAppend(xs[1..], ys, step);
        var rest := RunBatch(xs[1..], step);
        if rest.outcome == Completed {
          assert [line] + (rest.lines + RunBatch(ys, step).lines)
                 == ([line] + rest.lines) + RunBatch(ys, step).lines;
        }
    }
  }

  /** main over `xs + ys` runs `xs` and, if it completed, then `ys`. */
  lemma MainAppend(xs: seq<Package>, ys: seq<Package>)
    ensures Main(xs + ys)
            == if Main(xs).outcome == Completed
               then Trace(Main(xs).lines + Main(ys).lines, Main(ys).outcome)
               else Main(xs)
  {
    RunBatchAppend(xs, ys, Process);
  }

  /** A batch in which no package raises prints one line per package. */
  lemma MainCompletes(packages: seq<Package>)
    requires forall i :: 0 <= i < |packages| ==> Process(packages[i]).Printed?
    ensures Main(packages).outcome == Completed
    ensures |Main(packages).lines| == |packages|
  {
  }

  /** The script's three sample packages. */
  function SamplePackages(): seq<Package>
  {
    [ Package("SWM", [720, 1, 80, 25, 40]),
      Package("RUN", [15000, 1, 75]),
      Package("WLK", [9000, 1, 75, 180]) ]
  }

  lemma SampleRun()
    ensures Main(SamplePackages())
            == Trace([ Summary(Workouts.InfoMessage("Swimming", 1.0, 0.9936, 1.0, 336.0)),
                       Summary(Workouts.InfoMessage("Running", 1.0, 9.75, 9.75, 797.805)),
                       Summary(Workouts.InfoMessage("SportsWalking", 1.0, 5.85, 5.85, 349.251747525)) ],
                     Completed)
  {
    Workouts.SwimmingSample();
    Workouts.RunningSample();
    Workouts.WalkingSample();
  }

  /** An unknown code prints the warning and the batch goes on; a mismatch stops it. */
  lemma FaultSamples()
    ensures Main([Package("XYZ", [1, 2]), Package("RUN", [15000, 1, 75])])
            == Trace([UnknownWarning, Summary(Workouts.InfoMessage("Running", 1.0, 9.75, 9.75, 797.805))],
                     Completed)
    ensures Main([Package("RUN", [15000, 1]), Package("RUN", [15000, 1, 75])])
            == Trace([], Aborted(ArgMismatch))
    ensures ReadPackage("SWM", [720, 0, 80, 25, 40]) == Raised(ZeroDivision)
  {
    Workouts.RunningSample();
  }
}
