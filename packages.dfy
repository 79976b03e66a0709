/** Reading a sensor package: a workout code and the positional data that the
    kind's record is built from. */
module Packages {
  import opened Training

  datatype Result<T, E> = Ok(value: T) | Err(error: E)

  /** Why a package cannot be read: the code is not in the lookup table, or
      the data does not have as many values as the kind's record has fields. */
  datatype PackageError =
    | UnknownWorkoutType(code: string)
    | WrongArity(expected: nat, given: nat)

  /** The lookup table from workout codes to kinds. */
  const WorkoutDict: map<string, Kind> :=
    map["SWM" := SwimmingKind, "RUN" := RunningKind, "WLK" := SportsWalkingKind]

  /** The number of positional values each kind's record takes. */
  function Arity(k: Kind): nat
  {
    match k
    case RunningKind => 3
    case SportsWalkingKind => 4
    case SwimmingKind => 5
  }

  /** Builds the record of kind `k` from its positional values, in the order
      action, duration, weight, then the kind's own fields. */
  function Construct(k: Kind, data: seq<real>): (w: Workout)
    requires |data| == Arity(k)
    ensures KindOf(w) == k
    ensures w.action == data[0] && w.duration == data[1] && w.weight == data[2]
    ensures Fields(w) == data
  {
    match k
    case RunningKind => Running(data[0], data[1], data[2])
    case SportsWalkingKind => SportsWalking(data[0], data[1], data[2], data[3])
    case SwimmingKind => Swimming(data[0], data[1], data[2], data[3], data[4])
  }

  /** The positional values a workout record is built from. */
  function Fields(w: Workout): (data: seq<real>)
    ensures |data| == Arity(KindOf(w))
  {
    match w
    case Running(a, d, m) => [a, d, m]
    case SportsWalking(a, d, m, h) => [a, d, m, h]
    case Swimming(a, d, m, l, c) => [a, d, m, l, c]
  }

  /** The code a kind is read from. */
  function Code(k: Kind): (code: string)
    ensures code in WorkoutDict && WorkoutDict[code] == k
  {
    match k
    case RunningKind => "RUN"
    case SportsWalkingKind => "WLK"
    case SwimmingKind => "SWM"
  }

  /** Reads a package: looks the code up in the table (an unknown code is an
      error and yields no workout), then builds the kind's record from the
      positional data. */
  function ReadPackage(workoutType: string, data: seq<real>): (r: Result<Workout, PackageError>)
    ensures workoutType !in WorkoutDict ==> r == Err(UnknownWorkoutType(workoutType))
    ensures workoutType in WorkoutDict && |data| != Arity(WorkoutDict[workoutType]) ==>
      r == Err(WrongArity(Arity(WorkoutDict[workoutType]), |data|))
    ensures r.Ok? <==> workoutType in WorkoutDict && |data| == Arity(WorkoutDict[workoutType])
    ensures r.Ok? ==> KindOf(r.value) == WorkoutDict[workoutType] && Fields(r.value) == data
  {
    if workoutType !in WorkoutDict then
      Err(UnknownWorkoutType(workoutType))
    else
      var k := WorkoutDict[workoutType];
      if |data| != Arity(k) then Err(WrongArity(Arity(k), |data|))
      else Ok(Construct(k, data))
  }

  /** The table has exactly the three codes, so a code found in it is the
      code of the kind it maps to. */
  lemma CodeUnique(code: string)
    requires code in WorkoutDict
    ensures Code(WorkoutDict[code]) == code
  {
  }

  /** Every workout can be read back from its own code and positional data. */
  lemma ReadPackageRoundTrip(w: Workout)
    ensures ReadPackage(Code(KindOf(w)), Fields(w)) == Ok(w)
  {
  }

  /** Conversely, a package that reads successfully is exactly the code and
      the positional data of the workout it yields. */
  lemma ReadPackageOnlyFrom(workoutType: string, data: seq<real>)
    requires ReadPackage(workoutType, data).Ok?
    ensures Code(KindOf(ReadPackage(workoutType, data).value)) == workoutType
    ensures Fields(ReadPackage(workoutType, data).value) == data
  {
  }
}
