/** The workout record and the per-kind formulas for distance, mean speed and
    calories burned. The class hierarchy of the tracker (a base training whose
    distance and speed formulas are shared, with per-kind overrides) becomes one
    tagged datatype; each getter becomes a function that matches on the kind.
    All arithmetic is over `real`, the exact counterpart of the floats used by
    the tracker. */
module Training {

  /** Metres covered by one step (running and sports walking). */
  const LenStep: real := 0.65
  /** Metres covered by one stroke; swimming overrides the step length. */
  const SwimLenStep: real := 1.38
  /** Metres in a kilometre. */
  const MInKm: real := 1000.0
  /** Minutes in an hour. */
  const MinutesCoef: real := 60.0

  /** The three kinds of training the tracker knows. */
  datatype Kind = RunningKind | SportsWalkingKind | SwimmingKind

  /** One workout, as read from the sensors: number of actions (steps or
      strokes), duration in hours, weight in kilograms, and the kind's own
      parameters (height for walking; pool length in metres and number of
      pool lengths for swimming). Fields are set once and never changed. */
  datatype Workout =
    | Running(action: real, duration: real, weight: real)
    | SportsWalking(action: real, duration: real, weight: real, height: real)
    | Swimming(action: real, duration: real, weight: real, lengthPool: real, countPool: real)

  function KindOf(w: Workout): Kind
  {
    match w
    case Running(_, _, _) => RunningKind
    case SportsWalking(_, _, _, _) => SportsWalkingKind
    case Swimming(_, _, _, _, _) => SwimmingKind
  }

  /** The name of the kind, as shown in the summary message. */
  function TrainingType(k: Kind): (name: string)
    ensures name in {"Running", "SportsWalking", "Swimming"}
    ensures k == SwimmingKind <==> name == "Swimming"
  {
    match k
    case RunningKind => "Running"
    case SportsWalkingKind => "SportsWalking"
    case SwimmingKind => "Swimming"
  }

  /** The step length in force for a workout: the shared one, or the one
      swimming overrides it with. */
  function StepLength(w: Workout): (len: real)
    ensures len > 0.0
    ensures len == SwimLenStep <==> w.Swimming?
    ensures !w.Swimming? ==> len == LenStep
  {
    if w.Swimming? then SwimLenStep else LenStep
  }

  /** The inputs on which no formula divides by zero: every mean speed divides
      by the duration, and the walking calories divide by the height. */
  predicate NoZeroDivision(w: Workout)
  {
    w.duration != 0.0 && (w.SportsWalking? ==> w.height != 0.0)
  }

  /** Distance in kilometres. One formula shared by all kinds; what differs is
      the step length. */
  function Distance(w: Workout): (d: real)
    ensures w.action >= 0.0 ==> d >= 0.0
  {
    w.action * StepLength(w) / MInKm
  }

  /** Distance covered in the pool, in kilometres. */
  function PoolDistance(w: Workout): (d: real)
    requires w.Swimming?
    ensures d * MInKm == w.lengthPool * w.countPool
  {
    w.lengthPool * w.countPool / MInKm
  }

  /** Mean speed in km/h. Running and walking use the shared formula
      (distance over duration); swimming overrides it with the pool-based
      speed, so the step count plays no part in it. */
  function MeanSpeed(w: Workout): (v: real)
    requires w.duration != 0.0
    ensures !w.Swimming? ==> v * w.duration == Distance(w)
    ensures w.Swimming? ==> v * w.duration == PoolDistance(w)
  {
    match w
    case Swimming(_, _, _, _, _) => PoolDistance(w) / w.duration
    case _ => Distance(w) / w.duration
  }

  /** Running calories as a function of the mean speed. For a positive
      weight and duration they are positive exactly above 20/18 km/h. */
  function RunningCaloriesAt(speed: real, weight: real, duration: real): (c: real)
    ensures weight > 0.0 && duration > 0.0 ==> (c > 0.0 <==> 18.0 * speed > 20.0)
    ensures weight > 0.0 && duration > 0.0 ==> (c == 0.0 <==> 18.0 * speed == 20.0)
  {
    var k := weight / MInKm * duration * MinutesCoef;
    assert ((18.0 * speed - 20.0) * weight) / MInKm * duration * MinutesCoef
        == (18.0 * speed - 20.0) * k;
    if weight > 0.0 && duration > 0.0 then
      PositiveProduct(weight / MInKm, duration);
      PositiveProduct(weight / MInKm * duration, MinutesCoef);
      ProductSign(18.0 * speed - 20.0, k);
      ((18.0 * speed - 20.0) * weight) / MInKm * duration * MinutesCoef
    else
      ((18.0 * speed - 20.0) * weight) / MInKm * duration * MinutesCoef
  }

  /** The walking height term: the source divides the squared speed by the
      height with floor division, so only whole multiples of the height count. */
  function WalkingHeightTerm(speed: real, height: real): (q: int)
    requires height != 0.0
    ensures q as real <= speed * speed / height < q as real + 1.0
  {
    (speed * speed / height).Floor
  }

  /** Walking calories for a given value of the height term; the weight term
      alone is a lower bound when nothing is negative. */
  function WalkingCaloriesForTerm(term: real, weight: real, duration: real): (c: real)
    ensures term >= 0.0 && weight >= 0.0 && duration >= 0.0 ==>
      c >= 0.035 * weight * duration * MinutesCoef
  {
    assert term >= 0.0 && weight >= 0.0 && duration >= 0.0 ==>
      term * 0.029 * weight * duration * MinutesCoef >= 0.0 by {
      if term >= 0.0 && weight >= 0.0 && duration >= 0.0 {
        assert term * 0.029 >= 0.0;
        assert term * 0.029 * weight >= 0.0;
        assert term * 0.029 * weight * duration >= 0.0;
      }
    }
    assert (0.035 * weight + term * 0.029 * weight) * duration * MinutesCoef
        == 0.035 * weight * duration * MinutesCoef + term * 0.029 * weight * duration * MinutesCoef;

    (0.035 * weight + term * 0.029 * weight) * duration * MinutesCoef
  }

  /** Walking calories as a function of the mean speed: the formula fed with
      the floor-divided height term. */
  function WalkingCaloriesAt(speed: real, weight: real, height: real, duration: real): (c: real)
    requires height != 0.0
    ensures height > 0.0 && weight >= 0.0 && duration >= 0.0 ==>
      c >= 0.035 * weight * duration * MinutesCoef
    ensures speed * speed < height ==> c == 0.035 * weight * duration * MinutesCoef
  {
    var x := speed * speed;
    assert x >= 0.0;
    assert height > 0.0 ==> x / height >= 0.0 by {
      if height > 0.0 { assert x / height * height == x; }
    }
    assert x < height ==> x / height < 1.0 by {
      if x < height { QuotientBelowOne(x, height); }
    }

    WalkingCaloriesForTerm(WalkingHeightTerm(speed, height) as real, weight, duration)
  }

  /** Swimming calories as a function of the mean speed. For a positive
      weight they are positive exactly above -1.1 km/h, so for every real swim. */
  function SwimmingCaloriesAt(speed: real, weight: real): (c: real)
    ensures weight > 0.0 ==> (c > 0.0 <==> speed > -1.1)
    ensures weight == 0.0 ==> c == 0.0
  {
    ProductSign(speed + 1.1, 2.0 * weight);
    assert (speed + 1.1) * 2.0 * weight == (speed + 1.1) * (2.0 * weight);
    (speed + 1.1) * 2.0 * weight
  }

  /** Calories burned: each kind has its own formula, fed with the kind's own
      mean speed. */
  function SpentCalories(w: Workout): (c: real)
    requires NoZeroDivision(w)
    ensures w.Running? ==>
      c == RunningCaloriesAt(w.action * 0.65 / 1000.0 / w.duration, w.weight, w.duration)
    ensures w.SportsWalking? ==>
      c == WalkingCaloriesAt(w.action * 0.65 / 1000.0 / w.duration, w.weight, w.height, w.duration)
    ensures w.Swimming? ==>
      c == SwimmingCaloriesAt(w.lengthPool * w.countPool / 1000.0 / w.duration, w.weight)
  {
    match w
    case Running(_, duration, weight) =>
      MeanSpeedFromInputs(w);
      RunningCaloriesAt(MeanSpeed(w), weight, duration)
    case SportsWalking(_, duration, weight, height) =>
      MeanSpeedFromInputs(w);
      WalkingCaloriesAt(MeanSpeed(w), weight, height, duration)
    case Swimming(_, _, weight, _, _) =>
      MeanSpeedFromInputs(w);
      SwimmingCaloriesAt(MeanSpeed(w), weight)
  }

  /** The mean speed written out from the raw inputs. */
  lemma MeanSpeedFromInputs(w: Workout)
    requires w.duration != 0.0
    ensures !w.Swimming? ==> MeanSpeed(w) == w.action * 0.65 / 1000.0 / w.duration
    ensures w.Swimming? ==> MeanSpeed(w) == w.lengthPool * w.countPool / 1000.0 / w.duration
  {
  }

  /** A product of two positive numbers is positive. */
  lemma PositiveProduct(a: real, b: real)
    requires a > 0.0 && b > 0.0
    ensures a * b > 0.0
  {
  }

  /** Multiplying by a positive number keeps the sign. */
  lemma ProductSign(a: real, k: real)
    ensures k > 0.0 ==> (a * k > 0.0 <==> a > 0.0) && (a * k == 0.0 <==> a == 0.0)
    ensures k == 0.0 ==> a * k == 0.0
  {
    if k > 0.0 {
      if a > 0.0 { PositiveProduct(a, k); }
      if a < 0.0 { PositiveProduct(-a, k); }
    }
  }

  /** A non-negative number below a bound divides by it to less than one. */
  lemma QuotientBelowOne(x: real, h: real)
    requires 0.0 <= x < h
    ensures x / h < 1.0
  {
    assert x / h * h == x;
  }
}
