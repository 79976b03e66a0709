/** Properties of the workout formulas: which inputs each result depends on,
    closed forms, monotonicity, and the effect of the walking floor division. */
module TrainingFacts {
  import opened Training

  /** Distance uses step length 0.65 m for running and walking, and the
      overriding 1.38 m for swimming. */
  lemma DistanceFormula(w: Workout)
    ensures Distance(w) == w.action * (if w.Swimming? then 1.38 else 0.65) / 1000.0
  {
  }

  /** Distance depends only on the action count and on whether the workout
      is a swim; duration, weight and the kind's own fields play no part. */
  lemma DistanceIndependence(w1: Workout, w2: Workout)
    requires w1.Swimming? == w2.Swimming? && w1.action == w2.action
    ensures Distance(w1) == Distance(w2)
  {
  }

  /** For the same action count a swim covers 1.38/0.65 times the distance a
      run or a walk does. */
  lemma SwimmingDistanceOverride(s: Workout, w: Workout)
    requires s.Swimming? && !w.Swimming? && s.action == w.action
    ensures Distance(s) * 0.65 == Distance(w) * 1.38
  {
  }

  /** More actions of the same kind never give a shorter distance. */
  lemma DistanceMonotone(w1: Workout, w2: Workout)
    requires w1.Swimming? == w2.Swimming? && w1.action <= w2.action
    ensures Distance(w1) <= Distance(w2)
  {
  }

  /** For running and walking, with a positive duration, more actions give a
      higher mean speed. */
  lemma MeanSpeedMonotone(w1: Workout, w2: Workout)
    requires !w1.Swimming? && !w2.Swimming?
    requires w1.duration == w2.duration && w1.duration > 0.0
    requires w1.action <= w2.action
    ensures MeanSpeed(w1) <= MeanSpeed(w2)
    ensures w1.action < w2.action ==> MeanSpeed(w1) < MeanSpeed(w2)
  {
    DistanceMonotone(w1, w2);
    if w1.action < w2.action {
      assert Distance(w1) < Distance(w2);
    }
    QuotientMonotone(Distance(w1), Distance(w2), w1.duration);
  }

  /** Dividing by a positive number keeps the order, strict or not. */
  lemma QuotientMonotone(x: real, y: real, d: real)
    requires d > 0.0 && x <= y
    ensures x / d <= y / d
    ensures x < y ==> x / d < y / d
  {
    assert (y / d - x / d) * d == y - x;
  }

  /** The swimming mean speed is the pool distance over the duration and does
      not depend on the stroke count; nor, therefore, do the swimming
      calories. */
  lemma SwimmingIndependentOfAction(w1: Workout, w2: Workout)
    requires w1.Swimming? && w2.Swimming? && w1.duration != 0.0
    requires w1.duration == w2.duration && w1.weight == w2.weight
    requires w1.lengthPool == w2.lengthPool && w1.countPool == w2.countPool
    ensures MeanSpeed(w1) == w1.lengthPool * w1.countPool / 1000.0 / w1.duration
    ensures MeanSpeed(w1) == MeanSpeed(w2)
    ensures SpentCalories(w1) == SpentCalories(w2)
  {
  }

  /** The running calorie formula rises with the mean speed when weight and
      duration are positive. */
  lemma RunningCaloriesMonotoneInSpeed(s1: real, s2: real, weight: real, duration: real)
    requires weight > 0.0 && duration > 0.0 && s1 <= s2
    ensures RunningCaloriesAt(s1, weight, duration) <= RunningCaloriesAt(s2, weight, duration)
    ensures s1 < s2 ==> RunningCaloriesAt(s1, weight, duration) < RunningCaloriesAt(s2, weight, duration)
  {
    var k := weight / MInKm * duration * MinutesCoef;
    assert k > 0.0 by {
      assert weight / MInKm > 0.0;
      assert weight / MInKm * duration > 0.0;
    }
    assert RunningCaloriesAt(s1, weight, duration) == (18.0 * s1 - 20.0) * k;
    assert RunningCaloriesAt(s2, weight, duration) == (18.0 * s2 - 20.0) * k;
    assert RunningCaloriesAt(s2, weight, duration) - RunningCaloriesAt(s1, weight, duration)
      == 18.0 * (s2 - s1) * k;
  }

  /** Hence, for a run of fixed positive weight and duration, more steps burn
      more calories. */
  lemma RunningCaloriesMonotoneInAction(w1: Workout, w2: Workout)
    requires w1.Running? && w2.Running?
    requires w1.duration == w2.duration && w1.duration > 0.0
    requires w1.weight == w2.weight && w1.weight > 0.0
    requires w1.action <= w2.action
    ensures SpentCalories(w1) <= SpentCalories(w2)
    ensures w1.action < w2.action ==> SpentCalories(w1) < SpentCalories(w2)
  {
    MeanSpeedMonotone(w1, w2);
    RunningCaloriesMonotoneInSpeed(MeanSpeed(w1), MeanSpeed(w2), w1.weight, w1.duration);
  }

  /** Closed form of the running calories: the duration cancels out of the
      speed term, leaving 0.000702 kcal per step and kilogram minus 1.2 kcal
      per hour and kilogram. */
  lemma RunningCaloriesClosedForm(w: Workout)
    requires w.Running? && w.duration != 0.0
    ensures SpentCalories(w) == 0.000702 * w.action * w.weight - 1.2 * w.duration * w.weight
  {
  }

  /** A square below the height floor-divides to 0. */
  lemma SquareBelowHeight(v: real, h: real)
    requires v * v < h
    ensures h > 0.0 && WalkingHeightTerm(v, h) == 0
  {
    var x := v * v;
    assert 0.0 <= x / h < 1.0 by {
      assert x / h * h == x;
    }
  }

  /** When the squared speed is below the height, the floor division gives 0
      and the walking calories reduce to the weight term alone. */
  lemma WalkingSlowCalories(w: Workout)
    requires w.SportsWalking? && w.duration != 0.0
    requires MeanSpeed(w) * MeanSpeed(w) < w.height
    ensures WalkingHeightTerm(MeanSpeed(w), w.height) == 0
    ensures SpentCalories(w) == 0.035 * w.weight * w.duration * 60.0
  {
    var v := MeanSpeed(w);
    SquareBelowHeight(v, w.height);
  }

  /** The walking calories with ordinary division in place of the floor
      division. */
  function ExactWalkingCaloriesAt(speed: real, weight: real, height: real, duration: real): real
    requires height != 0.0
  {
    WalkingCaloriesForTerm(speed * speed / height, weight, duration)
  }

  /** The sign of a product of non-negative numbers. */
  lemma NonNegativeProduct(a: real, b: real)
    requires a >= 0.0 && b >= 0.0
    ensures a * b >= 0.0
    ensures a > 0.0 && b > 0.0 ==> a * b > 0.0
  {
  }

  /** The difference of two walking calorie values is the difference of
      their height terms times 0.029 * weight * duration * 60. */
  lemma WalkingTermDifference(t1: real, t2: real, weight: real, duration: real)
    ensures WalkingCaloriesForTerm(t2, weight, duration) - WalkingCaloriesForTerm(t1, weight, duration)
         == (t2 - t1) * (0.029 * weight * duration * 60.0)
  {
  }

  /** The walking calories grow with the height term, strictly when the
      weight is positive. */
  lemma WalkingTermMonotone(t1: real, t2: real, weight: real, duration: real)
    requires t1 <= t2 && weight >= 0.0 && duration > 0.0
    ensures WalkingCaloriesForTerm(t1, weight, duration) <= WalkingCaloriesForTerm(t2, weight, duration)
    ensures t1 < t2 && weight > 0.0 ==>
      WalkingCaloriesForTerm(t1, weight, duration) < WalkingCaloriesForTerm(t2, weight, duration)
  {
    NonNegativeProduct(0.029 * weight, duration);
    NonNegativeProduct(0.029 * weight * duration, 60.0);
    NonNegativeProduct(t2 - t1, 0.029 * weight * duration * 60.0);
    WalkingTermDifference(t1, t2, weight, duration);
  }

  /** One more unit of height term adds 0.029 * weight * duration * 60. */
  lemma WalkingTermStep(t: real, weight: real, duration: real)
    ensures WalkingCaloriesForTerm(t + 1.0, weight, duration)
         == WalkingCaloriesForTerm(t, weight, duration) + 0.029 * weight * duration * 60.0
  {
  }

  /** Because of the floor division the walking calories never exceed what
      ordinary division would give, and fall short of it by less than one
      unit of height term (0.029 * weight * duration * 60) when the weight is
      positive. */
  lemma WalkingFloorBracket(speed: real, weight: real, height: real, duration: real)
    requires height != 0.0 && weight >= 0.0 && duration > 0.0
    ensures WalkingCaloriesAt(speed, weight, height, duration)
         <= ExactWalkingCaloriesAt(speed, weight, height, duration)
    ensures weight > 0.0 ==>
      ExactWalkingCaloriesAt(speed, weight, height, duration)
      < WalkingCaloriesAt(speed, weight, height, duration) + 0.029 * weight * duration * 60.0
  {
    var q := WalkingHeightTerm(speed, height) as real;
    var x := speed * speed / height;
    WalkingTermMonotone(q, x, weight, duration);
    WalkingTermStep(q, weight, duration);
    WalkingTermMonotone(x, q + 1.0, weight, duration);
  }
}
