/** The three sample packages the tracker is run on, and an unknown code,
    worked through dispatch and the summary. */
module Samples {
  import opened Training
  import opened Info
  import opened Packages
  import TrainingFacts

  /** 720 strokes in one hour, 80 kg, twenty-five-metre pool swum 40 times. */
  lemma SwimmingSample()
    ensures ReadPackage("SWM", [720.0, 1.0, 80.0, 25.0, 40.0]) == Ok(Swimming(720.0, 1.0, 80.0, 25.0, 40.0))
    ensures ShowTrainingInfo(Swimming(720.0, 1.0, 80.0, 25.0, 40.0))
         == InfoMessage("Swimming", 1.0, 0.9936, 1.0, 336.0)
  {
  }

  /** 15000 steps in one hour, 75 kg. */
  lemma RunningSample()
    ensures ReadPackage("RUN", [15000.0, 1.0, 75.0]) == Ok(Running(15000.0, 1.0, 75.0))
    ensures ShowTrainingInfo(Running(15000.0, 1.0, 75.0))
         == InfoMessage("Running", 1.0, 9.75, 9.75, 699.75)
  {
  }

  /** 9000 steps in one hour, 75 kg, 180 cm: the squared speed 34.2225 is
      below the height, so the floor-divided term is 0. */
  lemma WalkingSample()
    ensures ReadPackage("WLK", [9000.0, 1.0, 75.0, 180.0]) == Ok(SportsWalking(9000.0, 1.0, 75.0, 180.0))
    ensures ShowTrainingInfo(SportsWalking(9000.0, 1.0, 75.0, 180.0))
         == InfoMessage("SportsWalking", 1.0, 5.85, 5.85, 157.5)
  {
    var w := SportsWalking(9000.0, 1.0, 75.0, 180.0);
    assert MeanSpeed(w) == 5.85;
    TrainingFacts.WalkingSlowCalories(w);
  }

  /** A code outside the table yields no workout. */
  lemma UnknownCodeSample()
    ensures ReadPackage("XYZ", [1.0, 2.0, 3.0]) == Err(UnknownWorkoutType("XYZ"))
  {
  }
}
