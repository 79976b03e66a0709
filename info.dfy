/** The summary of one finished workout and its assembly from the three
    per-kind getters. The text rendering of the summary is not modelled. */
module Info {
  import opened Training

  /** The summary record: kind name, duration (h), distance (km), mean
      speed (km/h) and calories burned. */
  datatype InfoMessage = InfoMessage(
    trainingType: string,
    duration: real,
    distance: real,
    speed: real,
    calories: real)

  /** Builds the summary of a workout: the kind's name and the duration are
      copied, the other three fields come from the kind's own getters. */
  function ShowTrainingInfo(w: Workout): (m: InfoMessage)
    requires NoZeroDivision(w)
    ensures m.trainingType == TrainingType(KindOf(w)) && m.duration == w.duration
    ensures m.distance == Distance(w) && m.speed == MeanSpeed(w)
    ensures m.calories == SpentCalories(w)
    ensures !w.Swimming? ==> m.speed * m.duration == m.distance
    ensures w.Swimming? ==> m.speed * m.duration * MInKm == w.lengthPool * w.countPool
  {
    InfoMessage(TrainingType(KindOf(w)), w.duration, Distance(w), MeanSpeed(w), SpentCalories(w))
  }
}
