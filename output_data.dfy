/** ModelOutputData: the snapshot a model publishes (mood, mood velocity and the
    treatment effect last applied), and the way the abstract model base builds it. */
module OutputData {
  import opened Numeric

  /** What the BpdMood setter stores: numpy.clip(val, -1, 1). */
  function ClipMood(v: real): (r: real)
    ensures -1.0 <= r <= 1.0
    ensures -1.0 <= v <= 1.0 ==> r == v
    ensures v < -1.0 ==> r == -1.0
    ensures 1.0 < v ==> r == 1.0
  {
    Clip(v, -1.0, 1.0)
  }

  /** Clipping the mood a second time changes nothing. */
  lemma ClipMoodIdempotent(v: real)
    ensures ClipMood(ClipMood(v)) == ClipMood(v)
  {
  }

  class ModelOutputData {
    var bpdMood: real
    var bpdMoodVelocity: real
    var bpdTreatmentEffect: real

    /** The constructor stores its arguments as given; in particular the mood
        is not clipped. */
    constructor (mood: real := 0.0, moodVelocity: real := 0.0, treatmentEffect: real := 0.0)
      ensures bpdMood == mood
      ensures bpdMoodVelocity == moodVelocity
      ensures bpdTreatmentEffect == treatmentEffect
    {
      bpdMood := mood;
      bpdMoodVelocity := moodVelocity;
      bpdTreatmentEffect := treatmentEffect;
    }

    /** The BpdMood setter: the stored mood is the clipped value, so it lies in
        [-1, 1] after any assignment. */
    method SetBpdMood(val: real)
      modifies this
      ensures bpdMood == ClipMood(val)
      ensures -1.0 <= bpdMood <= 1.0
      ensures bpdMoodVelocity == old(bpdMoodVelocity)
      ensures bpdTreatmentEffect == old(bpdTreatmentEffect)
    {
      bpdMood := ClipMood(val);
    }

    /** The BpdMoodVelocity setter stores the value unchanged. */
    method SetBpdMoodVelocity(val: real)
      modifies this
      ensures bpdMoodVelocity == val
      ensures bpdMood == old(bpdMood)
      ensures bpdTreatmentEffect == old(bpdTreatmentEffect)
    {
      bpdMoodVelocity := val;
    }

    /** The BpdTreatmentEffect setter stores the value unchanged. */
    method SetBpdTreatmentEffect(val: real)
      modifies this
      ensures bpdTreatmentEffect == val
      ensures bpdMood == old(bpdMood)
      ensures bpdMoodVelocity == old(bpdMoodVelocity)
    {
      bpdTreatmentEffect := val;
    }
  }

  /** The abstract model's constructor passes (mood, treatmentEffect)
      positionally to ModelOutputData(mood, moodVelocity, treatmentEffect): the
      initial treatment effect lands in the velocity and the published treatment
      effect starts at 0. */
  method NewModelState(mood: real, treatmentEffect: real) returns (s: ModelOutputData)
    ensures fresh(s)
    ensures s.bpdMood == mood
    ensures s.bpdMoodVelocity == treatmentEffect
    ensures s.bpdTreatmentEffect == 0.0
  {
    s := new ModelOutputData(mood, treatmentEffect);
  }
}
