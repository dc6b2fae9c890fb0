/** BPDModel1: a damped oscillator with cubic damping for the mood, advanced by
    one explicit Euler step per call. */
module Model1 {
  import opened OutputData

  /** Linear damping. */
  const ALPHA: real := 0.1
  /** Restoring coefficient (omega squared). */
  const OMEGA2: real := 1.0
  /** Nonlinear damping coefficient. */
  const B: real := -1.0

  /** The velocity's rate of change: linear damping, restoring force, cubic
      damping and the external treatment effect. */
  function Acceleration(mood: real, vel: real, effect: real): real
  {
    -ALPHA * vel - OMEGA2 * mood - B * (mood * mood) * vel + effect
  }

  /** One Euler step from the pre-step mood and velocity: (new mood, new velocity). */
  function EulerStep(mood: real, vel: real, effect: real, dt: real): (real, real)
  {
    (mood + vel * dt, vel + Acceleration(mood, vel, effect) * dt)
  }

  /** The treatment effect only enters through the velocity, with weight dt. */
  lemma EffectEntersVelocityOnly(mood: real, vel: real, e1: real, e2: real, dt: real)
    ensures EulerStep(mood, vel, e1, dt).0 == EulerStep(mood, vel, e2, dt).0
    ensures EulerStep(mood, vel, e1, dt).1 - EulerStep(mood, vel, e2, dt).1 == (e1 - e2) * dt
  {
  }

  /** Rest with no treatment is a fixed point of the step. */
  lemma RestIsFixedPoint(dt: real)
    ensures EulerStep(0.0, 0.0, 0.0, dt) == (0.0, 0.0)
  {
  }

  /** A zero step keeps mood and velocity. */
  lemma ZeroStepChangesNothing(mood: real, vel: real, effect: real)
    ensures EulerStep(mood, vel, effect, 0.0) == (mood, vel)
  {
  }

  /** For a nonzero step, the fixed points of the Euler update are exactly the
      states at rest whose mood balances the effect. */
  lemma FixedPoints(mood: real, vel: real, effect: real, dt: real)
    requires dt != 0.0
    ensures EulerStep(mood, vel, effect, dt) == (mood, vel) <==> vel == 0.0 && mood == effect
  {
    if EulerStep(mood, vel, effect, dt) == (mood, vel) {
      assert vel * dt == 0.0;
      assert vel == 0.0;
      assert Acceleration(mood, vel, effect) * dt == 0.0;
    }
  }

  class BPDModel1 {
    const modelState: ModelOutputData

    /** As built by the abstract model: the mood is stored unclipped, the initial
        treatment effect becomes the velocity and the published effect is 0. */
    constructor (mood: real := 0.0, treatmentEffect: real := 0.0)
      ensures fresh(modelState)
      ensures modelState.bpdMood == mood
      ensures modelState.bpdMoodVelocity == treatmentEffect
      ensures modelState.bpdTreatmentEffect == 0.0
    {
      var state := NewModelState(mood, treatmentEffect);
      modelState := state;
    }

    /** One Euler step from the stored mood and velocity; the mood goes through
        the clipping setter, the velocity does not. */
    method Step(treatmentEffect: real, DT: real := 0.04)
      modifies modelState
      ensures var next := EulerStep(old(modelState.bpdMood), old(modelState.bpdMoodVelocity), treatmentEffect, DT);
        && modelState.bpdMood == ClipMood(next.0)
        && modelState.bpdMoodVelocity == next.1
      ensures -1.0 <= modelState.bpdMood <= 1.0
      ensures modelState.bpdTreatmentEffect == treatmentEffect
    {
      var curMood := modelState.bpdMood;
      var curMoodVel := modelState.bpdMoodVelocity;

      var dMood := curMoodVel;
      var dMoodVelocity := -ALPHA * curMoodVel - OMEGA2 * curMood - B * (curMood * curMood) * curMoodVel + treatmentEffect;

      var newMood := curMood + dMood * DT;
      var newMoodVelocity := curMoodVel + dMoodVelocity * DT;

      modelState.SetBpdMood(newMood);
      modelState.SetBpdMoodVelocity(newMoodVelocity);
      modelState.SetBpdTreatmentEffect(treatmentEffect);
    }
  }
}
