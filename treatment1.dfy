/** BPDTreatment1: maps the IMU reading to a treatment effect, a scaled linear
    combination of the x angle and the x acceleration angle. */
module Treatment1 {
  import opened Numeric

  /** The IMU record the treatment reads (all readings of the sensor). */
  datatype ImuData = ImuData(
    xAngle: real, yAngle: real, zAngle: real,
    xGyro: real, yGyro: real, zGyro: real,
    xAccel: real, yAccel: real, zAccel: real,
    xAccelAngle: real, yAccelAngle: real, zAccelAngle: real,
    temp: real)

  /** How far one 'k' or 'K' key press moves the treatment scale. */
  const ScaleStep: real := 0.0005

  class BPDTreatment1 {
    var xAngleRatio: real
    var xAngleVelocityRatio: real
    var treatmentScale: real

    constructor (xAngleRatio: real := 0.5, xAngleVelocityRatio: real := 0.0, treatmentScale: real := 0.01)
      ensures this.xAngleRatio == xAngleRatio
      ensures this.xAngleVelocityRatio == xAngleVelocityRatio
      ensures this.treatmentScale == treatmentScale
    {
      this.treatmentScale := treatmentScale;
      this.xAngleRatio := xAngleRatio;
      this.xAngleVelocityRatio := xAngleVelocityRatio;
    }

    /** The treatment effect: zero whenever the scale is zero, and with no
        weight on the acceleration angle it depends on the x angle alone. */
    function CalculateTreatmentEffect(imu: ImuData): (r: real)
      reads this
      ensures treatmentScale == 0.0 ==> r == 0.0
      ensures xAngleVelocityRatio == 0.0 ==> r == treatmentScale * xAngleRatio * imu.xAngle
      ensures xAngleRatio == 0.0 ==> r == treatmentScale * xAngleVelocityRatio * imu.xAccelAngle
    {
      treatmentScale * (imu.xAngle * xAngleRatio + imu.xAccelAngle * xAngleVelocityRatio)
    }

    /** 'k' lowers the scale by one step but not below 0, 'K' raises it by one
        step, any other key leaves the treatment unchanged. */
    method OnKey(key: string)
      modifies this
      ensures key == "k" ==> treatmentScale == Max(0.0, old(treatmentScale) - ScaleStep)
      ensures key == "k" ==> treatmentScale >= 0.0
      ensures key == "K" ==> treatmentScale == old(treatmentScale) + ScaleStep
      ensures key != "k" && key != "K" ==> treatmentScale == old(treatmentScale)
      ensures xAngleRatio == old(xAngleRatio) && xAngleVelocityRatio == old(xAngleVelocityRatio)
    {
      if key == "k" {
        treatmentScale := Max(0.0, treatmentScale - ScaleStep);
      } else if key == "K" {
        treatmentScale := treatmentScale + ScaleStep;
      }
    }

    method SetXAngleRatio(val: real)
      modifies this
      ensures xAngleRatio == val
      ensures xAngleVelocityRatio == old(xAngleVelocityRatio) && treatmentScale == old(treatmentScale)
    {
      xAngleRatio := val;
    }

    method SetXAngleVelocityRatio(val: real)
      modifies this
      ensures xAngleVelocityRatio == val
      ensures xAngleRatio == old(xAngleRatio) && treatmentScale == old(treatmentScale)
    {
      xAngleVelocityRatio := val;
    }
  }

  /** With no weight on the acceleration angle, two readings that agree on the x
      angle give the same effect. */
  lemma EffectIgnoresAccelAngle(t: BPDTreatment1, a: ImuData, b: ImuData)
    requires t.xAngleVelocityRatio == 0.0 && a.xAngle == b.xAngle
    ensures t.CalculateTreatmentEffect(a) == t.CalculateTreatmentEffect(b)
  {
  }

  /** The effect is linear in the reading: the effect of two x angles and
      acceleration angles added is the sum of their effects. */
  lemma EffectIsAdditive(t: BPDTreatment1, a: ImuData, b: ImuData, c: ImuData)
    requires c.xAngle == a.xAngle + b.xAngle && c.xAccelAngle == a.xAccelAngle + b.xAccelAngle
    ensures t.CalculateTreatmentEffect(c) == t.CalculateTreatmentEffect(a) + t.CalculateTreatmentEffect(b)
  {
  }
}
