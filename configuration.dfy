/** BPDModel2Configuration: a mutable bundle of the delayed two-reservoir
    model's coefficients, with property getters and setters, and the delay length
    in steps derived from it. */
module Configuration {
  import opened Numeric
  import opened InjectModes

  /** The thirteen coefficients as one value: the shared view of a configuration
      object and of the simulator's own parameter fields. */
  datatype Parameters = Parameters(
    injectMode: InjectMode,
    g1: real,
    g2: real,
    qPmin: real,
    qPmax: real,
    qNmin: real,
    qNmax: real,
    lamb: real,
    dt: real,
    tmin: real,
    tmax: real,
    delaySeconds: real,
    gGain: real)

  /** The constructor's default arguments. */
  const DefaultParameters: Parameters :=
    Parameters(TiltToPN, 3.0, 3.0, 10.0, 10.0, 2.5, 7.0, 4.0, 0.001, 1.0, 5.0, 0.02, 0.2)

  /** max(1, round(delaySeconds / dt)): the feedback delay in integration steps. */
  function DelayStepsOf(delaySeconds: real, dt: real): (r: int)
    requires dt != 0.0
    ensures r >= 1
    ensures delaySeconds / dt <= 0.5 ==> r == 1
    ensures delaySeconds / dt >= 0.5 ==> delaySeconds / dt - 0.5 <= r as real <= delaySeconds / dt + 0.5
  {
    MaxInt(1, RoundHalfEven(delaySeconds / dt))
  }

  /** A delay that is a whole number n >= 1 of steps gives exactly n steps:
      0.02 s at dt = 0.001 s is a delay of 20 steps. */
  lemma DelayStepsOfWholeMultiple(n: int, dt: real)
    requires n >= 1 && dt != 0.0
    ensures DelayStepsOf(n as real * dt, dt) == n
  {
    assert (n as real * dt) / dt == n as real;
    RoundOfInteger(n);
  }

  class BPDModel2Configuration {
    var injectMode: InjectMode
    var g1: real
    var g2: real
    var qPmin: real
    var qPmax: real
    var qNmin: real
    var qNmax: real
    var lamb: real
    var dt: real
    var tmin: real
    var tmax: real
    var delaySeconds: real
    var gGain: real

    /** All fields at once. */
    function Params(): Parameters
      reads this
    {
      Parameters(injectMode, g1, g2, qPmin, qPmax, qNmin, qNmax, lamb, dt, tmin, tmax, delaySeconds, gGain)
    }

    /** Each argument is stored in its own field; the defaults are DefaultParameters. */
    constructor (g1: real := 3.0, g2: real := 3.0, qPmin: real := 10.0, qPmax: real := 10.0,
                 qNmin: real := 2.5, qNmax: real := 7.0, lamb: real := 4.0, dt: real := 0.001,
                 tmin: real := 1.0, tmax: real := 5.0, injectMode: InjectMode := TiltToPN,
                 delaySeconds: real := 0.02, gGain: real := 0.2)
      requires Canonical(injectMode)
      ensures Params() == Parameters(injectMode, g1, g2, qPmin, qPmax, qNmin, qNmax, lamb, dt,
                                     tmin, tmax, delaySeconds, gGain)
    {
      this.g1 := g1;
      this.g2 := g2;
      this.qPmin := qPmin;
      this.qPmax := qPmax;
      this.qNmin := qNmin;
      this.qNmax := qNmax;
      this.lamb := lamb;
      this.tmin := tmin;
      this.tmax := tmax;
      this.delaySeconds := delaySeconds;
      this.gGain := gGain;
      this.dt := dt;
      this.injectMode := injectMode;
    }

    /** The QPMax property is built from QPMin's setter decorator, so its getter
        is QPMin's: it reads qPmin. */
    function QPMax(): real
      reads this
    {
      qPmin
    }

    /** Likewise the QNMax getter is QNMin's and reads qNmin. */
    function QNMax(): real
      reads this
    {
      qNmin
    }

    /** Delay_Steps, recomputed on every read from the current Delay_Seconds and
        Dt with the formula BPDModel2.reset uses. */
    function DelaySteps(): (r: int)
      reads this
      requires dt != 0.0
      ensures r >= 1
      ensures r == DelayStepsOf(delaySeconds, dt)
    {
      DelayStepsOf(delaySeconds, dt)
    }

    method SetInjectMode(val: InjectMode)
      requires Canonical(val)
      modifies this
      ensures Params() == old(Params()).(injectMode := val)
    {
      injectMode := val;
    }

    method SetG1(val: real)
      modifies this
      ensures Params() == old(Params()).(g1 := val)
    {
      g1 := val;
    }

    method SetG2(val: real)
      modifies this
      ensures Params() == old(Params()).(g2 := val)
    {
      g2 := val;
    }

    method SetQPMin(val: real)
      modifies this
      ensures Params() == old(Params()).(qPmin := val)
    {
      qPmin := val;
    }

    /** The QPMax setter writes qPmax, which the QPMax getter never reads. */
    method SetQPMax(val: real)
      modifies this
      ensures Params() == old(Params()).(qPmax := val)
      ensures QPMax() == old(QPMax())
    {
      qPmax := val;
    }

    method SetQNMin(val: real)
      modifies this
      ensures Params() == old(Params()).(qNmin := val)
    {
      qNmin := val;
    }

    /** The QNMax setter writes qNmax, which the QNMax getter never reads. */
    method SetQNMax(val: real)
      modifies this
      ensures Params() == old(Params()).(qNmax := val)
      ensures QNMax() == old(QNMax())
    {
      qNmax := val;
    }

    method SetLamb(val: real)
      modifies this
      ensures Params() == old(Params()).(lamb := val)
    {
      lamb := val;
    }

    method SetDt(val: real)
      modifies this
      ensures Params() == old(Params()).(dt := val)
    {
      dt := val;
    }

    method SetTMin(val: real)
      modifies this
      ensures Params() == old(Params()).(tmin := val)
    {
      tmin := val;
    }

    method SetTMax(val: real)
      modifies this
      ensures Params() == old(Params()).(tmax := val)
    {
      tmax := val;
    }

    method SetDelaySeconds(val: real)
      modifies this
      ensures Params() == old(Params()).(delaySeconds := val)
    {
      delaySeconds := val;
    }

    method SetGain(val: real)
      modifies this
      ensures Params() == old(Params()).(gGain := val)
    {
      gGain := val;
    }
  }

  /** Writing QPMax on a default configuration and reading it back, as the
      class is written: the read gives the default qPmin, 10.0, whatever was
      written (12.5, say). */
  method QPMaxReadBackAsWritten(val: real) returns (read: real)
    ensures read == DefaultParameters.qPmin
    ensures val != DefaultParameters.qPmin ==> read != val
  {
    var c := new BPDModel2Configuration();
    c.SetQPMax(val);
    read := c.QPMax();
  }

  /** Writing QNMax on a default configuration and reading it back, as the
      class is written: the read gives the default qNmin, 2.5, whatever was
      written. */
  method QNMaxReadBackAsWritten(val: real) returns (read: real)
    ensures read == DefaultParameters.qNmin
    ensures val != DefaultParameters.qNmin ==> read != val
  {
    var c := new BPDModel2Configuration();
    c.SetQNMax(val);
    read := c.QNMax();
  }

  /** The intended QPMax getter: it reads the field its setter writes. */
  function IntendedQPMax(c: BPDModel2Configuration): real
    reads c
  {
    c.qPmax
  }

  /** The intended QNMax getter: it reads the field its setter writes. */
  function IntendedQNMax(c: BPDModel2Configuration): real
    reads c
  {
    c.qNmax
  }

  /** With the intended getter, writing QPMax and reading it back gives the
      value written. */
  method QPMaxReadBackIntended(val: real) returns (read: real)
    ensures read == val
  {
    var c := new BPDModel2Configuration();
    c.SetQPMax(val);
    read := IntendedQPMax(c);
  }

  /** With the intended getter, writing QNMax and reading it back gives the
      value written. */
  method QNMaxReadBackIntended(val: real) returns (read: real)
    ensures read == val
  {
    var c := new BPDModel2Configuration();
    c.SetQNMax(val);
    read := IntendedQNMax(c);
  }
}
