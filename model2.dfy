/** BPDModel2: the delayed two-reservoir affect simulator. Two reservoirs, P
    (positive affect) and N (negative affect), relax toward a balance-dependent
    drive and are coupled to their own values delaySteps steps back, which two
    circular buffers keep. The treatment effect enters through one of five
    injection modes; the published mood is 2 * (EB - 0.5) with EB = P / (P + N). */
module Model2 {
  import opened Numeric
  import opened InjectModes
  import opened Configuration
  import opened OutputData

  /** Lower clamp of both reservoirs (1e-6). */
  const MinReservoir: real := 0.000001
  /** Upper clamp of both reservoirs (1e6). */
  const MaxReservoir: real := 1000000.0
  /** A reservoir total at or below this (1e-9) gives the balance fallback 0.5. */
  const BalanceFloor: real := 0.000000001

  /** Key-press increments for lamb, g_gain and dt. */
  const LambStep: real := 0.05
  const GainStep: real := 0.005
  const DtStep: real := 0.0005

  /** The keys after which the buffers are rebuilt. */
  const ResetKeys: set<string> := {"t", "T", "r"}

  // ---------------------------------------------------------------------------
  // Sigmoid gates and the balance-dependent drive and decay

  /** The base curve f(x) = erf(x - 2.0); erf is supplied by the caller. */
  function F(erf: real -> real, x: real): real
  {
    erf(x - 2.0)
  }

  /** The normalised gate (f(g x) - f(0)) / (f(g) - f(0)), or 0.0 when the
      denominator is zero. */
  function Gate(erf: real -> real, g: real, x: real): real
  {
    var denom := F(erf, g) - F(erf, 0.0);
    if denom != 0.0 then (F(erf, g * x) - F(erf, 0.0)) / denom else 0.0
  }

  /** The gate is 0 at x = 0 and whenever it is degenerate; otherwise it is the
      quotient it is defined as, and 1 at x = 1. */
  lemma GateEnds(erf: real -> real, g: real, x: real)
    ensures x == 0.0 ==> Gate(erf, g, x) == 0.0
    ensures F(erf, g) - F(erf, 0.0) == 0.0 ==> Gate(erf, g, x) == 0.0
    ensures F(erf, g) - F(erf, 0.0) != 0.0 ==>
              Gate(erf, g, x) * (F(erf, g) - F(erf, 0.0)) == F(erf, g * x) - F(erf, 0.0)
    ensures F(erf, g) - F(erf, 0.0) != 0.0 && x == 1.0 ==> Gate(erf, g, x) == 1.0
  {
    var denom := F(erf, g) - F(erf, 0.0);
    var num := F(erf, g * x) - F(erf, 0.0);
    if denom != 0.0 {
      assert Gate(erf, g, x) == num / denom;
      assert (num / denom) * denom == num;
      if x == 0.0 {
        assert g * x == 0.0;
        assert num == 0.0;
      }
      if x == 1.0 {
        assert g * x == g;
        assert num == denom;
      }
    }
  }

  /** erf never decreases, as the error function does not. */
  ghost predicate NonDecreasing(erf: real -> real)
  {
    forall a: real, b: real :: a <= b ==> erf(a) <= erf(b)
  }

  /** For a non-decreasing erf and a non-negative shape, the gate maps [0, 1]
      into [0, 1]. */
  lemma GateInUnitInterval(erf: real -> real, g: real, x: real)
    requires NonDecreasing(erf) && 0.0 <= g && 0.0 <= x <= 1.0
    ensures 0.0 <= Gate(erf, g, x) <= 1.0
  {
    var denom := F(erf, g) - F(erf, 0.0);
    var num := F(erf, g * x) - F(erf, 0.0);
    MulNonneg(g, x);
    MulNonneg(g, 1.0 - x);
    assert 0.0 - 2.0 <= g * x - 2.0 <= g - 2.0;
    assert 0.0 <= num <= denom;
    if denom != 0.0 {
      var r := num / denom;
      assert r * denom == num;
      if r < 0.0 {
        MulNonneg(-r, denom);
      }
      if r > 1.0 {
        MulNonneg(r - 1.0, denom);
      }
    }
  }

  /** The gate of the positive reservoir, with shape g1. */
  function S1(erf: real -> real, p: Parameters, x: real): real
  {
    Gate(erf, p.g1, x)
  }

  /** The gate of the negative reservoir, with shape g2. */
  function S2(erf: real -> real, p: Parameters, x: real): real
  {
    Gate(erf, p.g2, x)
  }

  /** r lies between a and b, whichever is larger. */
  predicate Between(r: real, a: real, b: real)
  {
    Min(a, b) <= r <= Max(a, b)
  }

  /** Interpolating with a weight in [0, 1] stays between the two ends. */
  lemma Interpolation(a: real, b: real, s: real)
    requires 0.0 <= s <= 1.0
    ensures Between(a + s * (b - a), a, b)
  {
    if a <= b {
      MulNonneg(s, b - a);
      MulNonneg(1.0 - s, b - a);
    } else {
      MulNonneg(s, a - b);
      MulNonneg(1.0 - s, a - b);
    }
  }

  /** Drive of the positive reservoir. */
  function QP(erf: real -> real, p: Parameters, eb: real): real
  {
    p.qPmin + S1(erf, p, eb) * (p.qPmax - p.qPmin)
  }

  /** Drive of the negative reservoir. */
  function QN(erf: real -> real, p: Parameters, eb: real): real
  {
    p.qNmin + (1.0 - S2(erf, p, eb)) * (p.qNmax - p.qNmin)
  }

  /** Time constant of the positive reservoir. */
  function TP(erf: real -> real, p: Parameters, eb: real): real
  {
    p.tmin + S1(erf, p, eb) * (p.tmax - p.tmin)
  }

  /** Time constant of the negative reservoir. */
  function TN(erf: real -> real, p: Parameters, eb: real): real
  {
    p.tmin + (1.0 - S2(erf, p, eb)) * (p.tmax - p.tmin)
  }

  /** A closed positive gate gives the positive reservoir its minimum drive and
      time constant, an open one its maximum; the negative reservoir is the
      other way round: a closed gate gives its maximum drive and time constant. */
  lemma DriveAndDecayEnds(erf: real -> real, p: Parameters, eb: real)
    ensures S1(erf, p, eb) == 0.0 ==> QP(erf, p, eb) == p.qPmin && TP(erf, p, eb) == p.tmin
    ensures S1(erf, p, eb) == 1.0 ==> QP(erf, p, eb) == p.qPmax && TP(erf, p, eb) == p.tmax
    ensures S2(erf, p, eb) == 0.0 ==> QN(erf, p, eb) == p.qNmax && TN(erf, p, eb) == p.tmax
    ensures S2(erf, p, eb) == 1.0 ==> QN(erf, p, eb) == p.qNmin && TN(erf, p, eb) == p.tmin
  {
  }

  /** With the positive gate in [0, 1], the positive reservoir's drive and
      time constant lie between their bounds. */
  lemma PositiveGateBetween(erf: real -> real, p: Parameters, eb: real)
    requires 0.0 <= S1(erf, p, eb) <= 1.0
    ensures Between(QP(erf, p, eb), p.qPmin, p.qPmax) && Between(TP(erf, p, eb), p.tmin, p.tmax)
  {
    var s := S1(erf, p, eb);
    Interpolation(p.qPmin, p.qPmax, s);
    Interpolation(p.tmin, p.tmax, s);
  }

  /** With the negative gate in [0, 1], the negative reservoir's drive and
      time constant lie between their bounds. */
  lemma NegativeGateBetween(erf: real -> real, p: Parameters, eb: real)
    requires 0.0 <= S2(erf, p, eb) <= 1.0
    ensures Between(QN(erf, p, eb), p.qNmin, p.qNmax) && Between(TN(erf, p, eb), p.tmin, p.tmax)
  {
    var s := S2(erf, p, eb);
    Interpolation(p.qNmin, p.qNmax, 1.0 - s);
    Interpolation(p.tmin, p.tmax, 1.0 - s);
  }

  /** At zero balance both gates are closed: the positive reservoir gets its
      minimum drive and time constant, the negative one its maximum. */
  lemma ZeroBalanceGates(erf: real -> real, p: Parameters)
    ensures QP(erf, p, 0.0) == p.qPmin && TP(erf, p, 0.0) == p.tmin
    ensures QN(erf, p, 0.0) == p.qNmax && TN(erf, p, 0.0) == p.tmax
  {
    GateEnds(erf, p.g1, 0.0);
    GateEnds(erf, p.g2, 0.0);
  }

  // ---------------------------------------------------------------------------
  // Balance, clamps and buffer geometry

  /** EB = P / (P + N), or 0.5 when P + N is not above 1e-9. */
  function Balance(pv: real, nv: real): real
  {
    if pv + nv > BalanceFloor then pv / (pv + nv) else 0.5
  }

  /** Above the floor EB is P's share of the total; at or below it, 0.5. */
  lemma BalanceShare(pv: real, nv: real)
    ensures pv + nv > BalanceFloor ==> Balance(pv, nv) * (pv + nv) == pv
    ensures pv + nv <= BalanceFloor ==> Balance(pv, nv) == 0.5
  {
  }

  /** The balance the step publishes: Balance clipped to [0, 1]. */
  function PublishedBalance(pv: real, nv: real): (r: real)
    ensures 0.0 <= r <= 1.0
    ensures 0.0 <= Balance(pv, nv) <= 1.0 ==> r == Balance(pv, nv)
  {
    Min(1.0, Max(0.0, Balance(pv, nv)))
  }

  predicate InReservoirRange(x: real)
  {
    MinReservoir <= x <= MaxReservoir
  }

  /** max(1e-6, min(x, 1e6)): numpy's clip onto the reservoir range. */
  function Clamp(x: real): (r: real)
    ensures InReservoirRange(r)
    ensures InReservoirRange(x) ==> r == x
    ensures r == Clip(x, MinReservoir, MaxReservoir)
  {
    Max(MinReservoir, Min(x, MaxReservoir))
  }

  /** For clamped reservoirs the 0.5 fallback is never taken, EB lies strictly
      inside (0, 1), the [0, 1] clip does nothing and the mood 2 * (EB - 0.5)
      lies strictly inside (-1, 1). */
  lemma ClampedBalance(pv: real, nv: real)
    requires InReservoirRange(pv) && InReservoirRange(nv)
    ensures pv + nv > BalanceFloor
    ensures 0.0 < Balance(pv, nv) < 1.0
    ensures PublishedBalance(pv, nv) == Balance(pv, nv)
    ensures PublishedBalance(pv, nv) == pv / (pv + nv)
    ensures -1.0 < 2.0 * (PublishedBalance(pv, nv) - 0.5) < 1.0
  {
    var s := pv + nv;
    var b := Balance(pv, nv);
    BalanceShare(pv, nv);
    if b <= 0.0 {
      MulNonneg(-b, s);
    }
    if b >= 1.0 {
      MulNonneg(b - 1.0, s);
    }
  }

  /** max(8, delaySteps + 10): the buffer is always longer than the delay. */
  function BufLength(delaySteps: int): (r: int)
    ensures r >= 8 && r >= delaySteps + 10 && r > delaySteps
    ensures r == 8 || r == delaySteps + 10
  {
    MaxInt(8, delaySteps + 10)
  }

  // ---------------------------------------------------------------------------
  // The update of one step, as functions of the values it reads

  /** The drive rate and coupling the step uses. */
  datatype Rates = Rates(lamb: real, gain: real)

  /** add_to_lambda adds the effect to the drive rate, add_to_g to the coupling;
      every other mode keeps both. */
  function EffectiveRates(mode: InjectMode, lamb: real, gain: real, effect: real): Rates
  {
    if mode == AddToLambda then Rates(lamb + effect, gain)
    else if mode == AddToG then Rates(lamb, gain + effect)
    else Rates(lamb, gain)
  }

  /** One explicit Euler step of a reservoir with delayed self-coupling: the
      rate of change is -cur / tau + lamb * q, and the coupling adds gain times
      the difference to the delayed value. */
  function Relax(cur: real, delayed: real, tau: real, q: real, lamb: real, gain: real, dt: real): real
    requires tau != 0.0
  {
    cur + dt * (-cur / tau + lamb * q) + gain * (cur - delayed)
  }

  /** The direct injections: add_to_P, add_to_EB and tilt_to_PN move the
      reservoirs; the other modes leave them. */
  function Inject(mode: InjectMode, effect: real, pv: real, nv: real): (real, real)
  {
    if mode == AddToP then (pv + effect * 1.0, nv)
    else if mode == AddToEB then (pv + effect * 10.0, nv - effect * 10.0)
    else if mode == TiltToPN then
      (if effect > 0.0 then (pv + Abs(effect) * 10.0, nv) else (pv, nv + Abs(effect) * 10.0))
    else (pv, nv)
  }

  /** The step divides by both time constants, which must be nonzero. */
  predicate WellDefinedAt(erf: real -> real, p: Parameters, eb: real)
  {
    TP(erf, p, eb) != 0.0 && TN(erf, p, eb) != 0.0
  }

  /** With a non-decreasing erf, non-negative gate shapes and positive time
      constant bounds, every balance in [0, 1], and so every balance of two
      clamped reservoirs, gives nonzero time constants. */
  lemma PositiveBoundsWellDefined(erf: real -> real, p: Parameters, eb: real)
    requires NonDecreasing(erf) && 0.0 <= p.g1 && 0.0 <= p.g2
    requires 0.0 < p.tmin && 0.0 < p.tmax && 0.0 <= eb <= 1.0
    ensures WellDefinedAt(erf, p, eb)
  {
    GateInUnitInterval(erf, p.g1, eb);
    GateInUnitInterval(erf, p.g2, eb);
    PositiveGateBetween(erf, p, eb);
    NegativeGateBetween(erf, p, eb);
  }

  /** The base dynamics of one step, before any injection: both reservoirs
      relax with the drive and time constant of the current balance, at the
      rates the mode makes effective. */
  function BaseUpdate(erf: real -> real, p: Parameters, cur: (real, real), delayed: (real, real), effect: real): (real, real)
    requires WellDefinedAt(erf, p, Balance(cur.0, cur.1))
  {
    var eb := Balance(cur.0, cur.1);
    var rates := EffectiveRates(p.injectMode, p.lamb, p.gGain, effect);
    (Relax(cur.0, delayed.0, TP(erf, p, eb), QP(erf, p, eb), rates.lamb, rates.gain, p.dt),
     Relax(cur.1, delayed.1, TN(erf, p, eb), QN(erf, p, eb), rates.lamb, rates.gain, p.dt))
  }

  /** BaseUpdate assembled from its parts: the gate values at the current
      balance, the effective rates and the two relaxed values. */
  lemma BaseUpdateFromParts(erf: real -> real, p: Parameters, pCur: real, nCur: real, pDelay: real, nDelay: real,
                            effect: real, tp: real, tn: real, qp: real, qn: real, lambEff: real, gEff: real,
                            pBase: real, nBase: real)
    requires WellDefinedAt(erf, p, Balance(pCur, nCur))
    requires tp == TP(erf, p, Balance(pCur, nCur)) && tn == TN(erf, p, Balance(pCur, nCur))
    requires qp == QP(erf, p, Balance(pCur, nCur)) && qn == QN(erf, p, Balance(pCur, nCur))
    requires Rates(lambEff, gEff) == EffectiveRates(p.injectMode, p.lamb, p.gGain, effect)
    requires pBase == Relax(pCur, pDelay, tp, qp, lambEff, gEff, p.dt)
    requires nBase == Relax(nCur, nDelay, tn, qn, lambEff, gEff, p.dt)
    ensures BaseUpdate(erf, p, (pCur, nCur), (pDelay, nDelay), effect) == (pBase, nBase)
  {
  }

  /** The step's new (P, N) before clamping: the base dynamics followed by the
      mode's direct injection. */
  function Unclamped(erf: real -> real, p: Parameters, cur: (real, real), delayed: (real, real), effect: real): (real, real)
    requires WellDefinedAt(erf, p, Balance(cur.0, cur.1))
  {
    var base := BaseUpdate(erf, p, cur, delayed, effect);
    Inject(p.injectMode, effect, base.0, base.1)
  }

  /** The step's new (P, N): both always lie in [1e-6, 1e6]. */
  function Advance(erf: real -> real, p: Parameters, cur: (real, real), delayed: (real, real), effect: real): (r: (real, real))
    requires WellDefinedAt(erf, p, Balance(cur.0, cur.1))
    ensures InReservoirRange(r.0) && InReservoirRange(r.1)
  {
    var u := Unclamped(erf, p, cur, delayed, effect);
    (Clamp(u.0), Clamp(u.1))
  }

  /** The clamp only acts on values outside [1e-6, 1e6]: an update that stays in
      range is published as it is. */
  lemma AdvanceKeepsInRange(erf: real -> real, p: Parameters, cur: (real, real), delayed: (real, real), effect: real)
    requires WellDefinedAt(erf, p, Balance(cur.0, cur.1))
    ensures InReservoirRange(Unclamped(erf, p, cur, delayed, effect).0) ==>
              Advance(erf, p, cur, delayed, effect).0 == Unclamped(erf, p, cur, delayed, effect).0
    ensures InReservoirRange(Unclamped(erf, p, cur, delayed, effect).1) ==>
              Advance(erf, p, cur, delayed, effect).1 == Unclamped(erf, p, cur, delayed, effect).1
  {
  }

  /** Two parameter sets that agree on the gate shapes, the drive and the time
      constant bounds have the same gates. */
  predicate SameGates(p: Parameters, q: Parameters)
  {
    p.g1 == q.g1 && p.g2 == q.g2 && p.qPmin == q.qPmin && p.qPmax == q.qPmax
    && p.qNmin == q.qNmin && p.qNmax == q.qNmax && p.tmin == q.tmin && p.tmax == q.tmax
  }

  lemma GatesAgree(erf: real -> real, p: Parameters, q: Parameters, eb: real)
    requires SameGates(p, q)
    ensures QP(erf, p, eb) == QP(erf, q, eb) && QN(erf, p, eb) == QN(erf, q, eb)
    ensures TP(erf, p, eb) == TP(erf, q, eb) && TN(erf, p, eb) == TN(erf, q, eb)
  {
    assert S1(erf, p, eb) == S1(erf, q, eb);
    assert S2(erf, p, eb) == S2(erf, q, eb);
  }

  /** A zero effect changes neither rate, in any mode. */
  lemma ZeroEffectRates(m: InjectMode, lamb: real, gain: real)
    ensures EffectiveRates(m, lamb, gain, 0.0) == Rates(lamb, gain)
  {
  }

  /** A zero effect injects nothing, in any mode. */
  lemma ZeroEffectInjects(m: InjectMode, pv: real, nv: real)
    ensures Inject(m, 0.0, pv, nv) == (pv, nv)
  {
  }

  /** The base dynamics of one step, given the coefficients and the current
      and delayed reservoir values: the balance-dependent drive and time
      constants, the effective rates and one Euler step of each reservoir. */
  method BaseDynamics(erf: real -> real, p: Parameters, pCur: real, nCur: real, pDelay: real, nDelay: real,
                      treatmentEffect: real) returns (pNext: real, nNext: real)
    requires WellDefinedAt(erf, p, Balance(pCur, nCur))
    ensures (pNext, nNext) == BaseUpdate(erf, p, (pCur, nCur), (pDelay, nDelay), treatmentEffect)
  {
    var total := pCur + nCur;
    var eb := if total > BalanceFloor then pCur / total else 0.5;
    assert eb == Balance(pCur, nCur);

    var qPVal, qNVal := QP(erf, p, eb), QN(erf, p, eb);
    var tPVal, tNVal := TP(erf, p, eb), TN(erf, p, eb);

    var lambEff, gEff := p.lamb, p.gGain;
    if p.injectMode == AddToLambda {
      lambEff := p.lamb + treatmentEffect;
    } else if p.injectMode == AddToG {
      gEff := p.gGain + treatmentEffect;
    }

    // base dynamics
    pNext := Relax(pCur, pDelay, tPVal, qPVal, lambEff, gEff, p.dt);
    nNext := Relax(nCur, nDelay, tNVal, qNVal, lambEff, gEff, p.dt);
    BaseUpdateFromParts(erf, p, pCur, nCur, pDelay, nDelay, treatmentEffect,
                        tPVal, tNVal, qPVal, qNVal, lambEff, gEff, pNext, nNext);
  }

  /** The arithmetic of one step: the base dynamics, the mode's direct
      injection and the clamp to [1e-6, 1e6]. The result is the update function
      applied to the current and delayed values. */
  method NextReservoirs(erf: real -> real, p: Parameters, pCur: real, nCur: real, pDelay: real, nDelay: real,
                        treatmentEffect: real) returns (pNext: real, nNext: real)
    requires WellDefinedAt(erf, p, Balance(pCur, nCur))
    ensures (pNext, nNext) == Advance(erf, p, (pCur, nCur), (pDelay, nDelay), treatmentEffect)
    ensures InReservoirRange(pNext) && InReservoirRange(nNext)
  {
    pNext, nNext := BaseDynamics(erf, p, pCur, nCur, pDelay, nDelay, treatmentEffect);
    ghost var pBase, nBase := pNext, nNext;

    // injection modes
    if p.injectMode == AddToP {
      pNext := pNext + treatmentEffect * 1.0;
    } else if p.injectMode == AddToEB {
      pNext := pNext + treatmentEffect * 10.0;
      nNext := nNext - treatmentEffect * 10.0;
    } else if p.injectMode == TiltToPN {
      if treatmentEffect > 0.0 {
        pNext := pNext + Abs(treatmentEffect) * 10.0;
      } else {
        nNext := nNext + Abs(treatmentEffect) * 10.0;
      }
    }
    assert (pNext, nNext) == Inject(p.injectMode, treatmentEffect, pBase, nBase);

    // clamp to avoid runaway
    pNext := Max(MinReservoir, Min(pNext, MaxReservoir));
    nNext := Max(MinReservoir, Min(nNext, MaxReservoir));
  }

  /** With a zero effect every mode, recognised or not, gives the same update. */
  lemma ZeroEffectIgnoresMode(erf: real -> real, p: Parameters, m: InjectMode, cur: (real, real), delayed: (real, real))
    requires WellDefinedAt(erf, p, Balance(cur.0, cur.1))
    ensures Unclamped(erf, p.(injectMode := m), cur, delayed, 0.0) == Unclamped(erf, p, cur, delayed, 0.0)
  {
    GatesAgree(erf, p, p.(injectMode := m), Balance(cur.0, cur.1));
    ZeroEffectRates(m, p.lamb, p.gGain);
    ZeroEffectRates(p.injectMode, p.lamb, p.gGain);
    var base := BaseUpdate(erf, p, cur, delayed, 0.0);
    assert BaseUpdate(erf, p.(injectMode := m), cur, delayed, 0.0) == base;
    ZeroEffectInjects(m, base.0, base.1);
    ZeroEffectInjects(p.injectMode, base.0, base.1);
  }

  /** An unrecognised mode ignores the effect altogether. */
  lemma UnrecognisedModeIgnoresEffect(erf: real -> real, p: Parameters, cur: (real, real), delayed: (real, real), effect: real)
    requires p.injectMode !in Modes
    requires WellDefinedAt(erf, p, Balance(cur.0, cur.1))
    ensures Unclamped(erf, p, cur, delayed, effect) == Unclamped(erf, p, cur, delayed, 0.0)
  {
  }

  /** add_to_lambda is the zero-effect update with the effect added to lamb. */
  lemma AddToLambdaRaisesRate(erf: real -> real, p: Parameters, cur: (real, real), delayed: (real, real), effect: real)
    requires p.injectMode == AddToLambda
    requires WellDefinedAt(erf, p, Balance(cur.0, cur.1))
    ensures WellDefinedAt(erf, p.(lamb := p.lamb + effect), Balance(cur.0, cur.1))
    ensures Unclamped(erf, p, cur, delayed, effect) == Unclamped(erf, p.(lamb := p.lamb + effect), cur, delayed, 0.0)
  {
    GatesAgree(erf, p, p.(lamb := p.lamb + effect), Balance(cur.0, cur.1));
  }

  /** add_to_g is the zero-effect update with the effect added to the coupling. */
  lemma AddToGRaisesCoupling(erf: real -> real, p: Parameters, cur: (real, real), delayed: (real, real), effect: real)
    requires p.injectMode == AddToG
    requires WellDefinedAt(erf, p, Balance(cur.0, cur.1))
    ensures WellDefinedAt(erf, p.(gGain := p.gGain + effect), Balance(cur.0, cur.1))
    ensures Unclamped(erf, p, cur, delayed, effect) == Unclamped(erf, p.(gGain := p.gGain + effect), cur, delayed, 0.0)
  {
    GatesAgree(erf, p, p.(gGain := p.gGain + effect), Balance(cur.0, cur.1));
  }

  /** add_to_P adds the effect to P and leaves N. */
  lemma AddToPShiftsP(erf: real -> real, p: Parameters, cur: (real, real), delayed: (real, real), effect: real)
    requires p.injectMode == AddToP
    requires WellDefinedAt(erf, p, Balance(cur.0, cur.1))
    ensures var base := Unclamped(erf, p, cur, delayed, 0.0);
      Unclamped(erf, p, cur, delayed, effect) == (base.0 + effect, base.1)
  {
  }

  /** add_to_EB moves ten times the effect from N to P. */
  lemma AddToEBTransfers(erf: real -> real, p: Parameters, cur: (real, real), delayed: (real, real), effect: real)
    requires p.injectMode == AddToEB
    requires WellDefinedAt(erf, p, Balance(cur.0, cur.1))
    ensures var base := Unclamped(erf, p, cur, delayed, 0.0);
      Unclamped(erf, p, cur, delayed, effect) == (base.0 + 10.0 * effect, base.1 - 10.0 * effect)
  {
  }

  /** tilt_to_PN adds ten times the effect's size to P for a positive effect and
      to N otherwise. */
  lemma TiltToPNFeedsOneSide(erf: real -> real, p: Parameters, cur: (real, real), delayed: (real, real), effect: real)
    requires p.injectMode == TiltToPN
    requires WellDefinedAt(erf, p, Balance(cur.0, cur.1))
    ensures var base := Unclamped(erf, p, cur, delayed, 0.0);
      Unclamped(erf, p, cur, delayed, effect) ==
        if effect > 0.0 then (base.0 + 10.0 * Abs(effect), base.1) else (base.0, base.1 + 10.0 * Abs(effect))
  {
  }

  // ---------------------------------------------------------------------------
  // Interactive reconfiguration

  /** What a key press does to the parameters; None where the source raises
      (the 'm' key on an unrecognised mode). */
  function KeyEffect(p: Parameters, key: string): (r: Option<Parameters>)
    ensures r.None? <==> key == "m" && p.injectMode !in Modes
    ensures key == "l" ==> r == Some(p.(lamb := r.value.lamb)) && r.value.lamb >= 0.0
                            && (p.lamb - LambStep >= 0.0 ==> r.value.lamb == p.lamb - LambStep)
                            && (p.lamb - LambStep < 0.0 ==> r.value.lamb == 0.0)
    ensures key == "g" ==> r == Some(p.(gGain := r.value.gGain)) && r.value.gGain >= 0.0
                            && (p.gGain - GainStep >= 0.0 ==> r.value.gGain == p.gGain - GainStep)
                            && (p.gGain - GainStep < 0.0 ==> r.value.gGain == 0.0)
    ensures key == "t" ==> r == Some(p.(dt := r.value.dt)) && r.value.dt >= DtStep
                            && (p.dt - DtStep >= DtStep ==> r.value.dt == p.dt - DtStep)
                            && (p.dt - DtStep < DtStep ==> r.value.dt == DtStep)
    ensures key == "L" ==> r == Some(p.(lamb := p.lamb + LambStep))
    ensures key == "G" ==> r == Some(p.(gGain := p.gGain + GainStep))
    ensures key == "T" ==> r == Some(p.(dt := p.dt + DtStep))
    ensures key == "m" && r.Some? ==> r.value == p.(injectMode := r.value.injectMode) && r.value.injectMode in Modes
    ensures key !in {"l", "L", "g", "G", "t", "T", "m"} ==> r == Some(p)
  {
    if key == "l" then Some(p.(lamb := Max(0.0, p.lamb - LambStep)))
    else if key == "L" then Some(p.(lamb := p.lamb + LambStep))
    else if key == "g" then Some(p.(gGain := Max(0.0, p.gGain - GainStep)))
    else if key == "G" then Some(p.(gGain := p.gGain + GainStep))
    else if key == "t" then Some(p.(dt := Max(DtStep, p.dt - DtStep)))
    else if key == "T" then Some(p.(dt := p.dt + DtStep))
    else if key == "m" then
      match NextMode(p.injectMode)
      case None => None
      case Some(m) => Some(p.(injectMode := m))
    else Some(p)
  }

  // ---------------------------------------------------------------------------
  // The circular buffers as a delay line

  /** The value stored at counter value k, with zero standing for the values
      before the first one (the zeros a reset leaves in the buffer). */
  function HistAt(hist: seq<real>, k: int): real
  {
    if 0 <= k < |hist| then hist[k] else 0.0
  }

  /** The delay line invariant: each of the last |buf| counter values up to i
      sits in slot k mod |buf|. */
  predicate Window(buf: seq<real>, hist: seq<real>, i: int)
  {
    |buf| > 0 && forall k :: i - |buf| < k <= i ==> buf[k % |buf|] == HistAt(hist, k)
  }

  /** One counter value of the window read back from its slot. */
  lemma WindowRead(buf: seq<real>, hist: seq<real>, i: int, k: int)
    requires Window(buf, hist, i) && i - |buf| < k <= i
    ensures buf[k % |buf|] == HistAt(hist, k)
  {
  }

  /** A freshly reset buffer, the seed in slot 0 and zeros elsewhere, holds the
      window of counter 0. */
  lemma ResetWindow(len: int, v: real)
    requires len >= 1
    ensures Window([v] + seq(len - 1, _ => 0.0), [v], 0)
  {
    var buf := [v] + seq(len - 1, _ => 0.0);
    forall k | 0 - len < k <= 0
      ensures buf[k % len] == HistAt([v], k)
    {
      if k < 0 {
        ModOfNegative(k, len);
      }
    }
  }

  /** Writing the next value into slot (i + 1) mod |buf| advances the window by
      one counter value: the slot it overwrites held the value |buf| steps
      back, which leaves the window. */
  lemma AdvanceWindow(buf: seq<real>, hist: seq<real>, i: nat, v: real)
    requires Window(buf, hist, i) && |hist| == i + 1
    ensures Window(buf[(i + 1) % |buf| := v], hist + [v], i + 1)
  {
    var len := |buf|;
    var buf' := buf[(i + 1) % len := v];
    forall k | i + 1 - len < k <= i + 1
      ensures buf'[k % len] == HistAt(hist + [v], k)
    {
      if k < i + 1 {
        ModDistinct(k, i + 1, len);
        assert buf'[k % len] == buf[k % len];
      }
    }
  }

  /** np.zeros(len) with v written into slot 0: the buffer a reset leaves,
      which holds the delay-line window of counter 0. */
  method SeededBuffer(len: int, v: real) returns (a: array<real>)
    requires len >= 1
    ensures fresh(a)
    ensures a.Length == len && a[..] == [v] + seq(len - 1, _ => 0.0)
    ensures Window(a[..], [v], 0)
  {
    a := new real[len](_ => 0.0);
    a[0] := v;
    assert a[..] == [v] + seq(len - 1, _ => 0.0);
    ResetWindow(len, v);
  }

  // ---------------------------------------------------------------------------
  // The simulator object

  class BPDModel2 {
    /** The error function the gates are built on. */
    const erf: real -> real
    /** The published snapshot (mood, velocity, treatment effect). */
    const modelState: ModelOutputData

    var injectMode: InjectMode
    var g1: real
    var g2: real
    var qPmin: real
    var qPmax: real
    var qNmin: real
    var qNmax: real
    var lamb: real
    var dt: real
    var tmin: real
    var tmax: real
    var delaySeconds: real
    var gGain: real

    var delaySteps: int
    var bufLen: int
    var pBuf: array<real>
    var nBuf: array<real>
    /** The step counter since the last reset. */
    var i: nat

    /** The P and N values stored at each counter value since the last reset. */
    ghost var pHist: seq<real>
    ghost var nHist: seq<real>

    function Params(): Parameters
      reads this
    {
      Parameters(injectMode, g1, g2, qPmin, qPmax, qNmin, qNmax, lamb, dt, tmin, tmax, delaySeconds, gGain)
    }

    /** The P value stored when the counter was k; the zeros the reset put in the
        buffers play the values before step 0. */
    ghost function PAt(k: int): real
      reads this
    {
      HistAt(pHist, k)
    }

    ghost function NAt(k: int): real
      reads this
    {
      HistAt(nHist, k)
    }

    /** The buffers have the length the last reset gave them, which exceeds the
        delay, and the last bufLen counter values each still sit in their slot
        k mod bufLen. */
    ghost predicate Valid()
      reads this, pBuf, nBuf
    {
      && Canonical(injectMode)
      && 1 <= delaySteps
      && bufLen == BufLength(delaySteps)
      && pBuf.Length == bufLen && nBuf.Length == bufLen && pBuf != nBuf
      && |pHist| == i + 1 && |nHist| == i + 1
      && Window(pBuf[..], pHist, i)
      && Window(nBuf[..], nHist, i)
    }

    /** The state reset(P0, N0) leaves: delay and length recomputed from the
        current delaySeconds and dt, slot 0 seeded, every other slot zero, the
        counter at 0. */
    ghost predicate JustReset(P0: real, N0: real)
      reads this, pBuf, nBuf
    {
      && dt != 0.0
      && delaySteps == DelayStepsOf(delaySeconds, dt)
      && bufLen == BufLength(delaySteps)
      && pBuf.Length == bufLen && nBuf.Length == bufLen
      && pBuf[..] == [P0] + seq(bufLen - 1, _ => 0.0)
      && nBuf[..] == [N0] + seq(bufLen - 1, _ => 0.0)
      && i == 0
      && pHist == [P0] && nHist == [N0]
    }

    /** The model with the given coefficients: the snapshot is built as the
        abstract model builds it, then the buffers are reset to (P0, N0). */
    constructor (erf: real -> real, g1: real := 3.0, g2: real := 3.0, qPmin: real := 10.0,
                 qPmax: real := 10.0, qNmin: real := 2.5, qNmax: real := 7.0, lamb: real := 4.0,
                 dt: real := 0.001, tmin: real := 1.0, tmax: real := 5.0,
                 injectMode: InjectMode := TiltToPN, delaySeconds: real := 0.02, gGain: real := 0.2,
                 P0: real := 100.0, N0: real := 100.0, initialMood: real := 0.5,
                 initialTreatmentEffect: real := 0.0)
      requires dt != 0.0
      requires Canonical(injectMode)
      ensures Valid() && JustReset(P0, N0)
      ensures fresh(pBuf) && fresh(nBuf)
      ensures this.erf == erf
      ensures Params() == Parameters(injectMode, g1, g2, qPmin, qPmax, qNmin, qNmax, lamb, dt,
                                     tmin, tmax, delaySeconds, gGain)
      ensures fresh(modelState)
      ensures modelState.bpdMood == initialMood
      ensures modelState.bpdMoodVelocity == initialTreatmentEffect
      ensures modelState.bpdTreatmentEffect == 0.0
    {
      this.erf := erf;
      var state := NewModelState(initialMood, initialTreatmentEffect);
      modelState := state;
      this.g1 := g1;
      this.g2 := g2;
      this.qPmin := qPmin;
      this.qPmax := qPmax;
      this.qNmin := qNmin;
      this.qNmax := qNmax;
      this.lamb := lamb;
      this.tmin := tmin;
      this.tmax := tmax;
      this.delaySeconds := delaySeconds;
      this.gGain := gGain;
      this.dt := dt;
      this.injectMode := injectMode;
      // empty until Reset below allocates the real buffers
      pBuf := new real[0];
      nBuf := new real[0];
      new;
      Reset(P0, N0);
    }

    /** Rebuilds both buffers for the current delaySeconds and dt and seeds
        them with (P0, N0). */
    method Reset(P0: real := 100.0, N0: real := 100.0)
      requires dt != 0.0 && Canonical(injectMode)
      modifies this
      ensures Valid() && JustReset(P0, N0)
      ensures fresh(pBuf) && fresh(nBuf)
      ensures Params() == old(Params())
    {
      ghost var params := Params();
      var steps := DelayStepsOf(delaySeconds, dt);
      var len := BufLength(steps);
      var pSeeded := SeededBuffer(len, P0);
      var nSeeded := SeededBuffer(len, N0);
      delaySteps, bufLen, pBuf, nBuf, i := steps, len, pSeeded, nSeeded, 0;
      pHist, nHist := [P0], [N0];
      assert Params() == params;
    }

    /** The slot holding the current values and the slot holding the values
        delaySteps back. Both lie in [0, bufLen), also before the counter has
        reached delaySteps, where the delayed slot still holds a reset zero. */
    function CurrentIndices(): (r: (nat, nat))
      reads this, pBuf, nBuf
      requires Valid()
      ensures r.0 < bufLen && r.1 < bufLen
      ensures pBuf[r.0] == PAt(i) && nBuf[r.0] == NAt(i)
      ensures pBuf[r.1] == PAt(i - delaySteps) && nBuf[r.1] == NAt(i - delaySteps)
    {
      WindowRead(pBuf[..], pHist, i, i);
      WindowRead(nBuf[..], nHist, i, i);
      WindowRead(pBuf[..], pHist, i, i - delaySteps);
      WindowRead(nBuf[..], nHist, i, i - delaySteps);
      (i % bufLen, (i - delaySteps) % bufLen)
    }

    /** Writes the new values into the slot after the current one, the only
        slot that changes, and advances the counter: the delay line moves on by
        one value. */
    method Push(pNext: real, nNext: real)
      requires Valid()
      modifies this, pBuf, nBuf
      ensures Valid()
      ensures Params() == old(Params())
      ensures pBuf == old(pBuf) && nBuf == old(nBuf)
      ensures delaySteps == old(delaySteps) && bufLen == old(bufLen)
      ensures i == old(i) + 1
      ensures pHist == old(pHist) + [pNext] && nHist == old(nHist) + [nNext]
      ensures pBuf[..] == old(pBuf[..])[i % bufLen := pNext] && nBuf[..] == old(nBuf[..])[i % bufLen := nNext]
    {
      ghost var pOld, nOld := pBuf[..], nBuf[..];
      var nextIdx := (i + 1) % bufLen;
      pBuf[nextIdx] := pNext;
      nBuf[nextIdx] := nNext;
      assert pBuf[..] == pOld[nextIdx := pNext] && nBuf[..] == nOld[nextIdx := nNext];
      AdvanceWindow(pOld, pHist, i, pNext);
      AdvanceWindow(nOld, nHist, i, nNext);
      i := i + 1;
      pHist := pHist + [pNext];
      nHist := nHist + [nNext];
    }

    /** Reads the current and delayed slots and computes the new reservoirs
        from them; it changes nothing. */
    method NextValues(treatmentEffect: real) returns (pNext: real, nNext: real)
      requires Valid()
      requires WellDefinedAt(erf, Params(), Balance(PAt(i), NAt(i)))
      ensures (pNext, nNext) == Advance(erf, Params(), (PAt(i), NAt(i)),
                                        (PAt(i - delaySteps), NAt(i - delaySteps)), treatmentEffect)
      ensures InReservoirRange(pNext) && InReservoirRange(nNext)
    {
      var (curIdx, delayIdx) := CurrentIndices();
      var pCur, nCur := pBuf[curIdx], nBuf[curIdx];
      var pDelay, nDelay := pBuf[delayIdx], nBuf[delayIdx];
      pNext, nNext := NextReservoirs(erf, Params(), pCur, nCur, pDelay, nDelay, treatmentEffect);
    }

    /** The reservoir half of a step: sets dt to DT, computes the new
        reservoirs from the current and delayed slots and writes them into the
        slot after the current one. */
    method StepReservoirs(treatmentEffect: real, DT: real) returns (pNext: real, nNext: real)
      requires Valid()
      requires WellDefinedAt(erf, Params().(dt := DT), Balance(PAt(i), NAt(i)))
      modifies this, pBuf, nBuf
      ensures Valid()
      ensures Params() == old(Params()).(dt := DT)
      ensures pBuf == old(pBuf) && nBuf == old(nBuf)
      ensures delaySteps == old(delaySteps) && bufLen == old(bufLen)
      ensures i == old(i) + 1
      ensures (pNext, nNext) == Advance(erf, Params(), old((PAt(i), NAt(i))),
                                        old((PAt(i - delaySteps), NAt(i - delaySteps))), treatmentEffect)
      ensures InReservoirRange(pNext) && InReservoirRange(nNext)
      ensures pHist == old(pHist) + [pNext] && nHist == old(nHist) + [nNext]
      ensures pBuf[..] == old(pBuf[..])[i % bufLen := pNext] && nBuf[..] == old(nBuf[..])[i % bufLen := nNext]
    {
      dt := DT;
      pNext, nNext := NextValues(treatmentEffect);
      Push(pNext, nNext);
    }

    /** The publishing half of a step: EB of the new reservoirs, clipped to
        [0, 1], and the mood 2 * (EB - 0.5) and the treatment effect written to
        the snapshot. For clamped reservoirs EB lies strictly inside (0, 1). */
    method Publish(pNext: real, nNext: real, treatmentEffect: real) returns (ebNext: real)
      requires InReservoirRange(pNext) && InReservoirRange(nNext)
      modifies modelState
      ensures 0.0 < ebNext < 1.0 && ebNext == pNext / (pNext + nNext)
      ensures modelState.bpdMood == 2.0 * (ebNext - 0.5)
      ensures -1.0 < modelState.bpdMood < 1.0
      ensures modelState.bpdTreatmentEffect == treatmentEffect
      ensures modelState.bpdMoodVelocity == old(modelState.bpdMoodVelocity)
    {
      ebNext := PublishedBalance(pNext, nNext);
      ClampedBalance(pNext, nNext);

      modelState.SetBpdMood(2.0 * (ebNext - 0.5));
      modelState.SetBpdTreatmentEffect(treatmentEffect);
    }

    /** One step: sets dt to DT, computes the new reservoirs, writes them into
        the slot after the current one (the only slot that changes), advances
        the counter and publishes the mood 2 * (EB - 0.5) and the treatment
        effect. */
    method Step(treatmentEffect: real := 0.0, DT: real := 0.04) returns (ebNext: real, pNext: real, nNext: real)
      requires Valid()
      requires WellDefinedAt(erf, Params().(dt := DT), Balance(PAt(i), NAt(i)))
      modifies this, pBuf, nBuf, modelState
      ensures Valid()
      ensures Params() == old(Params()).(dt := DT)
      ensures pBuf == old(pBuf) && nBuf == old(nBuf)
      ensures delaySteps == old(delaySteps) && bufLen == old(bufLen)
      ensures i == old(i) + 1
      ensures (pNext, nNext) == Advance(erf, Params(), old((PAt(i), NAt(i))),
                                        old((PAt(i - delaySteps), NAt(i - delaySteps))), treatmentEffect)
      ensures pHist == old(pHist) + [pNext] && nHist == old(nHist) + [nNext]
      ensures pBuf[..] == old(pBuf[..])[i % bufLen := pNext] && nBuf[..] == old(nBuf[..])[i % bufLen := nNext]
      ensures 0.0 < ebNext < 1.0 && ebNext == pNext / (pNext + nNext)
      ensures modelState.bpdMood == 2.0 * (ebNext - 0.5)
      ensures -1.0 < modelState.bpdMood < 1.0
      ensures modelState.bpdTreatmentEffect == treatmentEffect
      ensures modelState.bpdMoodVelocity == old(modelState.bpdMoodVelocity)
    {
      pNext, nNext := StepReservoirs(treatmentEffect, DT);
      ebNext := Publish(pNext, nNext, treatmentEffect);
    }

    /** The key presses that only retune: 'l'/'L' lower (not below 0) or raise
        lamb, 'g'/'G' the coupling, 'm' selects the next injection mode, any
        other key changes nothing. ok is false where the source raises, and
        then nothing changes. The buffers are left as they are. */
    method Retune(key: string) returns (ok: bool)
      requires Valid() && key !in ResetKeys
      modifies this
      ensures Valid()
      ensures ok <==> KeyEffect(old(Params()), key).Some?
      ensures ok ==> Params() == KeyEffect(old(Params()), key).value
      ensures !ok ==> Params() == old(Params())
      ensures pBuf == old(pBuf) && nBuf == old(nBuf) && i == old(i)
      ensures delaySteps == old(delaySteps) && bufLen == old(bufLen)
      ensures pHist == old(pHist) && nHist == old(nHist)
    {
      ok := true;
      if key == "l" {
        lamb := Max(0.0, lamb - LambStep);
      } else if key == "L" {
        lamb := lamb + LambStep;
      } else if key == "g" {
        gGain := Max(0.0, gGain - GainStep);
      } else if key == "G" {
        gGain := gGain + GainStep;
      } else if key == "m" {
        var index := IndexOf(injectMode);
        if index.None? {
          ok := false;
        } else {
          injectMode := Modes[(index.value + 1) % |Modes|];
        }
      }
    }

    /** A key press: 't'/'T' lower (not below 0.0005) or raise dt and reset,
        'r' resets, every other key retunes as Retune says. ok is false where
        the source raises, and then nothing changes. */
    method OnKey(key: string) returns (ok: bool)
      requires Valid()
      requires key == "T" ==> dt + DtStep != 0.0
      requires key == "r" ==> dt != 0.0
      modifies this
      ensures Valid()
      ensures ok <==> KeyEffect(old(Params()), key).Some?
      ensures ok ==> Params() == KeyEffect(old(Params()), key).value
      ensures !ok ==> Params() == old(Params())
      ensures key in ResetKeys ==> JustReset(100.0, 100.0) && fresh(pBuf) && fresh(nBuf)
      ensures key !in ResetKeys ==>
                && pBuf == old(pBuf) && nBuf == old(nBuf) && i == old(i)
                && delaySteps == old(delaySteps) && bufLen == old(bufLen)
                && pHist == old(pHist) && nHist == old(nHist)
    {
      if key == "t" {
        dt := Max(DtStep, dt - DtStep);
        Reset();
        ok := true;
      } else if key == "T" {
        dt := dt + DtStep;
        Reset();
        ok := true;
      } else if key == "r" {
        Reset();
        ok := true;
      } else {
        ok := Retune(key);
      }
    }
  }

  /** Before the counter reaches the delay, the delayed slot still holds the
      zero the reset put there. */
  lemma DelayedReadBeforeFill(m: BPDModel2)
    requires m.Valid() && m.i < m.delaySteps
    ensures m.pBuf[m.CurrentIndices().1] == 0.0 && m.nBuf[m.CurrentIndices().1] == 0.0
  {
  }

  /** Once the counter has reached the delay, the delayed slot gives back the
      values stored delaySteps steps earlier: the buffer is longer than the
      delay, so no later write has reached that slot. */
  lemma DelayedReadAfterFill(m: BPDModel2)
    requires m.Valid() && m.i >= m.delaySteps
    ensures m.pBuf[m.CurrentIndices().1] == m.pHist[m.i - m.delaySteps]
    ensures m.nBuf[m.CurrentIndices().1] == m.nHist[m.i - m.delaySteps]
  {
  }

  /** The application's use of the model: it builds one with dt 0.0015,
      a 0.02 s delay, gGain 0.07 and lamb 0.5 and steps it every 0.01 s with
      the treatment's effect. The freshly built model can be stepped at once,
      and every step publishes a mood strictly inside (-1, 1). */
  method ApplicationSteps(erf: real -> real, effect1: real, effect2: real)
    returns (mood1: real, mood2: real)
    requires NonDecreasing(erf)
    ensures -1.0 < mood1 < 1.0 && -1.0 < mood2 < 1.0
  {
    var m := new BPDModel2(erf, dt := 0.0015, delaySeconds := 0.02, gGain := 0.07, lamb := 0.5);
    assert Balance(m.PAt(m.i), m.NAt(m.i)) == 0.5;
    PositiveBoundsWellDefined(erf, m.Params().(dt := 0.01), 0.5);
    var eb1, p1, n1 := m.Step(effect1, 0.01);
    mood1 := m.modelState.bpdMood;
    ClampedBalance(p1, n1);
    PositiveBoundsWellDefined(erf, m.Params().(dt := 0.01), Balance(p1, n1));
    var eb2, p2, n2 := m.Step(effect2, 0.01);
    mood2 := m.modelState.bpdMood;
  }
}
