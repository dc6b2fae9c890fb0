# bpd_model in Dafny

A model of the simulation core of bpd_model, a small interactive simulator of
mood dynamics driven by a treatment signal derived from an IMU reading.

- **BPDModel2** (`model2.dfy`) is the delayed two-reservoir affect simulator.
  - Two reservoirs, P (positive affect) and N (negative affect), each relax toward a drive that depends on the balance EB = P / (P + N).
  - The drive passes through erf-based sigmoid gates.
  - Each reservoir is coupled to its own value `delaySteps` steps back. Two circular buffers hold those values.
  - A treatment effect enters through one of five injection modes.
  - Both reservoirs are clamped to [1e-6, 1e6], and the published mood is 2 (EB - 0.5).
  - Key presses retune the rates, the time step and the mode.
- **BPDModel2Configuration** (`configuration.dfy`) is the parameter bundle with its getters and setters and the derived delay in steps.
- **BPDModel2ConfigurationTracker** (`configuration_tracker.dfy`) is an append-only list of time windows. A lookup returns the configuration of the first window that holds a given time, otherwise the default.
- **ModelOutputData** (`output_data.dfy`) is the published snapshot. Its mood setter clips to [-1, 1].
- **BPDModel1** (`model1.dfy`) is a damped oscillator advanced by one explicit Euler step.
- **BPDTreatment1** (`treatment1.dfy`) maps the IMU reading to a treatment effect.
- `numeric.dfy` holds Python's `min`/`max`/`round`, numpy's `clip` and the modular-index facts. `inject_modes.dfy` holds the injection mode names and the 'm'-key cycle.

Floats are modelled as Dafny `real`. The error function is a parameter `erf: real -> real` of the model, and `f(x) = erf(x - 2)` is exactly as in the source.

The simulator keeps two ghost histories, `pHist` and `nHist`: the values stored at each counter value since the last reset. The class invariant `Valid()` states the delay-line discipline: for the last `bufLen` counter values `k`, slot `k mod bufLen` of each buffer holds the value stored at `k`. Values before step 0 count as the reset's zeros. From this:

- `Step` proves that it writes exactly one slot and advances the counter by one.
- `CurrentIndices` proves that the delayed slot gives back the value stored `delaySteps` steps earlier.

`Step` is proved against the update functions `Advance`, `Unclamped` and `BaseUpdate`. The lemmas about the injection modes, the clamps and the balance are stated on those functions.

## Model

| member | source | states |
|---|---|---|
| Numeric.Clip | Helpers/ModelOutputData.py:18 | numpy.clip lands in [lo, hi]; it is the identity inside and gives the nearer bound outside |
| Numeric.ClipIdempotent | Helpers/ModelOutputData.py:18 | clipping twice equals clipping once |
| Numeric.RoundHalfEven | BPDModel2.py:106 | Python's round: the result is within 0.5 of its argument, and a tie goes to the even integer |
| Numeric.RoundOfInteger | BPDModel2.py:106 | rounding an integral value gives it back, which is what makes a whole-step delay exact |
| Numeric.ModDistinct | BPDModel2.py:193 | two counter values fewer than n apart never share a slot modulo n |
| Numeric.ModOfNegative | BPDModel2.py:143 | a counter value up to n below zero wraps to k + n, as Python's % does for a positive divisor |
| InjectModes.FromName | BPDModel2.py:162-187 | reading a mode string gives a mode whose name is that string; it is one of the five recognised modes exactly when the string is one of their names |
| InjectModes.NameRoundTrip | BPDModel2.py:162-187 | a mode survives the trip through its name |
| InjectModes.IndexOf | BPDModel2.py:231-232 | list.index on the mode list: found exactly for the five modes, at the position that holds the mode |
| InjectModes.NextMode | BPDModel2.py:231-232 | 'm' gives another recognised mode, and fails exactly on an unrecognised one |
| InjectModes.NextModeCycle | BPDModel2.py:231-232 | the cycle add_to_lambda → add_to_g → add_to_P → add_to_EB → tilt_to_PN → add_to_lambda |
| InjectModes.FivePressesRestoreMode | BPDModel2.py:231-232 | five presses of 'm' restore every recognised mode |
| InjectModes.UnknownModeNeverCycles | BPDModel2.py:232 | on an unrecognised mode, every positive number of presses fails |
| OutputData.ClipMood | Helpers/ModelOutputData.py:16-18 | the stored mood lies in [-1, 1]; it equals the value inside that range and the nearer end outside |
| OutputData.ClipMoodIdempotent | Helpers/ModelOutputData.py:18 | clipping the mood again changes nothing |
| OutputData.ModelOutputData.constructor | Helpers/ModelOutputData.py:39-42 | the three arguments are stored as given, and the mood is not clipped |
| OutputData.ModelOutputData.SetBpdMood | Helpers/ModelOutputData.py:16-18 | stores the clipped value, so the mood is in [-1, 1] after any assignment; the other fields are unchanged |
| OutputData.ModelOutputData.SetBpdMoodVelocity | Helpers/ModelOutputData.py:25-27 | stores the value unchanged and touches nothing else |
| OutputData.ModelOutputData.SetBpdTreatmentEffect | Helpers/ModelOutputData.py:34-36 | stores the value unchanged and touches nothing else |
| OutputData.NewModelState | Helpers/AbstractModel.py:36-37 | the positional call puts the initial treatment effect into the velocity, and the published effect starts at 0 |
| Configuration.DelayStepsOf | BPDModel2Configuration.py:139-141 | max(1, round(delay / dt)) is at least 1, is 1 when the ratio is at most 0.5, and is within 0.5 of the ratio otherwise |
| Configuration.DelayStepsOfWholeMultiple | BPDModel2Configuration.py:139-141 | a delay of exactly n >= 1 steps (0.02 s at dt = 0.001 s) gives n steps, with no rounding loss |
| Configuration.BPDModel2Configuration.constructor | BPDModel2Configuration.py:146-173 | each argument is stored in its own field; the defaults are those of the source, with mode tilt_to_PN; the mode must be in canonical form (a recognised name is never held by `Other`) |
| Configuration.BPDModel2Configuration.QPMax | BPDModel2Configuration.py:57-60 | the QPMax getter reads qPmin; Configuration.BPDModel2Configuration.SetQPMax and Configuration.QPMaxReadBackAsWritten state the consequence |
| Configuration.BPDModel2Configuration.QNMax | BPDModel2Configuration.py:75-78 | the QNMax getter reads qNmin; Configuration.BPDModel2Configuration.SetQNMax and Configuration.QNMaxReadBackAsWritten state the consequence |
| Configuration.BPDModel2Configuration.DelaySteps | BPDModel2Configuration.py:139-141 | recomputed from the current Delay_Seconds and Dt by the formula reset uses, and at least 1 |
| Configuration.BPDModel2Configuration.SetInjectMode | BPDModel2Configuration.py:26-28 | changes the mode, given in canonical form, and no other field |
| Configuration.BPDModel2Configuration.SetG1 | BPDModel2Configuration.py:35-37 | changes g1 and no other field |
| Configuration.BPDModel2Configuration.SetG2 | BPDModel2Configuration.py:44-46 | changes g2 and no other field |
| Configuration.BPDModel2Configuration.SetQPMin | BPDModel2Configuration.py:53-55 | changes qPmin and no other field |
| Configuration.BPDModel2Configuration.SetQPMax | BPDModel2Configuration.py:57-64 | changes qPmax and no other field; what the QPMax getter reads does not change |
| Configuration.BPDModel2Configuration.SetQNMin | BPDModel2Configuration.py:71-73 | changes qNmin and no other field |
| Configuration.BPDModel2Configuration.SetQNMax | BPDModel2Configuration.py:75-82 | changes qNmax and no other field; what the QNMax getter reads does not change |
| Configuration.BPDModel2Configuration.SetLamb | BPDModel2Configuration.py:89-91 | changes lamb and no other field |
| Configuration.BPDModel2Configuration.SetDt | BPDModel2Configuration.py:98-100 | changes dt and no other field |
| Configuration.BPDModel2Configuration.SetTMin | BPDModel2Configuration.py:107-109 | changes tmin and no other field |
| Configuration.BPDModel2Configuration.SetTMax | BPDModel2Configuration.py:116-118 | changes tmax and no other field |
| Configuration.BPDModel2Configuration.SetDelaySeconds | BPDModel2Configuration.py:125-127 | changes the delay in seconds and no other field |
| Configuration.BPDModel2Configuration.SetGain | BPDModel2Configuration.py:134-136 | changes g_gain and no other field |
| Configuration.QPMaxReadBackAsWritten | BPDModel2Configuration.py:57-64 | as written, reading QPMax after setting it gives qPmin (10.0 by default), never a different value that was written |
| Configuration.QNMaxReadBackAsWritten | BPDModel2Configuration.py:75-82 | as written, reading QNMax after setting it gives qNmin (2.5 by default), never a different value that was written |
| Configuration.QPMaxReadBackIntended | BPDModel2Configuration.py:57-64 | with the getter reading qPmax, the value written is read back |
| Configuration.QNMaxReadBackIntended | BPDModel2Configuration.py:75-82 | with the getter reading qNmax, the value written is read back |
| ConfigurationTracker.FirstCovering | BPDModel2ConfigurationTracker.py:41-45 | no earlier window holds t, and the returned position, when inside the list, holds t |
| ConfigurationTracker.Active | BPDModel2ConfigurationTracker.py:39-46 | the configuration of the first window holding t, else the default; stated by ConfigurationTracker.ActiveIsFirstMatch and ConfigurationTracker.ActiveDefaultsWhenUncovered |
| ConfigurationTracker.ActiveIsFirstMatch | BPDModel2ConfigurationTracker.py:39-45 | a window that holds t, with no earlier window holding it, decides the lookup |
| ConfigurationTracker.ActiveDefaultsWhenUncovered | BPDModel2ConfigurationTracker.py:46 | with no window holding t, including an empty list, the lookup gives the default |
| ConfigurationTracker.FirstCoveringAppend | BPDModel2ConfigurationTracker.py:41-49 | after an append, the first covering position is unchanged where one existed; otherwise it is the new window or none |
| ConfigurationTracker.AppendKeepsCoveredTimes | BPDModel2ConfigurationTracker.py:41-49 | appending never changes the answer at a time an earlier window holds |
| ConfigurationTracker.AppendOnlyFillsDefaults | BPDModel2ConfigurationTracker.py:41-49 | at a time that used to get the default, an append gives the new window's configuration exactly when the new window holds that time |
| ConfigurationTracker.HalfOpen | BPDModel2ConfigurationTracker.py:42-43 | a window holds its start (when it is non-empty) and never its end |
| ConfigurationTracker.EmptyWindowNeverCovers | BPDModel2ConfigurationTracker.py:42-43 | a window with start >= end holds no time |
| ConfigurationTracker.AdjacentWindowsExample | BPDModel2ConfigurationTracker.py:39-46 | with windows [0,10) and [10,20): 5 → first, 10 and 15 → second, -1 and 25 → default |
| ConfigurationTracker.BPDModel2ConfigurationTracker.constructor | BPDModel2ConfigurationTracker.py:61-63 | a new tracker has no windows and a fresh default-constructed configuration |
| ConfigurationTracker.BPDModel2ConfigurationTracker.SetDefaultConfiguration | BPDModel2ConfigurationTracker.py:35-37 | replaces the default and keeps the windows |
| ConfigurationTracker.BPDModel2ConfigurationTracker.GetActiveConfiguration | BPDModel2ConfigurationTracker.py:39-46 | the scan returns the first covering window's configuration, else the default, and modifies nothing |
| ConfigurationTracker.BPDModel2ConfigurationTracker.AddConfiguration | BPDModel2ConfigurationTracker.py:48-49 | appends exactly one window at the end, unchecked; earlier windows and the default are unchanged |
| Model1.Acceleration | BPDModel1.py:18-20 | -ALPHA v - OMEGA2 x - B x² v + effect, with the source's constants; stated by Model1.EffectEntersVelocityOnly and Model1.FixedPoints |
| Model1.EulerStep | BPDModel1.py:18-22 | one explicit Euler step of mood and velocity; stated by Model1.RestIsFixedPoint, Model1.ZeroStepChangesNothing and Model1.FixedPoints |
| Model1.EffectEntersVelocityOnly | BPDModel1.py:18-22 | the treatment effect leaves the new mood alone and moves the new velocity by dt times the difference |
| Model1.RestIsFixedPoint | BPDModel1.py:18-22 | rest with no effect is a fixed point |
| Model1.ZeroStepChangesNothing | BPDModel1.py:21-22 | DT = 0 keeps mood and velocity |
| Model1.FixedPoints | BPDModel1.py:18-22 | for DT ≠ 0, the fixed points are exactly velocity 0 with mood equal to the effect |
| Model1.BPDModel1.constructor | Helpers/AbstractModel.py:36-37 | the mood is stored unclipped, the initial effect becomes the velocity, and the published effect is 0 |
| Model1.BPDModel1.Step | BPDModel1.py:14-26 | the new mood is the clipped Euler mood and the new velocity the Euler velocity, both from the pre-step values; the mood is in [-1, 1]; the effect is published |
| Treatment1.BPDTreatment1.constructor | BPDTreatment1.py:28-31 | the two ratios and the scale are stored as given |
| Treatment1.BPDTreatment1.CalculateTreatmentEffect | BPDTreatment1.py:34-36 | zero scale gives zero effect; with one ratio zero, the effect is scale × the other ratio × its reading |
| Treatment1.BPDTreatment1.OnKey | BPDTreatment1.py:39-42 | 'k' lowers the scale by 0.0005 but not below 0, 'K' raises it by 0.0005, any other key leaves it; the ratios never change |
| Treatment1.BPDTreatment1.SetXAngleRatio | BPDTreatment1.py:14-16 | sets the x-angle ratio only |
| Treatment1.BPDTreatment1.SetXAngleVelocityRatio | BPDTreatment1.py:23-25 | sets the x-acceleration-angle ratio only |
| Treatment1.EffectIgnoresAccelAngle | BPDTreatment1.py:28-35 | with the default zero velocity ratio, readings that agree on the x angle give the same effect |
| Treatment1.EffectIsAdditive | BPDTreatment1.py:34-36 | the effect is additive in the two readings it uses |
| Model2.F | BPDModel2.py:116 | f(x) = erf(x - 2); its shape is stated by Model2.GateEnds and Model2.GateInUnitInterval |
| Model2.Gate | BPDModel2.py:119-126 | the common form of S1 and S2, (f(g x) - f(0)) / (f(g) - f(0)), and 0 when the denominator is 0; stated by Model2.GateEnds and Model2.GateInUnitInterval |
| Model2.S1 | BPDModel2.py:119-121 | the gate with shape g1; Model2.PositiveGateBetween and Model2.ZeroBalanceGates state its effect |
| Model2.S2 | BPDModel2.py:124-126 | the same gate with shape g2; Model2.NegativeGateBetween and Model2.ZeroBalanceGates state its effect |
| Model2.QP | BPDModel2.py:129 | qPmin + S1 (qPmax - qPmin); between its bounds by Model2.PositiveGateBetween, at the ends by Model2.DriveAndDecayEnds |
| Model2.QN | BPDModel2.py:132 | qNmin + (1 - S2)(qNmax - qNmin); between its bounds by Model2.NegativeGateBetween, at the ends by Model2.DriveAndDecayEnds |
| Model2.TP | BPDModel2.py:135 | tmin + S1 (tmax - tmin); positive for positive bounds by Model2.PositiveBoundsWellDefined |
| Model2.TN | BPDModel2.py:138 | tmin + (1 - S2)(tmax - tmin); positive for positive bounds by Model2.PositiveBoundsWellDefined |
| Model2.Balance | BPDModel2.py:153-154 | P / (P + N) above 1e-9, else 0.5; stated by Model2.BalanceShare and Model2.ClampedBalance |
| Model2.EffectiveRates | BPDModel2.py:159-165 | lamb and the coupling, raised by the effect in add_to_lambda and add_to_g only; stated by Model2.AddToLambdaRaisesRate, Model2.AddToGRaisesCoupling and Model2.ZeroEffectIgnoresMode |
| Model2.Relax | BPDModel2.py:167-174 | cur + dt (-cur / tau + lamb q) + gain (cur - delayed), the update of one reservoir; Model2.BaseUpdate applies it to both and Model2.BaseDynamics is proved equal to that |
| Model2.Inject | BPDModel2.py:176-187 | the direct injection of add_to_P, add_to_EB and tilt_to_PN; stated by Model2.AddToPShiftsP, Model2.AddToEBTransfers and Model2.TiltToPNFeedsOneSide |
| Model2.BaseUpdate | BPDModel2.py:159-174 | both reservoirs relaxed with the effective rates; stated by Model2.BaseDynamics and the mode lemmas |
| Model2.Unclamped | BPDModel2.py:159-187 | the base update plus the injection; Model2.UnrecognisedModeIgnoresEffect and Model2.ZeroEffectIgnoresMode state it |
| Model2.GateEnds | BPDModel2.py:119-126 | the gate is 0 at 0 and 0 when its denominator vanishes; otherwise it is the quotient, and it is 1 at 1 |
| Model2.GateInUnitInterval | BPDModel2.py:116-126 | for a non-decreasing erf and a non-negative shape, the gate maps [0, 1] into [0, 1] |
| Model2.DriveAndDecayEnds | BPDModel2.py:129-138 | a closed gate gives qPmin/tmin for P and qNmax/tmax for N; an open gate gives the other ends |
| Model2.PositiveGateBetween | BPDModel2.py:129-135 | with S1 in [0, 1], qP and tP lie between their bounds |
| Model2.NegativeGateBetween | BPDModel2.py:132-138 | with S2 in [0, 1], qN and tN lie between their bounds |
| Model2.ZeroBalanceGates | BPDModel2.py:119-138 | at EB = 0, qP = qPmin, tP = tmin, qN = qNmax and tN = tmax |
| Model2.BalanceShare | BPDModel2.py:153-154 | above 1e-9 the balance is P's share of the total; otherwise it is 0.5 |
| Model2.PublishedBalance | BPDModel2.py:198-199 | the published balance is in [0, 1] and equals the raw balance when that is already in range |
| Model2.Clamp | BPDModel2.py:190-191 | the reservoir clamp lands in [1e-6, 1e6], is the identity there, and is numpy's clip onto that range |
| Model2.ClampedBalance | BPDModel2.py:190-202 | for clamped reservoirs the 0.5 fallback is never taken, EB = P/(P+N) lies strictly in (0, 1), the [0, 1] clip does nothing and the mood lies in (-1, 1) |
| Model2.BufLength | BPDModel2.py:107 | the buffer length is max(8, delay + 10), so it is at least 8 and longer than the delay |
| Model2.PositiveBoundsWellDefined | BPDModel2.py:135-138 | with a non-decreasing erf, non-negative shapes and positive time bounds, both time constants are nonzero for every balance in [0, 1] |
| Model2.Advance | BPDModel2.py:189-191 | both new reservoir values lie in [1e-6, 1e6] |
| Model2.AdvanceKeepsInRange | BPDModel2.py:189-191 | an update already in range is published as it is |
| Model2.BaseDynamics | BPDModel2.py:151-174 | the rates and base dynamics computed step by step equal the base update function |
| Model2.NextReservoirs | BPDModel2.py:151-191 | the step's arithmetic (base dynamics, injection, clamp) equals the update function and lands in range |
| Model2.ZeroEffectIgnoresMode | BPDModel2.py:159-187 | with zero effect, every mode, recognised or not, gives the same update |
| Model2.UnrecognisedModeIgnoresEffect | BPDModel2.py:159-187 | an unrecognised mode falls through every branch: the effect is ignored |
| Model2.AddToLambdaRaisesRate | BPDModel2.py:162-163 | add_to_lambda is the zero-effect update with lamb raised by the effect, and nothing else changes |
| Model2.AddToGRaisesCoupling | BPDModel2.py:164-165 | add_to_g is the zero-effect update with the coupling raised by the effect |
| Model2.AddToPShiftsP | BPDModel2.py:177-178 | add_to_P adds the effect to P and leaves N |
| Model2.AddToEBTransfers | BPDModel2.py:179-182 | add_to_EB adds 10 × effect to P and takes it from N |
| Model2.TiltToPNFeedsOneSide | BPDModel2.py:183-187 | tilt_to_PN adds 10 × abs(effect) to P for a positive effect, otherwise to N |
| Model2.KeyEffect | BPDModel2.py:207-236 | 'l'/'g' keep lamb/g_gain >= 0; 'L'/'G' add 0.05/0.005; 't' keeps dt >= 0.0005; 'T' adds 0.0005; 'm' picks a recognised mode and fails exactly on an unrecognised one; every other key keeps the parameters; each key changes only its own field |
| Model2.ResetWindow | BPDModel2.py:109-113 | a freshly reset buffer (seed in slot 0, zeros elsewhere) holds the delay-line window at counter 0 |
| Model2.AdvanceWindow | BPDModel2.py:193-196 | writing slot (i+1) mod len advances the window by one counter value |
| Model2.SeededBuffer | BPDModel2.py:109-112 | a fresh buffer of the given length with the seed in slot 0 and zeros elsewhere, holding the delay-line window of counter 0 |
| Model2.BPDModel2.constructor | BPDModel2.py:68-102 | stores the coefficients (the mode in canonical form), builds a fresh snapshot as the abstract model does, and ends in the reset state of (P0, N0) with fresh buffers, so a caller can step the new model at once |
| Model2.BPDModel2.Reset | BPDModel2.py:105-113 | delay >= 1, buffer length max(8, delay + 10), fresh buffers with the seed in slot 0 and zeros elsewhere, counter 0, coefficients unchanged |
| Model2.BPDModel2.CurrentIndices | BPDModel2.py:141-144 | both indices lie in [0, bufLen), also when i < delay; they hold the values stored at i and at i - delay |
| Model2.BPDModel2.Push | BPDModel2.py:193-196 | exactly slot (i+1) mod bufLen of each buffer changes, the counter rises by 1 and the invariant is kept |
| Model2.BPDModel2.NextValues | BPDModel2.py:151-191 | reads the current and delayed slots and returns the update function of the values stored at i and at i - delay, in range; it changes nothing |
| Model2.BPDModel2.StepReservoirs | BPDModel2.py:149-196 | sets dt := DT, writes the update of the current and delayed values into slot (i+1) mod bufLen only, and raises i by 1, keeping the invariant |
| Model2.BPDModel2.Publish | BPDModel2.py:198-202 | for clamped reservoirs EB = P/(P+N) lies in (0, 1); the snapshot gets mood 2(EB - 0.5) in (-1, 1) and the effect; the velocity is unchanged |
| Model2.BPDModel2.Step | BPDModel2.py:147-204 | sets dt := DT; the new (P, N) is the update function of the current and delayed values; only slot (i+1) mod bufLen changes; i rises by 1; the delay and length are unchanged; EB = P/(P+N) lies in (0, 1); mood = 2(EB - 0.5) lies in (-1, 1); the effect is published |
| Model2.BPDModel2.Retune | BPDModel2.py:210-233 | for the keys that do not reset: the parameters change as KeyEffect says, 'm' on an unrecognised mode changes nothing and reports failure, and buffers, counter and histories are kept |
| Model2.BPDModel2.OnKey | BPDModel2.py:207-236 | the parameters change as KeyEffect says; 't', 'T' and 'r' leave the reset state of (100, 100); other keys keep buffers, counter and histories; 'm' on an unrecognised mode changes nothing and reports failure |
| Model2.ApplicationSteps | main.py:35 | a model built as the application builds it and stepped twice every 0.01 s publishes a mood in (-1, 1) after each step |
| Model2.DelayedReadBeforeFill | BPDModel2.py:141-144 | before the counter reaches the delay, the delayed slot still reads the reset zero |
| Model2.DelayedReadAfterFill | BPDModel2.py:143-196 | once the counter has reached the delay, the delayed slot reads the value stored delay steps earlier |

## Left out

- I/O and concurrency are left out because they are not part of the simulation core:
  - the `print` calls in `BPDModel2.on_key` and `BPDTreatment1.on_key`;
  - main.py (the OSC server, threads, timers and keyboard polling);
  - the plot, theremin and sound helpers;
  - the wall-clock TimeKeeper;
  - `PrintConfigurationInfo` (console output and input).
- `math.erf` is a foreign call, so it is a function parameter `erf` of the model. The lemmas that need its shape require only that it is non-decreasing.
- Floats are exact reals. NaN, infinities, rounding error and the float rounding before `round` are not modelled. Nothing is claimed about convergence or oscillation of the dynamics.
- Model2.BPDModel2.Step: requires both time constants to be nonzero. At BPDModel2.py:171-172 the numerator `-P_cur` is a numpy float, so a zero time constant gives an IEEE infinity or NaN (with a RuntimeWarning), not an exception; the clip at BPDModel2.py:190 then maps -inf and NaN to 1e-6 and +inf to 1e6. Infinities and NaN are not modelled, hence the requirement. `Model2.PositiveBoundsWellDefined` shows it is met whenever erf is non-decreasing, g1, g2 >= 0, tmin, tmax > 0 and the balance lies in [0, 1]. The balance is in (0, 1) after every step, because the reservoirs are clamped (`Model2.ClampedBalance`), but not necessarily before the first step: P0 = -1, N0 = 3 gives EB = -0.5.
- Model2.BPDModel2.Reset and the constructor require dt ≠ 0, because Python raises ZeroDivisionError at BPDModel2.py:106 (the defaults are Python floats there).
- Configuration.BPDModel2Configuration.DelaySteps: requires dt ≠ 0, because Python raises ZeroDivisionError at BPDModel2Configuration.py:141 otherwise.
- Model2.BPDModel2.OnKey: requires dt ≠ 0 before 'r' and dt + 0.0005 ≠ 0 before 'T' for the same reason. The exception path is not modelled.
- Model2.BPDModel2.OnKey: on an unrecognised mode, 'm' makes `list.index` raise ValueError. The model returns `ok = false` and leaves every field unchanged, which is the state the exception leaves behind.
- InjectMode is a free string in the source. It is a datatype with the five recognised names and `Other(name)` for every other string. Only the canonical form is admitted: `Other` never carries a recognised name (`InjectModes.Canonical`), which `Valid()` keeps and the constructors and `SetInjectMode` require; `InjectModes.FromName` turns any string into that form.
- The getter methods of the configuration and treatment properties are field reads and have no separate members. The QPMax/QNMax getters are modelled as the functions `QPMax()`/`QNMax()`, which read qPmin/qNmin.
- Treatment1.BPDTreatment1.constructor: as written, BPDTreatment1.py:29 calls `super().__init__(TreatmentScale=...)`. The abstract treatment defines no constructor, so this reaches `object.__init__`, which raises TypeError on the keyword argument because `__init__` is overridden. `BPDTreatment1()` therefore fails, and `TreatmentScale` is never assigned anywhere in the source. The model gives the evidently intended behaviour instead: the scale is a plain field set by the constructor; the TypeError path is not modelled.
- The P0/N0 class attributes of BPDModel2 are never assigned and are not modelled.
- The ghost histories `pHist`/`nHist` are proof-only and have no counterpart in the source.

## Findings

| source | as written | input that shows it | evidently intended | confidence | as-written member | corrected member |
|---|---|---|---|---|---|---|
| BPDModel2Configuration.py:62 | `QPMax` is built with `@QPMin.setter`, so its getter is QPMin's and returns `_qPmin` | a default configuration with QPMax set to 12.5 reads back QPMax = 10.0 | `@QPMax.setter`, so that QPMax reads `_qPmax` | not executed | Configuration.QPMaxReadBackAsWritten | Configuration.QPMaxReadBackIntended |
| BPDModel2Configuration.py:80 | `QNMax` is built with `@QNMin.setter`, so its getter is QNMin's and returns `_qNmin` | a default configuration with QNMax set to 6.0 reads back QNMax = 2.5 | `@QNMax.setter`, so that QNMax reads `_qNmax` | not executed | Configuration.QNMaxReadBackAsWritten | Configuration.QNMaxReadBackIntended |
