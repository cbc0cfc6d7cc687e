# PID controller model

This project models the `PID` class of the mbed PID library (PID.h, PID.cpp), a port of Brett Beauregard's Arduino
PID library. The controller turns a measured process value and a setpoint into a bounded actuator command, once per
sample interval.

It keeps all its state in the fields of one object:
- the tuning used by the calculation: `Kc`, the integral rate `tauR` and the derivative rate `tauD`;
- the raw tuning as the caller gave it;
- the input and output ranges with their spans;
- the setpoint and the process value, in real-world units;
- the output of the last `compute` and the previous measurement and previous output, normalised by their ranges
  (in [0, 1] after `compute`);
- the accumulated error;
- the feed-forward bias and its flag;
- the Manual/Auto flag;
- the sample period;
- the real-world output, which only the constructor writes.

The project has three modules:

- `PidDefs` (pid_defs.dfy) holds the `constrain` macro and the mode encoding of PID.h.
- `PidSpec` (pid_spec.dfy) holds `State`, a value with one field per class member. It gives one pure function per
  public operation that changes state, which is the state after the call. `Compute` also gives the returned
  output. `Run` applies a sequence of calls. The lemmas about the operations are here:
  - rejected calls are invisible;
  - the rescaling rules;
  - bumpless re-tuning;
  - the mode edge and reset;
  - anti-windup;
  - the bounds of `compute`;
  - the worked example.
- `Pid` (pid.dfy) holds `class PID`, whose fields are the fields of PID.h and are updated in place.
  - Every method that models a public operation that changes state is proved to leave the object in exactly the
    state the matching `PidSpec` function gives.
  - Every such method keeps the invariant `Valid()`: positive spans matching their ranges, a positive sample period,
    an accepted tuning, and a real-world output still at the 0 the constructor wrote.
  - `GetSetPoint` is a plain field read.
  - The helper methods `StoreRawTunings`, `CommitTunings` and `Remember` each store a group of fields. They run
    inside `SetTunings` and `Compute`, state only which fields they change, and may break `Valid()` until the
    enclosing method finishes.

All quantities are mathematical reals. The model has no floating-point rounding.

Three behaviours of the code are reproduced as written, and a lemma states each:
- `reset` does not clamp what it writes (`ResetNotClamped`). So both previous-sample values lie in [0, 1] after
  `compute`, but not after `reset`. An accepted limit change clamps only the value it rescales: the previous
  measurement for the input range, the previous output for the output range.
- `_realOutput` is written only by the constructor, so the non-feed-forward branch of `reset` always starts from
  the real-world output 0, normalised into the output range (`ResetWithoutFeedForward`).
- `setInterval` multiplies the derivative rate by new period / old period. `setTunings` derives it as
  `tauD / tSample`, so the two agree again only when the period is unchanged (`IntervalDerivativeRateDiverges`).
  `setInterval` does keep the ratio `tauD / tSample` fixed (`IntervalRescale`).

The comment at PID.cpp:33 says the working variables are rescaled "to reflect the changes", which reads as keeping
the real-world meaning of the stored values across a range change. The code does not do that, and the model follows
the code:
- An accepted limit change multiplies the normalised stored values by new span / old span (PID.cpp:34-35, 52), so
  the real-world value they stand for moves. A previous measurement of 0.5 on [0, 3.3] (1.65) becomes 1.0 on
  [0, 6.6] (6.6).
- `reset` does not clamp the values it writes.

## Model

| member | source | states |
|---|---|---|
| PidDefs.Constrain | PID.h:29 | For low <= high the result lies in [low, high]; a value already in the range is returned unchanged. |
| PidDefs.ConstrainSaturates | PID.h:29 | A value at or below the range gives `low`; one at or above it gives `high`. |
| PidDefs.ConstrainIdempotent | PID.h:29 | Clamping twice equals clamping once. |
| PidDefs.ConstrainMonotone | PID.h:29 | Clamping preserves the order of two values. |
| PidDefs.ModeEncoding | PID.h:30-31 | MANUAL_MODE (0) decodes to Manual and AUTO_MODE (1) to Auto; every non-zero mode is Auto. |
| PidSpec.IntegralRate | PID.cpp:76-85 | The integral rate is non-negative and zero exactly when the integral time is zero; otherwise it times the integral time is the sample period. |
| PidSpec.Denormalize | PID.cpp:211-213 | A normalised value in [0, 1] maps to a real-world value inside the range. |
| PidSpec.NormalizeRoundTrip | PID.cpp:176 | Scaling into a range and back out is the identity, in both orders. |
| PidSpec.WellFormed | PID.h:133-173 | The invariant of every reachable state: both ranges non-empty with their spans cached, a positive period, an accepted tuning, the real-world output still 0. Its ensures: a well-formed state has `inMin < inMax` and `outMin < outMax`. |
| PidSpec.Normalize | PID.cpp:176 | The fraction of the range a real-world value stands for: scaled by the span from the low end it gives the value back, and it is negative exactly below the range. Also used at PID.cpp:112, 116, 120, 179 and 198. |
| PidSpec.Scale | PID.cpp:34-35 | Multiplying by the ratio `num / den`: the result times `den` is `x * num`. Also used at PID.cpp:52 and 144-146. |
| PidSpec.Initial | PID.cpp:3-25 | The constructor gives a well-formed state with: ranges [0, 3.3]; Manual mode; no feed-forward; zero bias, setpoint, process value and accumulator; zero previous measurement, previous output and stored output; period `interval`; the raw tuning stored; the rates derived as `setTunings` derives them. |
| PidSpec.SetInputLimits | PID.cpp:27-43 | `inMin >= inMax` leaves the state unchanged. Otherwise: the new range and span are committed, the previous measurement lies in [0, 1], and only the range, span, previous measurement and accumulator change. |
| PidSpec.SetOutputLimits | PID.cpp:45-60 | `outMin >= outMax` leaves the state unchanged. Otherwise: the new range and span are committed, the previous output lies in [0, 1], and only the range, span and previous output change. |
| PidSpec.SetTunings | PID.cpp:62-103 | A zero gain or a negative time constant leaves the state unchanged. Otherwise: the raw values are stored; the integral rate is period / integral time (0 for no integral action); the derivative rate is `tauD / tSample`; the accumulator is untouched in Manual mode; nothing outside the tuning and the accumulator changes. |
| PidSpec.RetunedAccError | PID.cpp:87-98 | Manual mode keeps the accumulator. In Auto mode a zero new integral rate clears it, and otherwise the new `Kc * tauR` times the new accumulator equals the old `Kc * tauR * accError`. |
| PidSpec.RetuneRatio | PID.cpp:96 | The factor that carries the integral term across a re-tune: times the new `Kc * tauR` it gives the old one. |
| PidSpec.Reset | PID.cpp:105-124 | Clears the accumulator and changes nothing but the accumulator, the previous output and the previous measurement. |
| PidSpec.ActiveBias | PID.cpp:108-117 | Scaled back into the output range, the value `reset` starts from is the bias with feed-forward on, and the real-world output otherwise. |
| PidSpec.SetMode | PID.cpp:126-136 | Auto is set exactly when `mode != 0`. A Manual-to-Auto edge gives `reset` followed by Auto. Any other call changes only the flag. |
| PidSpec.SetInterval | PID.cpp:138-149 | A non-positive interval leaves the state unchanged. Otherwise the period is committed, the accumulator times the period is kept (the accumulator is multiplied by old / new period), and only the two rates, the accumulator and the period change. |
| PidSpec.SetSetPoint | PID.cpp:151-154 | Stores the setpoint and changes nothing else. |
| PidSpec.SetProcessValue | PID.cpp:161-164 | Stores the process value and changes nothing else. |
| PidSpec.SetBias | PID.cpp:166-170 | Stores the bias, switches feed-forward on, and changes nothing else. |
| PidSpec.ScaledProcessValue | PID.cpp:176-177 | The scaled measurement lies in [0, 1]. |
| PidSpec.ScaledSetPoint | PID.cpp:179-180 | The scaled setpoint lies in [0, 1]. |
| PidSpec.Error | PID.cpp:182 | The normalised error lies in [-1, 1]. |
| PidSpec.Integrates | PID.cpp:186 | The anti-windup gate is open whenever the error is 0 or the previous output is strictly inside (0, 1); it can close only when the output is pinned. |
| PidSpec.NextAccError | PID.cpp:186-189 | When the previous output is pinned at 1 with a positive error or at 0 with a negative one, the accumulator is unchanged; otherwise it grows by exactly the error. |
| PidSpec.MeasurementSlope | PID.cpp:192 | The derivative is taken on the measurement: the slope times the period is the change of the scaled measurement, and it is 0 exactly when the measurement has not moved. |
| PidSpec.FeedForward | PID.cpp:194-199 | With feed-forward on, the term scales back to the bias; without it, the term is 0. |
| PidSpec.PidLaw | PID.cpp:202 | With no derivative rate or a flat measurement the law is bias plus gain times (error plus integral term). With positive gain and derivative rate, a rising measurement lowers the output. |
| PidSpec.ControllerOutput | PID.cpp:202-205 | The clamped normalised output lies in [0, 1]. |
| PidSpec.Compute | PID.cpp:172-213 | The output lies in [outMin, outMax]. The next state is well-formed, with the previous measurement and output in [0, 1]. The stored output equals the previous output. Only the accumulator, the stored output and the previous-sample values change. |
| PidSpec.AntiWindup | PID.cpp:184-189 | A non-zero error leaves the accumulator alone exactly when the previous output is pinned at 1 with a positive error or at 0 with a negative one. Otherwise the accumulator grows by exactly the error. An output pinned at 1 never raises the accumulator, and one pinned at 0 never lowers it. |
| PidSpec.ComputeRemembers | PID.cpp:207-213 | `compute` keeps the clamped measurement for the next derivative. The previous output it keeps is the returned value, normalised: scaling it back gives the return value. |
| PidSpec.Apply | PID.cpp:27-213 | Every public call keeps the state well-formed. |
| PidSpec.Run | PID.cpp:27-213 | No sequence of calls breaks the ranges, the period or the tuning. |
| PidSpec.RejectedCallIsInvisible | PID.cpp:30-31 | A rejected limit, tuning or interval call leaves every field unchanged, so every later call behaves as if it had not been made. The rejecting guards are PID.cpp:30-31, 48-49, 66-69 and 141. |
| PidSpec.InputLimitsRescale | PID.cpp:33-42 | An accepted input range multiplies the accumulator by new span / old span, so accumulator / span is unchanged. The previous measurement scales the same way unless the clamp cuts it off. |
| PidSpec.OutputLimitsRescale | PID.cpp:51-59 | An accepted output range scales the previous output by new span / old span, unless the clamp cuts it off. |
| PidSpec.BumplessRetune | PID.cpp:87-98 | In Auto mode, an accepted re-tune with a non-zero integral time keeps `Kc * tauR * accError`. With a zero integral time it clears the accumulator. |
| PidSpec.IntervalRescale | PID.cpp:141-148 | An accepted `setInterval` keeps `tauR * accError`, `accError * tSample`, `tauR / tSample` and `tauD / tSample`. |
| PidSpec.ApplyKeepsIntegralRate | PID.cpp:76-85 | Every call keeps the integral rate equal to period / integral time. This includes `setInterval`, whose rescaling lands on the rate `setTunings` would derive. |
| PidSpec.RunKeepsIntegralRate | PID.cpp:144 | The integral-rate relation holds after any sequence of calls. |
| PidSpec.FeedForwardLatched | PID.cpp:166-170 | Once feed-forward is on, no sequence of calls switches it off. |
| PidSpec.IntervalDerivativeRateDiverges | PID.cpp:146 | For a positive derivative time, `tauD == dParam / tSample` survives `setInterval` exactly when the period is unchanged. |
| PidSpec.SetModeIdempotent | PID.cpp:126-136 | Setting the same mode twice equals setting it once. |
| PidSpec.ResetAligns | PID.cpp:119-123 | After `reset` the accumulator is 0. Scaled back to real-world units, the previous measurement is the current process value and the previous output is the bias (0 without feed-forward). |
| PidSpec.ManualToAutoResets | PID.cpp:130-135 | Going from Manual to Auto does three things: it clears the accumulator, it aligns the previous measurement with the process value, and it aligns the previous output with the active bias. |
| PidSpec.ManualToAutoBumpless | PID.cpp:128-135 | Bumpless transfer at the output: entering Auto from Manual with feed-forward on, the measurement at the setpoint inside the input range and the bias inside the output range, the first `compute` returns exactly the bias. |
| PidSpec.ResetNotClamped | PID.cpp:120 | After `reset`, the previous measurement lies in [0, 1] exactly when the process value lies in the input range. |
| PidSpec.ResetWithoutFeedForward | PID.cpp:114-117 | Without feed-forward, `reset` takes the previous output from the real-world output, which is always the real-world 0, normalised into the output range. |
| PidSpec.ComputeIgnoresMode | PID.cpp:172-213 | `compute` gives the same output and the same next state in Manual and in Auto. |
| PidSpec.NormalizeInRange | PID.cpp:176 | A normalised value lies in [0, 1] exactly when the real-world value lies in the range. |
| PidSpec.NoDerivativeKickAfterReset | PID.cpp:191-192 | Right after a reset, with the process value in range, the output of the first `compute` does not depend on the derivative rate. |
| PidSpec.ResetSlope | PID.cpp:192 | Right after a reset, with the process value in range, the measurement slope is 0. |
| PidSpec.FlatOutputIgnoresDerivative | PID.cpp:202 | When the measurement has not moved, the derivative rate does not affect the output. |
| PidSpec.ProportionalOnly | PID.cpp:172-213 | Gain 2, proportional only, ranges [0, 10], setpoint 5: the output is `10 - 2 * pv` for pv up to 5 and 0 above. |
| PidSpec.InitialProportional | PID.cpp:13-14 | A controller built with zero integral and derivative times has proportional action only. |
| PidSpec.ComputeExample | PID.cpp:172-213 | The worked example: after setting ranges [0, 10] and setpoint 5, process value 0 returns 10 and process value 5 returns 0. |
| PidSpec.ConstructedExample | PID.cpp:3-25 | From construction with gain 2 and no integral or derivative time, ranges [0, 10] and setpoint 5: process value 0 returns 10 and process value 5 returns 0, for period 1 and any other positive period. |
| Pid.PID.constructor | PID.cpp:3-25 | The new object is in the state `Initial` gives, and it is valid. |
| Pid.PID.Valid | PID.h:133-173 | The object invariant: the snapshot of the fields is well-formed. Its ensures: a valid object has non-empty ranges, a positive period and a non-zero gain. |
| Pid.PID.SetInputLimits | PID.cpp:27-43 | Updates the fields to the state `SetInputLimits` gives and keeps the object valid. |
| Pid.PID.SetOutputLimits | PID.cpp:45-60 | Updates the fields to the state `SetOutputLimits` gives and keeps the object valid. |
| Pid.PID.StoreRawTunings | PID.cpp:71-74 | Stores the raw tuning and changes nothing else. |
| Pid.PID.CommitTunings | PID.cpp:100-102 | Installs the gain and the two rates and changes nothing else. |
| Pid.PID.SetTunings | PID.cpp:62-103 | Updates the fields to the state `SetTunings` gives and keeps the object valid. |
| Pid.PID.Reset | PID.cpp:105-124 | Updates the fields to the state `Reset` gives and keeps the object valid. |
| Pid.PID.SetMode | PID.cpp:126-136 | Updates the fields to the state `SetMode` gives and keeps the object valid. |
| Pid.PID.SetInterval | PID.cpp:138-149 | Updates the fields to the state `SetInterval` gives and keeps the object valid. |
| Pid.PID.SetSetPoint | PID.cpp:151-154 | Updates the fields to the state `SetSetPoint` gives and keeps the object valid. |
| Pid.PID.GetSetPoint | PID.cpp:156-159 | Returns the stored setpoint. |
| Pid.PID.SetProcessValue | PID.cpp:161-164 | Updates the fields to the state `SetProcessValue` gives and keeps the object valid. |
| Pid.PID.SetBias | PID.cpp:166-170 | Updates the fields to the state `SetBias` gives and keeps the object valid. |
| Pid.PID.Remember | PID.cpp:207-210 | Copies the output into the previous output and stores the scaled measurement, and changes nothing else. |
| Pid.PID.Compute | PID.cpp:172-213 | Updates the fields to the next state `Compute` gives and returns its output, which lies between the output limits of the call. It keeps the object valid. |

## Left out

- Floating point: every quantity is a real. Rounding, NaN, infinities, and the exact float comparisons `Kc == 0.0` and `tauI == 0.0` are not modelled, and no tolerance-based claims are made.
- The `volatile` qualifier on `_realOutput` and any concurrent access to the object. The model is single-threaded, and `_realOutput` changes only in the constructor.
- `mbed.h`, the timer or scheduler that calls `compute`, and sensor and actuator I/O: none of these are part of the controller's logic.
- Pid.PID.constructor: requires `interval > 0`, a non-zero gain and non-negative time constants, and initialises the fields directly. The C++ constructor validates nothing. It runs `setInputLimits` and `setOutputLimits` on uninitialised spans, and after a rejected `setTunings` it leaves the gain and rates indeterminate. Those indeterminate states are not modelled.
- Pid.PID.SetTunings: the raw-tuning stores and the final commit of the gain and rates are grouped into the helper methods StoreRawTunings and CommitTunings. They run in the same order as the source, so this changes only the structure of the method.
- Pid.PID.Compute: the two stores that remember the sample are grouped into the helper method Remember.
- Closed-loop behaviour is not modelled: convergence, steady state, and output continuity across ticks depend on the controlled plant.
- The "output change below a small epsilon" form of bumpless re-tuning is replaced by the exact invariant `Kc * tauR * accError` (`BumplessRetune`).
