/** The controller object of PID.h / PID.cpp: the fields of class PID,
    updated in place by one method per public operation. Each method that
    models an operation changing state is proved to leave the object in the
    state that the matching function of PidSpec gives, and to keep Valid(),
    so everything proved there holds of the object. GetSetPoint is a plain
    field read. A few groups of stores (the raw tuning, the committed tuning,
    the values kept for the next sample) sit in small helper methods that
    state only which fields they change; they run inside SetTunings and
    Compute and may break Valid() until the enclosing method finishes. */
module Pid {
  import opened PidDefs
  import PidSpec

  class PID {
    var usingFeedForward: bool
    var inAuto: bool

    // Tuning used by the calculation.
    var kc: real
    var tauR: real
    var tauD: real

    // Tuning as the caller gave it.
    var pParam: real
    var iParam: real
    var dParam: real

    var setPoint: real
    var processVariable: real
    var prevProcessVariable: real
    var controllerOutput: real
    var prevControllerOutput: real

    // Real-world ranges of the input and the output.
    var inMin: real
    var inMax: real
    var inSpan: real
    var outMin: real
    var outMax: real
    var outSpan: real

    var accError: real
    var bias: real
    var tSample: real
    var realOutput: real

    /** The values of all fields. */
    function Snapshot(): PidSpec.State
      reads this
    {
      PidSpec.State(
        usingFeedForward, inAuto, kc, tauR, tauD, pParam, iParam, dParam,
        setPoint, processVariable, prevProcessVariable, controllerOutput, prevControllerOutput,
        inMin, inMax, inSpan, outMin, outMax, outSpan,
        accError, bias, tSample, realOutput)
    }

    /** The invariant every method keeps: both ranges non-empty with their
        spans cached, a positive sample period, an accepted tuning. */
    ghost predicate Valid()
      reads this
      ensures Valid() ==> inMin < inMax && outMin < outMax && tSample > 0.0 && kc != 0.0
    {
      PidSpec.WellFormed(Snapshot())
    }

    /** Default ranges [0, 3.3], Manual mode, no bias, zeroed runtime state,
        tuning derived from `interval`. */
    constructor (kc: real, tauI: real, tauD: real, interval: real)
      requires interval > 0.0 && kc != 0.0 && tauI >= 0.0 && tauD >= 0.0
      ensures Snapshot() == PidSpec.Initial(kc, tauI, tauD, interval)
      ensures Valid()
    {
      usingFeedForward := false;
      inAuto := false;

      inMin, inMax, inSpan := 0.0, 3.3, 3.3;
      outMin, outMax, outSpan := 0.0, 3.3, 3.3;

      tSample := interval;
      pParam, iParam, dParam := kc, tauI, tauD;
      this.kc := kc;
      tauR := PidSpec.IntegralRate(tauI, interval);
      this.tauD := tauD / interval;

      setPoint := 0.0;
      processVariable := 0.0;
      prevProcessVariable := 0.0;
      controllerOutput := 0.0;
      prevControllerOutput := 0.0;

      accError := 0.0;
      bias := 0.0;
      realOutput := 0.0;
    }

    method SetInputLimits(inMin: real, inMax: real)
      requires Valid()
      modifies this
      ensures Snapshot() == PidSpec.SetInputLimits(old(Snapshot()), inMin, inMax)
      ensures Valid()
    {
      // A range with inMin >= inMax is ignored.
      if inMin < inMax {
        prevProcessVariable := PidSpec.Scale(prevProcessVariable, inMax - inMin, inSpan);
        accError := PidSpec.Scale(accError, inMax - inMin, inSpan);

        prevProcessVariable := Constrain(prevProcessVariable, 0.0, 1.0);

        this.inMin := inMin;
        this.inMax := inMax;
        inSpan := inMax - inMin;
      }
    }

    method SetOutputLimits(outMin: real, outMax: real)
      requires Valid()
      modifies this
      ensures Snapshot() == PidSpec.SetOutputLimits(old(Snapshot()), outMin, outMax)
      ensures Valid()
    {
      // A range with outMin >= outMax is ignored.
      if outMin < outMax {
        prevControllerOutput := PidSpec.Scale(prevControllerOutput, outMax - outMin, outSpan);

        prevControllerOutput := Constrain(prevControllerOutput, 0.0, 1.0);

        this.outMin := outMin;
        this.outMax := outMax;
        outSpan := outMax - outMin;
      }
    }

    /** Stores the raw tuning, which is kept only to be handed back on
        request. */
    method StoreRawTunings(kc: real, tauI: real, tauD: real)
      modifies this
      ensures Snapshot() == old(Snapshot()).(pParam := kc, iParam := tauI, dParam := tauD)
    {
      pParam := kc;
      iParam := tauI;
      dParam := tauD;
    }

    /** Installs the tuning the calculation uses. */
    method CommitTunings(kc: real, tauR: real, tauD: real)
      modifies this
      ensures Snapshot() == old(Snapshot()).(kc := kc, tauR := tauR, tauD := tauD)
    {
      this.kc := kc;
      this.tauR := tauR;
      this.tauD := tauD;
    }

    method SetTunings(kc: real, tauI: real, tauD: real)
      requires Valid()
      modifies this
      ensures Snapshot() == PidSpec.SetTunings(old(Snapshot()), kc, tauI, tauD)
      ensures Valid()
    {
      // A zero gain or a negative time constant is ignored.
      if !(kc == 0.0 || tauI < 0.0 || tauD < 0.0) {
        StoreRawTunings(kc, tauI, tauD);

        var tempTauR := PidSpec.IntegralRate(tauI, tSample);

        // Bumpless re-tuning: rescale the accumulated error.
        if inAuto {
          if tempTauR == 0.0 {
            accError := 0.0;
          } else {
            accError := accError * PidSpec.RetuneRatio(this.kc, tauR, kc, tempTauR);
          }
        }

        CommitTunings(kc, tempTauR, tauD / tSample);
      }
    }

    method Reset()
      requires Valid()
      modifies this
      ensures Snapshot() == PidSpec.Reset(old(Snapshot()))
      ensures Valid()
    {
      var scaledBias := 0.0;
      if usingFeedForward {
        scaledBias := PidSpec.Normalize(bias, outMin, outSpan);
      } else {
        scaledBias := PidSpec.Normalize(realOutput, outMin, outSpan);
      }

      prevControllerOutput := scaledBias;
      prevProcessVariable := PidSpec.Normalize(processVariable, inMin, inSpan);

      accError := 0.0;
    }

    method SetMode(mode: int)
      requires Valid()
      modifies this
      ensures Snapshot() == PidSpec.SetMode(old(Snapshot()), mode)
      ensures Valid()
    {
      // Manual to Auto: reinitialise the controller internals.
      if mode != 0 && !inAuto {
        Reset();
      }
      inAuto := mode != 0;
    }

    method SetInterval(interval: real)
      requires Valid()
      modifies this
      ensures Snapshot() == PidSpec.SetInterval(old(Snapshot()), interval)
      ensures Valid()
    {
      if interval > 0.0 {
        tauR := PidSpec.Scale(tauR, interval, tSample);
        accError := PidSpec.Scale(accError, tSample, interval);
        tauD := PidSpec.Scale(tauD, interval, tSample);
        tSample := interval;
      }
    }

    method SetSetPoint(sp: real)
      requires Valid()
      modifies this
      ensures Snapshot() == PidSpec.SetSetPoint(old(Snapshot()), sp)
      ensures Valid()
    {
      setPoint := sp;
    }

    /** The setpoint last stored. */
    method GetSetPoint() returns (sp: real)
      ensures sp == setPoint
    {
      sp := setPoint;
    }

    method SetProcessValue(pv: real)
      requires Valid()
      modifies this
      ensures Snapshot() == PidSpec.SetProcessValue(old(Snapshot()), pv)
      ensures Valid()
    {
      processVariable := pv;
    }

    method SetBias(bias: real)
      requires Valid()
      modifies this
      ensures Snapshot() == PidSpec.SetBias(old(Snapshot()), bias)
      ensures Valid()
    {
      this.bias := bias;
      usingFeedForward := true;
    }

    /** Keeps this output for the windup check and this input for the
        derivative of the next sample. */
    method Remember(scaledPV: real)
      modifies this
      ensures Snapshot() == old(Snapshot()).(prevControllerOutput := old(controllerOutput),
                                             prevProcessVariable := scaledPV)
    {
      prevControllerOutput := controllerOutput;
      prevProcessVariable := scaledPV;
    }

    /** One PID step; the result lies between the output limits. */
    method Compute() returns (output: real)
      requires Valid()
      modifies this
      ensures Snapshot() == PidSpec.Compute(old(Snapshot())).next
      ensures output == PidSpec.Compute(old(Snapshot())).output
      ensures Valid()
      ensures old(outMin) <= output <= old(outMax)
    {
      // Scale the input and the setpoint into [0, 1].
      var scaledPV := PidSpec.Normalize(processVariable, inMin, inSpan);
      scaledPV := Constrain(scaledPV, 0.0, 1.0);

      var scaledSP := PidSpec.Normalize(setPoint, inMin, inSpan);
      scaledSP := Constrain(scaledSP, 0.0, 1.0);

      var error := scaledSP - scaledPV;

      // Anti-windup: integrate only while the output is not pinned in the
      // direction of the error.
      if !(prevControllerOutput >= 1.0 && error > 0.0) && !(prevControllerOutput <= 0.0 && error < 0.0) {
        accError := accError + error;
      }

      // Derivative on the measurement.
      var dMeas := (scaledPV - prevProcessVariable) / tSample;

      var scaledBias := 0.0;
      if usingFeedForward {
        scaledBias := PidSpec.Normalize(bias, outMin, outSpan);
      }

      controllerOutput := PidSpec.PidLaw(scaledBias, kc, error, tauR, accError, tauD, dMeas);
      controllerOutput := Constrain(controllerOutput, 0.0, 1.0);

      Remember(scaledPV);

      output := PidSpec.Denormalize(controllerOutput, outMin, outSpan);
    }
  }
}
