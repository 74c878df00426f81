/**
 * The calibration hook: a four-step timed script whose second step ends with a check of
 * the live connection. A failed check is absorbing until `reset`. Each dwell timeout is
 * a `Tick`; the two refs the timeout reads are fields, kept current by `SyncInputs`.
 */
module Calibration {
  import opened EegTypes
  import opened SessionConstants

  class Calibration {
    var calibrationStep: nat
    var showStartButton: bool
    var signalFailed: bool
    /** `isConnectedRef.current` and `poorSignalLevelRef.current`. */
    var isConnectedRef: bool
    var poorSignalLevelRef: nat

    /** The step stays in the script; the start button only at its end; a failure only at the check. */
    ghost predicate Valid()
      reads this
    {
      && calibrationStep <= LastStep
      && (showStartButton ==> calibrationStep == LastStep && !signalFailed)
      && (signalFailed ==> calibrationStep == SignalCheckStep)
    }

    constructor (isConnected: bool, poorSignalLevel: nat)
      ensures Valid()
      ensures calibrationStep == 0 && !showStartButton && !signalFailed
      ensures isConnectedRef == isConnected && poorSignalLevelRef == poorSignalLevel
    {
      calibrationStep := 0;
      showStartButton := false;
      signalFailed := false;
      isConnectedRef := isConnected;
      poorSignalLevelRef := poorSignalLevel;
    }

    /** The two ref-syncing effects: the latest connection inputs, read by the next timeout. */
    method SyncInputs(isConnected: bool, poorSignalLevel: nat)
      requires Valid()
      modifies this
      ensures Valid()
      ensures isConnectedRef == isConnected && poorSignalLevelRef == poorSignalLevel
      ensures calibrationStep == old(calibrationStep)
      ensures showStartButton == old(showStartButton) && signalFailed == old(signalFailed)
    {
      isConnectedRef := isConnected;
      poorSignalLevelRef := poorSignalLevel;
    }

    /** The dwell timeout scheduled by the step effect fires; `active` is the effect's input. */
    method Tick(active: bool)
      requires Valid()
      modifies this
      ensures Valid()
      ensures isConnectedRef == old(isConnectedRef) && poorSignalLevelRef == old(poorSignalLevelRef)
      // inactive, or after a failed check, nothing is scheduled
      ensures !active || old(signalFailed) ==> unchanged(this)
      // the check step reads the refs as they are now
      ensures active && !old(signalFailed) && old(calibrationStep) == SignalCheckStep ==>
        showStartButton == old(showStartButton) &&
        if !old(isConnectedRef) || old(poorSignalLevelRef) >= PoorSignalThreshold
        then signalFailed && calibrationStep == SignalCheckStep
        else !signalFailed && calibrationStep == SignalCheckStep + 1
      // the other steps before the last advance by one
      ensures active && !old(signalFailed) && old(calibrationStep) != SignalCheckStep &&
              old(calibrationStep) < LastStep ==>
        calibrationStep == old(calibrationStep) + 1 &&
        showStartButton == old(showStartButton) && signalFailed == old(signalFailed)
      // the last step shows the start button
      ensures active && !old(signalFailed) && old(calibrationStep) == LastStep ==>
        showStartButton && calibrationStep == LastStep && !signalFailed
    {
      if !active || signalFailed {
        return;
      }
      if calibrationStep == SignalCheckStep {
        if !isConnectedRef || poorSignalLevelRef >= PoorSignalThreshold {
          signalFailed := true;
        } else {
          calibrationStep := calibrationStep + 1;
        }
      } else if calibrationStep < LastStep {
        calibrationStep := calibrationStep + 1;
      } else {
        showStartButton := true;
      }
    }

    /** reset: back to the first step, from any state, with both flags cleared. */
    method Reset()
      requires Valid()
      modifies this
      ensures Valid()
      ensures calibrationStep == 0 && !showStartButton && !signalFailed
      ensures isConnectedRef == old(isConnectedRef) && poorSignalLevelRef == old(poorSignalLevelRef)
    {
      calibrationStep := 0;
      showStartButton := false;
      signalFailed := false;
    }
  }

  /**
   * A full run of four timeouts. Whatever the connection looked like when calibration
   * started, only its state at the check decides: a connected, clean signal ends ready at
   * the last step; anything else ends failed at the check step.
   */
  method CalibrationRun(connectedAtStart: bool, levelAtStart: nat, connectedAtCheck: bool, levelAtCheck: nat)
    returns (ready: bool, failed: bool, step: nat)
    ensures ready <==> connectedAtCheck && levelAtCheck < PoorSignalThreshold
    ensures failed <==> !ready
    ensures step == if ready then LastStep else SignalCheckStep
  {
    var c := new Calibration(connectedAtStart, levelAtStart);
    c.Tick(true);
    c.SyncInputs(connectedAtCheck, levelAtCheck);
    c.Tick(true);
    c.Tick(true);
    c.Tick(true);
    ready, failed, step := c.showStartButton, c.signalFailed, c.calibrationStep;
  }

  /** After a failed check even a recovered signal does not resume; only reset does. */
  method FailureNeedsReset(level: nat)
    returns (failedAfterRecovery: bool, stepAfterReset: nat, failedAfterReset: bool)
    requires level < PoorSignalThreshold
    ensures failedAfterRecovery && stepAfterReset == 0 && !failedAfterReset
  {
    var c := new Calibration(false, 200);
    c.Tick(true);
    c.Tick(true);
    c.SyncInputs(true, level);
    c.Tick(true);
    failedAfterRecovery := c.signalFailed;
    c.Reset();
    stepAfterReset, failedAfterReset := c.calibrationStep, c.signalFailed;
  }
}
