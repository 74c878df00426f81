/** The earlier calibration hook: the same script, advanced by timeouts, with no signal check. */
module LegacyCalibration {
  import opened SessionConstants

  class LegacyCalibration {
    var calibrationStep: nat
    var showStartButton: bool

    ghost predicate Valid()
      reads this
    {
      calibrationStep <= LastStep && (showStartButton ==> calibrationStep == LastStep)
    }

    constructor ()
      ensures Valid() && calibrationStep == 0 && !showStartButton
    {
      calibrationStep := 0;
      showStartButton := false;
    }

    /** The dwell timeout fires; `showDialog` is the effect's input. */
    method Tick(showDialog: bool)
      requires Valid()
      modifies this
      ensures Valid()
      ensures !showDialog ==> unchanged(this)
      ensures showDialog && old(calibrationStep) < LastStep ==>
        calibrationStep == old(calibrationStep) + 1 && showStartButton == old(showStartButton)
      ensures showDialog && old(calibrationStep) == LastStep ==>
        calibrationStep == LastStep && showStartButton
    {
      if !showDialog {
        return;
      }
      if calibrationStep < LastStep {
        calibrationStep := calibrationStep + 1;
      } else {
        showStartButton := true;
      }
    }

    method Reset()
      modifies this
      ensures Valid() && calibrationStep == 0 && !showStartButton
    {
      calibrationStep := 0;
      showStartButton := false;
    }
  }

  /**
   * A dialog reopened after a partial run starts over: after reset, three timeouts are not
   * enough and the fourth shows the start button.
   */
  method FourTicksFromReset() returns (afterThree: bool, afterFour: bool, step: nat)
    ensures !afterThree && afterFour && step == LastStep
  {
    var c := new LegacyCalibration();
    c.Tick(true);
    c.Tick(true);
    c.Reset();
    c.Tick(true);
    c.Tick(true);
    c.Tick(true);
    afterThree := c.showStartButton;
    c.Tick(true);
    afterFour, step := c.showStartButton, c.calibrationStep;
  }
}
