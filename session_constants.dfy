/** The calibration script shared by both calibration hooks (src/screens/session/constants.ts). */
module SessionConstants {

  const CalibrationSteps: seq<string> := [
    "Participant seated comfortably...",
    "Checking signal integrity...",
    "Baseline calibration in progress...",
    "System ready for acquisition"
  ]

  /** `calibrationSteps.length - 1`. */
  const LastStep: nat := |CalibrationSteps| - 1

  /** The step whose dwell ends with a live signal check ("Checking signal integrity..."). */
  const SignalCheckStep: nat := 1
}
