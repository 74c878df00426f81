/** The frontend's view of a packet and of the bridge status (src/types/eeg.ts). */
module EegTypes {
  import TgcData

  /** Eight band powers, the two eSense metrics and the signal level (0 clean, 200 no contact). */
  datatype TgcBandData = TgcBandData(
    delta: nat, theta: nat, lowAlpha: nat, highAlpha: nat,
    lowBeta: nat, highBeta: nat, lowGamma: nat, midGamma: nat,
    attention: nat, meditation: nat, poorSignalLevel: nat)

  datatype TgcStatus = Connected | Disconnected

  /** The inference result: its `label` (0 Unfocused, 1 Focused; `label` is a reserved word here) and its display name. */
  datatype FocusPrediction = FocusPrediction(labelId: int, labelName: string)

  /** A signal level at or above this is too poor to use. */
  const PoorSignalThreshold: nat := 50

  /** The `tgc-data` event as the frontend receives it (serde's camelCase fields). */
  function FromPayload(p: TgcData.EegPayload): TgcBandData {
    TgcBandData(
      p.delta as nat, p.theta as nat, p.lowAlpha as nat, p.highAlpha as nat,
      p.lowBeta as nat, p.highBeta as nat, p.lowGamma as nat, p.midGamma as nat,
      p.attention as nat, p.meditation as nat, p.poorSignalLevel as nat)
  }
}
