/**
 * The wire types of the ThinkGear Connector bridge (src-tauri/src/models/tgc_data.rs):
 * a decoded TGC line whose fields are all optional, and the payload emitted to the
 * frontend. Rust's fixed-width integers are kept as bounded newtypes.
 */
module TgcData {
  import opened Wrappers

  newtype u8 = x: int | 0 <= x < 0x100
  newtype u32 = x: int | 0 <= x < 0x1_0000_0000

  /** The TGC `eegPower` object. TGC calls its last band `highGamma`. */
  datatype RawEegPower = RawEegPower(
    delta: u32, theta: u32, lowAlpha: u32, highAlpha: u32,
    lowBeta: u32, highBeta: u32, lowGamma: u32, highGamma: u32)

  /** The TGC `eSense` object; either metric may be absent. */
  datatype RawESense = RawESense(attention: Option<u8>, meditation: Option<u8>)

  /** `RawESense::default()`: both metrics absent. */
  const DefaultESense := RawESense(None, None)

  /** One decoded TGC line: heartbeats and status packets omit `eegPower`. */
  datatype TgcPacket = TgcPacket(
    eegPower: Option<RawEegPower>,
    eSense: Option<RawESense>,
    poorSignalLevel: Option<u8>)

  /** The `tgc-data` event payload; `midGamma` carries TGC's `highGamma`. */
  datatype EegPayload = EegPayload(
    delta: u32, theta: u32, lowAlpha: u32, highAlpha: u32,
    lowBeta: u32, highBeta: u32, lowGamma: u32, midGamma: u32,
    attention: u8, meditation: u8, poorSignalLevel: u8)
}
