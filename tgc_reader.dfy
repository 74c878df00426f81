/**
 * `parse_packet` of the TGC reader thread: one line of the bridge's JSON stream
 * becomes at most one band-power payload. JSON decoding itself (serde) is a
 * parameter: `decode(line)` is `None` exactly when the line is not a valid packet.
 */
module TgcReader {
  import opened Wrappers
  import opened TgcData

  /** The level assumed when a packet reports none: no electrode contact. */
  const NoContactLevel: u8 := 200

  function ParsePacket(line: string, decode: string -> Option<TgcPacket>): (r: Option<EegPayload>)
    // a payload comes out exactly for a non-empty line that decodes to a packet with band powers
    ensures r.Some? <==> line != "" && decode(line).Some? && decode(line).value.eegPower.Some?
    // the signal level is copied when present and is "no contact" otherwise
    ensures r.Some? ==>
      var packet := decode(line).value;
      r.value.poorSignalLevel == (if packet.poorSignalLevel.Some? then packet.poorSignalLevel.value else 200)
    // a missing eSense object or a missing metric inside it reads as 0
    ensures r.Some? ==>
      var packet := decode(line).value;
      && r.value.attention ==
           (if packet.eSense.Some? && packet.eSense.value.attention.Some?
            then packet.eSense.value.attention.value else 0)
      && r.value.meditation ==
           (if packet.eSense.Some? && packet.eSense.value.meditation.Some?
            then packet.eSense.value.meditation.value else 0)
    // the eight bands are copied, TGC's highGamma landing in midGamma
    ensures r.Some? ==>
      var power := decode(line).value.eegPower.value;
      && r.value.delta == power.delta && r.value.theta == power.theta
      && r.value.lowAlpha == power.lowAlpha && r.value.highAlpha == power.highAlpha
      && r.value.lowBeta == power.lowBeta && r.value.highBeta == power.highBeta
      && r.value.lowGamma == power.lowGamma && r.value.midGamma == power.highGamma
  {
    if line == "" then None
    else
      var packet :- decode(line);
      var poorSignalLevel := packet.poorSignalLevel.GetOr(NoContactLevel);
      var esense := packet.eSense.GetOr(DefaultESense);
      var power :- packet.eegPower;
      Some(EegPayload(
        power.delta, power.theta, power.lowAlpha, power.highAlpha,
        power.lowBeta, power.highBeta, power.lowGamma, power.highGamma,
        esense.attention.GetOr(0), esense.meditation.GetOr(0),
        poorSignalLevel))
  }
}
