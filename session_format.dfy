/**
 * Display formatting for the session screen: elapsed seconds as "MM:SS" and the
 * sample count as a plain integer below 1000, or thousands with one decimal and a "k".
 */
module SessionFormat {
  import opened Wrappers
  import opened JsText

  /** `String(n).padStart(2, "0")`. */
  function TwoDigits(n: nat): (r: string)
    ensures AllDigits(r) && ParseNat(r) == n
    ensures n < 100 ==> |r| == 2
    ensures n >= 100 ==> |r| >= 3
  {
    PaddedDigits(n);
    PadStart(NatToString(n), 2, '0')
  }

  lemma PaddedDigits(n: nat)
    ensures var r := PadStart(NatToString(n), 2, '0');
            && AllDigits(r) && ParseNat(r) == n
            && (n < 100 ==> |r| == 2)
            && (n >= 100 ==> |r| >= 3)
  {
    var s := NatToString(n);
    NatToStringLength(n);
    var r := PadStart(s, 2, '0');
    assert r == Repeat('0', |r| - |s|) + s;
    ParseNatLeadingZeros(s, |r| - |s|);
    ParseNatToString(n);
  }

  /** formatElapsed: whole minutes, a colon, the seconds of the current minute. */
  function FormatElapsed(secs: nat): string {
    Clock(TwoDigits(secs / 60), TwoDigits(secs % 60))
  }

  /** The display ends in a colon and two digits below 60; it is five characters exactly below 100 minutes. */
  lemma FormatElapsedShape(secs: nat)
    ensures var r := FormatElapsed(secs);
            && |r| >= 5 && r[|r| - 3] == ':'
            && (secs < 6000 <==> |r| == 5)
            && AllDigits(r[|r| - 2..]) && ParseNat(r[|r| - 2..]) < 60
  {
    var minutes, seconds := TwoDigits(secs / 60), TwoDigits(secs % 60);
    ClockShape(minutes, seconds);
  }

  /** The `${minutes}:${seconds}` template. */
  function Clock(minutes: string, seconds: string): string {
    minutes + ":" + seconds
  }

  lemma ClockShape(minutes: string, seconds: string)
    requires |seconds| == 2
    ensures var r := Clock(minutes, seconds);
            |r| == |minutes| + 3 && r[|r| - 3] == ':' && r[|r| - 2..] == seconds
  {
  }

  /** Reading "M:SS" back as seconds: digits, a colon, two digits below 60. */
  function ParseElapsed(t: string): Option<nat> {
    if |t| >= 4 && t[|t| - 3] == ':' && AllDigits(t[..|t| - 3]) && AllDigits(t[|t| - 2..])
       && ParseNat(t[|t| - 2..]) < 60
    then Some(60 * ParseNat(t[..|t| - 3]) + ParseNat(t[|t| - 2..]))
    else None
  }

  lemma MinutesAndSeconds(t: string, m: string, s: string)
    requires AllDigits(m) && m != [] && AllDigits(s) && |s| == 2 && ParseNat(s) < 60
    requires t == Clock(m, s)
    ensures ParseElapsed(t) == Some(60 * ParseNat(m) + ParseNat(s))
  {
    assert t[..|t| - 3] == m && t[|t| - 2..] == s;
  }

  /** The display reads back as the seconds it was made from, at any duration. */
  lemma FormatElapsedRoundTrip(secs: nat)
    ensures ParseElapsed(FormatElapsed(secs)) == Some(secs)
  {
    WholeMinutes(secs);
    ClockRoundTrip(FormatElapsed(secs), secs / 60, secs % 60, secs);
  }

  lemma WholeMinutes(secs: nat)
    ensures 60 * (secs / 60) + secs % 60 == secs
  {
  }

  /** Whole minutes and the seconds below 60, padded and joined, read back as their total. */
  lemma ClockRoundTrip(t: string, minutes: nat, seconds: nat, total: nat)
    requires seconds < 60 && 60 * minutes + seconds == total
    requires t == Clock(TwoDigits(minutes), TwoDigits(seconds))
    ensures ParseElapsed(t) == Some(total)
  {
    MinutesAndSeconds(t, TwoDigits(minutes), TwoDigits(seconds));
  }

  /** The thousands form: `(n / 1000).toFixed(1)` on tenths of a thousand, halves rounded up. */
  function Thousands(n: nat): (r: string)
    ensures |r| >= 3 && r[|r| - 2] == '.' && IsDigit(r[|r| - 1]) && AllDigits(r[..|r| - 2])
  {
    var tenths := (n + 50) / 100;
    NatToString(tenths / 10) + "." + [DigitChar(tenths % 10)]
  }

  /** formatSamples. */
  function FormatSamples(n: nat): (r: string)
    ensures n < 1000 ==> AllDigits(r) && 1 <= |r| <= 3
    ensures n < 1000 && |r| > 1 ==> r[0] != '0'
    ensures n >= 1000 ==> |r| >= 4 && r[|r| - 1] == 'k'
  {
    NatToStringLength(n);
    if n >= 1000 then Thousands(n) + "k" else NatToString(n)
  }

  /** The count a label denotes: plain digits, or "<int>.<digit>k" as hundreds of samples. */
  function ReadSamples(r: string): Option<nat> {
    if r != [] && AllDigits(r) then Some(ParseNat(r))
    else if |r| >= 4 && r[|r| - 1] == 'k' && r[|r| - 3] == '.' && IsDigit(r[|r| - 2])
            && AllDigits(r[..|r| - 3]) && r[..|r| - 3] != []
    then Some(100 * (10 * ParseNat(r[..|r| - 3]) + DigitValue(r[|r| - 2])))
    else None
  }

  /**
   * Below a thousand the label is exact; from a thousand on it is within half a
   * hundred samples of the count (halves rounding up).
   */
  lemma FormatSamplesAccuracy(n: nat)
    ensures ReadSamples(FormatSamples(n)).Some?
    ensures n < 1000 ==> ReadSamples(FormatSamples(n)).value == n
    ensures n >= 1000 ==>
      var v := ReadSamples(FormatSamples(n)).value;
      v - 50 <= n < v + 50
  {
    if n < 1000 {
      ParseNatToString(n);
    } else {
      var tenths := (n + 50) / 100;
      var r := FormatSamples(n);
      var whole := NatToString(tenths / 10);
      assert r == whole + "." + [DigitChar(tenths % 10)] + "k";
      assert r[..|r| - 3] == whole;
      assert r[|r| - 2] == DigitChar(tenths % 10);
      assert r[|r| - 1] == 'k';
      assert !IsDigit(r[|r| - 1]);
      ParseNatToString(tenths / 10);
      assert 10 * (tenths / 10) + tenths % 10 == tenths;
    }
  }
}
