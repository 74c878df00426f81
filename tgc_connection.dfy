/**
 * The connection hook: band-power normalisation, and the four values the hook keeps
 * (`liveData`, `rawData`, `isConnected`, `poorSignalLevel`) updated by the `active`
 * effect and by the `tgc-data` and `tgc-status` listeners.
 */
module TgcConnection {
  import opened Wrappers
  import opened EegTypes
  import TgcData
  import TgcReader

  function BandTotal(p: TgcBandData): nat {
    p.delta + p.theta + p.lowAlpha + p.highAlpha + p.lowBeta + p.highBeta + p.lowGamma + p.midGamma
  }

  /** The eight band powers, in the order of the CSV columns. */
  function Bands(p: TgcBandData): seq<nat> {
    [p.delta, p.theta, p.lowAlpha, p.highAlpha, p.lowBeta, p.highBeta, p.lowGamma, p.midGamma]
  }

  /** `total || 1`: a zero total is replaced by 1. */
  function Divisor(p: TgcBandData): (d: nat)
    ensures d >= 1
    ensures BandTotal(p) == 0 ==> d == 1
    ensures BandTotal(p) > 0 ==> d == BandTotal(p)
  {
    if BandTotal(p) == 0 then 1 else BandTotal(p)
  }

  /**
   * `Math.round((b / total) * 100)` in exact arithmetic: the integer nearest to
   * 100·b/total, a half rounded up.
   */
  function RoundedPercent(b: nat, total: nat): (r: nat)
    requires total >= 1
    ensures b <= total ==> r <= 100
  {
    PercentAtMost100(b, total);
    (200 * b + total) / (2 * total)
  }

  /** The rounded percentage is the integer nearest to 100·b/total, a half rounded up. */
  lemma RoundedPercentNearest(b: nat, total: nat)
    requires total >= 1
    ensures var r := RoundedPercent(b, total);
            2 * total * r - total <= 200 * b < 2 * total * r + total
  {
    DivBounds(200 * b + total, 2 * total);
  }

  lemma PercentAtMost100(b: nat, total: nat)
    requires total >= 1
    ensures b <= total ==> (200 * b + total) / (2 * total) <= 100
  {
    if b <= total {
      var r := (200 * b + total) / (2 * total);
      DivBounds(200 * b + total, 2 * total);
      MulLeft(total, b, total);
      if r > 100 {
        MulLeft(2 * total, 101, r);
      }
    }
  }

  lemma DivBounds(x: nat, d: nat)
    requires d >= 1
    ensures d * (x / d) <= x < d * (x / d) + d
  {
  }

  lemma MulLeft(k: nat, a: int, b: int)
    requires a <= b
    ensures k * a <= k * b
  {
  }

  /** normalizeBandPowers: every band as a rounded percentage of the total; the rest kept. */
  function Normalize(p: TgcBandData): (q: TgcBandData)
    ensures q.attention == p.attention && q.meditation == p.meditation
    ensures q.poorSignalLevel == p.poorSignalLevel
    ensures forall i :: 0 <= i < 8 ==>
      Bands(q)[i] == RoundedPercent(Bands(p)[i], Divisor(p)) && Bands(q)[i] <= 100
    ensures BandTotal(p) == 0 ==> BandTotal(q) == 0
  {
    var d := Divisor(p);
    TgcBandData(
      RoundedPercent(p.delta, d), RoundedPercent(p.theta, d),
      RoundedPercent(p.lowAlpha, d), RoundedPercent(p.highAlpha, d),
      RoundedPercent(p.lowBeta, d), RoundedPercent(p.highBeta, d),
      RoundedPercent(p.lowGamma, d), RoundedPercent(p.midGamma, d),
      p.attention, p.meditation, p.poorSignalLevel)
  }

  /** Only one integer is within a half of a given rational: the rounding is determined. */
  lemma NearestIsUnique(x: int, t: int, r: int, s: int)
    requires t >= 1
    requires 2 * t * r - t <= x < 2 * t * r + t
    requires 2 * t * s - t <= x < 2 * t * s + t
    ensures r == s
  {
    if r < s {
      MulLeft(2 * t, r + 1, s);
    } else if s < r {
      MulLeft(2 * t, s + 1, r);
    }
  }

  lemma {:induction false} RoundedPercentScale(b: nat, t: nat, k: nat)
    requires t >= 1 && k >= 1
    ensures RoundedPercent(k * b, k * t) == RoundedPercent(b, t)
  {
    var r := RoundedPercent(b, t);
    var s := RoundedPercent(k * b, k * t);
    var x, u := 200 * (k * b), k * t;
    assert 2 * u * r - u <= x < 2 * u * r + u by {
      RoundedPercentNearest(b, t);
      ScaleBound(k, t, r, b);
    }
    assert 2 * u * s - u <= x < 2 * u * s + u by {
      RoundedPercentNearest(k * b, k * t);
    }
    NearestIsUnique(x, u, r, s);
  }

  /** Multiplying the band and the total by k keeps the rounding bound. */
  lemma ScaleBound(k: nat, t: nat, r: int, b: nat)
    requires k >= 1
    requires 2 * t * r - t <= 200 * b < 2 * t * r + t
    ensures 2 * (k * t) * r - k * t <= 200 * (k * b) < 2 * (k * t) * r + k * t
  {
    var m := 2 * t * r;
    MulLeft(k, m - t, 200 * b);
    MulLeft(k, 200 * b + 1, m + t);
    assert k * m == 2 * (k * t) * r;
    assert k * (m - t) == k * m - k * t;
    assert k * (m + t) == k * m + k * t;
    assert k * (200 * b + 1) == 200 * (k * b) + k;
    assert k * (200 * b) == 200 * (k * b);
  }

  /** The packet with every band multiplied by k. */
  function Scaled(p: TgcBandData, k: nat): TgcBandData {
    p.(delta := k * p.delta, theta := k * p.theta, lowAlpha := k * p.lowAlpha,
       highAlpha := k * p.highAlpha, lowBeta := k * p.lowBeta, highBeta := k * p.highBeta,
       lowGamma := k * p.lowGamma, midGamma := k * p.midGamma)
  }

  /** Normalisation only sees the bands' ratios: scaling them all by k > 0 changes nothing. */
  lemma {:induction false} NormalizeScaleInvariant(p: TgcBandData, k: nat)
    requires k >= 1
    ensures Normalize(Scaled(p, k)) == Normalize(p)
  {
    var q := Scaled(p, k);
    Distribute8(k, p.delta, p.theta, p.lowAlpha, p.highAlpha, p.lowBeta, p.highBeta, p.lowGamma, p.midGamma);
    assert BandTotal(q) == k * BandTotal(p);
    if BandTotal(p) == 0 {
      assert Divisor(q) == 1 == Divisor(p);
      assert Bands(q) == Bands(p);
    } else {
      var t := BandTotal(p);
      MulLeft(k, 1, t);
      assert Divisor(q) == k * t;
      forall i | 0 <= i < 8
        ensures Bands(Normalize(q))[i] == Bands(Normalize(p))[i]
      {
        assert Bands(q)[i] == k * Bands(p)[i];
        RoundedPercentScale(Bands(p)[i], t, k);
      }
      SameBands(Normalize(q), Normalize(p));
    }
  }

  /** Two packets with the same bands and the same other three fields are the same packet. */
  lemma SameBands(x: TgcBandData, y: TgcBandData)
    requires forall i :: 0 <= i < 8 ==> Bands(x)[i] == Bands(y)[i]
    requires x.attention == y.attention && x.meditation == y.meditation
    requires x.poorSignalLevel == y.poorSignalLevel
    ensures x == y
  {
    assert Bands(x)[0] == Bands(y)[0] && Bands(x)[1] == Bands(y)[1];
    assert Bands(x)[2] == Bands(y)[2] && Bands(x)[3] == Bands(y)[3];
    assert Bands(x)[4] == Bands(y)[4] && Bands(x)[5] == Bands(y)[5];
    assert Bands(x)[6] == Bands(y)[6] && Bands(x)[7] == Bands(y)[7];
  }

  /** The eight percentages need not add up to 100, but each is off by at most a half. */
  lemma {:induction false} NormalizedTotalNear100(p: TgcBandData)
    requires BandTotal(p) > 0
    ensures 96 < BandTotal(Normalize(p)) <= 104
  {
    var t, q := BandTotal(p), Normalize(p);
    var b, r := Bands(p), Bands(q);
    assert forall i :: 0 <= i < 8 ==> r[i] == RoundedPercent(b[i], t);
    RoundedPercentNearest(b[0], t); RoundedPercentNearest(b[1], t);
    RoundedPercentNearest(b[2], t); RoundedPercentNearest(b[3], t);
    RoundedPercentNearest(b[4], t); RoundedPercentNearest(b[5], t);
    RoundedPercentNearest(b[6], t); RoundedPercentNearest(b[7], t);
    RoundedSum(t, r[0], r[1], r[2], r[3], r[4], r[5], r[6], r[7],
               b[0], b[1], b[2], b[3], b[4], b[5], b[6], b[7]);
  }

  /** Eight values each rounded to the nearest of 100·b/t, with the b adding up to t, add up to between 97 and 104. */
  lemma RoundedSum(t: int, r0: int, r1: int, r2: int, r3: int, r4: int, r5: int, r6: int, r7: int,
                   b0: int, b1: int, b2: int, b3: int, b4: int, b5: int, b6: int, b7: int)
    requires t >= 1 && b0 + b1 + b2 + b3 + b4 + b5 + b6 + b7 == t
    requires 2 * t * r0 - t <= 200 * b0 < 2 * t * r0 + t && 2 * t * r1 - t <= 200 * b1 < 2 * t * r1 + t
    requires 2 * t * r2 - t <= 200 * b2 < 2 * t * r2 + t && 2 * t * r3 - t <= 200 * b3 < 2 * t * r3 + t
    requires 2 * t * r4 - t <= 200 * b4 < 2 * t * r4 + t && 2 * t * r5 - t <= 200 * b5 < 2 * t * r5 + t
    requires 2 * t * r6 - t <= 200 * b6 < 2 * t * r6 + t && 2 * t * r7 - t <= 200 * b7 < 2 * t * r7 + t
    ensures 96 < r0 + r1 + r2 + r3 + r4 + r5 + r6 + r7 <= 104
  {
    SumWithin(t, 2 * t * r0, 2 * t * r1, 2 * t * r2, 2 * t * r3,
                 2 * t * r4, 2 * t * r5, 2 * t * r6, 2 * t * r7,
                 200 * b0, 200 * b1, 200 * b2, 200 * b3,
                 200 * b4, 200 * b5, 200 * b6, 200 * b7);
    Distribute8(2 * t, r0, r1, r2, r3, r4, r5, r6, r7);
    Distribute8(200, b0, b1, b2, b3, b4, b5, b6, b7);
    var R := r0 + r1 + r2 + r3 + r4 + r5 + r6 + r7;
    WithinFourOf100(t, R, 2 * t * R);
  }

  /** Eight quantities each within t of their targets: the sums are within 8·t. */
  lemma SumWithin(t: int, m0: int, m1: int, m2: int, m3: int, m4: int, m5: int, m6: int, m7: int,
                  c0: int, c1: int, c2: int, c3: int, c4: int, c5: int, c6: int, c7: int)
    requires m0 - t <= c0 < m0 + t && m1 - t <= c1 < m1 + t
    requires m2 - t <= c2 < m2 + t && m3 - t <= c3 < m3 + t
    requires m4 - t <= c4 < m4 + t && m5 - t <= c5 < m5 + t
    requires m6 - t <= c6 < m6 + t && m7 - t <= c7 < m7 + t
    ensures var m, c := m0 + m1 + m2 + m3 + m4 + m5 + m6 + m7, c0 + c1 + c2 + c3 + c4 + c5 + c6 + c7;
            m - 8 * t <= c < m + 8 * t
  {
  }

  lemma WithinFourOf100(t: int, R: int, M: int)
    requires t >= 1 && M == 2 * t * R
    requires M - 8 * t <= 200 * t < M + 8 * t
    ensures 96 < R <= 104
  {
    if R > 104 {
      MulLeft(2 * t, 105, R);
    }
    if R <= 96 {
      MulLeft(2 * t, R, 96);
    }
  }

  lemma Distribute8(k: int, a0: int, a1: int, a2: int, a3: int, a4: int, a5: int, a6: int, a7: int)
    ensures k * (a0 + a1 + a2 + a3 + a4 + a5 + a6 + a7)
         == k * a0 + k * a1 + k * a2 + k * a3 + k * a4 + k * a5 + k * a6 + k * a7
  {
  }

  /** The hook's state; `listening` is true while the `active` effect's two listeners are registered. */
  class Connection {
    var liveData: Option<TgcBandData>
    var rawData: Option<TgcBandData>
    var isConnected: bool
    var poorSignalLevel: nat
    var listening: bool

    /**
     * The chart value is always the normalisation of the recorded raw packet, a kept
     * packet always had a usable signal, and an inactive hook holds the initial values.
     */
    ghost predicate Valid()
      reads this
    {
      && liveData == (if rawData.Some? then Some(Normalize(rawData.value)) else None)
      && (rawData.Some? ==> rawData.value.poorSignalLevel < PoorSignalThreshold)
      && (!listening ==> Idle())
    }

    ghost predicate Idle()
      reads this
    {
      liveData == None && rawData == None && !isConnected && poorSignalLevel == 200
    }

    constructor ()
      ensures Valid() && !listening && Idle()
    {
      liveData, rawData := None, None;
      isConnected := false;
      poorSignalLevel := 200;
      listening := false;
    }

    /** The effect on `active`: deactivating stops the bridge and resets all four values. */
    method SetActive(active: bool)
      requires Valid()
      modifies this
      ensures Valid() && listening == active
      ensures !active ==> Idle()
      ensures active ==> liveData == old(liveData) && rawData == old(rawData)
      ensures active ==> isConnected == old(isConnected) && poorSignalLevel == old(poorSignalLevel)
    {
      if !active {
        liveData := None;
        rawData := None;
        isConnected := false;
        poorSignalLevel := 200;
      }
      listening := active;
    }

    /** The `tgc-data` listener: the level is always taken; the data only from a usable packet. */
    method OnData(payload: TgcBandData)
      requires Valid()
      modifies this
      ensures Valid() && listening == old(listening) && isConnected == old(isConnected)
      ensures !listening ==> unchanged(this)
      ensures listening ==> poorSignalLevel == payload.poorSignalLevel
      ensures listening && payload.poorSignalLevel < PoorSignalThreshold ==>
        rawData == Some(payload) && liveData == Some(Normalize(payload))
      ensures payload.poorSignalLevel >= PoorSignalThreshold ==>
        rawData == old(rawData) && liveData == old(liveData)
    {
      if listening {
        poorSignalLevel := payload.poorSignalLevel;
        if payload.poorSignalLevel < PoorSignalThreshold {
          rawData := Some(payload);
          liveData := Some(Normalize(payload));
        }
      }
    }

    /** The `tgc-status` listener: a disconnect also discards the cached packet. */
    method OnStatus(status: TgcStatus)
      requires Valid()
      modifies this
      ensures Valid() && listening == old(listening) && poorSignalLevel == old(poorSignalLevel)
      ensures !listening ==> unchanged(this)
      ensures listening ==> isConnected == (status == Connected)
      ensures listening && status == Disconnected ==> liveData == None && rawData == None
      ensures status == Connected ==> liveData == old(liveData) && rawData == old(rawData)
    {
      if listening {
        isConnected := status == Connected;
        if status == Disconnected {
          liveData := None;
          rawData := None;
        }
      }
    }
  }

  /**
   * Three packets, the middle one with a poor signal: the chart shows the first, keeps
   * it through the second, then shows the third; the level follows every packet.
   */
  method GatedStream(first: TgcBandData, poor: TgcBandData, last: TgcBandData)
    returns (liveAfterPoor: Option<TgcBandData>, levelAfterPoor: nat,
             liveAfterLast: Option<TgcBandData>, rawAfterLast: Option<TgcBandData>)
    requires first.poorSignalLevel < PoorSignalThreshold <= poor.poorSignalLevel
    requires last.poorSignalLevel < PoorSignalThreshold
    ensures liveAfterPoor == Some(Normalize(first)) && levelAfterPoor == poor.poorSignalLevel
    ensures liveAfterLast == Some(Normalize(last)) && rawAfterLast == Some(last)
  {
    var c := new Connection();
    c.SetActive(true);
    c.OnData(first);
    c.OnData(poor);
    liveAfterPoor, levelAfterPoor := c.liveData, c.poorSignalLevel;
    c.OnData(last);
    liveAfterLast, rawAfterLast := c.liveData, c.rawData;
  }

  /**
   * A packet the reader emits without a signal level of its own carries the "no contact"
   * default: fed to a listening hook after a good packet, it sets the level to 200 and the
   * chart keeps showing the good packet.
   */
  method DefaultLevelIsGated(good: TgcBandData, line: string, decode: string -> Option<TgcData.TgcPacket>)
    returns (liveAfter: Option<TgcBandData>, rawAfter: Option<TgcBandData>, levelAfter: nat)
    requires good.poorSignalLevel < PoorSignalThreshold
    requires TgcReader.ParsePacket(line, decode).Some?
    requires decode(line).Some? && decode(line).value.poorSignalLevel.None?
    ensures liveAfter == Some(Normalize(good)) && rawAfter == Some(good)
    ensures levelAfter == 200
  {
    var c := new Connection();
    c.SetActive(true);
    c.OnData(good);
    var payload := FromPayload(TgcReader.ParsePacket(line, decode).value);
    c.OnData(payload);
    liveAfter, rawAfter, levelAfter := c.liveData, c.rawData, c.poorSignalLevel;
  }
}
