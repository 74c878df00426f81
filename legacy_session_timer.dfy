/**
 * The earlier session timer hook: the same two counters, but driven by two independent
 * one-second intervals, so the sample count is only ever a multiple of 512 and may lag
 * or lead the elapsed seconds by the callbacks' interleaving.
 */
module LegacySessionTimer {
  import opened SessionTimer

  class LegacySessionTimer {
    var elapsed: nat
    var sampleCount: nat

    ghost predicate Valid()
      reads this
    {
      sampleCount % SamplesPerSecond == 0
    }

    constructor ()
      ensures Valid() && elapsed == 0 && sampleCount == 0
    {
      elapsed := 0;
      sampleCount := 0;
    }

    /** The elapsed-time interval fires. */
    method TickElapsed(isScanning: bool)
      requires Valid()
      modifies this
      ensures Valid()
      ensures elapsed == old(elapsed) + (if isScanning then 1 else 0)
      ensures sampleCount == old(sampleCount)
    {
      if isScanning {
        elapsed := elapsed + 1;
      }
    }

    /** The sample-count interval fires. */
    method TickSamples(isScanning: bool)
      requires Valid()
      modifies this
      ensures Valid()
      ensures sampleCount == old(sampleCount) + (if isScanning then SamplesPerSecond else 0)
      ensures elapsed == old(elapsed)
    {
      if isScanning {
        sampleCount := sampleCount + SamplesPerSecond;
      }
    }

    method Reset()
      modifies this
      ensures Valid() && elapsed == 0 && sampleCount == 0
    {
      elapsed := 0;
      sampleCount := 0;
    }
  }

  /**
   * When the elapsed interval has fired twice and the sample interval once, the display
   * shows 2 seconds against 512 samples: the counters disagree with the 512-per-second rate.
   */
  method IndependentIntervalsDrift() returns (elapsed: nat, samples: nat)
    ensures elapsed == 2 && samples == 512
    ensures samples != SamplesPerSecond * elapsed
  {
    var timer := new LegacySessionTimer();
    timer.TickElapsed(true);
    timer.TickSamples(true);
    timer.TickElapsed(true);
    elapsed, samples := timer.elapsed, timer.sampleCount;
  }
}
