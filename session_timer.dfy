/**
 * The session timer hook: while a session is scanning, one interval per second adds a
 * second to the elapsed time and the nominal 512 samples to the sample count, in the
 * same callback.
 */
module SessionTimer {

  /** NeuroSky's nominal raw sample rate, added once per second. */
  const SamplesPerSecond: nat := 512

  class SessionTimer {
    var elapsed: nat
    var sampleCount: nat

    /** One callback moves both counters, so they never drift apart. */
    ghost predicate Valid()
      reads this
    {
      sampleCount == SamplesPerSecond * elapsed
    }

    constructor ()
      ensures Valid() && elapsed == 0 && sampleCount == 0
    {
      elapsed := 0;
      sampleCount := 0;
    }

    /** One second of the interval; no interval runs while not scanning. */
    method Tick(isScanning: bool)
      requires Valid()
      modifies this
      ensures Valid()
      ensures isScanning ==> elapsed == old(elapsed) + 1
      ensures !isScanning ==> elapsed == old(elapsed) && sampleCount == old(sampleCount)
    {
      if isScanning {
        elapsed := elapsed + 1;
        sampleCount := sampleCount + SamplesPerSecond;
      }
    }

    method Reset()
      modifies this
      ensures Valid() && elapsed == 0 && sampleCount == 0
    {
      elapsed := 0;
      sampleCount := 0;
    }
  }

  /**
   * Two seconds scanning, one paused, one more scanning: three seconds and 1536 samples;
   * a reset brings both back to zero.
   */
  method ScanPauseScan() returns (elapsed: nat, samples: nat, elapsedAfterReset: nat, samplesAfterReset: nat)
    ensures elapsed == 3 && samples == 1536
    ensures elapsedAfterReset == 0 && samplesAfterReset == 0
  {
    var timer := new SessionTimer();
    timer.Tick(true);
    timer.Tick(true);
    timer.Tick(false);
    timer.Tick(true);
    elapsed, samples := timer.elapsed, timer.sampleCount;
    timer.Reset();
    elapsedAfterReset, samplesAfterReset := timer.elapsed, timer.sampleCount;
  }
}
