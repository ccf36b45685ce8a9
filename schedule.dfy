/**
 * What one run of `logAllEntriesInRange` writes, as a function of the run's
 * settings (GlucoseMocker/ViewModels/GlucoseLoggerViewModel.swift:87-144).
 *
 * Times are whole seconds; the interval is a whole number of minutes, as the
 * interval stepper only offers 1...60 in steps of 1. Adding `interval`
 * minutes to a date is adding 60 * interval seconds.
 */
module AutoSchedule {
  import opened GlucoseUnits
  import opened Ramp

  const SecondsPerMinute: int := 60

  /** One saved HealthKit sample: its (start = end) time and its level in mg/dL. */
  datatype Sample = Sample(time: int, value: real)

  /** The auto-logging settings the loop reads: window, range, step, interval. */
  datatype AutoConfig = AutoConfig(
    startTime: int, endTime: int, interval: int,
    minValue: real, maxValue: real, step: real)

  /** Swift's `Int(_: Double)`: rounds toward zero. */
  function Trunc(x: real): (n: int)
    ensures 0.0 <= x ==> n as real <= x < n as real + 1.0
    ensures x <= 0.0 ==> n as real - 1.0 < x <= n as real
  {
    if x >= 0.0 then x.Floor else -((-x).Floor)
  }

  /**
   * `maxEntries = Int((end - start) / 60 / interval)`, over exact reals: with
   * the window the right way round, the whole number of intervals that fit
   * in it; otherwise not positive.
   */
  function MaxEntries(c: AutoConfig): (n: int)
    requires 1 <= c.interval
    ensures c.startTime <= c.endTime ==> n == (c.endTime - c.startTime) / (SecondsPerMinute * c.interval)
    ensures c.endTime < c.startTime ==> n <= 0
  {
    WindowQuotient(c);
    TruncatedQuotient(c.endTime - c.startTime, SecondsPerMinute * c.interval);
    Trunc(((c.endTime - c.startTime) as real / 60.0) / c.interval as real)
  }

  /**
   * Number of samples one run writes: the whole number of intervals in the
   * window, and none when the window is shorter than one interval or inverted.
   */
  function EntryCount(c: AutoConfig): (n: nat)
    requires 1 <= c.interval
    ensures c.startTime <= c.endTime ==> n == (c.endTime - c.startTime) / (SecondsPerMinute * c.interval)
    ensures c.endTime - c.startTime < SecondsPerMinute * c.interval ==> n == 0
  {
    if MaxEntries(c) > 0 then MaxEntries(c)
    else
      var d := c.endTime - c.startTime;
      if 0 <= d then DivModUnique(d, SecondsPerMinute * c.interval, 0, d); 0 else 0
  }

  /**
   * The time of the k-th sample: k intervals after the start. With a
   * positive interval only the first sample is at the start, and none before it.
   */
  function SampleTime(c: AutoConfig, k: nat): (t: int)
    ensures 1 <= c.interval ==> c.startTime <= t && (t == c.startTime <==> k == 0)
  {
    if 0 < k && 1 <= c.interval then
      MulAtLeast(k, SecondsPerMinute * c.interval);
      c.startTime + k * (SecondsPerMinute * c.interval)
    else
      c.startTime + k * (SecondsPerMinute * c.interval)
  }

  /** Consecutive samples are one interval apart. */
  lemma SampleTimeNext(c: AutoConfig, k: nat)
    ensures SampleTime(c, k + 1) == SampleTime(c, k) + SecondsPerMinute * c.interval
  {
    assert (k + 1) * (SecondsPerMinute * c.interval) == k * (SecondsPerMinute * c.interval) + SecondsPerMinute * c.interval;
  }

  /**
   * The level `writeGlucoseData` saves: always in mg/dL, so a level entered
   * in mmol/L is multiplied by the factor; it is what `convert` gives.
   */
  function StoredValue(value: real, unit: GlucoseUnit): (r: real)
    ensures r == unit.Convert(value, MgdL)
  {
    if unit == MmolL then value * ConversionFactor else value
  }

  /** The k-th sample of a run, when the entered levels are in `unit`. */
  function SampleAt(c: AutoConfig, unit: GlucoseUnit, k: nat): Sample
  {
    Sample(SampleTime(c, k), StoredValue(RampAt(k, c.minValue, c.maxValue, c.step).value, unit))
  }

  /** The first n samples of a run. */
  function Samples(c: AutoConfig, unit: GlucoseUnit, n: nat): seq<Sample>
  {
    seq(n, k requires 0 <= k < n => SampleAt(c, unit, k))
  }

  /**
   * The samples one run writes, in order, when the entered levels are in
   * `unit`: one per whole interval in the window, each inside the window and
   * at least one interval before its end.
   */
  function AutoSeries(c: AutoConfig, unit: GlucoseUnit): (s: seq<Sample>)
    requires 1 <= c.interval
    ensures |s| == EntryCount(c)
    ensures forall k :: 0 <= k < |s| ==>
      c.startTime <= s[k].time && s[k].time + SecondsPerMinute * c.interval <= c.endTime
  {
    SamplesWithinWindow(c, unit, EntryCount(c));
    Samples(c, unit, EntryCount(c))
  }

  /** The first n samples of a run lie inside the window, when n is at most the entry count. */
  lemma SamplesWithinWindow(c: AutoConfig, unit: GlucoseUnit, n: nat)
    requires 1 <= c.interval && n <= EntryCount(c)
    ensures forall k :: 0 <= k < n ==>
      c.startTime <= Samples(c, unit, n)[k].time
      && Samples(c, unit, n)[k].time + SecondsPerMinute * c.interval <= c.endTime
  {
    forall k | 0 <= k < n
      ensures Samples(c, unit, n)[k].time + SecondsPerMinute * c.interval <= c.endTime
    {
      EntryTimeWithinWindow(c, k);
    }
  }

  /** For a positive divisor d: a <= x / d over the reals exactly when a * d <= x. */
  lemma QuotientBound(a: int, x: int, d: int)
    requires 0 < d
    ensures a as real <= x as real / d as real <==> a * d <= x
  {
    var y, dr := x as real / d as real, d as real;
    assert y * dr == x as real;
    assert (a * d) as real == a as real * dr;
    if a as real <= y {
      assert (y - a as real) * dr >= 0.0;
    } else {
      assert (a as real - y) * dr > 0.0;
    }
  }

  /** The quotient of the two real divisions is that of one division by 60 * interval. */
  lemma WindowQuotient(c: AutoConfig)
    requires 1 <= c.interval
    ensures ((c.endTime - c.startTime) as real / 60.0) / c.interval as real
         == (c.endTime - c.startTime) as real / (SecondsPerMinute * c.interval) as real
  {
  }

  /** Truncating the real quotient of d by a positive span gives the integer quotient when d >= 0. */
  lemma TruncatedQuotient(d: int, span: int)
    requires 0 < span
    ensures 0 <= d ==> Trunc(d as real / span as real) == d / span
    ensures d < 0 ==> Trunc(d as real / span as real) <= 0
  {
    if 0 <= d {
      var q := d / span;
      assert q * span <= d < (q + 1) * span;
      QuotientBound(q, d, span);
      QuotientBound(q + 1, d, span);
    } else {
      QuotientBound(0, d, span);
    }
  }

  /** The time guard never cuts a run short: every entry below the entry count is inside the window. */
  lemma EntryTimeWithinWindow(c: AutoConfig, k: nat)
    requires 1 <= c.interval && k < EntryCount(c)
    ensures SampleTime(c, k) + SecondsPerMinute * c.interval <= c.endTime
  {
    var d, span := c.endTime - c.startTime, SecondsPerMinute * c.interval;
    DivMod(d, span);
    MulMonotone(k + 1, d / span, span);
    assert (k + 1) * span == k * span + span;
  }

  /**
   * A run writes max(0, maxEntries) samples: the whole number of intervals
   * in the window, and none when the window is shorter than one interval or
   * inverted.
   */
  lemma AutoSeriesLength(c: AutoConfig, unit: GlucoseUnit)
    requires 1 <= c.interval
    ensures c.startTime <= c.endTime ==>
      |AutoSeries(c, unit)| == MaxEntries(c) == (c.endTime - c.startTime) / (SecondsPerMinute * c.interval)
    ensures c.endTime - c.startTime < SecondsPerMinute * c.interval ==> AutoSeries(c, unit) == []
  {
  }

  /** The k-th sample is stamped k intervals after the start. */
  lemma AutoSeriesTimes(c: AutoConfig, unit: GlucoseUnit, k: nat)
    requires 1 <= c.interval && k < |AutoSeries(c, unit)|
    ensures AutoSeries(c, unit)[k].time == c.startTime + k * (SecondsPerMinute * c.interval)
  {
  }

  /** Samples are evenly spaced, one interval apart, so their times strictly increase. */
  lemma AutoSeriesEvenlySpaced(c: AutoConfig, unit: GlucoseUnit, j: nat, k: nat)
    requires 1 <= c.interval && j < k < |AutoSeries(c, unit)|
    ensures AutoSeries(c, unit)[k].time - AutoSeries(c, unit)[j].time
         == (k - j) * (SecondsPerMinute * c.interval)
    ensures AutoSeries(c, unit)[j].time < AutoSeries(c, unit)[k].time
  {
    var span := SecondsPerMinute * c.interval;
    assert k * span - j * span == (k - j) * span;
    MulAtLeast(k - j, span);
  }

  /**
   * With min <= max and a non-negative step, every saved level lies between
   * the saved forms of min and max, and the first one is min.
   */
  lemma AutoSeriesValuesInRange(c: AutoConfig, unit: GlucoseUnit, k: nat)
    requires 1 <= c.interval && k < |AutoSeries(c, unit)|
    requires c.minValue <= c.maxValue && 0.0 <= c.step
    ensures StoredValue(c.minValue, unit) <= AutoSeries(c, unit)[k].value <= StoredValue(c.maxValue, unit)
    ensures AutoSeries(c, unit)[0].value == StoredValue(c.minValue, unit)
  {
    var v := RampAt(k, c.minValue, c.maxValue, c.step).value;
    ConvertRange(unit, MgdL, c.minValue, v, c.maxValue);
  }

  /**
   * A ten-minute window, range 70...100 mg/dL, step 10, every 5 minutes:
   * two samples, 70 at the start and 80 five minutes later.
   */
  lemma TenMinuteWindowScenario(t: int)
    ensures AutoSeries(AutoConfig(t, t + 600, 5, 70.0, 100.0, 10.0), MgdL)
         == [Sample(t, 70.0), Sample(t + 300, 80.0)]
  {
    var c := AutoConfig(t, t + 600, 5, 70.0, 100.0, 10.0);
    DivModUnique(600, 300, 2, 0);
    assert RampAt(1, 70.0, 100.0, 10.0) == RampState(80.0, true);
  }
}
