/** Split planning: from the length of the loaded ET series and the two slider
    values (months to keep for fitting, additional months to forecast), the
    dashboard derives the forecast horizon, the train/test percentages handed to
    the backtester, and the prefix/suffix split of the series into the training
    window and the held-out months (app/app.py, lines 131-139). */
module SplitPlanning {

  /** Bounds of the two sliders at app/app.py:132-133. */
  const MinMonthsKeep: nat := 10
  const MinMonthsMore: nat := 12
  const MaxMonthsMore: nat := 60
  const DefaultMonthsMore: nat := 36

  /** The values the sliders can deliver (app/app.py:132-133): keep in
      [10, available], more in [12, 60]. Within them the series is long enough for
      the percentage division. */
  predicate SliderBounds(monthsAvailable: nat, monthsKeep: nat, monthsMore: nat)
    ensures SliderBounds(monthsAvailable, monthsKeep, monthsMore) ==> 0 < monthsAvailable
    ensures SliderBounds(monthsAvailable, monthsKeep, monthsMore) ==> MinMonthsKeep <= monthsAvailable
  {
    MinMonthsKeep <= monthsKeep <= monthsAvailable && MinMonthsMore <= monthsMore <= MaxMonthsMore
  }

  /** Default position of the "Months to use for forecast" slider: the midpoint of
      10 and the series length, rounded down (app/app.py:132). */
  function DefaultMonthsKeep(monthsAvailable: nat): (k: nat)
    requires MinMonthsKeep <= monthsAvailable
    ensures MinMonthsKeep <= k <= monthsAvailable
    ensures SliderBounds(monthsAvailable, k, DefaultMonthsMore)
    ensures 2 * k <= MinMonthsKeep + monthsAvailable < 2 * k + 2
  {
    (MinMonthsKeep + monthsAvailable) / 2
  }

  /** The numbers the dashboard derives from the slider values. */
  datatype SplitPlan = SplitPlan(monthsForecast: int, trainPercent: int, testPercent: int)

  /** The horizon is the held-out months plus the extra months; the train
      percentage is 100 * keep / available truncated to an integer, and the test
      percentage is its complement to 100 (app/app.py:134-136). Python divides in
      floating point and truncates; for the non-negative operands here that is the
      floor, i.e. Dafny's `/`. */
  function Plan(monthsAvailable: nat, monthsKeep: nat, monthsMore: nat): (p: SplitPlan)
    requires 0 < monthsAvailable
    // the training window plus the forecast horizon reach `more` months past the series end
    ensures monthsKeep + p.monthsForecast == monthsAvailable + monthsMore
    // trainPercent is the floor of 100 * keep / available
    ensures 0 <= p.trainPercent
    ensures p.trainPercent * monthsAvailable <= 100 * monthsKeep < (p.trainPercent + 1) * monthsAvailable
    ensures p.trainPercent + p.testPercent == 100
  {
    var trp := 100 * monthsKeep / monthsAvailable;
    SplitPlan(monthsAvailable - monthsKeep + monthsMore, trp, 100 - trp)
  }

  /** The first `keep` months and the rest (app/app.py:138-139), as Python's
      slices, which clamp an index beyond the end to the length of the series. */
  function SplitSeries<T>(series: seq<T>, monthsKeep: nat): (parts: (seq<T>, seq<T>))
    ensures parts.0 + parts.1 == series
    ensures |parts.0| == if monthsKeep <= |series| then monthsKeep else |series|
  {
    var k := if monthsKeep <= |series| then monthsKeep else |series|;
    (series[..k], series[k..])
  }

  /** Under the slider bounds the horizon is between 12 and available + 50 months. */
  lemma HorizonBounds(monthsAvailable: nat, monthsKeep: nat, monthsMore: nat)
    requires SliderBounds(monthsAvailable, monthsKeep, monthsMore)
    ensures MinMonthsMore <= Plan(monthsAvailable, monthsKeep, monthsMore).monthsForecast
    ensures Plan(monthsAvailable, monthsKeep, monthsMore).monthsForecast
            <= monthsAvailable - MinMonthsKeep + MaxMonthsMore
  {
  }

  /** Both percentages lie in [0, 100]; trainPercent is 100 exactly when the whole
      series is kept, and 0 exactly when keep is below one percent of the series. */
  lemma PercentBounds(monthsAvailable: nat, monthsKeep: nat, monthsMore: nat)
    requires 0 < monthsAvailable && monthsKeep <= monthsAvailable
    ensures var p := Plan(monthsAvailable, monthsKeep, monthsMore);
      && 0 <= p.trainPercent <= 100
      && 0 <= p.testPercent <= 100
      && (p.trainPercent == 100 <==> monthsKeep == monthsAvailable)
      && (p.trainPercent == 0 <==> 100 * monthsKeep < monthsAvailable)
  {
    var p := Plan(monthsAvailable, monthsKeep, monthsMore);
    var t, n := p.trainPercent, monthsAvailable;
    // t * n <= 100 * keep <= 100 * n, so t <= 100
    MulMonotone(monthsKeep, n, 100);
    MulCancel(t, 100, n);
    // keep == n: 100 * n < (t + 1) * n, so t >= 100
    if monthsKeep == n {
      MulCancelStrict(100, t + 1, n);
    }
    // t == 100: 100 * n <= 100 * keep, so n <= keep
    if t == 100 {
      MulCancel(n, monthsKeep, 100);
    }
    // 100 * keep < n means t * n < 1 * n, so t < 1
    if 100 * monthsKeep < n {
      MulCancelStrict(t, 1, n);
    }
  }

  lemma MulMonotone(a: int, b: int, c: nat)
    requires a <= b
    ensures c * a <= c * b
  {
  }

  lemma MulCancel(a: int, b: int, n: int)
    requires 0 < n && a * n <= b * n
    ensures a <= b
  {
  }

  lemma MulCancelStrict(a: int, b: int, n: int)
    requires 0 < n && a * n < b * n
    ensures a < b
  {
  }

  /** With the slider's lower bound of 10 kept months, trainPercent is positive for
      every series of at most 1000 months; a 1001-month series kept at 10 gives 0. */
  lemma TrainPercentPositive(monthsAvailable: nat, monthsKeep: nat, monthsMore: nat)
    requires MinMonthsKeep <= monthsKeep <= monthsAvailable <= 1000
    ensures 0 < Plan(monthsAvailable, monthsKeep, monthsMore).trainPercent
  {
    PercentBounds(monthsAvailable, monthsKeep, monthsMore);
  }

  /** The training window holds exactly `keep` months, the held-out part the rest,
      and the held-out part is empty exactly when the whole series is kept. */
  lemma SplitSizes<T>(series: seq<T>, monthsKeep: nat)
    requires monthsKeep <= |series|
    ensures |SplitSeries(series, monthsKeep).0| == monthsKeep
    ensures |SplitSeries(series, monthsKeep).1| == |series| - monthsKeep
    ensures SplitSeries(series, monthsKeep).1 == [] <==> monthsKeep == |series|
  {
  }

  /** The training window is a prefix and the held-out part a suffix of the series. */
  lemma SplitPositions<T>(series: seq<T>, monthsKeep: nat, i: nat)
    requires monthsKeep <= |series| && i < |series|
    ensures i < monthsKeep ==> SplitSeries(series, monthsKeep).0[i] == series[i]
    ensures monthsKeep <= i ==> SplitSeries(series, monthsKeep).1[i - monthsKeep] == series[i]
  {
  }

  /** 120 months, keep 100, 36 more: horizon 56, 83 % train, 17 % test. */
  lemma PlanExample()
    ensures Plan(120, 100, 36) == SplitPlan(56, 83, 17)
  {
  }
}
