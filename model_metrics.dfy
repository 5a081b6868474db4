/** The metrics added for the second version of the dashboard: year-over-year
    trends, the share of patients on novel regimens, the growth rate of
    incidence, the analytic tornado sensitivity and the regimen PFS table.
    The five metrics this file shares with the first version are modelled
    once, in module Metrics. */
module ModelMetrics {
  import opened Common
  import opened Frames
  import opened Numerics
  import Metrics

  // ------------------------------------------------------ year-over-year trends

  /** The twelve months a metric is computed over: the latest twelve
      (`df.tail(12)`) or the twelve before them (`df.iloc[-24:-12]`). */
  datatype Window = Recent | Prior

  predicate HasWindow(f: Frame, w: Window)
  {
    f.WellFormed() && f.Rows() > 0 && (w.Prior? ==> f.Rows() >= 2 * RecentMonths)
  }

  /** `d.get(c, pd.Series([0])).mean()` over the window. */
  function WindowMeanOrZero(f: Frame, w: Window, c: string): real
    requires HasWindow(f, w)
  {
    if w.Recent? then RecentMeanOrZero(f, c) else PriorMeanOrZero(f, c)
  }

  /** The patients on treatment: the four line totals' means, summed, an
      absent total counting as 0. */
  function TotalOnTreatment(f: Frame, w: Window): real
    requires HasWindow(f, w)
  {
    WindowMeanOrZero(f, w, TotalColumns[0]) + WindowMeanOrZero(f, w, TotalColumns[1])
      + WindowMeanOrZero(f, w, TotalColumns[2]) + WindowMeanOrZero(f, w, TotalColumns[3])
  }

  /** Every window mean of a column with no negative value is non-negative. */
  lemma WindowMeanNonNegative(f: Frame, w: Window, c: string)
    requires HasWindow(f, w)
    requires c in f.data ==> forall i :: 0 <= i < |f.data[c]| ==> f.data[c][i] >= 0.0
    ensures WindowMeanOrZero(f, w, c) >= 0.0
  {
    if c in f.data {
      var s := f.data[c];
      if w.Recent? {
        var t := Tail(s, RecentMonths);
        assert forall i :: 0 <= i < |t| ==> t[i] == s[|s| - |t| + i];
        MeanNonNegative(t);
      } else {
        var t := s[|s| - 2 * RecentMonths .. |s| - RecentMonths];
        assert forall i :: 0 <= i < |t| ==> t[i] == s[|s| - 2 * RecentMonths + i];
        MeanNonNegative(t);
      }
    }
  }

  /** With no negative count in the line totals, the total on treatment is
      not negative. */
  lemma TotalOnTreatmentNonNegative(f: Frame, w: Window)
    requires HasWindow(f, w)
    requires forall c, i :: c in TotalColumns && c in f.data && 0 <= i < |f.data[c]| ==> f.data[c][i] >= 0.0
    ensures TotalOnTreatment(f, w) >= 0.0
  {
    WindowMeanNonNegative(f, w, TotalColumns[0]);
    WindowMeanNonNegative(f, w, TotalColumns[1]);
    WindowMeanNonNegative(f, w, TotalColumns[2]);
    WindowMeanNonNegative(f, w, TotalColumns[3]);
  }

  /** The three headline metrics. */
  datatype Metric = OnTreatment | NewStarts | Prevalence1L

  const TrendMetrics: seq<(string, Metric)> :=
    [("total_on_treatment", OnTreatment), ("new_starts", NewStarts), ("prevalence_1l", Prevalence1L)]

  /** A metric over a window; only the new starts need their column, which
      is looked up with `d['New_Starts_1L']`. */
  function MetricValue(f: Frame, w: Window, metric: Metric): (r: Result<real>)
    requires HasWindow(f, w)
    ensures r.Err? <==> metric.NewStarts? && "New_Starts_1L" !in f.data
    ensures r.Err? ==> r.error == MissingKey("New_Starts_1L")
  {
    match metric
    case OnTreatment => Ok(TotalOnTreatment(f, w))
    case NewStarts =>
      if "New_Starts_1L" !in f.data then Err(MissingKey("New_Starts_1L"))
      else Ok(WindowMeanOrZero(f, w, "New_Starts_1L"))
    case Prevalence1L => Ok(WindowMeanOrZero(f, w, "Total_1L"))
  }

  /** The trend arrows '▲', '▼' and '—'. */
  datatype Arrow = Up | Down | Flat

  datatype Trend = Trend(current: real, prior: Option<real>, deltaPct: Option<real>, arrow: Arrow)

  /** A metric compared with its value a year before: the change in percent
      and its arrow when the prior value is positive, no change otherwise. */
  function Compare(curr: real, prev: real): Trend
  {
    if prev > 0.0 then
      var delta := (curr - prev) / prev * 100.0;
      Trend(curr, Some(prev), Some(delta), if delta > 1.0 then Up else if delta < -1.0 then Down else Flat)
    else
      Trend(curr, Some(prev), None, Flat)
  }

  /** The arrow points up exactly when the metric grew by more than 1%, and
      down exactly when it fell by more than 1%. */
  lemma ArrowMeaning(curr: real, prev: real)
    ensures var t := Compare(curr, prev);
      && t.current == curr && t.prior == Some(prev)
      && (prev <= 0.0 ==> t.deltaPct == None && t.arrow == Flat)
      && (prev > 0.0 ==> t.deltaPct.Some? && (t.deltaPct.value > 0.0 <==> curr > prev))
      && (prev > 0.0 ==> (t.arrow == Up <==> curr > prev * 1.01))
      && (prev > 0.0 ==> (t.arrow == Down <==> curr < prev * 0.99))
  {
    if prev > 0.0 {
      PercentChange(curr, prev, 0.0);
      PercentChange(curr, prev, 1.0);
      PercentChange(curr, prev, -1.0);
    }
  }

  /** A change in percent of a positive base exceeds c exactly when the
      absolute change exceeds c percent of the base. */
  lemma PercentChange(curr: real, prev: real, c: real)
    requires prev > 0.0
    ensures (curr - prev) / prev * 100.0 > c <==> curr - prev > c / 100.0 * prev
    ensures (curr - prev) / prev * 100.0 < c <==> curr - prev < c / 100.0 * prev
  {
    var q := (curr - prev) / prev;
    assert q * prev == curr - prev;
    RelativeChange(q, prev, c / 100.0);
  }

  /** For a positive base, a relative change exceeds c exactly when the
      absolute change exceeds c times the base. */
  lemma RelativeChange(q: real, prev: real, c: real)
    requires prev > 0.0
    ensures q > c <==> q * prev > c * prev
    ensures q < c <==> q * prev < c * prev
  {
    if q > c {
      assert (q - c) * prev > 0.0;
    } else if q < c {
      assert (c - q) * prev > 0.0;
    }
  }

  /** `compute_yoy_trends`: with less than 24 months, each metric's latest
      value with no comparison; otherwise each metric's latest value
      compared with the year before. A missing `New_Starts_1L` column is a
      KeyError in both cases. */
  method ComputeYoyTrends(f: Frame) returns (r: Result<map<string, Trend>>)
    requires f.WellFormed() && f.Rows() > 0
    ensures r.Err? <==> "New_Starts_1L" !in f.data
    ensures r.Err? ==> r.error == MissingKey("New_Starts_1L")
    ensures r.Ok? ==> r.value.Keys == {"total_on_treatment", "new_starts", "prevalence_1l"}
    ensures r.Ok? && f.Rows() < 2 * RecentMonths ==>
      forall k :: 0 <= k < |TrendMetrics| ==>
        r.value[TrendMetrics[k].0] == Trend(MetricValue(f, Recent, TrendMetrics[k].1).value, None, None, Flat)
    ensures r.Ok? && f.Rows() >= 2 * RecentMonths ==>
      forall k :: 0 <= k < |TrendMetrics| ==>
        r.value[TrendMetrics[k].0] ==
          Compare(MetricValue(f, Recent, TrendMetrics[k].1).value, MetricValue(f, Prior, TrendMetrics[k].1).value)
  {
    if f.Rows() < 2 * RecentMonths {
      var total := MetricValue(f, Recent, OnTreatment);
      var newStarts := MetricValue(f, Recent, NewStarts);
      if newStarts.Err? {
        return Err(newStarts.error);
      }
      var prevalence := MetricValue(f, Recent, Prevalence1L);
      return Ok(map[
        "total_on_treatment" := Trend(total.value, None, None, Flat),
        "new_starts" := Trend(newStarts.value, None, None, Flat),
        "prevalence_1l" := Trend(prevalence.value, None, None, Flat)]);
    }
    MetricNamesDistinct();
    r := CompareEach(f, TrendMetrics);
    TrendsFail(f, TrendMetrics, |TrendMetrics|);
    if r.Ok? {
      TrendsKeys(f, TrendMetrics, |TrendMetrics|);
      TrendsValues(f, TrendMetrics, |TrendMetrics|);
      MetricNames();
    }
    assert MetricValue(f, Recent, TrendMetrics[1].1).Err? <==> "New_Starts_1L" !in f.data;
  }

  /** The trends of the first k metrics, or the first lookup that fails. */
  function Trends(f: Frame, metrics: seq<(string, Metric)>, k: nat): Result<map<string, Trend>>
    requires HasWindow(f, Prior) && k <= |metrics|
  {
    if k == 0 then Ok(map[])
    else
      var prev := Trends(f, metrics, k - 1);
      var (name, metric) := metrics[k - 1];
      var curr := MetricValue(f, Recent, metric);
      if prev.Err? then prev
      else if curr.Err? then Err(curr.error)
      else Ok(prev.value[name := Compare(curr.value, MetricValue(f, Prior, metric).value)])
  }

  /** The loop of `compute_yoy_trends` over the metrics, with a year of
      history before the latest year. */
  method CompareEach(f: Frame, metrics: seq<(string, Metric)>) returns (r: Result<map<string, Trend>>)
    requires HasWindow(f, Prior)
    ensures r == Trends(f, metrics, |metrics|)
  {
    var results: map<string, Trend> := map[];
    for k := 0 to |metrics|
      invariant Trends(f, metrics, k) == Ok(results)
    {
      var (name, metric) := metrics[k];
      var curr := MetricValue(f, Recent, metric);
      if curr.Err? {
        TrendsErrorPersists(f, metrics, k + 1);
        return Err(curr.error);
      }
      var prev := MetricValue(f, Prior, metric);
      results := results[name := Compare(curr.value, prev.value)];
    }
    return Ok(results);
  }

  lemma {:induction false} TrendsErrorPersists(f: Frame, metrics: seq<(string, Metric)>, k: nat)
    requires HasWindow(f, Prior) && k <= |metrics|
    requires Trends(f, metrics, k).Err?
    ensures Trends(f, metrics, |metrics|) == Trends(f, metrics, k)
    decreases |metrics| - k
  {
    if k < |metrics| {
      TrendsErrorPersists(f, metrics, k + 1);
    }
  }

  /** The comparison fails exactly when a metric's lookup fails, and then
      with the missing new-starts column. */
  lemma {:induction false} TrendsFail(f: Frame, metrics: seq<(string, Metric)>, k: nat)
    requires HasWindow(f, Prior) && k <= |metrics|
    ensures Trends(f, metrics, k).Err? <==> exists j :: 0 <= j < k && MetricValue(f, Recent, metrics[j].1).Err?
    ensures Trends(f, metrics, k).Err? ==> Trends(f, metrics, k).error == MissingKey("New_Starts_1L")
  {
    if k > 0 {
      TrendsFail(f, metrics, k - 1);
    }
  }

  /** A successful comparison has a key per metric. */
  lemma {:induction false} TrendsKeys(f: Frame, metrics: seq<(string, Metric)>, k: nat)
    requires HasWindow(f, Prior) && k <= |metrics|
    requires Trends(f, metrics, k).Ok?
    ensures Trends(f, metrics, k).value.Keys == set j | 0 <= j < k :: metrics[j].0
  {
    if k > 0 {
      TrendsKeys(f, metrics, k - 1);
    }
  }

  /** With distinct names, each metric's entry compares its two years. */
  lemma {:induction false} TrendsValues(f: Frame, metrics: seq<(string, Metric)>, k: nat)
    requires HasWindow(f, Prior) && k <= |metrics|
    requires forall i, j :: 0 <= i < j < |metrics| ==> metrics[i].0 != metrics[j].0
    requires Trends(f, metrics, k).Ok?
    ensures forall j :: 0 <= j < k ==>
      && MetricValue(f, Recent, metrics[j].1).Ok?
      && metrics[j].0 in Trends(f, metrics, k).value
      && Trends(f, metrics, k).value[metrics[j].0] ==
           Compare(MetricValue(f, Recent, metrics[j].1).value, MetricValue(f, Prior, metrics[j].1).value)
  {
    if k > 0 {
      TrendsValues(f, metrics, k - 1);
      var prev := Trends(f, metrics, k - 1).value;
      var name := metrics[k - 1].0;
      var curr := MetricValue(f, Recent, metrics[k - 1].1);
      assert Trends(f, metrics, k).value == prev[name := Compare(curr.value, MetricValue(f, Prior, metrics[k - 1].1).value)];
    }
  }

  lemma MetricNamesDistinct()
    ensures forall i, j :: 0 <= i < j < |TrendMetrics| ==> TrendMetrics[i].0 != TrendMetrics[j].0
  {
    assert "total_on_treatment"[0] != "new_starts"[0];
    assert "total_on_treatment"[0] != "prevalence_1l"[0];
    assert "new_starts"[0] != "prevalence_1l"[0];
  }

  lemma MetricNames()
    ensures (set j | 0 <= j < |TrendMetrics| :: TrendMetrics[j].0) == {"total_on_treatment", "new_starts", "prevalence_1l"}
  {
    assert TrendMetrics[0].0 == "total_on_treatment";
    assert TrendMetrics[1].0 == "new_starts";
    assert TrendMetrics[2].0 == "prevalence_1l";
  }

  // -------------------------------------------------- novel therapy share

  /** The regimens approved after 2020. */
  const NovelRegimens: set<string> :=
    {"D-VRd", "Cilta-cel", "Ide-cel", "Teclistamab", "Talquetamab", "Isa-Kd", "Isa-Pd"}

  /** A column `<line>_<regimen>` whose text after the first '_' names a
      novel regimen. */
  predicate IsNovelColumn(c: string)
  {
    var regimen := AfterFirst(c, '_');
    regimen.Some? && regimen.value in NovelRegimens
  }

  /** The latest twelve months' means of the columns, summed. */
  function MeanSum(f: Frame, cols: seq<string>): real
    requires f.WellFormed() && f.Rows() > 0
    requires forall c :: c in cols ==> c in f.data
  {
    if |cols| == 0 then 0.0
    else MeanSum(f, cols[..|cols| - 1]) + RecentMean(f, cols[|cols| - 1])
  }

  /** `novel_sum` after the loop over the columns: each novel column adds
      its latest twelve months' mean. */
  function NovelSum(f: Frame, cols: seq<string>): real
    requires f.WellFormed() && f.Rows() > 0
    requires forall c :: c in cols ==> c in f.data
  {
    if |cols| == 0 then 0.0
    else
      var c := cols[|cols| - 1];
      NovelSum(f, cols[..|cols| - 1]) + (if IsNovelColumn(c) then RecentMean(f, c) else 0.0)
  }

  /** `compute_novel_therapy_pct`: the novel columns' share of the patients
      on treatment, in percent, and 0 when nobody is on treatment. */
  method ComputeNovelTherapyPct(f: Frame) returns (pct: real)
    requires f.WellFormed() && f.Rows() > 0
    ensures TotalOnTreatment(f, Recent) <= 0.0 ==> pct == 0.0
    ensures TotalOnTreatment(f, Recent) > 0.0 ==>
      pct == MeanSum(f, Filter(f.columns, IsNovelColumn)) / TotalOnTreatment(f, Recent) * 100.0
  {
    var total := TotalOnTreatment(f, Recent);
    if total <= 0.0 {
      return 0.0;
    }
    var novelSum := 0.0;
    for k := 0 to |f.columns|
      invariant novelSum == NovelSum(f, f.columns[..k])
    {
      var col := f.columns[k];
      var regimen := AfterFirst(col, '_');
      if regimen.Some? && regimen.value in NovelRegimens {
        novelSum := novelSum + RecentMean(f, col);
      }
      assert f.columns[..k + 1][..k] == f.columns[..k];
    }
    assert f.columns[..|f.columns|] == f.columns;
    NovelSumIsSumOverNovelColumns(f, f.columns);
    return novelSum / total * 100.0;
  }

  /** Only novel columns contribute: the loop's sum is the sum over the
      novel columns alone, in column order. */
  lemma {:induction false} NovelSumIsSumOverNovelColumns(f: Frame, cols: seq<string>)
    requires f.WellFormed() && f.Rows() > 0
    requires forall c :: c in cols ==> c in f.data
    ensures NovelSum(f, cols) == MeanSum(f, Filter(cols, IsNovelColumn))
  {
    if |cols| > 0 {
      var n := |cols| - 1;
      var c := cols[n];
      NovelSumIsSumOverNovelColumns(f, cols[..n]);
      var before := Filter(cols[..n], IsNovelColumn);
      if IsNovelColumn(c) {
        assert Filter(cols, IsNovelColumn) == before + [c];
        assert (before + [c])[..|before|] == before;
      } else {
        assert Filter(cols, IsNovelColumn) == before;
      }
    }
  }

  /** With no negative value in the frame, the novel columns' sum lies
      between 0 and the sum over all the columns. */
  lemma {:induction false} NovelSumBounds(f: Frame, cols: seq<string>)
    requires f.WellFormed() && f.Rows() > 0
    requires forall c :: c in cols ==> c in f.data
    requires forall c, i :: c in f.data && 0 <= i < |f.data[c]| ==> f.data[c][i] >= 0.0
    ensures 0.0 <= NovelSum(f, cols) <= MeanSum(f, cols)
  {
    if |cols| > 0 {
      var n := |cols| - 1;
      NovelSumBounds(f, cols[..n]);
      WindowMeanNonNegative(f, Recent, cols[n]);
    }
  }

  // ----------------------------------------------------------- incidence CAGR

  /** One entry of `df.groupby('Year')['New_Starts_1L'].sum()`. */
  datatype YearTotal = YearTotal(year: int, total: real)

  /** The group keys come out sorted and distinct. */
  predicate YearsIncreasing(yearly: seq<YearTotal>)
  {
    forall i, j :: 0 <= i < j < |yearly| ==> yearly[i].year < yearly[j].year
  }

  /** `yearly[yearly > 0]`: the years with positive incidence, in order. */
  function PositiveYears(yearly: seq<YearTotal>): (valid: seq<YearTotal>)
    ensures |valid| <= |yearly|
    ensures forall i :: 0 <= i < |valid| ==> valid[i].total > 0.0
  {
    if |yearly| == 0 then []
    else
      var last := yearly[|yearly| - 1];
      PositiveYears(yearly[..|yearly| - 1]) + (if last.total > 0.0 then [last] else [])
  }

  /** The filter keeps exactly the years with positive incidence. */
  lemma {:induction false} PositiveYearsMembers(yearly: seq<YearTotal>)
    ensures forall y :: y in PositiveYears(yearly) <==> y in yearly && y.total > 0.0
  {
    if |yearly| > 0 {
      var n := |yearly| - 1;
      PositiveYearsMembers(yearly[..n]);
      assert yearly == yearly[..n] + [yearly[n]];
    }
  }

  /** The filter keeps the years in increasing order. */
  lemma {:induction false} PositiveYearsIncreasing(yearly: seq<YearTotal>)
    requires YearsIncreasing(yearly)
    ensures YearsIncreasing(PositiveYears(yearly))
  {
    if |yearly| > 0 {
      var n := |yearly| - 1;
      PositiveYearsIncreasing(yearly[..n]);
      PositiveYearsMembers(yearly[..n]);
      var before := PositiveYears(yearly[..n]);
      forall y | y in before
        ensures y.year < yearly[n].year
      {
        var i :| 0 <= i < n && yearly[..n][i] == y;
      }
    }
  }

  /** `int(round(x))`: Python rounds to the nearest integer, and a tie to the
      even one. */
  function RoundHalfEven(x: real): int
  {
    var below := x.Floor;
    var frac := x - below as real;
    if frac < 0.5 then below
    else if frac > 0.5 then below + 1
    else if below % 2 == 0 then below else below + 1
  }

  /** The rounded value is at most half away from x, and even on a tie. */
  lemma RoundHalfEvenNearest(x: real)
    ensures -0.5 <= RoundHalfEven(x) as real - x <= 0.5
    ensures RoundHalfEven(x) as real - x == 0.5 || x - RoundHalfEven(x) as real == 0.5 ==>
      RoundHalfEven(x) % 2 == 0
  {
  }

  datatype Cagr = Cagr(cagrPct: real, startYear: Option<int>, endYear: Option<int>,
                       startAnnual: int, endAnnual: int)

  /** The result without enough data: growth 0, no years. */
  const NoCagr := Cagr(0.0, None, None, 0, 0)

  /** `(vn / v0) ** (1 / n_years) - 1`, or 0 unless both the span and the
      starting value are positive. */
  function GrowthRate(m: Maths, v0: real, vn: real, nYears: int): real
  {
    if nYears > 0 && v0 > 0.0 then Root(m, vn / v0, nYears as real) - 1.0 else 0.0
  }

  /** Growing at the rate for n years multiplies by vn / v0. */
  lemma GrowthRateCompounds(m: Maths, v0: real, vn: real, nYears: int)
    requires Lawful(m)
    requires v0 > 0.0 && vn > 0.0 && nYears > 0
    ensures Pow(m, 1.0 + GrowthRate(m, v0, vn, nYears), nYears as real) == vn / v0
  {
    var ratio := vn / v0;
    QuotientAgainstOne(vn, v0);
    RootUndone(m, ratio, nYears as real);
    assert 1.0 + GrowthRate(m, v0, vn, nYears) == Root(m, ratio, nYears as real);
  }

  /** The rate has the sign of vn - v0. */
  lemma GrowthRateSign(m: Maths, v0: real, vn: real, nYears: int)
    requires Lawful(m)
    requires v0 > 0.0 && vn > 0.0 && nYears > 0
    ensures v0 <= vn ==> GrowthRate(m, v0, vn, nYears) >= 0.0
    ensures vn <= v0 ==> GrowthRate(m, v0, vn, nYears) <= 0.0
  {
    var ratio := vn / v0;
    var y := 1.0 / nYears as real;
    PowOfOne(m, y);
    QuotientAgainstOne(vn, v0);
    if v0 <= vn {
      PowMonotone(m, 1.0, ratio, y);
    }
    if vn <= v0 {
      PowMonotone(m, ratio, 1.0, y);
    }
  }

  /** b / a is at least 1 when b >= a, at most 1 when b <= a, and positive. */
  lemma QuotientAgainstOne(b: real, a: real)
    requires a > 0.0 && b > 0.0
    ensures b >= a ==> b / a >= 1.0
    ensures b <= a ==> b / a <= 1.0
    ensures b / a > 0.0
  {
    var q := b / a;
    assert q * a == b;
    FactorAgainstOne(q, a, b);
  }

  /** When q * a == b for a positive a, q compares with 1 as b with a. */
  lemma FactorAgainstOne(q: real, a: real, b: real)
    requires a > 0.0 && b > 0.0 && q * a == b
    ensures b >= a ==> q >= 1.0
    ensures b <= a ==> q <= 1.0
    ensures q > 0.0
  {
    if q < 1.0 {
      var d := 1.0 - q;
      assert d * a > 0.0;
      assert d * a == a - q * a;
      assert b < a;
    } else if q > 1.0 {
      var d := q - 1.0;
      assert d * a > 0.0;
      assert d * a == q * a - a;
      assert b > a;
    }
  }

  /** `compute_incidence_cagr` from the yearly sums: with at least two years
      of positive incidence, the compound annual growth in percent from the
      first of them to the last. */
  function IncidenceCagr(m: Maths, yearly: seq<YearTotal>): Cagr
    requires YearsIncreasing(yearly)
  {
    if |yearly| < 2 then NoCagr
    else
      var valid := PositiveYears(yearly);
      if |valid| < 2 then NoCagr
      else
        var first := valid[0];
        var last := valid[|valid| - 1];
        Cagr(GrowthRate(m, first.total, last.total, last.year - first.year) * 100.0,
             Some(first.year), Some(last.year),
             RoundHalfEven(first.total), RoundHalfEven(last.total))
  }

  /** The fallback is taken exactly when fewer than two years have positive
      incidence; otherwise the span runs from the first such year to the
      last, and every such year lies within it. */
  lemma CagrSpan(m: Maths, yearly: seq<YearTotal>)
    requires YearsIncreasing(yearly)
    ensures var c := IncidenceCagr(m, yearly);
      && (c == NoCagr <==> |PositiveYears(yearly)| < 2)
      && (c != NoCagr ==>
           && c.startYear.Some? && c.endYear.Some?
           && c.startYear.value < c.endYear.value
           && (exists y :: y in yearly && y.total > 0.0 && y.year == c.startYear.value)
           && (exists y :: y in yearly && y.total > 0.0 && y.year == c.endYear.value)
           && (forall y :: y in yearly && y.total > 0.0 ==> c.startYear.value <= y.year <= c.endYear.value))
  {
    var valid := PositiveYears(yearly);
    PositiveYearsIncreasing(yearly);
    PositiveYearsMembers(yearly);
    if |valid| >= 2 {
      assert |yearly| >= 2;
      var first := valid[0];
      var last := valid[|valid| - 1];
      assert first in valid && last in valid;
      forall y | y in yearly && y.total > 0.0
        ensures first.year <= y.year <= last.year
      {
        var i :| 0 <= i < |valid| && valid[i] == y;
      }
    }
  }

  /** The span runs from the first positive year to the last; growing at
      the computed rate for the span's years multiplies the first year's
      incidence into the last year's, and the rate has the sign of the change
      between them. */
  lemma CagrCompounds(m: Maths, yearly: seq<YearTotal>)
    requires Lawful(m)
    requires YearsIncreasing(yearly)
    requires |PositiveYears(yearly)| >= 2
    ensures var c := IncidenceCagr(m, yearly);
      var valid := PositiveYears(yearly);
      var v0 := valid[0].total;
      var vn := valid[|valid| - 1].total;
      var n := valid[|valid| - 1].year - valid[0].year;
      c.startYear == Some(valid[0].year) && c.endYear == Some(valid[|valid| - 1].year)
    ensures var c := IncidenceCagr(m, yearly);
      var valid := PositiveYears(yearly);
      var v0 := valid[0].total;
      var vn := valid[|valid| - 1].total;
      var n := valid[|valid| - 1].year - valid[0].year;
      Pow(m, 1.0 + c.cagrPct / 100.0, n as real) == vn / v0
    ensures var c := IncidenceCagr(m, yearly);
      var valid := PositiveYears(yearly);
      var v0 := valid[0].total;
      var vn := valid[|valid| - 1].total;
      && (v0 <= vn ==> c.cagrPct >= 0.0)
      && (vn <= v0 ==> c.cagrPct <= 0.0)
  {
    var valid := PositiveYears(yearly);
    PositiveYearsIncreasing(yearly);
    var v0, vn := valid[0].total, valid[|valid| - 1].total;
    var n := valid[|valid| - 1].year - valid[0].year;
    assert n > 0;
    var rate := GrowthRate(m, v0, vn, n);
    assert IncidenceCagr(m, yearly).cagrPct / 100.0 == rate;
    GrowthRateCompounds(m, v0, vn, n);
    GrowthRateSign(m, v0, vn, n);
  }

  // ------------------------------------------------------ analytic tornado

  /** The steady-state progression rate `ln 2 / median` of the 1L duration,
      0.03 per month for a non-positive median. */
  function ProgressionRate(m: Maths, median: real): real
  {
    if median > 0.0 then Ln2(m) / median else 0.03
  }

  /** `ln 2 / (median * factor)`, the progression rate when the median is
      scaled, or the unscaled rate when the scaled median is not positive. */
  function ScaledProgressionRate(m: Maths, median: real, factor: real): real
  {
    if median * factor > 0.0 then Ln2(m) / (median * factor) else ProgressionRate(m, median)
  }

  /** `tf * factor / tf`, or 1 for a non-positive treated fraction. */
  function TreatedFractionRatio(tf: real, factor: real): real
  {
    if tf > 0.0 then tf * factor / tf else 1.0
  }

  /** `total_hazard_base / th` when the base hazard is positive, 1
      otherwise; dividing by zero raises. */
  function HazardRatio(base: real, th: real): Result<real>
  {
    if base > 0.0 then (if th == 0.0 then Err(ZeroDivision) else Ok(base / th)) else Ok(1.0)
  }

  /** A row whose low and high ends are the base value scaled by two ratios. */
  function ScaledRow(parameter: string, base: real, lowRatio: real, highRatio: real): Metrics.TornadoRow
  {
    Metrics.TornadoRow(parameter, base * lowRatio, base, base * highRatio)
  }

  /** The elasticity of the 1L stock to the probability of reaching 2L. */
  const ElasticityP2L: real := 0.15

  /** The four rows of the analytic `tornado_sensitivity` for a base value,
      the treated fraction, the median 1L duration and the 1L mortality. */
  function AnalyticRows(m: Maths, base: real, tf: real, median: real, mort: real): Result<seq<Metrics.TornadoRow>>
  {
    var tfLow := TreatedFractionRatio(tf, 0.8);
    var tfHigh := TreatedFractionRatio(tf, 1.2);
    var prog := ProgressionRate(m, median);
    var thBase := prog + mort;
    var mortLow := HazardRatio(thBase, prog + mort * 0.8);
    var mortHigh := HazardRatio(thBase, prog + mort * 1.2);
    var progLow := ScaledProgressionRate(m, median, 1.2);
    var progHigh := ScaledProgressionRate(m, median, 0.8);
    var durLow := HazardRatio(thBase, progLow + mort);
    var durHigh := HazardRatio(thBase, progHigh + mort);
    if mortLow.Err? || mortHigh.Err? || durLow.Err? || durHigh.Err? then Err(ZeroDivision)
    else Ok([
      ScaledRow("Treated Fraction", base, tfLow, tfHigh),
      ScaledRow("P(Reach 2L)", base, 1.0 + ElasticityP2L * 0.20, 1.0 - ElasticityP2L * 0.20),
      ScaledRow("1L Mortality", base, mortLow.value, mortHigh.value),
      ScaledRow("Median 1L Duration", base, durHigh.value, durLow.value)])
  }

  /** The parameters the analytic tornado reads, in the order the source
      looks them up; the median 1L duration defaults to 24 months. */
  function AnalyticTornadoOf(m: Maths, base: real, params: Params): Result<seq<Metrics.TornadoRow>>
  {
    var tf := Required(params, "uptake", "treated_fraction");
    var median := Optional(params, "durations_months_median", "1l", 24.0);
    var mort := Required(params, "mortality", "monthly_death_hazard_1l");
    var p2l := Required(params, "attrition", "p_reach_2l");
    if tf.Err? then Err(tf.error)
    else if mort.Err? then Err(mort.error)
    else if p2l.Err? then Err(p2l.error)
    else AnalyticRows(m, base, tf.value, median, mort.value)
  }

  /** The `tornado_sensitivity` of model_metrics.py: the target column's and
      the new starts' latest means, then the parameters, then one row per
      varied parameter. */
  method AnalyticTornado(m: Maths, f: Frame, params: Params, targetCol: string)
    returns (r: Result<seq<Metrics.TornadoRow>>)
    requires f.WellFormed() && f.Rows() > 0
    ensures targetCol !in f.data ==> r == Err(MissingKey(targetCol))
    ensures targetCol in f.data && "New_Starts_1L" !in f.data ==> r == Err(MissingKey("New_Starts_1L"))
    ensures targetCol in f.data && "New_Starts_1L" in f.data ==>
      r == AnalyticTornadoOf(m, RecentMean(f, targetCol), params)
  {
    if targetCol !in f.data {
      return Err(MissingKey(targetCol));
    }
    var baseVal := RecentMean(f, targetCol);
    if "New_Starts_1L" !in f.data {
      return Err(MissingKey("New_Starts_1L"));
    }
    var tfOrError := Required(params, "uptake", "treated_fraction");
    if tfOrError.Err? {
      return Err(tfOrError.error);
    }
    var tf := tfOrError.value;
    var median1L := Optional(params, "durations_months_median", "1l", 24.0);
    var mortOrError := Required(params, "mortality", "monthly_death_hazard_1l");
    if mortOrError.Err? {
      return Err(mortOrError.error);
    }
    var p2lOrError := Required(params, "attrition", "p_reach_2l");
    if p2lOrError.Err? {
      return Err(p2lOrError.error);
    }

    r := TornadoRows(m, baseVal, tf, median1L, mortOrError.value);
  }

  /** The rows of the analytic tornado, appended one varied parameter at a
      time. */
  method TornadoRows(m: Maths, baseVal: real, tf: real, median1L: real, mort1L: real)
    returns (r: Result<seq<Metrics.TornadoRow>>)
    ensures r == AnalyticRows(m, baseVal, tf, median1L, mort1L)
  {
    var rows: seq<Metrics.TornadoRow> := [];

    // 1. treated fraction
    var ratioLow := TreatedFractionRatio(tf, 0.8);
    var ratioHigh := TreatedFractionRatio(tf, 1.2);
    rows := rows + [ScaledRow("Treated Fraction", baseVal, ratioLow, ratioHigh)];

    // 2. probability of reaching 2L, through a fixed elasticity
    rows := rows + [ScaledRow("P(Reach 2L)", baseVal, 1.0 + ElasticityP2L * 0.20, 1.0 - ElasticityP2L * 0.20)];

    // 3. 1L mortality
    var progRate := ProgressionRate(m, median1L);
    var totalHazardBase := progRate + mort1L;
    var ratioMortLow := HazardRatio(totalHazardBase, progRate + mort1L * 0.8);
    if ratioMortLow.Err? {
      return Err(ratioMortLow.error);
    }
    var ratioMortHigh := HazardRatio(totalHazardBase, progRate + mort1L * 1.2);
    if ratioMortHigh.Err? {
      return Err(ratioMortHigh.error);
    }
    rows := rows + [ScaledRow("1L Mortality", baseVal, ratioMortLow.value, ratioMortHigh.value)];

    // 4. median 1L duration
    var progLow := ScaledProgressionRate(m, median1L, 1.2);
    var progHigh := ScaledProgressionRate(m, median1L, 0.8);
    var ratioDurLow := HazardRatio(totalHazardBase, progLow + mort1L);
    if ratioDurLow.Err? {
      return Err(ratioDurLow.error);
    }
    var ratioDurHigh := HazardRatio(totalHazardBase, progHigh + mort1L);
    if ratioDurHigh.Err? {
      return Err(ratioDurHigh.error);
    }
    rows := rows + [ScaledRow("Median 1L Duration", baseVal, ratioDurHigh.value, ratioDurLow.value)];
    assert rows == [
      ScaledRow("Treated Fraction", baseVal, ratioLow, ratioHigh),
      ScaledRow("P(Reach 2L)", baseVal, 1.0 + ElasticityP2L * 0.20, 1.0 - ElasticityP2L * 0.20),
      ScaledRow("1L Mortality", baseVal, ratioMortLow.value, ratioMortHigh.value),
      ScaledRow("Median 1L Duration", baseVal, ratioDurHigh.value, ratioDurLow.value)];
    return Ok(rows);
  }

  /** Four rows, each with the base value in the middle; the treated
      fraction moves the value by exactly 20% either way when it is
      positive and not at all otherwise, and the probability of reaching 2L
      by 3%. */
  lemma AnalyticRowsShape(m: Maths, base: real, tf: real, median: real, mort: real)
    requires AnalyticRows(m, base, tf, median, mort).Ok?
    ensures var rows := AnalyticRows(m, base, tf, median, mort).value;
      && |rows| == 4
      && (forall k :: 0 <= k < 4 ==> rows[k].base == base)
      && rows[0].parameter == "Treated Fraction" && rows[1].parameter == "P(Reach 2L)"
      && rows[2].parameter == "1L Mortality" && rows[3].parameter == "Median 1L Duration"
      && (tf > 0.0 ==> rows[0].low == base * 0.8 && rows[0].high == base * 1.2)
      && (tf <= 0.0 ==> rows[0].low == base && rows[0].high == base)
      && rows[1].low == base * 1.03 && rows[1].high == base * 0.97
  {
    if tf > 0.0 {
      assert tf * 0.8 / tf == 0.8 && tf * 1.2 / tf == 1.2;
    }
  }

  /** With a non-negative 1L mortality no divisor is zero, so the rows are
      always produced. */
  lemma AnalyticRowsDefined(m: Maths, base: real, tf: real, median: real, mort: real)
    requires Lawful(m)
    requires mort >= 0.0
    ensures AnalyticRows(m, base, tf, median, mort).Ok?
  {
    ProgressionRatePositive(m, median);
    ProgressionRatePositive(m, median * 1.2);
    ProgressionRatePositive(m, median * 0.8);
    assert ScaledProgressionRate(m, median, 1.2) > 0.0;
    assert ScaledProgressionRate(m, median, 0.8) > 0.0;
  }

  lemma ProgressionRatePositive(m: Maths, median: real)
    requires Lawful(m)
    ensures ProgressionRate(m, median) > 0.0
  {
    if median > 0.0 {
      Ln2Positive(m);
      QuotientNonNegative(Ln2(m), median);
      assert Ln2(m) / median != 0.0;
    }
  }

  /** With non-negative mortality and base value, a lower 1L mortality
      gives a larger 1L stock and a higher one a smaller stock, and a longer
      1L duration gives a larger stock and a shorter one a smaller stock. */
  lemma AnalyticRowsOrdered(m: Maths, base: real, tf: real, median: real, mort: real)
    requires Lawful(m)
    requires mort >= 0.0 && base >= 0.0
    ensures AnalyticRows(m, base, tf, median, mort).Ok?
    ensures var rows := AnalyticRows(m, base, tf, median, mort).value;
      && rows[2].high <= base <= rows[2].low
      && rows[3].low <= base <= rows[3].high
  {
    AnalyticRowsDefined(m, base, tf, median, mort);
    var prog := ProgressionRate(m, median);
    ProgressionRatePositive(m, median);
    var thBase := prog + mort;
    // mortality
    HazardRatioOrder(thBase, prog + mort * 0.8);
    HazardRatioOrder(thBase, prog + mort * 1.2);
    // duration
    var progLow := ScaledProgressionRate(m, median, 1.2);
    var progHigh := ScaledProgressionRate(m, median, 0.8);
    ScaledProgressionOrder(m, median);
    HazardRatioOrder(thBase, progLow + mort);
    HazardRatioOrder(thBase, progHigh + mort);
    var rows := AnalyticRows(m, base, tf, median, mort).value;
    ScaleAgainstOne(base, HazardRatio(thBase, prog + mort * 0.8).value);
    ScaleAgainstOne(base, HazardRatio(thBase, prog + mort * 1.2).value);
    ScaleAgainstOne(base, HazardRatio(thBase, progLow + mort).value);
    ScaleAgainstOne(base, HazardRatio(thBase, progHigh + mort).value);
  }

  /** A longer median means slower progression: scaling the median by 1.2
      does not raise the rate and scaling it by 0.8 does not lower it; both
      stay positive. */
  lemma ScaledProgressionOrder(m: Maths, median: real)
    requires Lawful(m)
    ensures 0.0 < ScaledProgressionRate(m, median, 1.2) <= ProgressionRate(m, median)
    ensures ProgressionRate(m, median) <= ScaledProgressionRate(m, median, 0.8)
  {
    ProgressionRatePositive(m, median);
    if median > 0.0 {
      Ln2Positive(m);
      DivideByLarger(Ln2(m), median * 1.2, median);
      DivideByLarger(Ln2(m), median, median * 0.8);
      ProgressionRatePositive(m, median * 1.2);
    }
  }

  /** For positive hazards, the ratio of the base hazard to a smaller one is
      at least 1, and to a larger one at most 1. */
  lemma HazardRatioOrder(thBase: real, th: real)
    requires thBase > 0.0 && th > 0.0
    ensures HazardRatio(thBase, th) == Ok(thBase / th)
    ensures th <= thBase ==> thBase / th >= 1.0
    ensures th >= thBase ==> thBase / th <= 1.0
  {
    QuotientAgainstOne(thBase, th);
  }

  /** Scaling a non-negative value by a ratio of at least (at most) 1 does
      not make it smaller (larger). */
  lemma ScaleAgainstOne(base: real, ratio: real)
    requires base >= 0.0
    ensures ratio >= 1.0 ==> base * ratio >= base
    ensures ratio <= 1.0 ==> base * ratio <= base
  {
    if ratio >= 1.0 {
      ScaleMonotone(base, 1.0, ratio);
    }
    if ratio <= 1.0 {
      ScaleMonotone(base, ratio, 1.0);
    }
  }

  // ------------------------------------------------------ regimen PFS table

  /** One entry of the `regimens` list of the regimen file; a field the
      entry does not give is None. */
  datatype PfsEntry = PfsEntry(name: Option<string>, line: Option<string>, pfsMedian: Option<real>,
                               citation: Option<string>, approvalYear: Option<int>,
                               hazardRatio: Option<real>)

  datatype PfsRow = PfsRow(regimen: string, line: string, medianPfs: real, citation: string,
                           approvalYear: int, hazardRatio: Option<real>)

  predicate Named(e: PfsEntry) { e.name.Some? }

  /** The row of an entry. The display mapping of line labels maps every
      label to itself, so the row keeps the upper-cased line. */
  function ToRow(e: PfsEntry): (row: PfsRow)
    requires Named(e)
    ensures row.regimen == e.name.value
    ensures |row.line| == |e.line.GetOr("")|
    ensures e.line.None? ==> row.line == ""
    ensures e.pfsMedian.None? ==> row.medianPfs == 0.0
    ensures e.pfsMedian.Some? ==> row.medianPfs == e.pfsMedian.value
    ensures e.approvalYear.None? ==> row.approvalYear == 0
    ensures e.citation.None? ==> row.citation == ""
    ensures e.citation.Some? ==> row.citation == e.citation.value
    ensures e.approvalYear.Some? ==> row.approvalYear == e.approvalYear.value
    ensures row.hazardRatio == e.hazardRatio
  {
    PfsRow(e.name.value, Upper(e.line.GetOr("")), e.pfsMedian.GetOr(0.0), e.citation.GetOr(""),
           e.approvalYear.GetOr(0), e.hazardRatio)
  }

  /** The rows of the entries, in the entries' order. */
  function ToRows(entries: seq<PfsEntry>): (rows: seq<PfsRow>)
    requires forall i :: 0 <= i < |entries| ==> Named(entries[i])
    ensures |rows| == |entries|
    ensures forall i :: 0 <= i < |entries| ==> rows[i] == ToRow(entries[i])
  {
    if |entries| == 0 then [] else ToRows(entries[..|entries| - 1]) + [ToRow(entries[|entries| - 1])]
  }

  /** The position of a line in the table, `line_order` with 4 for any other
      label. */
  function LineRank(line: string): nat
  {
    if line == "1L" then 0 else if line == "2L" then 1 else if line == "3L" then 2
    else if line == "4L+" then 3 else 4
  }

  /** Row a may come before row b: an earlier line, or the same line and a
      PFS at least as long. */
  predicate Precedes(a: PfsRow, b: PfsRow)
  {
    LineRank(a.line) < LineRank(b.line)
    || (LineRank(a.line) == LineRank(b.line) && a.medianPfs >= b.medianPfs)
  }

  predicate SortedRows(rows: seq<PfsRow>)
  {
    forall i, j :: 0 <= i < j < |rows| ==> Precedes(rows[i], rows[j])
  }

  /** Inserts a row before the first row it may precede. */
  function Insert(x: PfsRow, rows: seq<PfsRow>): seq<PfsRow>
  {
    if |rows| == 0 then [x]
    else if Precedes(x, rows[0]) then [x] + rows
    else [rows[0]] + Insert(x, rows[1..])
  }

  /** `sort_values(['_sort', 'Median PFS (mo)'], ascending=[True, False])`. */
  function SortRows(rows: seq<PfsRow>): seq<PfsRow>
  {
    if |rows| == 0 then [] else Insert(rows[0], SortRows(rows[1..]))
  }

  lemma PrecedesTransitive(a: PfsRow, b: PfsRow, c: PfsRow)
    requires Precedes(a, b) && Precedes(b, c)
    ensures Precedes(a, c)
  {
  }

  lemma {:induction false} InsertPermutes(x: PfsRow, rows: seq<PfsRow>)
    ensures multiset(Insert(x, rows)) == multiset(rows) + multiset{x}
  {
    if |rows| > 0 && !Precedes(x, rows[0]) {
      InsertPermutes(x, rows[1..]);
      assert rows == [rows[0]] + rows[1..];
    }
  }

  lemma PrecedesTotal(a: PfsRow, b: PfsRow)
    requires !Precedes(a, b)
    ensures Precedes(b, a)
  {
  }

  /** A row that may precede every row of a sorted sequence may head it. */
  lemma ConsSorted(h: PfsRow, rows: seq<PfsRow>)
    requires SortedRows(rows)
    requires forall k :: 0 <= k < |rows| ==> Precedes(h, rows[k])
    ensures SortedRows([h] + rows)
  {
    var out := [h] + rows;
    forall i, j | 0 <= i < j < |out|
      ensures Precedes(out[i], out[j])
    {
      if i > 0 {
        assert out[i] == rows[i - 1] && out[j] == rows[j - 1];
      }
    }
  }

  /** Inserting a row that h may precede keeps h ahead of every row. */
  lemma InsertKeepsBound(h: PfsRow, x: PfsRow, rows: seq<PfsRow>)
    requires Precedes(h, x)
    requires forall k :: 0 <= k < |rows| ==> Precedes(h, rows[k])
    ensures forall k :: 0 <= k < |Insert(x, rows)| ==> Precedes(h, Insert(x, rows)[k])
  {
    var ins := Insert(x, rows);
    InsertPermutes(x, rows);
    forall k | 0 <= k < |ins|
      ensures Precedes(h, ins[k])
    {
      assert ins[k] in multiset(ins);
      if ins[k] != x {
        assert ins[k] in multiset(rows);
      }
    }
  }

  lemma {:induction false} InsertSorted(x: PfsRow, rows: seq<PfsRow>)
    requires SortedRows(rows)
    ensures SortedRows(Insert(x, rows))
  {
    if |rows| == 0 {
    } else if Precedes(x, rows[0]) {
      forall k | 0 <= k < |rows|
        ensures Precedes(x, rows[k])
      {
        if k > 0 {
          PrecedesTransitive(x, rows[0], rows[k]);
        }
      }
      ConsSorted(x, rows);
    } else {
      var rest := rows[1..];
      InsertSorted(x, rest);
      PrecedesTotal(x, rows[0]);
      assert forall k :: 0 <= k < |rest| ==> rest[k] == rows[k + 1];
      InsertKeepsBound(rows[0], x, rest);
      ConsSorted(rows[0], Insert(x, rest));
    }
  }

  /** Sorting orders the rows by line, then by PFS from the longest, and
      keeps every row. */
  lemma {:induction false} SortRowsCorrect(rows: seq<PfsRow>)
    ensures SortedRows(SortRows(rows))
    ensures multiset(SortRows(rows)) == multiset(rows)
  {
    if |rows| > 0 {
      SortRowsCorrect(rows[1..]);
      InsertSorted(rows[0], SortRows(rows[1..]));
      InsertPermutes(rows[0], SortRows(rows[1..]));
      assert rows == [rows[0]] + rows[1..];
    }
  }

  /** Rows with the same line rank and the same PFS: neither sort key tells
      them apart. */
  predicate Tied(a: PfsRow, b: PfsRow)
  {
    LineRank(a.line) == LineRank(b.line) && a.medianPfs == b.medianPfs
  }

  /** The rows tied with x, in their order in the table. */
  function TiedWith(rows: seq<PfsRow>, x: PfsRow): seq<PfsRow>
  {
    if |rows| == 0 then [] else (if Tied(rows[0], x) then [rows[0]] else []) + TiedWith(rows[1..], x)
  }

  /** Inserting a row puts it before every row tied with it. */
  lemma {:induction false} InsertBeforeTies(y: PfsRow, rows: seq<PfsRow>, x: PfsRow)
    ensures TiedWith(Insert(y, rows), x) == (if Tied(y, x) then [y] else []) + TiedWith(rows, x)
  {
    if |rows| > 0 && !Precedes(y, rows[0]) {
      InsertBeforeTies(y, rows[1..], x);
      var ins := [rows[0]] + Insert(y, rows[1..]);
      assert ins[1..] == Insert(y, rows[1..]);
    }
  }

  /** The sort is stable, as the two-key `sort_values` is: rows that agree on
      both keys keep the order of the entries. */
  lemma {:induction false} SortKeepsTieOrder(rows: seq<PfsRow>, x: PfsRow)
    ensures TiedWith(SortRows(rows), x) == TiedWith(rows, x)
  {
    if |rows| > 0 {
      SortKeepsTieOrder(rows[1..], x);
      InsertBeforeTies(rows[0], SortRows(rows[1..]), x);
    }
  }

  /** `compute_regimen_pfs_table`: one row per entry, sorted by line and then
      by PFS from the longest. An entry without a name is a KeyError, and so
      is an empty list, whose frame has no `Line` column to sort by. */
  method ComputeRegimenPfsTable(regimens: Option<seq<PfsEntry>>) returns (r: Result<seq<PfsRow>>)
    ensures var entries := regimens.GetOr([]);
      (exists i :: 0 <= i < |entries| && !Named(entries[i])) ==> r == Err(MissingKey("name"))
    ensures |regimens.GetOr([])| == 0 ==> r == Err(MissingKey("Line"))
    ensures var entries := regimens.GetOr([]);
      |entries| > 0 && (forall i :: 0 <= i < |entries| ==> Named(entries[i])) ==>
        && r.Ok?
        && SortedRows(r.value)
        && multiset(r.value) == multiset(ToRows(entries))
        && r.value == SortRows(ToRows(entries))
  {
    var entries := regimens.GetOr([]);
    var rows: seq<PfsRow> := [];
    for k := 0 to |entries|
      invariant forall i :: 0 <= i < k ==> Named(entries[i])
      invariant rows == ToRows(entries[..k])
    {
      var e := entries[k];
      if e.name.None? {
        return Err(MissingKey("name"));
      }
      assert entries[..k + 1][..k] == entries[..k];
      rows := rows + [ToRow(e)];
    }
    assert entries[..|entries|] == entries;
    if |rows| == 0 {
      return Err(MissingKey("Line"));
    }
    SortRowsCorrect(rows);
    return Ok(SortRows(rows));
  }
}
