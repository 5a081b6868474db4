/** The monthly output table the metrics read: a pandas DataFrame with a
    `Date` column and named numeric columns, every column as long as the
    dates. The `Date` column is kept apart from the numeric ones. */
module Frames {
  import opened Common

  datatype Frame = Frame(dates: seq<Date>, columns: seq<string>, data: map<string, seq<real>>)
  {
    /** The column names are distinct, name exactly the stored columns, and
        every column has one value per date. */
    predicate WellFormed()
    {
      && Distinct(columns)
      && (forall c :: c in data ==> c in columns)
      && (forall c :: c in columns ==> c in data)
      && (forall c :: c in data ==> |data[c]| == |dates|)
    }

    function Rows(): nat { |dates| }
  }

  /** `out = df[['Date']].copy()`: the dates and no other column. */
  function DatesOnly(dates: seq<Date>): (f: Frame)
    ensures f.WellFormed() && f.columns == [] && f.dates == dates
  {
    Frame(dates, [], map[])
  }

  /** `df[name] = col`: an existing column keeps its position and takes the
      new values; a new one is appended after the others. */
  function SetColumn(f: Frame, name: string, col: seq<real>): (g: Frame)
    requires f.WellFormed() && |col| == f.Rows()
    ensures g.WellFormed()
    ensures g.dates == f.dates
    ensures g.data == f.data[name := col]
    ensures name in f.data ==> g.columns == f.columns
    ensures name !in f.data ==> g.columns == f.columns + [name]
  {
    if name in f.data then f.(data := f.data[name := col])
    else
      var g := f.(columns := f.columns + [name], data := f.data[name := col]);
      assert forall i :: 0 <= i < |f.columns| ==> f.columns[i] in f.data;
      g
  }

  // ------------------------------------------------------ recent averages

  /** `s.tail(k)`: the last k values, or all of them when there are fewer. */
  function Tail(s: seq<real>, k: nat): (t: seq<real>)
    ensures |t| == if |s| < k then |s| else k
    ensures t == s[|s| - |t|..]
  {
    if |s| <= k then s else s[|s| - k..]
  }

  /** `s.mean()` of a non-empty series. */
  function Mean(s: seq<real>): real
    requires |s| > 0
  {
    Sum(s) / |s| as real
  }

  /** The mean of a series is between its smallest and largest values; in
      particular it is not negative when no value is. */
  lemma MeanNonNegative(s: seq<real>)
    requires |s| > 0
    requires forall i :: 0 <= i < |s| ==> s[i] >= 0.0
    ensures Mean(s) >= 0.0
  {
    SumNonNegative(s);
  }

  /** The four per-line total columns. */
  const TotalColumns: seq<string> := ["Total_1L", "Total_2L", "Total_3L", "Total_4L+"]

  lemma TotalColumnsDistinct()
    ensures Distinct(TotalColumns)
  {
    assert TotalColumns[0][6] != TotalColumns[1][6] && TotalColumns[0][6] != TotalColumns[2][6];
    assert TotalColumns[0][6] != TotalColumns[3][6] && TotalColumns[1][6] != TotalColumns[2][6];
    assert TotalColumns[1][6] != TotalColumns[3][6] && TotalColumns[2][6] != TotalColumns[3][6];
  }

  /** The metrics average the latest twelve months. */
  const RecentMonths: nat := 12

  /** `df.tail(12)[c].mean()`; the frame is not empty. */
  function RecentMean(f: Frame, c: string): real
    requires f.WellFormed() && f.Rows() > 0 && c in f.data
  {
    Mean(Tail(f.data[c], RecentMonths))
  }

  /** `df.tail(12).get(c, pd.Series([0])).mean()`: 0 for an absent column. */
  function RecentMeanOrZero(f: Frame, c: string): (r: real)
    requires f.WellFormed() && f.Rows() > 0
    ensures c !in f.data ==> r == 0.0
    ensures c in f.data ==> r == RecentMean(f, c)
  {
    if c in f.data then RecentMean(f, c) else 0.0
  }

  /** `df.iloc[-24:-12][c].mean()`: the mean of the twelve months before the
      latest twelve; the frame has at least 24 rows. */
  function PriorMean(f: Frame, c: string): real
    requires f.WellFormed() && f.Rows() >= 2 * RecentMonths && c in f.data
  {
    var s := f.data[c];
    Mean(s[|s| - 2 * RecentMonths .. |s| - RecentMonths])
  }

  /** `df.iloc[-24:-12].get(c, pd.Series([0])).mean()`. */
  function PriorMeanOrZero(f: Frame, c: string): (r: real)
    requires f.WellFormed() && f.Rows() >= 2 * RecentMonths
    ensures c !in f.data ==> r == 0.0
    ensures c in f.data ==> r == PriorMean(f, c)
  {
    if c in f.data then PriorMean(f, c) else 0.0
  }

  // ------------------------------------------- element-wise series operations

  /** `s.diff()`: NaN for the first row, then the change from the row before. */
  function Diff(s: seq<real>, i: nat): Float
    requires i < |s|
  {
    if i == 0 then NaN else Num(s[i] - s[i - 1])
  }

  /** `.clip(lower=0)`, which leaves NaN alone. */
  function ClipLower0(x: Float): Float
  {
    if x.NaN? then NaN else Num(Max0(x.v))
  }

  /** `.replace(0, np.nan)`. */
  function ZeroToNaN(x: real): (y: Float)
    ensures y.Num? ==> y.v != 0.0
  {
    if x == 0.0 then NaN else Num(x)
  }

  /** Element-wise `/` of two series, NaN where either side is NaN; the
      divisor is never 0, having passed through `ZeroToNaN`. */
  function Divide(x: Float, y: Float): Float
    requires y.Num? ==> y.v != 0.0
  {
    if x.NaN? || y.NaN? then NaN else Num(x.v / y.v)
  }

  /** `.fillna(v)`. */
  function FillNa(x: Float, v: real): real
  {
    if x.NaN? then v else x.v
  }
}
