/** Derived metrics over the monthly output table. metrics.py and
    model_metrics.py define `compute_occupancy`, `compute_transition_rates`,
    `compute_regimen_shares`, `compute_sankey_data` and
    `compute_duration_stats` identically; this module models them once,
    together with the simple tornado of metrics.py. */
module Metrics {
  import opened Common
  import opened Frames

  // ----------------------------------------------------------- occupancy

  /** One row of the long-form occupancy table. */
  datatype OccupancyRow = OccupancyRow(date: Date, line: string, patients: real)

  /** The `line_map` of `compute_occupancy`, in its insertion order. */
  const LineMap: seq<(string, string)> :=
    [("Total_1L", "1st Line"), ("Total_2L", "2nd Line"), ("Total_3L", "3rd Line"), ("Total_4L+", "4th Line+")]

  /** The entries of a line map whose column the frame has, in order. */
  function Present(f: Frame, lineMap: seq<(string, string)>): (p: seq<(string, string)>)
    ensures forall e :: e in p <==> e in lineMap && e.0 in f.data
    ensures |p| <= |lineMap|
  {
    if |lineMap| == 0 then []
    else
      var last := lineMap[|lineMap| - 1];
      assert lineMap == lineMap[..|lineMap| - 1] + [last];
      Present(f, lineMap[..|lineMap| - 1]) + (if last.0 in f.data then [last] else [])
  }

  /** The block `tmp` for one column: every date with the line's lineLabel and
      that column's value. */
  function Block(f: Frame, column: string, lineLabel: string): (b: seq<OccupancyRow>)
    requires f.WellFormed() && column in f.data
    ensures |b| == f.Rows()
    ensures forall i :: 0 <= i < |b| ==> b[i] == OccupancyRow(f.dates[i], lineLabel, f.data[column][i])
  {
    seq(f.Rows(), i requires 0 <= i < f.Rows() => OccupancyRow(f.dates[i], lineLabel, f.data[column][i]))
  }

  /** The list `frames` after the loop has visited a line map. */
  function Blocks(f: Frame, lineMap: seq<(string, string)>): seq<seq<OccupancyRow>>
    requires f.WellFormed()
  {
    if |lineMap| == 0 then []
    else
      var last := lineMap[|lineMap| - 1];
      Blocks(f, lineMap[..|lineMap| - 1]) + (if last.0 in f.data then [Block(f, last.0, last.1)] else [])
  }

  /** There is one block per present column, in line-map order. */
  lemma {:induction false} BlocksArePresent(f: Frame, lineMap: seq<(string, string)>)
    requires f.WellFormed()
    ensures |Blocks(f, lineMap)| == |Present(f, lineMap)|
    ensures forall j :: 0 <= j < |Blocks(f, lineMap)| ==>
      var e := Present(f, lineMap)[j];
      e.0 in f.data && Blocks(f, lineMap)[j] == Block(f, e.0, e.1)
  {
    if |lineMap| > 0 {
      BlocksArePresent(f, lineMap[..|lineMap| - 1]);
    }
  }

  /** `compute_occupancy`: for each line-map column the frame has, every
      date labelled with its line, stacked by `pd.concat`, which fails when
      no column is present. */
  method ComputeOccupancy(f: Frame) returns (r: Result<seq<OccupancyRow>>)
    requires f.WellFormed()
    ensures |Present(f, LineMap)| == 0 <==> r == Err(NothingToConcatenate)
    ensures r.Ok? ==> r.value == Concat(Blocks(f, LineMap))
  {
    var frames: seq<seq<OccupancyRow>> := [];
    for k := 0 to |LineMap|
      invariant frames == Blocks(f, LineMap[..k])
    {
      var (column, lineLabel) := LineMap[k];
      assert LineMap[..k + 1][..k] == LineMap[..k];
      if column in f.data {
        frames := frames + [Block(f, column, lineLabel)];
      }
    }
    assert LineMap[..|LineMap|] == LineMap;
    BlocksArePresent(f, LineMap);
    if |frames| == 0 {
      return Err(NothingToConcatenate);
    }
    return Ok(Concat(frames));
  }

  /** The occupancy table has one row per month for each present line, and
      row i of the j-th present line is that month's value of its column. */
  lemma OccupancyRows(f: Frame, j: nat, i: nat)
    requires f.WellFormed()
    requires j < |Present(f, LineMap)| && i < f.Rows()
    ensures |Concat(Blocks(f, LineMap))| == |Present(f, LineMap)| * f.Rows()
    ensures var e := Present(f, LineMap)[j];
      && j * f.Rows() + i < |Concat(Blocks(f, LineMap))|
      && Concat(Blocks(f, LineMap))[j * f.Rows() + i] == OccupancyRow(f.dates[i], e.1, f.data[e.0][i])
  {
    var blocks := Blocks(f, LineMap);
    BlocksArePresent(f, LineMap);
    ConcatLength(blocks, f.Rows());
    ConcatAt(blocks, f.Rows(), j, i);
  }

  /** When every column of a line map is present, the blocks come in the
      line map's order: for `LineMap`, 1L, 2L, 3L, then 4L+. */
  lemma {:induction false} AllPresentInOrder(f: Frame, lineMap: seq<(string, string)>)
    requires forall k :: 0 <= k < |lineMap| ==> lineMap[k].0 in f.data
    ensures Present(f, lineMap) == lineMap
  {
    if |lineMap| > 0 {
      var n := |lineMap| - 1;
      AllPresentInOrder(f, lineMap[..n]);
      assert lineMap == lineMap[..n] + [lineMap[n]];
    }
  }

  // ---------------------------------------------------- transition rates

  /** The (source, destination) pairs of `compute_transition_rates`. */
  const TransitionPairs: seq<(string, string)> :=
    [("Total_1L", "Total_2L"), ("Total_2L", "Total_3L"), ("Total_3L", "Total_4L+")]

  /** The column label: both names without `Total_`, joined by an arrow. */
  function RateLabel(pair: (string, string)): string
  {
    ReplaceAll(pair.0, "Total_", "") + "→" + ReplaceAll(pair.1, "Total_", "")
  }

  /** `(df[dst].diff().clip(lower=0) / df[src].replace(0, np.nan)).fillna(0)`:
      the growth of the destination stock over the source stock, 0 in the
      first month (no previous month), 0 where the source stock is 0, and
      never negative where the source stock is positive. */
  function RateColumn(src: seq<real>, dst: seq<real>): (r: seq<real>)
    requires |src| == |dst|
    ensures |r| == |src|
    ensures |r| > 0 ==> r[0] == 0.0
    ensures forall i :: 0 <= i < |r| && src[i] == 0.0 ==> r[i] == 0.0
    ensures forall i :: 0 < i < |r| && src[i] != 0.0 ==> r[i] == Max0(dst[i] - dst[i - 1]) / src[i]
    ensures forall i :: 0 <= i < |r| && src[i] > 0.0 ==> r[i] >= 0.0
  {
    var r := seq(|src|, i requires 0 <= i < |src| => FillNa(Divide(ClipLower0(Diff(dst, i)), ZeroToNaN(src[i])), 0.0));
    forall i | 0 < i < |r| && src[i] > 0.0
      ensures r[i] >= 0.0
    {
      QuotientNonNegative(Max0(dst[i] - dst[i - 1]), src[i]);
    }
    r
  }

  /** The output frame after the loop has visited some of the pairs. */
  function RatesFrom(f: Frame, pairs: seq<(string, string)>): (out: Frame)
    requires f.WellFormed()
    ensures out.WellFormed() && out.dates == f.dates
  {
    if |pairs| == 0 then DatesOnly(f.dates)
    else
      var out := RatesFrom(f, pairs[..|pairs| - 1]);
      var (src, dst) := pairs[|pairs| - 1];
      if src in f.data && dst in f.data then SetColumn(out, RateLabel((src, dst)), RateColumn(f.data[src], f.data[dst]))
      else out
  }

  /** `compute_transition_rates`. */
  method ComputeTransitionRates(f: Frame) returns (out: Frame)
    requires f.WellFormed()
    ensures out == RatesFrom(f, TransitionPairs)
  {
    out := DatesOnly(f.dates);
    for k := 0 to |TransitionPairs|
      invariant out == RatesFrom(f, TransitionPairs[..k])
    {
      var (src, dst) := TransitionPairs[k];
      assert TransitionPairs[..k + 1][..k] == TransitionPairs[..k];
      if src in f.data && dst in f.data {
        out := SetColumn(out, RateLabel((src, dst)), RateColumn(f.data[src], f.data[dst]));
      }
    }
    assert TransitionPairs[..|TransitionPairs|] == TransitionPairs;
  }

  lemma RateLabels()
    ensures RateLabel(TransitionPairs[0]) == "1L→2L"
    ensures RateLabel(TransitionPairs[1]) == "2L→3L"
    ensures RateLabel(TransitionPairs[2]) == "3L→4L+"
  {
    FirstRateLabel();
    SecondRateLabel();
    ThirdRateLabel();
  }

  lemma FirstRateLabel()
    ensures RateLabel(TransitionPairs[0]) == "1L→2L"
  {
    TotalOf1L();
    TotalOf2L();
    LabelOfTotals("1L", "2L");
  }

  lemma SecondRateLabel()
    ensures RateLabel(TransitionPairs[1]) == "2L→3L"
  {
    TotalOf2L();
    TotalOf3L();
    LabelOfTotals("2L", "3L");
  }

  lemma ThirdRateLabel()
    ensures RateLabel(TransitionPairs[2]) == "3L→4L+"
  {
    TotalOf3L();
    TotalOf4L();
    LabelOfTotals("3L", "4L+");
  }

  lemma TotalOf1L() ensures "Total_1L" == "Total_" + "1L" {}
  lemma TotalOf2L() ensures "Total_2L" == "Total_" + "2L" {}
  lemma TotalOf3L() ensures "Total_3L" == "Total_" + "3L" {}
  lemma TotalOf4L() ensures "Total_4L+" == "Total_" + "4L+" {}

  /** The label of the pair of totals of two lines names the two lines. */
  lemma LabelOfTotals(a: string, b: string)
    requires 'T' !in a && 'T' !in b
    ensures RateLabel(("Total_" + a, "Total_" + b)) == a + "→" + b
  {
    StripTotal(a);
    StripTotal(b);
  }

  /** Removing `Total_` from `Total_` + a line name without `T` gives the line name. */
  lemma StripTotal(line: string)
    requires 'T' !in line
    ensures ReplaceAll("Total_" + line, "Total_", "") == line
  {
    var s := "Total_" + line;
    assert s[..6] == "Total_";
    assert s[6..] == line;
    NoOccurrence(line, "Total_");
  }

  /** A string without the first character of a pattern is left alone by `ReplaceAll`. */
  lemma {:induction false} NoOccurrence(s: string, pattern: string)
    requires |pattern| > 0 && pattern[0] !in s
    ensures ReplaceAll(s, pattern, "") == s
    decreases |s|
  {
    if |s| > 0 {
      assert s[0] != pattern[0];
      NoOccurrence(s[1..], pattern);
      assert s == [s[0]] + s[1..];
    }
  }

  /** Whether a pair's two stocks are both in the frame. */
  predicate BothPresent(f: Frame, pair: (string, string))
  {
    pair.0 in f.data && pair.1 in f.data
  }

  predicate DistinctLabels(pairs: seq<(string, string)>)
  {
    forall i, j :: 0 <= i < j < |pairs| ==> RateLabel(pairs[i]) != RateLabel(pairs[j])
  }

  lemma {:induction false} RatesFromColumns(f: Frame, pairs: seq<(string, string)>, k: nat)
    requires f.WellFormed() && DistinctLabels(pairs) && k < |pairs|
    ensures var out := RatesFrom(f, pairs);
      && (RateLabel(pairs[k]) in out.data <==> BothPresent(f, pairs[k]))
      && (BothPresent(f, pairs[k]) ==> out.data[RateLabel(pairs[k])] == RateColumn(f.data[pairs[k].0], f.data[pairs[k].1]))
  {
    var n := |pairs| - 1;
    if k < n {
      RatesFromColumns(f, pairs[..n], k);
    } else {
      if RateLabel(pairs[k]) in RatesFrom(f, pairs[..n]).data {
        var j := RatesFromKeys(f, pairs[..n], RateLabel(pairs[k]));
      }
    }
  }

  lemma {:induction false} RatesFromKeys(f: Frame, pairs: seq<(string, string)>, c: string) returns (j: nat)
    requires f.WellFormed()
    requires c in RatesFrom(f, pairs).data
    ensures j < |pairs| && c == RateLabel(pairs[j])
  {
    var n := |pairs| - 1;
    if c in RatesFrom(f, pairs[..n]).data {
      j := RatesFromKeys(f, pairs[..n], c);
    } else {
      j := n;
    }
  }

  /** A pair's rate column is in the output exactly when both of its stocks
      are, and then it holds that pair's rates; there is no other column. */
  lemma TransitionRateColumns(f: Frame, k: nat)
    requires f.WellFormed() && k < |TransitionPairs|
    ensures var out := RatesFrom(f, TransitionPairs);
      && (RateLabel(TransitionPairs[k]) in out.data <==> BothPresent(f, TransitionPairs[k]))
      && (BothPresent(f, TransitionPairs[k]) ==>
            out.data[RateLabel(TransitionPairs[k])] == RateColumn(f.data[TransitionPairs[k].0], f.data[TransitionPairs[k].1]))
  {
    RateLabels();
    RatesFromColumns(f, TransitionPairs, k);
  }

  /** The output has the dates and no column but the three rate labels. */
  lemma TransitionRateOnlyLabels(f: Frame, c: string)
    requires f.WellFormed()
    requires c in RatesFrom(f, TransitionPairs).data
    ensures c == "1L→2L" || c == "2L→3L" || c == "3L→4L+"
  {
    var j := RatesFromKeys(f, TransitionPairs, c);
    RateLabels();
    assert j == 0 || j == 1 || j == 2;
  }

  // ------------------------------------------------------- regimen shares

  /** `pd.DataFrame()`: no dates and no columns. */
  const EmptyFrame := Frame([], [], map[])

  /** `(df[c] / df[total].replace(0, np.nan)).fillna(0)`: the column's part
      of the total, and 0 in the months where the total is 0. */
  function ShareColumn(col: seq<real>, total: seq<real>): (r: seq<real>)
    requires |col| == |total|
    ensures |r| == |col|
    ensures forall i :: 0 <= i < |r| && total[i] == 0.0 ==> r[i] == 0.0
    ensures forall i :: 0 <= i < |r| && total[i] != 0.0 ==> r[i] == col[i] / total[i]
  {
    seq(|col|, i requires 0 <= i < |col| => FillNa(Divide(Num(col[i]), ZeroToNaN(total[i])), 0.0))
  }

  /** The regimen columns of a line: they start with `<line>_` and are not
      the line's total. */
  function ShareColumns(f: Frame, line: string): seq<string>
  {
    Filter(f.columns, c => StartsWith(c, line + "_") && c != "Total_" + line)
  }

  /** `c.replace(prefix, '')`: the regimen's name. */
  function RegimenName(c: string, line: string): string
  {
    ReplaceAll(c, line + "_", "")
  }

  /** The regimen name of each column of the line. */
  function Labeler(line: string): string -> string
  {
    c => RegimenName(c, line)
  }

  /** The output frame after the loop has visited the first n regimen
      columns: the dates, the names in the order they were first set, and
      each name's latest share column. */
  function SharesFrom(f: Frame, cols: seq<string>, nameOf: string -> string, total: seq<real>, n: nat): Frame
    requires f.WellFormed() && |total| == f.Rows()
    requires forall j :: 0 <= j < |cols| ==> cols[j] in f.data
    requires n <= |cols|
  {
    Frame(f.dates, SharesNames(cols, nameOf, n), SharesData(f, cols, nameOf, total, n))
  }

  /** The output's column order after n assignments: a name already present
      keeps its place, a new one goes last. */
  function SharesNames(cols: seq<string>, nameOf: string -> string, n: nat): seq<string>
    requires n <= |cols|
  {
    if n == 0 then []
    else
      var prev := SharesNames(cols, nameOf, n - 1);
      if nameOf(cols[n - 1]) in prev then prev else prev + [nameOf(cols[n - 1])]
  }

  /** `compute_regimen_shares` as a value. */
  function RegimenShares(f: Frame, line: string): Frame
    requires f.WellFormed()
  {
    var cols := ShareColumns(f, line);
    if |cols| == 0 || "Total_" + line !in f.data then EmptyFrame
    else SharesFrom(f, cols, Labeler(line), f.data["Total_" + line], |cols|)
  }

  /** `compute_regimen_shares`: the empty frame without regimen columns or
      without the line's total, else one share column per regimen column. */
  method ComputeRegimenShares(f: Frame, line: string) returns (out: Frame)
    requires f.WellFormed()
    ensures out == RegimenShares(f, line)
  {
    var totalCol := "Total_" + line;
    var regCols := ShareColumns(f, line);
    if |regCols| == 0 || totalCol !in f.data {
      return EmptyFrame;
    }
    out := FillShares(f, regCols, Labeler(line), f.data[totalCol]);
  }

  /** The loop of `compute_regimen_shares`: each regimen column's share of
      the total, under the column's name without the line prefix. */
  method FillShares(f: Frame, cols: seq<string>, nameOf: string -> string, total: seq<real>) returns (out: Frame)
    requires f.WellFormed() && |total| == f.Rows()
    requires forall j :: 0 <= j < |cols| ==> cols[j] in f.data
    ensures out.WellFormed()
    ensures out == SharesFrom(f, cols, nameOf, total, |cols|)
  {
    out := DatesOnly(f.dates);
    for k := 0 to |cols|
      invariant out.WellFormed() && out == SharesFrom(f, cols, nameOf, total, k)
    {
      out := AddShare(f, cols, nameOf, total, k, out);
    }
  }

  /** One pass of the loop: `out[name] = share` for the k-th regimen column. */
  method AddShare(f: Frame, cols: seq<string>, nameOf: string -> string, total: seq<real>, k: nat, out: Frame)
    returns (next: Frame)
    requires f.WellFormed() && |total| == f.Rows()
    requires forall j :: 0 <= j < |cols| ==> cols[j] in f.data
    requires k < |cols| && out.WellFormed() && out == SharesFrom(f, cols, nameOf, total, k)
    ensures next.WellFormed() && next == SharesFrom(f, cols, nameOf, total, k + 1)
  {
    next := SetColumn(out, nameOf(cols[k]), ShareColumn(f.data[cols[k]], total));
  }

  /** The result is the empty frame exactly when the line has no regimen
      column or no total column. */
  lemma RegimenSharesEmpty(f: Frame, line: string)
    requires f.WellFormed()
    ensures RegimenShares(f, line) == EmptyFrame <==>
      |ShareColumns(f, line)| == 0 || "Total_" + line !in f.data
  {
    var cols := ShareColumns(f, line);
    if |cols| > 0 && "Total_" + line in f.data {
      var total := f.data["Total_" + line];
      assert Labeler(line)(cols[|cols| - 1]) in SharesData(f, cols, Labeler(line), total, |cols|);
    }
  }

  /** The columns of the output after the first n regimen columns. */
  function SharesData(f: Frame, cols: seq<string>, nameOf: string -> string, total: seq<real>, n: nat): map<string, seq<real>>
    requires f.WellFormed() && |total| == f.Rows()
    requires forall j :: 0 <= j < |cols| ==> cols[j] in f.data
    requires n <= |cols|
  {
    if n == 0 then map[]
    else SharesData(f, cols, nameOf, total, n - 1)[nameOf(cols[n - 1]) := ShareColumn(f.data[cols[n - 1]], total)]
  }

  /** A column among the first n whose name none of the later ones
      repeats holds its shares. */
  lemma {:induction false} SharesDataColumns(f: Frame, cols: seq<string>, nameOf: string -> string, total: seq<real>, n: nat, k: nat)
    requires f.WellFormed() && |total| == f.Rows()
    requires forall j :: 0 <= j < |cols| ==> cols[j] in f.data
    requires k < n <= |cols|
    requires forall j :: k < j < n ==> nameOf(cols[j]) != nameOf(cols[k])
    ensures nameOf(cols[k]) in SharesData(f, cols, nameOf, total, n)
    ensures SharesData(f, cols, nameOf, total, n)[nameOf(cols[k])] == ShareColumn(f.data[cols[k]], total)
  {
    if k < n - 1 {
      SharesDataColumns(f, cols, nameOf, total, n - 1, k);
    }
  }

  /** The output's columns are the names of the first n columns. */
  lemma {:induction false} SharesDataKeys(f: Frame, cols: seq<string>, nameOf: string -> string, total: seq<real>, n: nat, name: string)
    requires f.WellFormed() && |total| == f.Rows()
    requires forall j :: 0 <= j < |cols| ==> cols[j] in f.data
    requires n <= |cols|
    ensures name in SharesData(f, cols, nameOf, total, n) <==> exists j :: 0 <= j < n && nameOf(cols[j]) == name
  {
    if n > 0 {
      SharesDataKeys(f, cols, nameOf, total, n - 1, name);
    }
  }

  /** With regimen columns and a total, each output column is the name of a
      regimen column of the line, and each regimen column (the last of those
      sharing its name) holds its share of the total. */
  lemma RegimenShareColumns(f: Frame, line: string, k: nat, name: string)
    requires f.WellFormed()
    requires 0 < |ShareColumns(f, line)| && "Total_" + line in f.data
    requires k < |ShareColumns(f, line)|
    requires forall j :: k < j < |ShareColumns(f, line)| ==>
      RegimenName(ShareColumns(f, line)[j], line) != RegimenName(ShareColumns(f, line)[k], line)
    ensures var out := RegimenShares(f, line);
      && out.dates == f.dates
      && (name in out.data <==> exists j :: 0 <= j < |ShareColumns(f, line)| && RegimenName(ShareColumns(f, line)[j], line) == name)
      && RegimenName(ShareColumns(f, line)[k], line) in out.data
      && out.data[RegimenName(ShareColumns(f, line)[k], line)]
         == ShareColumn(f.data[ShareColumns(f, line)[k]], f.data["Total_" + line])
  {
    var cols := ShareColumns(f, line);
    var nameOf := Labeler(line);
    var total := f.data["Total_" + line];
    assert forall j :: 0 <= j < |cols| ==> nameOf(cols[j]) == RegimenName(cols[j], line);
    SharesDataKeys(f, cols, nameOf, total, |cols|, name);
    SharesDataColumns(f, cols, nameOf, total, |cols|, k);
  }

  // --------------------------------------------------------------- Sankey

  /** The nodes and links of the patient-journey diagram; the link labels,
      which only format these numbers, are not modelled. */
  datatype Sankey = Sankey(nodes: seq<string>, linkSource: seq<nat>, linkTarget: seq<nat>, linkValue: seq<real>)

  const SankeyNodes: seq<string> :=
    ["Diagnosis", "1st Line", "2nd Line", "3rd Line+", "Ongoing Care", "Did Not Advance"]

  /** `node_idx[name]`: the position of a node. */
  function NodeIndex(name: string): (i: nat)
    requires name in SankeyNodes
    ensures i < |SankeyNodes| && SankeyNodes[i] == name
  {
    if name == "Diagnosis" then 0
    else if name == "1st Line" then 1
    else if name == "2nd Line" then 2
    else if name == "3rd Line+" then 3
    else if name == "Ongoing Care" then 4
    else 5
  }

  /** The diagram for a monthly number of new 1L starts and the two
      probabilities of reaching the next line. */
  function SankeyOf(newDx: real, p2l: real, p3l: real): Sankey
  {
    var to2L := newDx * p2l;
    var to3L := to2L * p3l;
    Sankey(SankeyNodes,
      [0, 1, 1, 2, 2, 3],
      [1, 2, 5, 3, 4, 4],
      [newDx, to2L, newDx * (1.0 - p2l), to3L, to2L * (1.0 - p3l), to3L])
  }

  /** `compute_sankey_data`: new starts are the latest twelve months' mean of
      `New_Starts_1L`; `attrition.p_reach_2l` is required and
      `attrition.p_reach_3l_given_2l` defaults to 0.6. */
  method ComputeSankeyData(f: Frame, params: Params) returns (r: Result<Sankey>)
    requires f.WellFormed() && f.Rows() > 0
    ensures "New_Starts_1L" !in f.data ==> r == Err(MissingKey("New_Starts_1L"))
    ensures "New_Starts_1L" in f.data ==>
      match Required(params, "attrition", "p_reach_2l")
      case Err(e) => r == Err(e)
      case Ok(p2l) => r == Ok(SankeyOf(RecentMean(f, "New_Starts_1L"), p2l,
                                       Optional(params, "attrition", "p_reach_3l_given_2l", 0.6)))
  {
    if "New_Starts_1L" !in f.data {
      return Err(MissingKey("New_Starts_1L"));
    }
    var newDx := RecentMean(f, "New_Starts_1L");
    var p2lOrError := Required(params, "attrition", "p_reach_2l");
    if p2lOrError.Err? {
      return Err(p2lOrError.error);
    }
    var p2l := p2lOrError.value;
    var p3l := Optional(params, "attrition", "p_reach_3l_given_2l", 0.6);

    var s := BuildSankey(newDx, p2l, p3l);
    r := Ok(s);
  }

  /** The node list and the six links of `compute_sankey_data`, appended in
      the order the source appends them. */
  method BuildSankey(newDx: real, p2l: real, p3l: real) returns (s: Sankey)
    ensures s == SankeyOf(newDx, p2l, p3l)
  {
    var nodes := SankeyNodes;
    var linksSrc: seq<nat> := [];
    var linksTgt: seq<nat> := [];
    var linksVal: seq<real> := [];
    NodeIndices();

    // Diagnosis -> 1L
    linksSrc := linksSrc + [NodeIndex("Diagnosis")];
    linksTgt := linksTgt + [NodeIndex("1st Line")];
    linksVal := linksVal + [newDx];

    // 1L -> 2L
    var to2L := newDx * p2l;
    linksSrc := linksSrc + [NodeIndex("1st Line")];
    linksTgt := linksTgt + [NodeIndex("2nd Line")];
    linksVal := linksVal + [to2L];

    // 1L -> Did Not Advance
    linksSrc := linksSrc + [NodeIndex("1st Line")];
    linksTgt := linksTgt + [NodeIndex("Did Not Advance")];
    linksVal := linksVal + [newDx * (1.0 - p2l)];

    // 2L -> 3L+
    var to3L := to2L * p3l;
    linksSrc := linksSrc + [NodeIndex("2nd Line")];
    linksTgt := linksTgt + [NodeIndex("3rd Line+")];
    linksVal := linksVal + [to3L];

    // 2L -> Ongoing Care
    linksSrc := linksSrc + [NodeIndex("2nd Line")];
    linksTgt := linksTgt + [NodeIndex("Ongoing Care")];
    linksVal := linksVal + [to2L * (1.0 - p3l)];

    // 3L+ -> Ongoing Care
    linksSrc := linksSrc + [NodeIndex("3rd Line+")];
    linksTgt := linksTgt + [NodeIndex("Ongoing Care")];
    linksVal := linksVal + [to3L];

    assert linksSrc == [0, 1, 1, 2, 2, 3] && linksTgt == [1, 2, 5, 3, 4, 4];
    assert linksVal == [newDx, to2L, newDx * (1.0 - p2l), to3L, to2L * (1.0 - p3l), to3L];
    SankeyValues(newDx, p2l, p3l);
    assert to3L == newDx * p2l * p3l;
    s := Sankey(nodes, linksSrc, linksTgt, linksVal);
  }

  lemma SankeyValues(newDx: real, p2l: real, p3l: real)
    ensures SankeyOf(newDx, p2l, p3l).linkValue ==
      [newDx, newDx * p2l, newDx * (1.0 - p2l), newDx * p2l * p3l, newDx * p2l * (1.0 - p3l), newDx * p2l * p3l]
  {
  }

  /** Six links between the six nodes, each from a node to a later one: what
      enters the 1st line leaves it for the 2nd line or for "did not
      advance", what enters the 2nd line leaves it for the 3rd line or for
      ongoing care, and ongoing care receives everyone who reached the 2nd
      line. */
  lemma SankeyFlowConservation(newDx: real, p2l: real, p3l: real)
    ensures var s := SankeyOf(newDx, p2l, p3l);
      && s.nodes == SankeyNodes
      && |s.linkSource| == |s.linkTarget| == |s.linkValue| == 6
      && (forall k :: 0 <= k < 6 ==> s.linkSource[k] < s.linkTarget[k] < |s.nodes|)
      // Diagnosis -> 1st Line
      && s.linkSource[0] == NodeIndex("Diagnosis") && s.linkTarget[0] == NodeIndex("1st Line")
      && s.linkValue[0] == newDx
      // out of the 1st line
      && s.linkSource[1] == s.linkSource[2] == NodeIndex("1st Line")
      && s.linkTarget[1] == NodeIndex("2nd Line") && s.linkTarget[2] == NodeIndex("Did Not Advance")
      && s.linkValue[1] + s.linkValue[2] == s.linkValue[0]
      // out of the 2nd line
      && s.linkSource[3] == s.linkSource[4] == NodeIndex("2nd Line")
      && s.linkTarget[3] == NodeIndex("3rd Line+") && s.linkTarget[4] == NodeIndex("Ongoing Care")
      && s.linkValue[3] + s.linkValue[4] == s.linkValue[1]
      // out of the 3rd line, everything that entered it
      && s.linkSource[5] == NodeIndex("3rd Line+") && s.linkTarget[5] == NodeIndex("Ongoing Care")
      && s.linkValue[5] == s.linkValue[3]
      // into ongoing care
      && s.linkValue[4] + s.linkValue[5] == s.linkValue[1]
  {
    NodeIndices();
  }

  lemma NodeIndices()
    ensures NodeIndex("Diagnosis") == 0 && NodeIndex("1st Line") == 1 && NodeIndex("2nd Line") == 2
    ensures NodeIndex("3rd Line+") == 3 && NodeIndex("Ongoing Care") == 4 && NodeIndex("Did Not Advance") == 5
  {
    assert "1st Line"[0] != "Diagnosis"[0];
    assert "2nd Line"[0] != "Diagnosis"[0] && "2nd Line"[0] != "1st Line"[0];
    assert "3rd Line+"[0] != "Diagnosis"[0] && "3rd Line+"[0] != "1st Line"[0] && "3rd Line+"[0] != "2nd Line"[0];
    assert "Ongoing Care"[0] != "Diagnosis"[0] && "Ongoing Care"[0] != "1st Line"[0];
    assert "Ongoing Care"[0] != "2nd Line"[0] && "Ongoing Care"[0] != "3rd Line+"[0];
    assert "Did Not Advance"[2] != "Diagnosis"[2] && "Did Not Advance"[0] != "1st Line"[0];
    assert "Did Not Advance"[0] != "2nd Line"[0] && "Did Not Advance"[0] != "3rd Line+"[0];
    assert "Did Not Advance"[0] != "Ongoing Care"[0];
  }

  /** With non-negative new starts and probabilities in [0, 1], no link
      carries a negative value. */
  lemma SankeyValuesNonNegative(newDx: real, p2l: real, p3l: real)
    requires newDx >= 0.0 && 0.0 <= p2l <= 1.0 && 0.0 <= p3l <= 1.0
    ensures var v := SankeyOf(newDx, p2l, p3l).linkValue;
      v[0] >= 0.0 && v[1] >= 0.0 && v[2] >= 0.0 && v[3] >= 0.0 && v[4] >= 0.0 && v[5] >= 0.0
  {
    var to2L := newDx * p2l;
    ProductNonNegative(newDx, p2l);
    ProductNonNegative(newDx, 1.0 - p2l);
    ProductNonNegative(to2L, p3l);
    ProductNonNegative(to2L, 1.0 - p3l);
  }

  // ------------------------------------------------------- duration stats

  datatype DurationRow = DurationRow(line: string, medianMonths: real)

  /** `compute_duration_stats`: the three median durations in line order,
      24, 16 and 6 months when the parameters do not give them. */
  function ComputeDurationStats(params: Params): (rows: seq<DurationRow>)
    ensures |rows| == 3
    ensures rows[0].line == "1st Line" && rows[1].line == "2nd Line" && rows[2].line == "3rd Line+"
    ensures "durations_months_median" !in params ==>
      rows[0].medianMonths == 24.0 && rows[1].medianMonths == 16.0 && rows[2].medianMonths == 6.0
    ensures "durations_months_median" in params ==>
      var d := params["durations_months_median"];
      && rows[0].medianMonths == (if "1l" in d then d["1l"] else 24.0)
      && rows[1].medianMonths == (if "2l" in d then d["2l"] else 16.0)
      && rows[2].medianMonths == (if "3l_plus" in d then d["3l_plus"] else 6.0)
  {
    [DurationRow("1st Line", Optional(params, "durations_months_median", "1l", 24.0)),
     DurationRow("2nd Line", Optional(params, "durations_months_median", "2l", 16.0)),
     DurationRow("3rd Line+", Optional(params, "durations_months_median", "3l_plus", 6.0))]
  }

  // -------------------------------------------------------- simple tornado

  datatype TornadoRow = TornadoRow(parameter: string, low: real, base: real, high: real)

  const SimpleTornadoParameters: seq<string> := ["Treated Fraction", "P(Reach 2L)", "Mortality 1L"]

  /** The `tornado_sensitivity` of metrics.py: for each of three parameters a
      row of 0.8, 1 and 1.2 times the latest twelve months' mean of the
      target column, whatever the parameters say. */
  method SimpleTornado(f: Frame, params: Params, targetCol: string) returns (r: Result<seq<TornadoRow>>)
    requires f.WellFormed() && f.Rows() > 0
    ensures targetCol !in f.data <==> r == Err(MissingKey(targetCol))
    ensures r.Ok? ==>
      && |r.value| == |SimpleTornadoParameters|
      && forall k :: 0 <= k < |r.value| ==>
           var base := RecentMean(f, targetCol);
           r.value[k] == TornadoRow(SimpleTornadoParameters[k], base * 0.8, base, base * 1.2)
  {
    if targetCol !in f.data {
      return Err(MissingKey(targetCol));
    }
    var baseVal := RecentMean(f, targetCol);
    var rows: seq<TornadoRow> := [];
    for k := 0 to |SimpleTornadoParameters|
      invariant |rows| == k
      invariant forall j :: 0 <= j < k ==>
        rows[j] == TornadoRow(SimpleTornadoParameters[j], baseVal * 0.8, baseVal, baseVal * 1.2)
    {
      var low := baseVal * (1.0 - 0.20);
      var high := baseVal * (1.0 + 0.20);
      rows := rows + [TornadoRow(SimpleTornadoParameters[k], low, baseVal, high)];
    }
    return Ok(rows);
  }

  /** A simple tornado row is symmetric about its base, and ordered low,
      base, high for a non-negative base. */
  lemma SimpleTornadoRowShape(base: real)
    ensures base * 1.2 - base == base - base * 0.8
    ensures base >= 0.0 ==> base * 0.8 <= base <= base * 1.2
  {
  }
}
