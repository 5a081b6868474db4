/** Column and file selection of the data loader: the regimen columns of a
    line, the completion of the total columns after a table is read, and the
    choice of the first existing file among candidate paths. Whether a path
    exists is a parameter of the model, since the file system is not. */
module DataLoader {
  import opened Common
  import opened Frames

  // ------------------------------------------------------ regimen columns

  /** A column of the line's regimens: it starts with `<line>_` and is not
      a total. */
  predicate IsRegimenColumn(c: string, line: string)
  {
    StartsWith(c, line + "_") && !StartsWith(c, "Total_")
  }

  /** `get_regimen_columns`. */
  function GetRegimenColumns(f: Frame, line: string): (cols: seq<string>)
    requires f.WellFormed()
    ensures forall c :: c in cols <==> c in f.columns && IsRegimenColumn(c, line)
    ensures Distinct(cols)
  {
    FilterDistinct(f.columns, c => IsRegimenColumn(c, line));
    Filter(f.columns, c => IsRegimenColumn(c, line))
  }

  /** The columns keep the table's order: those of the first part of the
      table come first. */
  lemma RegimenColumnsInOrder(f: Frame, line: string, k: nat)
    requires f.WellFormed() && k <= |f.columns|
    ensures GetRegimenColumns(f, line) ==
      Filter(f.columns[..k], c => IsRegimenColumn(c, line)) + Filter(f.columns[k..], c => IsRegimenColumn(c, line))
  {
    assert f.columns == f.columns[..k] + f.columns[k..];
    FilterConcat(f.columns[..k], f.columns[k..], c => IsRegimenColumn(c, line));
  }

  /** A total is never a regimen column, whatever the line. */
  lemma TotalsAreNotRegimenColumns(line: string)
    ensures forall c :: c in TotalColumns ==> !IsRegimenColumn(c, line)
  {
    forall c | c in TotalColumns
      ensures StartsWith(c, "Total_")
    {
      assert c[..6] == "Total_";
    }
  }

  // ------------------------------------------------------ total completion

  /** A table as read from the file, before missing values are filled. */
  datatype RawFrame = RawFrame(dates: seq<Date>, columns: seq<string>, data: map<string, seq<Float>>)
  {
    predicate WellFormed()
    {
      && Distinct(columns)
      && (forall c :: c in data ==> c in columns)
      && (forall c :: c in columns ==> c in data)
      && (forall c :: c in data ==> |data[c]| == |dates|)
    }
  }

  /** The names among `names` that the columns lack, in order. */
  function Missing(names: seq<string>, columns: seq<string>): (missing: seq<string>)
    ensures forall c :: c in missing <==> c in names && c !in columns
  {
    if |names| == 0 then []
    else
      var last := names[|names| - 1];
      assert names == names[..|names| - 1] + [last];
      Missing(names[..|names| - 1], columns) + if last in columns then [] else [last]
  }

  /** The totals the table lacks, in the order they are added. */
  function MissingTotals(columns: seq<string>): (missing: seq<string>)
    ensures forall c :: c in missing <==> c in TotalColumns && c !in columns
  {
    Missing(TotalColumns, columns)
  }

  /** `.fillna(0)` on one column. */
  function FillColumn(s: seq<Float>): (t: seq<real>)
    ensures |t| == |s|
    ensures forall i :: 0 <= i < |s| ==> t[i] == FillNa(s[i], 0.0)
  {
    seq(|s|, i requires 0 <= i < |s| => FillNa(s[i], 0.0))
  }

  /** The column-completion step of `load_simulation`: every missing total
      is added as a column of zeros after the existing columns, then every
      missing value becomes 0. */
  method CompleteTotals(raw: RawFrame) returns (f: Frame)
    requires raw.WellFormed()
    ensures f.WellFormed()
    ensures f.dates == raw.dates
    ensures f.columns == raw.columns + MissingTotals(raw.columns)
    ensures forall c :: c in TotalColumns ==> c in f.data
    ensures forall c :: c in raw.data ==> c in f.data && f.data[c] == FillColumn(raw.data[c])
    ensures forall c :: c in f.data && c !in raw.data ==>
      c in TotalColumns && forall i :: 0 <= i < |f.data[c]| ==> f.data[c][i] == 0.0
  {
    var completed := AddMissingTotals(raw);
    f := FillMissingValues(completed);
  }

  /** A column of n zeros. */
  function ZeroColumn(n: nat): (z: seq<Float>)
    ensures |z| == n && forall i :: 0 <= i < n ==> z[i] == Num(0.0)
  {
    seq(n, i => Num(0.0))
  }

  /** `df[c] = 0.0` for every total the table lacks. */
  method AddMissingTotals(raw: RawFrame) returns (out: RawFrame)
    requires raw.WellFormed()
    ensures out.WellFormed()
    ensures out.dates == raw.dates
    ensures out.columns == raw.columns + MissingTotals(raw.columns)
    ensures forall c :: c in raw.data ==> out.data[c] == raw.data[c]
    ensures forall c :: c in out.data && c !in raw.data ==> out.data[c] == ZeroColumn(|raw.dates|)
  {
    out := raw;
    var zeros := ZeroColumn(|raw.dates|);
    TotalColumnsDistinct();
    for k := 0 to |TotalColumns|
      invariant TotalsAdded(raw, zeros, k, out)
    {
      out := AddNextTotal(raw, zeros, k, out);
    }
    assert TotalColumns[..|TotalColumns|] == TotalColumns;
  }

  /** The table after the loop has considered the first k totals: the raw
      columns, then the missing ones among those totals, all zeros. */
  predicate TotalsAdded(raw: RawFrame, zeros: seq<Float>, k: nat, out: RawFrame)
    requires k <= |TotalColumns|
  {
    && out.WellFormed() && out.dates == raw.dates
    && out.columns == raw.columns + Missing(TotalColumns[..k], raw.columns)
    && (forall c :: c in raw.data ==> c in out.data && out.data[c] == raw.data[c])
    && (forall c :: c in out.data && c !in raw.data ==> out.data[c] == zeros)
  }

  /** One pass of the loop: the k-th total is added when the table lacks it. */
  method AddNextTotal(raw: RawFrame, zeros: seq<Float>, k: nat, out: RawFrame) returns (next: RawFrame)
    requires Distinct(TotalColumns) && |zeros| == |raw.dates|
    requires k < |TotalColumns| && TotalsAdded(raw, zeros, k, out)
    ensures TotalsAdded(raw, zeros, k + 1, next)
  {
    MissingStep(TotalColumns, k, raw.columns, out.columns);
    next := AddColumn(out, TotalColumns[k], zeros);
  }

  /** `if c not in df.columns: df[c] = column`: the column is appended when
      the table lacks it, and the table is unchanged otherwise. */
  method AddColumn(f: RawFrame, c: string, column: seq<Float>) returns (g: RawFrame)
    requires f.WellFormed() && |column| == |f.dates|
    ensures g.WellFormed() && g.dates == f.dates
    ensures c in f.columns ==> g == f
    ensures c !in f.columns ==> g.columns == f.columns + [c]
    ensures forall x :: x in f.data ==> g.data[x] == f.data[x]
    ensures forall x :: x in g.data && x !in f.data ==> g.data[x] == column
  {
    if c in f.columns {
      g := f;
    } else {
      g := RawFrame(f.dates, f.columns + [c], f.data[c := column]);
      assert forall x :: x in g.data ==> x in g.columns;
    }
  }

  /** One more total considered: the table gains it exactly when it lacks
      it, and gains it at the end. */
  lemma MissingStep(names: seq<string>, k: nat, columns: seq<string>, current: seq<string>)
    requires Distinct(names)
    requires k < |names|
    requires current == columns + Missing(names[..k], columns)
    ensures names[k] in current <==> names[k] in columns
    ensures columns + Missing(names[..k + 1], columns) ==
      if names[k] in current then current else current + [names[k]]
  {
    var prev := Missing(names[..k], columns);
    MissingSnoc(names, k, columns);
    DistinctNotInPrefix(names, k);
    assert names[k] !in prev;
    if names[k] !in columns {
      assert columns + (prev + [names[k]]) == current + [names[k]];
    } else {
      assert prev + [] == prev;
    }
  }

  lemma DistinctNotInPrefix(names: seq<string>, k: nat)
    requires Distinct(names) && k < |names|
    ensures names[k] !in names[..k]
  {
  }

  lemma MissingSnoc(names: seq<string>, k: nat, columns: seq<string>)
    requires k < |names|
    ensures Missing(names[..k + 1], columns) == Missing(names[..k], columns) + if names[k] in columns then [] else [names[k]]
  {
    var next := names[..k + 1];
    assert next[..k] == names[..k] && next[k] == names[k];
  }

  /** `df.fillna(0)`. */
  function FillMissingValues(raw: RawFrame): (f: Frame)
    requires raw.WellFormed()
    ensures f.WellFormed()
    ensures f.dates == raw.dates && f.columns == raw.columns
    ensures forall c :: c in raw.data ==> c in f.data && f.data[c] == FillColumn(raw.data[c])
  {
    Frame(raw.dates, raw.columns, map c | c in raw.data :: FillColumn(raw.data[c]))
  }

  // ------------------------------------------------------ path discovery

  /** `base / c`. */
  function Join(base: string, c: string): string
  {
    base + "/" + c
  }

  /** The candidates joined to the base, in order. */
  function JoinAll(base: string, candidates: seq<string>): (paths: seq<string>)
    ensures |paths| == |candidates|
    ensures forall i :: 0 <= i < |candidates| ==> paths[i] == Join(base, candidates[i])
  {
    seq(|candidates|, i requires 0 <= i < |candidates| => Join(base, candidates[i]))
  }

  /** The first path that exists, if any. */
  function FirstExisting(paths: seq<string>, pathExists: string -> bool): (r: Option<string>)
    ensures r.None? <==> forall i :: 0 <= i < |paths| ==> !pathExists(paths[i])
    ensures r.Some? ==> exists i :: 0 <= i < |paths| && paths[i] == r.value && pathExists(r.value)
                                    && forall j :: 0 <= j < i ==> !pathExists(paths[j])
  {
    if |paths| == 0 then None
    else if pathExists(paths[0]) then Some(paths[0])
    else
      var r := FirstExisting(paths[1..], pathExists);
      if r.Some? then
        var i :| 0 <= i < |paths[1..]| && paths[1..][i] == r.value && pathExists(r.value)
                 && forall j :: 0 <= j < i ==> !pathExists(paths[1..][j]);
        assert paths[i + 1] == r.value;
        r
      else r
  }

  /** `_resolve`: the first candidate under the base that exists, and
      FileNotFoundError when none does. */
  method Resolve(base: string, candidates: seq<string>, pathExists: string -> bool) returns (r: Result<string>)
    ensures FirstExisting(JoinAll(base, candidates), pathExists).None? ==> r == Err(FileNotFound)
    ensures FirstExisting(JoinAll(base, candidates), pathExists).Some? ==>
      r == Ok(FirstExisting(JoinAll(base, candidates), pathExists).value)
  {
    for k := 0 to |candidates|
      invariant forall j :: 0 <= j < k ==> !pathExists(Join(base, candidates[j]))
      invariant FirstExisting(JoinAll(base, candidates)[k..], pathExists) == FirstExisting(JoinAll(base, candidates), pathExists)
    {
      var p := Join(base, candidates[k]);
      if pathExists(p) {
        return Ok(p);
      }
    }
    return Err(FileNotFound);
  }

  /** The files the dashboard looks for, each with its candidates in the
      order they are tried. */
  const Discoveries: seq<(string, seq<string>)> := [
    ("simulation", ["outputs/mm_detailed_simulation.csv", "../outputs/mm_detailed_simulation.csv"]),
    ("legacy", ["outputs/mm_lot_monthly.csv", "../Myeloma/outputs/mm_lot_monthly.csv"]),
    ("params", ["params.yaml", "../params.yaml"]),
    ("regimens", ["../regimens.yaml", "regimens.yaml"])]

  const DiscoveryKeys: set<string> := {"simulation", "legacy", "params", "regimens"}

  /** `auto_discover_paths`: each file bound to its first existing candidate,
      and left out when none exists; it never fails. */
  method AutoDiscoverPaths(base: string, pathExists: string -> bool) returns (paths: map<string, string>)
    ensures paths.Keys <= DiscoveryKeys
    ensures forall k :: 0 <= k < |Discoveries| ==>
      var (key, candidates) := Discoveries[k];
      var first := FirstExisting(JoinAll(base, candidates), pathExists);
      && (key in paths <==> first.Some?)
      && (key in paths ==> paths[key] == first.value)
  {
    paths := DiscoverEach(base, Discoveries, pathExists);
    DiscoveryKeysDistinct();
    DiscoveredKeys(base, Discoveries, pathExists, |Discoveries|);
    DiscoveredBindsFirst(base, Discoveries, pathExists, |Discoveries|);
  }

  /** The map built by the loop of `auto_discover_paths` after its first k files. */
  function Discovered(base: string, discoveries: seq<(string, seq<string>)>, pathExists: string -> bool, k: nat): map<string, string>
    requires k <= |discoveries|
  {
    if k == 0 then map[]
    else
      var prev := Discovered(base, discoveries, pathExists, k - 1);
      var first := FirstExisting(JoinAll(base, discoveries[k - 1].1), pathExists);
      if first.Some? then prev[discoveries[k - 1].0 := first.value] else prev
  }

  /** The loop of `auto_discover_paths`. */
  method DiscoverEach(base: string, discoveries: seq<(string, seq<string>)>, pathExists: string -> bool)
    returns (paths: map<string, string>)
    ensures paths == Discovered(base, discoveries, pathExists, |discoveries|)
  {
    paths := map[];
    for k := 0 to |discoveries|
      invariant paths == Discovered(base, discoveries, pathExists, k)
    {
      var (key, candidates) := discoveries[k];
      var found := FirstCandidate(base, candidates, pathExists);
      if found.Some? {
        paths := paths[key := found.value];
      }
    }
  }

  /** Only the keys of the first k files are bound. */
  lemma {:induction false} DiscoveredKeys(base: string, discoveries: seq<(string, seq<string>)>, pathExists: string -> bool, k: nat)
    requires k <= |discoveries|
    ensures forall key :: key in Discovered(base, discoveries, pathExists, k) ==>
      exists j :: 0 <= j < k && discoveries[j].0 == key
  {
    if k > 0 {
      DiscoveredKeys(base, discoveries, pathExists, k - 1);
    }
  }

  /** With distinct keys, each file is bound to its first existing candidate
      and to nothing when none exists. */
  lemma {:induction false} DiscoveredBindsFirst(base: string, discoveries: seq<(string, seq<string>)>, pathExists: string -> bool, k: nat)
    requires k <= |discoveries|
    requires forall i, j :: 0 <= i < j < |discoveries| ==> discoveries[i].0 != discoveries[j].0
    ensures forall j :: 0 <= j < k ==>
      var first := FirstExisting(JoinAll(base, discoveries[j].1), pathExists);
      && (discoveries[j].0 in Discovered(base, discoveries, pathExists, k) <==> first.Some?)
      && (discoveries[j].0 in Discovered(base, discoveries, pathExists, k) ==>
            Discovered(base, discoveries, pathExists, k)[discoveries[j].0] == first.value)
  {
    if k > 0 {
      DiscoveredBindsFirst(base, discoveries, pathExists, k - 1);
      DiscoveredKeys(base, discoveries, pathExists, k - 1);
      var prev := Discovered(base, discoveries, pathExists, k - 1);
      assert discoveries[k - 1].0 !in prev;
    }
  }

  /** One of the candidate loops of `auto_discover_paths`: the first
      candidate under the base that exists, the loop stopping there. */
  method FirstCandidate(base: string, candidates: seq<string>, pathExists: string -> bool)
    returns (found: Option<string>)
    ensures found == FirstExisting(JoinAll(base, candidates), pathExists)
  {
    ghost var joined := JoinAll(base, candidates);
    found := None;
    var i := 0;
    while i < |candidates|
      invariant i <= |candidates|
      invariant found.None?
      invariant FirstExisting(joined[i..], pathExists) == FirstExisting(joined, pathExists)
    {
      var p := Join(base, candidates[i]);
      if pathExists(p) {
        found := Some(p);
        break;
      }
      i := i + 1;
    }
  }

  lemma DiscoveryKeysDistinct()
    ensures forall i, j :: 0 <= i < j < |Discoveries| ==> Discoveries[i].0 != Discoveries[j].0
    ensures forall i :: 0 <= i < |Discoveries| ==> Discoveries[i].0 in DiscoveryKeys
  {
    assert "simulation"[0] != "legacy"[0] && "simulation"[0] != "params"[0] && "simulation"[0] != "regimens"[0];
    assert "legacy"[0] != "params"[0] && "legacy"[0] != "regimens"[0] && "params"[0] != "regimens"[0];
  }
}
