/** Weibull time-to-event parameters and the regimen catalogue
    (scientific_utils.py). */
module Survival {
  import opened Common
  import opened Numerics

  /** Weibull distribution with scale lambda and shape k. */
  datatype WeibullParams = WeibullParams(scale: real, shape: real)

  /** The fast-decay parameters used when the median is unusable. */
  const DegenerateWeibull := WeibullParams(0.1, 1.0)

  /** The shape `Regimen.__post_init__` always uses, and the default of `weibull_shape`. */
  const LiteratureShape: real := 1.3

  predicate UsableMedian(median: Float)
  {
    median.Num? && median.v > 0.0
  }

  /** `WeibullParams.from_median`: scale = median / ln(2)^(1/shape), so that
      the median of the distribution is the given one. A median that is NaN
      or not positive falls back to the degenerate parameters; with a usable
      median, `1 / shape` raises when the shape is 0. */
  function FromMedian(m: Maths, median: Float, shape: real): (r: Result<WeibullParams>)
    requires Lawful(m)
    ensures !UsableMedian(median) ==> r == Ok(DegenerateWeibull)
    ensures UsableMedian(median) ==> (r.Err? <==> shape == 0.0)
    ensures UsableMedian(median) && r.Ok? ==>
      && r.value.shape == shape
      && r.value.scale > 0.0
      && r.value.scale * Root(m, Ln2(m), shape) == median.v
    ensures r.Ok? ==> r.value.scale > 0.0
  {
    if !UsableMedian(median) then Ok(DegenerateWeibull)
    else if shape == 0.0 then Err(ZeroDivision)
    else
      Ln2Positive(m);
      var root := Root(m, Ln2(m), shape);
      PowPositive(m, Ln2(m), 1.0 / shape);
      Ok(WeibullParams(median.v / root, shape))
  }

  /** `hazard_rate`: h(t) = (k / lambda) (t / lambda)^(k - 1) for t > 0, and 0 before. */
  function HazardRate(m: Maths, w: WeibullParams, t: real): (h: real)
    requires Lawful(m)
    requires w.scale > 0.0
    ensures t <= 0.0 ==> h == 0.0
    ensures t > 0.0 && w.shape > 0.0 ==> h > 0.0
  {
    if t <= 0.0 then 0.0
    else
      PowPositive(m, t / w.scale, w.shape - 1.0);
      (w.shape / w.scale) * Pow(m, t / w.scale, w.shape - 1.0)
  }

  /** With shape 1 the Weibull hazard is the constant 1 / lambda of an
      exponential distribution. */
  lemma HazardConstantForShapeOne(m: Maths, w: WeibullParams, t: real)
    requires Lawful(m)
    requires w.scale > 0.0 && w.shape == 1.0 && t > 0.0
    ensures HazardRate(m, w, t) * w.scale == 1.0
  {
    PowZeroExponent(m, t / w.scale);
  }

  /** `survival_prob`: S(t) = exp(-(t / lambda)^k), and 1 before the clock starts. */
  function SurvivalProb(m: Maths, w: WeibullParams, t: real): (s: real)
    requires Lawful(m)
    requires w.scale > 0.0
    ensures t < 0.0 ==> s == 1.0
    ensures s >= 0.0
    ensures w.shape > 0.0 ==> s <= 1.0
  {
    if t < 0.0 then 1.0
    else
      var x := Pow(m, t / w.scale, w.shape);
      if w.shape > 0.0 then
        PowNonNegative(m, t / w.scale, w.shape);
        ExpOfNonPositive(m, -x);
        Exp(m, -x)
      else ExpNonNegative(m, -x); Exp(m, -x)
  }

  lemma SurvivalAtZero(m: Maths, w: WeibullParams)
    requires Lawful(m)
    requires w.scale > 0.0 && w.shape > 0.0
    ensures SurvivalProb(m, w, 0.0) == 1.0
  {
    PowOfZero(m, w.shape);
    assert 0.0 / w.scale == 0.0;
  }

  /** S is non-increasing: an event that has happened by t1 has happened by t2. */
  lemma SurvivalNonIncreasing(m: Maths, w: WeibullParams, t1: real, t2: real)
    requires Lawful(m)
    requires w.scale > 0.0 && w.shape > 0.0
    requires t1 <= t2
    ensures SurvivalProb(m, w, t2) <= SurvivalProb(m, w, t1)
  {
    if t1 >= 0.0 {
      assert 0.0 <= t1 / w.scale <= t2 / w.scale;
      var x1 := Pow(m, t1 / w.scale, w.shape);
      var x2 := Pow(m, t2 / w.scale, w.shape);
      PowMonotone(m, t1 / w.scale, t2 / w.scale, w.shape);
      ExpMonotone(m, -x2, -x1);
    }
  }

  /** The median is the time at which half the cohort has had the event. */
  lemma SurvivalAtMedianIsHalf(m: Maths, median: real, shape: real)
    requires Lawful(m)
    requires median > 0.0 && shape != 0.0
    ensures FromMedian(m, Num(median), shape).Ok?
    ensures SurvivalProb(m, FromMedian(m, Num(median), shape).value, median) == 0.5
  {
    var w := FromMedian(m, Num(median), shape).value;
    Ln2Positive(m);
    var root := Root(m, Ln2(m), shape);
    PowPositive(m, Ln2(m), 1.0 / shape);
    assert w.scale * root == median;
    assert median / w.scale == root;
    RootUndone(m, Ln2(m), shape);
  }

  /** `monthly_transition_prob`: P(event in [t, t + dt) | no event by t),
      forced to 1 when nobody survives to t. */
  function MonthlyTransitionProb(m: Maths, w: WeibullParams, tStart: real, dt: real): (p: real)
    requires Lawful(m)
    requires w.scale > 0.0
    ensures SurvivalProb(m, w, tStart) == 0.0 ==> p == 1.0
    ensures SurvivalProb(m, w, tStart) != 0.0 ==>
      SurvivalProb(m, w, tStart + dt) == (1.0 - p) * SurvivalProb(m, w, tStart)
  {
    var sCurrent := SurvivalProb(m, w, tStart);
    if sCurrent == 0.0 then 1.0
    else 1.0 - SurvivalProb(m, w, tStart + dt) / sCurrent
  }

  /** Over a non-negative step the transition probability is a probability. */
  lemma TransitionProbIsProbability(m: Maths, w: WeibullParams, tStart: real, dt: real)
    requires Lawful(m)
    requires w.scale > 0.0 && w.shape > 0.0
    requires dt >= 0.0
    ensures 0.0 <= MonthlyTransitionProb(m, w, tStart, dt) <= 1.0
  {
    var s0 := SurvivalProb(m, w, tStart);
    var s1 := SurvivalProb(m, w, tStart + dt);
    SurvivalNonIncreasing(m, w, tStart, tStart + dt);
    if s0 != 0.0 {
      assert 0.0 <= s1 / s0 <= 1.0;
    }
  }

  // ----------------------------------------------------------- regimens

  datatype Regimen = Regimen(
    name: string,
    line: string,
    eligibility: string,        // "TE", "TI" or "Both"
    approvalYear: int,
    pfsMedian: Float,
    citation: string,
    hazardRatio: Option<real>,
    adoptionParams: map<string, real>,
    weibull: WeibullParams)

  /** `Regimen(...)` with its `__post_init__`: the Weibull parameters are
      derived from the PFS median with the fixed shape 1.3. */
  function NewRegimen(m: Maths, name: string, line: string, eligibility: string, approvalYear: int,
                      pfsMedian: Float, citation: string, hazardRatio: Option<real>,
                      adoptionParams: map<string, real>): (r: Regimen)
    requires Lawful(m)
    ensures Ok(r.weibull) == FromMedian(m, pfsMedian, LiteratureShape)
    ensures r.weibull.shape == (if UsableMedian(pfsMedian) then LiteratureShape else 1.0)
    ensures r.weibull.scale > 0.0
    ensures r.name == name && r.line == line && r.eligibility == eligibility
    ensures r.approvalYear == approvalYear && r.pfsMedian == pfsMedian && r.citation == citation
    ensures r.hazardRatio == hazardRatio && r.adoptionParams == adoptionParams
  {
    var w := FromMedian(m, pfsMedian, LiteratureShape);
    Regimen(name, line, eligibility, approvalYear, pfsMedian, citation, hazardRatio, adoptionParams, w.value)
  }

  /** One entry of the `regimens` list of the parsed YAML; `None` is an absent key. */
  datatype RegimenEntry = RegimenEntry(
    name: Option<string>,
    line: Option<string>,
    eligibility: Option<string>,
    approvalYear: Option<int>,
    pfsMedian: Option<Float>,
    citation: Option<string>,
    hazardRatio: Option<real>,
    adoption: Option<map<string, real>>)

  /** The parsed YAML document: its `defaults` mapping and its `regimens` list. */
  datatype CatalogueData = CatalogueData(defaults: Option<map<string, real>>, regimens: Option<seq<RegimenEntry>>)

  function Entries(data: CatalogueData): seq<RegimenEntry>
  {
    data.regimens.GetOr([])
  }

  /** `defaults.get('weibull_shape', 1.3)` with `data.get('defaults', {})`. */
  function DefaultShape(data: CatalogueData): (shape: real)
    ensures data.defaults.None? ==> shape == LiteratureShape
    ensures data.defaults.Some? && "weibull_shape" !in data.defaults.value ==> shape == LiteratureShape
    ensures data.defaults.Some? && "weibull_shape" in data.defaults.value ==> shape == data.defaults.value["weibull_shape"]
  {
    var defaults := data.defaults.GetOr(map[]);
    if "weibull_shape" in defaults then defaults["weibull_shape"] else LiteratureShape
  }

  /** The body of the loop of `load_regimens` for one entry: build the
      regimen (the keys `name`, `line` and `approval_year` are required, in
      that order), then replace its Weibull parameters with ones of the
      catalogue's default shape. */
  function BuildRegimen(m: Maths, e: RegimenEntry, shape: real): (r: Result<Regimen>)
    requires Lawful(m)
    ensures e.name.None? ==> r == Err(MissingKey("name"))
    ensures e.name.Some? && e.line.None? ==> r == Err(MissingKey("line"))
    ensures e.name.Some? && e.line.Some? && e.approvalYear.None? ==> r == Err(MissingKey("approval_year"))
    ensures e.name.Some? && e.line.Some? && e.approvalYear.Some? ==>
      var pfs := e.pfsMedian.GetOr(Num(0.0));
      (r.Ok? <==> FromMedian(m, pfs, shape).Ok?)
    ensures r.Ok? ==>
      && r.value.name == e.name.value
      && r.value.line == Upper(e.line.value)
      && r.value.eligibility == e.eligibility.GetOr("Both")
      && r.value.approvalYear == e.approvalYear.value
      && r.value.pfsMedian == e.pfsMedian.GetOr(Num(0.0))
      && r.value.citation == e.citation.GetOr("")
      && r.value.hazardRatio == e.hazardRatio
      && r.value.adoptionParams == e.adoption.GetOr(map[])
      && Ok(r.value.weibull) == FromMedian(m, r.value.pfsMedian, shape)
  {
    if e.name.None? then Err(MissingKey("name"))
    else if e.line.None? then Err(MissingKey("line"))
    else if e.approvalYear.None? then Err(MissingKey("approval_year"))
    else
      var r := NewRegimen(m, e.name.value, Upper(e.line.value), e.eligibility.GetOr("Both"),
                          e.approvalYear.value, e.pfsMedian.GetOr(Num(0.0)), e.citation.GetOr(""),
                          e.hazardRatio, e.adoption.GetOr(map[]));
      var w := FromMedian(m, r.pfsMedian, shape);
      if w.Err? then Err(w.error) else Ok(r.(weibull := w.value))
  }

  /** A regimen without a usable PFS median gets the degenerate parameters,
      whatever the catalogue's default shape; otherwise the default shape
      replaces the 1.3 of `__post_init__`. */
  lemma LoadedWeibullShape(m: Maths, e: RegimenEntry, shape: real)
    requires Lawful(m)
    requires BuildRegimen(m, e, shape).Ok?
    ensures var r := BuildRegimen(m, e, shape).value;
      && (!UsableMedian(r.pfsMedian) ==> r.weibull == DegenerateWeibull)
      && (UsableMedian(r.pfsMedian) ==> r.weibull.shape == shape && r.weibull.scale > 0.0)
  {
  }

  // --------------------------------------------------------- catalogue

  function Names(s: seq<Regimen>): set<string>
  {
    set r | r in s :: r.name
  }

  /** The names of a sequence are those of all but its last regimen, plus the last one's. */
  lemma NamesOfPrefix(s: seq<Regimen>)
    requires |s| > 0
    ensures Names(s) == Names(s[..|s| - 1]) + {s[|s| - 1].name}
  {
    assert s == s[..|s| - 1] + [s[|s| - 1]];
  }

  predicate NamesDistinct(s: seq<Regimen>)
  {
    forall i, j :: 0 <= i < j < |s| ==> s[i].name != s[j].name
  }

  /** The `Dict[str, Regimen]` built by `load_regimens`: its values in
      insertion order, keyed by their (distinct) names. */
  type Catalogue = s: seq<Regimen> | NamesDistinct(s)

  /** `regimens[r.name] = r` on an insertion-ordered dict: an existing key
      keeps its position and gets the new value; a new key goes last. */
  function Assign(cat: seq<Regimen>, r: Regimen): seq<Regimen>
  {
    if r.name in Names(cat) then
      seq(|cat|, i requires 0 <= i < |cat| => if cat[i].name == r.name then r else cat[i])
    else
      cat + [r]
  }

  /** What the assignment leaves in the dictionary: the regimen is there,
      in the place of the one of the same name if there was one, and last
      otherwise; every other regimen stays in its place. */
  lemma AssignContents(cat: seq<Regimen>, r: Regimen)
    ensures var c := Assign(cat, r);
      && r in c
      && |c| == (if r.name in Names(cat) then |cat| else |cat| + 1)
      && (forall i :: 0 <= i < |cat| ==> c[i] == if cat[i].name == r.name then r else cat[i])
      && (|c| > |cat| ==> c[|cat|] == r)
  {
    if r.name in Names(cat) {
      var k :| 0 <= k < |cat| && cat[k].name == r.name;
      assert Assign(cat, r)[k] == r;
    }
  }

  /** Assignment keeps the keys of the dictionary distinct. */
  lemma AssignKeepsDistinct(cat: seq<Regimen>, r: Regimen)
    requires NamesDistinct(cat)
    ensures NamesDistinct(Assign(cat, r))
  {
    AssignContents(cat, r);
  }

  lemma AssignNames(cat: seq<Regimen>, r: Regimen)
    ensures Names(Assign(cat, r)) == Names(cat) + {r.name}
  {
    var c := Assign(cat, r);
    AssignContents(cat, r);
    forall n | n in Names(cat) + {r.name} ensures n in Names(c) {
      if n != r.name {
        var i :| 0 <= i < |cat| && cat[i].name == n;
        assert c[i] == cat[i];
      }
    }
    forall n | n in Names(c) ensures n in Names(cat) + {r.name} {
      var i :| 0 <= i < |c| && c[i].name == n;
      if i < |cat| && cat[i].name != r.name {
        assert cat[i] in cat;
      }
    }
  }

  /** The result of the loop body of `load_regimens` for each entry, in order. */
  function BuildAll(m: Maths, entries: seq<RegimenEntry>, shape: real): (built: seq<Result<Regimen>>)
    requires Lawful(m)
    ensures |built| == |entries|
    ensures forall i :: 0 <= i < |entries| ==> built[i] == BuildRegimen(m, entries[i], shape)
  {
    seq(|entries|, i requires 0 <= i < |entries| => BuildRegimen(m, entries[i], shape))
  }

  /** The dictionary filled in order from the first k built regimens, or
      the first exception raised among them. */
  function AssignUpTo(built: seq<Result<Regimen>>, k: nat): Result<seq<Regimen>>
    requires k <= |built|
  {
    if k == 0 then Ok([])
    else
      var prefix := AssignUpTo(built, k - 1);
      if prefix.Err? then prefix
      else if built[k - 1].Err? then Err(built[k - 1].error)
      else Ok(Assign(prefix.value, built[k - 1].value))
  }

  /** What `load_regimens` computes: the catalogue after processing the
      entries in order, or the first exception raised. */
  function LoadAll(m: Maths, entries: seq<RegimenEntry>, shape: real): Result<seq<Regimen>>
    requires Lawful(m)
  {
    AssignUpTo(BuildAll(m, entries, shape), |entries|)
  }

  /** `load_regimens`. */
  method LoadRegimens(m: Maths, data: CatalogueData) returns (result: Result<Catalogue>)
    requires Lawful(m)
    ensures result == LoadAll(m, Entries(data), DefaultShape(data))
  {
    var entries := Entries(data);
    var shape := DefaultShape(data);
    ghost var built := BuildAll(m, entries, shape);
    var regimens: seq<Regimen> := [];
    for i := 0 to |entries|
      invariant AssignUpTo(built, i) == Ok(regimens)
    {
      var r := BuildRegimen(m, entries[i], shape);
      assert r == built[i];
      FillStep(built, i, regimens);
      if r.Err? {
        return Err(r.error);
      }
      regimens := Assign(regimens, r.value);
    }
    AssignedDistinct(built, |entries|);
    return Ok(regimens);
  }

  /** One pass of the loop of `load_regimens`: a regimen that was not built
      ends the fill with its exception; one that was is assigned. */
  lemma FillStep(built: seq<Result<Regimen>>, i: nat, regimens: seq<Regimen>)
    requires i < |built|
    requires AssignUpTo(built, i) == Ok(regimens)
    ensures built[i].Err? ==> AssignUpTo(built, |built|) == Err(built[i].error)
    ensures built[i].Ok? ==> AssignUpTo(built, i + 1) == Ok(Assign(regimens, built[i].value))
  {
    if built[i].Err? {
      AssignErrorPersists(built, i + 1);
    }
  }

  /** The filled dictionary has one regimen per name. */
  lemma {:induction false} AssignedDistinct(built: seq<Result<Regimen>>, k: nat)
    requires k <= |built|
    requires AssignUpTo(built, k).Ok?
    ensures NamesDistinct(AssignUpTo(built, k).value)
  {
    if k > 0 {
      AssignedDistinct(built, k - 1);
      AssignKeepsDistinct(AssignUpTo(built, k - 1).value, built[k - 1].value);
    }
  }

  /** Once an entry has raised, the whole load raises the same exception. */
  lemma {:induction false} AssignErrorPersists(built: seq<Result<Regimen>>, k: nat)
    requires k <= |built|
    requires AssignUpTo(built, k).Err?
    ensures AssignUpTo(built, |built|) == AssignUpTo(built, k)
    decreases |built| - k
  {
    if k < |built| {
      AssignErrorPersists(built, k + 1);
    }
  }

  /** Every one of the first k regimens was built. */
  predicate AllBuilt(built: seq<Result<Regimen>>, k: nat)
    requires k <= |built|
  {
    k == 0 || (AllBuilt(built, k - 1) && built[k - 1].Ok?)
  }

  lemma {:induction false} AllBuiltMeansEach(built: seq<Result<Regimen>>, k: nat)
    requires k <= |built|
    ensures AllBuilt(built, k) <==> forall i :: 0 <= i < k ==> built[i].Ok?
  {
    if k > 0 {
      AllBuiltMeansEach(built, k - 1);
    }
  }

  lemma {:induction false} AssignSucceedsIffAllBuilt(built: seq<Result<Regimen>>, k: nat)
    requires k <= |built|
    ensures AssignUpTo(built, k).Ok? <==> AllBuilt(built, k)
  {
    if k > 0 {
      AssignSucceedsIffAllBuilt(built, k - 1);
    }
  }

  /** Loading succeeds exactly when every entry builds. */
  lemma LoadSucceedsIffEveryEntryBuilds(m: Maths, entries: seq<RegimenEntry>, shape: real)
    requires Lawful(m)
    ensures LoadAll(m, entries, shape).Ok? <==> forall i :: 0 <= i < |entries| ==> BuildRegimen(m, entries[i], shape).Ok?
  {
    var built := BuildAll(m, entries, shape);
    AssignSucceedsIffAllBuilt(built, |entries|);
    AllBuiltMeansEach(built, |entries|);
  }

  /** The names of the first k regimens that were built. */
  function BuiltNames(built: seq<Result<Regimen>>, k: nat): set<string>
    requires k <= |built|
  {
    set i | 0 <= i < k && built[i].Ok? :: built[i].value.name
  }

  /** A successful fill is keyed by exactly the names of the built regimens. */
  lemma {:induction false} AssignedNames(built: seq<Result<Regimen>>, k: nat)
    requires k <= |built|
    requires AssignUpTo(built, k).Ok?
    ensures Names(AssignUpTo(built, k).value) == BuiltNames(built, k)
  {
    if k > 0 {
      var prefix := AssignUpTo(built, k - 1);
      AssignedNames(built, k - 1);
      AssignNames(prefix.value, built[k - 1].value);
      assert BuiltNames(built, k) == BuiltNames(built, k - 1) + {built[k - 1].value.name};
    }
  }

  /** A built regimen carries the name of its entry. */
  lemma BuiltFromEntries(m: Maths, entries: seq<RegimenEntry>, shape: real)
    requires Lawful(m)
    ensures var built := BuildAll(m, entries, shape);
      forall i :: 0 <= i < |entries| && built[i].Ok? ==> entries[i].name.Some? && built[i].value.name == entries[i].name.value
  {
  }

  /** When every entry was built, the built names are the entries' names. */
  lemma BuiltNamesOfEntries(built: seq<Result<Regimen>>, entries: seq<RegimenEntry>)
    requires |built| == |entries|
    requires forall i :: 0 <= i < |built| ==> built[i].Ok? && entries[i].name.Some? && built[i].value.name == entries[i].name.value
    ensures BuiltNames(built, |built|) == set e | e in entries && e.name.Some? :: e.name.value
  {
    var k := |built|;
    forall x | x in BuiltNames(built, k) ensures x in set e | e in entries && e.name.Some? :: e.name.value {
      var i :| 0 <= i < k && built[i].Ok? && built[i].value.name == x;
      assert entries[i] in entries;
    }
    forall x | x in (set e | e in entries && e.name.Some? :: e.name.value) ensures x in BuiltNames(built, k) {
      var e :| e in entries && e.name.Some? && e.name.value == x;
      var i :| 0 <= i < k && entries[i] == e;
    }
  }

  /** The catalogue is keyed by exactly the names of the entries. */
  lemma LoadedNames(m: Maths, entries: seq<RegimenEntry>, shape: real)
    requires Lawful(m)
    requires LoadAll(m, entries, shape).Ok?
    ensures forall i :: 0 <= i < |entries| ==> entries[i].name.Some?
    ensures Names(LoadAll(m, entries, shape).value) == set e | e in entries && e.name.Some? :: e.name.value
  {
    var built := BuildAll(m, entries, shape);
    var k := |entries|;
    AssignSucceedsIffAllBuilt(built, k);
    AllBuiltMeansEach(built, k);
    AssignedNames(built, k);
    BuiltFromEntries(m, entries, shape);
    BuiltNamesOfEntries(built, entries);
  }

  /** A regimen whose name none of the later ones among the first k reuses
      stays in the filled catalogue. */
  lemma {:induction false} AssignLaterWins(built: seq<Result<Regimen>>, k: nat, j: nat)
    requires k <= |built| && AssignUpTo(built, k).Ok?
    requires j < k && built[j].Ok?
    requires forall l :: j < l < k ==> built[l].Ok? ==> built[l].value.name != built[j].value.name
    ensures built[j].value in AssignUpTo(built, k).value
  {
    var prefix := AssignUpTo(built, k - 1);
    if j < k - 1 {
      AssignLaterWins(built, k - 1, j);
      AssignKeepsOthers(prefix.value, built[k - 1].value, built[j].value);
    } else {
      AssignContents(prefix.value, built[j].value);
    }
  }

  /** Assigning a regimen keeps every regimen of another name. */
  lemma AssignKeepsOthers(cat: seq<Regimen>, r: Regimen, x: Regimen)
    requires x in cat && x.name != r.name
    ensures x in Assign(cat, r)
  {
    var k :| 0 <= k < |cat| && cat[k] == x;
    AssignContents(cat, r);
    assert Assign(cat, r)[k] == x;
  }

  /** A later entry with the same name replaces an earlier one: the regimen
      built from the last entry of each name is the one in the catalogue. */
  lemma LaterEntryWins(m: Maths, entries: seq<RegimenEntry>, shape: real, j: nat)
    requires Lawful(m)
    requires LoadAll(m, entries, shape).Ok?
    requires j < |entries|
    requires forall l :: j < l < |entries| ==> entries[l].name != entries[j].name
    ensures BuildRegimen(m, entries[j], shape).Ok?
    ensures BuildRegimen(m, entries[j], shape).value in LoadAll(m, entries, shape).value
  {
    var built := BuildAll(m, entries, shape);
    var k := |entries|;
    AssignSucceedsIffAllBuilt(built, k);
    AllBuiltMeansEach(built, k);
    BuiltFromEntries(m, entries, shape);
    AssignLaterWins(built, k, j);
  }
}
