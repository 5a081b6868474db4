/** The line-of-therapy stock model (lot_model.py): three patient stocks
    (on first line, on second line, on third line or later) updated month by
    month from lagged incidence, with progression and death hazards. */
module LotModel {
  import opened Common
  import opened Numerics
  import opened Frames

  /** `calculate_hazard`: the monthly hazard ln 2 / median of an exponential
      duration, and 1 (immediate progression) when the median is not positive. */
  function CalculateHazard(m: Maths, medianDuration: real): (h: real)
    requires Lawful(m)
    ensures medianDuration <= 0.0 ==> h == 1.0
    ensures medianDuration > 0.0 ==> h > 0.0 && h * medianDuration == Ln2(m)
  {
    if medianDuration <= 0.0 then 1.0
    else
      Ln2Positive(m);
      Ln2(m) / medianDuration
  }

  /** The entries of `params` that `run_simulation` reads. */
  datatype SimParams = SimParams(
    treatedFraction: real,        // uptake.treated_fraction
    delayMonths: int,             // uptake.dx_to_1l_delay_months, after int()
    pReach2L: real,               // attrition.p_reach_2l
    pReach3LGiven2L: real,        // attrition.p_reach_3l_given_2l
    median1L: real,               // durations_months_median.1l
    median2L: real,               // durations_months_median.2l
    median3LPlus: real,           // durations_months_median.3l_plus
    death1L: real,                // mortality.monthly_death_hazard_1l
    death2L: real,                // mortality.monthly_death_hazard_2l
    death3LPlus: real)            // mortality.monthly_death_hazard_3l_plus

  /** The patients on each line of therapy in one month. */
  datatype Stocks = Stocks(n1: real, n2: real, n3: real)
  {
    function Total(): real { n1 + n2 + n3 }
  }

  /** One row of the results frame. */
  datatype LotRow = LotRow(date: Date, newDx: real, on1L: real, on2L: real, on3LPlus: real, onTreatmentTotal: real)

  /** A run that reads no incidence outside the input: a non-negative delay
      (with a negative one `new_dx[t - delay_months]` runs past the end). */
  predicate InRange(newDx: seq<real>, p: SimParams)
  {
    p.delayMonths >= 0 || |newDx| == 0
  }

  /** `starts_1l`: incidence of `delay_months` earlier, times the treated
      fraction, and nothing before the delay has elapsed. */
  function Starts1L(newDx: seq<real>, p: SimParams, t: nat): real
    requires p.delayMonths >= 0 && t < |newDx|
  {
    if t >= p.delayMonths then newDx[t - p.delayMonths] * p.treatedFraction else 0.0
  }

  /** The monthly progression hazards of the three lines. */
  datatype Hazards = Hazards(h1: real, h2: real, h3: real)

  function ProgressionHazards(m: Maths, p: SimParams): (h: Hazards)
    requires Lawful(m)
    ensures h.h1 > 0.0 && h.h2 > 0.0 && h.h3 > 0.0
  {
    Hazards(CalculateHazard(m, p.median1L), CalculateHazard(m, p.median2L), CalculateHazard(m, p.median3LPlus))
  }

  /** The month's flows out of the previous stocks. */
  datatype Flows = Flows(
    prog1L: real, death1L: real,
    starts2L: real, prog2L: real, death2L: real,
    starts3L: real, prog3L: real, death3L: real)

  /** 1L progressions reach 2L with probability p_reach_2l, 2L progressions
      reach 3L+ with probability p_reach_3l_given_2l; 3L+ progressions leave. */
  function FlowsFrom(h: Hazards, p: SimParams, prev: Stocks): Flows
  {
    var prog1L := prev.n1 * h.h1;
    var prog2L := prev.n2 * h.h2;
    Flows(
      prog1L, prev.n1 * p.death1L,
      prog1L * p.pReach2L, prog2L, prev.n2 * p.death2L,
      prog2L * p.pReach3LGiven2L, prev.n3 * h.h3, prev.n3 * p.death3LPlus)
  }

  /** One line's update with the guard against negative stocks. */
  function LineUpdate(prev: real, starts: real, progressions: real, deaths: real): real
  {
    Max0(prev + starts - (progressions + deaths))
  }

  /** The stocks of the next month from the previous stocks, the month's 1L
      starts and the month's flows: each line gains its starts and loses its
      progressions and deaths, and each new stock is clamped at zero. */
  function Advance(prev: Stocks, starts1L: real, f: Flows): (next: Stocks)
    ensures next.n1 >= 0.0 && next.n2 >= 0.0 && next.n3 >= 0.0
  {
    Stocks(
      LineUpdate(prev.n1, starts1L, f.prog1L, f.death1L),
      LineUpdate(prev.n2, f.starts2L, f.prog2L, f.death2L),
      LineUpdate(prev.n3, f.starts3L, f.prog3L, f.death3L))
  }

  /** One Euler step: the flows out of the previous stocks, then `Advance`. */
  function Step(h: Hazards, p: SimParams, prev: Stocks, starts1L: real): (next: Stocks)
    ensures next.n1 >= 0.0 && next.n2 >= 0.0 && next.n3 >= 0.0
  {
    Advance(prev, starts1L, FlowsFrom(h, p, prev))
  }

  /** The stocks in month t of a run. */
  function StocksAt(m: Maths, newDx: seq<real>, p: SimParams, t: nat): (s: Stocks)
    requires Lawful(m)
    requires p.delayMonths >= 0 && t < |newDx|
    ensures s.n1 >= 0.0 && s.n2 >= 0.0 && s.n3 >= 0.0
    ensures t == 0 ==> s.n2 == 0.0 && s.n3 == 0.0
    decreases t
  {
    if t == 0 then Stocks(Max0(Starts1L(newDx, p, 0)), 0.0, 0.0)
    else Step(ProgressionHazards(m, p), p, StocksAt(m, newDx, p, t - 1), Starts1L(newDx, p, t))
  }

  function Row(date: Date, newDx: real, s: Stocks): LotRow
  {
    LotRow(date, newDx, s.n1, s.n2, s.n3, s.Total())
  }

  /** One pass of the monthly loop of `run_simulation`: the starts of month t
      (incidence of `delay_months` earlier times the treated fraction), then
      the stocks of month t from those of month t - 1. It fails, writing
      nothing, with the IndexError of `new_dx[t - delay]` when that index is
      past the end of the incidence. */
  method AdvanceMonth(m: Maths, newDx: seq<real>, p: SimParams, hazards: Hazards, t: nat,
                      on1L: array<real>, on2L: array<real>, on3LPlus: array<real>)
    returns (ok: bool)
    requires Lawful(m) && hazards == ProgressionHazards(m, p)
    requires on1L.Length == on2L.Length == on3LPlus.Length == |newDx|
    requires on1L != on2L && on1L != on3LPlus && on2L != on3LPlus
    requires t < |newDx|
    requires p.delayMonths >= 0 && t > 0 ==>
      StocksAt(m, newDx, p, t - 1) == Stocks(on1L[t - 1], on2L[t - 1], on3LPlus[t - 1])
    modifies on1L, on2L, on3LPlus
    ensures ok <==> t < p.delayMonths || t - p.delayMonths < |newDx|
    ensures forall k :: 0 <= k < |newDx| && k != t ==>
      on1L[k] == old(on1L[k]) && on2L[k] == old(on2L[k]) && on3LPlus[k] == old(on3LPlus[k])
    ensures ok && p.delayMonths >= 0 ==>
      StocksAt(m, newDx, p, t) == Stocks(on1L[t], on2L[t], on3LPlus[t])
  {
    var delay := p.delayMonths;
    var starts1L: real;
    if t >= delay {
      if t - delay >= |newDx| {
        return false;
      }
      starts1L := newDx[t - delay] * p.treatedFraction;
    } else {
      starts1L := 0.0;
    }

    var prev := if t == 0 then Stocks(0.0, 0.0, 0.0) else Stocks(on1L[t - 1], on2L[t - 1], on3LPlus[t - 1]);
    var next := if t == 0 then Stocks(Max0(starts1L), 0.0, 0.0) else Step(hazards, p, prev, starts1L);
    if delay >= 0 {
      MonthStocks(m, newDx, p, t, prev, starts1L);
    }
    StoreStocks(on1L, on2L, on3LPlus, t, next);
    return true;
  }

  /** `on_1L[t], on_2L[t], on_3Lplus[t] = ...`: month t of the three arrays
      takes the given stocks and no other entry changes. */
  method StoreStocks(on1L: array<real>, on2L: array<real>, on3LPlus: array<real>, t: nat, s: Stocks)
    requires t < on1L.Length == on2L.Length == on3LPlus.Length
    requires on1L != on2L && on1L != on3LPlus && on2L != on3LPlus
    modifies on1L, on2L, on3LPlus
    ensures on1L[t] == s.n1 && on2L[t] == s.n2 && on3LPlus[t] == s.n3
    ensures forall k :: 0 <= k < on1L.Length && k != t ==>
      on1L[k] == old(on1L[k]) && on2L[k] == old(on2L[k]) && on3LPlus[k] == old(on3LPlus[k])
  {
    on1L[t] := s.n1;
    on2L[t] := s.n2;
    on3LPlus[t] := s.n3;
  }

  /** The monthly loop of `run_simulation`: fills the three stock arrays
      month by month, and stops with the IndexError of `new_dx[t - delay]`
      when a negative delay makes it read past the end of the incidence. */
  method SimulateStocks(m: Maths, newDx: seq<real>, p: SimParams, on1L: array<real>, on2L: array<real>, on3LPlus: array<real>)
    returns (ok: bool)
    requires Lawful(m)
    requires on1L.Length == on2L.Length == on3LPlus.Length == |newDx|
    requires on1L != on2L && on1L != on3LPlus && on2L != on3LPlus
    modifies on1L, on2L, on3LPlus
    ensures ok <==> InRange(newDx, p)
    ensures ok ==> forall k :: 0 <= k < |newDx| ==>
      StocksAt(m, newDx, p, k) == Stocks(on1L[k], on2L[k], on3LPlus[k])
  {
    var n := |newDx|;
    var hazards := ProgressionHazards(m, p);
    for t := 0 to n
      invariant p.delayMonths < 0 && t > 0 ==> t - p.delayMonths <= n
      invariant p.delayMonths >= 0 ==> forall k :: 0 <= k < t ==>
        StocksAt(m, newDx, p, k) == Stocks(on1L[k], on2L[k], on3LPlus[k])
    {
      ok := AdvanceMonth(m, newDx, p, hazards, t, on1L, on2L, on3LPlus);
      if !ok {
        return;
      }
    }
    return p.delayMonths >= 0 || n == 0;
  }

  /** The simulation and the results table of `run_simulation`, once the
      incidence and the parameters are read: one row per month, with the
      stocks of `StocksAt` and their total; an IndexError when a negative
      delay makes the loop read past the end of the incidence. */
  method SimulateRows(m: Maths, dates: seq<Date>, newDx: seq<real>, p: SimParams)
    returns (result: Result<seq<LotRow>>)
    requires Lawful(m)
    requires |dates| == |newDx|
    ensures !InRange(newDx, p) <==> result == Err(IndexOutOfRange)
    ensures InRange(newDx, p) ==> result.Ok? && |result.value| == |newDx|
    ensures InRange(newDx, p) ==> forall t :: 0 <= t < |newDx| ==>
      && result.value[t].date == dates[t]
      && result.value[t].newDx == newDx[t]
      && result.value[t].onTreatmentTotal == result.value[t].on1L + result.value[t].on2L + result.value[t].on3LPlus
      && var s := StocksAt(m, newDx, p, t);
         result.value[t].on1L == s.n1 && result.value[t].on2L == s.n2 && result.value[t].on3LPlus == s.n3
  {
    var n := |newDx|;
    var on1L := new real[n](_ => 0.0);
    var on2L := new real[n](_ => 0.0);
    var on3LPlus := new real[n](_ => 0.0);
    var ok := SimulateStocks(m, newDx, p, on1L, on2L, on3LPlus);
    if !ok {
      return Err(IndexOutOfRange);
    }
    var rows := seq(n, i requires 0 <= i < n reads on1L, on2L, on3LPlus =>
      LotRow(dates[i], newDx[i], on1L[i], on2L[i], on3LPlus[i], on1L[i] + on2L[i] + on3LPlus[i]));
    return Ok(rows);
  }

  /** Python's `int()` on a float: truncation toward zero. */
  function Truncate(x: real): (n: int)
    ensures x >= 0.0 ==> 0 <= n && n as real <= x < n as real + 1.0
    ensures x < 0.0 ==> n <= 0 && n as real - 1.0 < x <= n as real
  {
    if x >= 0.0 then x.Floor else -((-x).Floor)
  }

  /** The parameters `run_simulation` reads, in the order it reads them. */
  const SimKeys: seq<(string, string)> := [
    ("uptake", "treated_fraction"), ("uptake", "dx_to_1l_delay_months"),
    ("attrition", "p_reach_2l"), ("attrition", "p_reach_3l_given_2l"),
    ("durations_months_median", "1l"), ("durations_months_median", "2l"),
    ("durations_months_median", "3l_plus"),
    ("mortality", "monthly_death_hazard_1l"), ("mortality", "monthly_death_hazard_2l"),
    ("mortality", "monthly_death_hazard_3l_plus")]

  predicate Readable(params: Params, key: (string, string))
  {
    Required(params, key.0, key.1).Ok?
  }

  /** The values of the keys, looked up in order; the KeyError of the first
      key that is absent. */
  function LookupAll(params: Params, keys: seq<(string, string)>): (r: Result<seq<real>>)
    ensures r.Ok? <==> forall i :: 0 <= i < |keys| ==> Readable(params, keys[i])
    ensures r.Ok? ==> |r.value| == |keys|
    ensures r.Ok? ==> forall i :: 0 <= i < |keys| ==> r.value[i] == params[keys[i].0][keys[i].1]
    ensures r.Err? ==> exists k ::
      && 0 <= k < |keys| && !Readable(params, keys[k])
      && r == Err(Required(params, keys[k].0, keys[k].1).error)
      && forall j :: 0 <= j < k ==> Readable(params, keys[j])
  {
    if |keys| == 0 then Ok([])
    else
      var first := Required(params, keys[0].0, keys[0].1);
      if first.Err? then Err(first.error)
      else
        var rest := LookupAll(params, keys[1..]);
        if rest.Err? then
          var k :| 0 <= k < |keys[1..]| && !Readable(params, keys[1..][k])
                   && rest == Err(Required(params, keys[1..][k].0, keys[1..][k].1).error) && forall j :: 0 <= j < k ==> Readable(params, keys[1..][j]);
          assert keys[k + 1] == keys[1..][k];
          assert forall j :: 0 < j <= k ==> keys[j] == keys[1..][j - 1];
          rest
        else
          assert forall i :: 0 < i < |keys| ==> keys[i] == keys[1..][i - 1];
          Ok([first.value] + rest.value)
  }

  /** The parameters of the simulation as `run_simulation` unpacks them, the
      delay truncated by `int()`; a KeyError for the first key that is absent. */
  function ReadSimParams(params: Params): (r: Result<SimParams>)
    ensures r.Ok? <==> forall i :: 0 <= i < |SimKeys| ==> Readable(params, SimKeys[i])
    ensures r.Err? ==> exists k ::
      && 0 <= k < |SimKeys| && !Readable(params, SimKeys[k])
      && r == Err(Required(params, SimKeys[k].0, SimKeys[k].1).error)
      && forall j :: 0 <= j < k ==> Readable(params, SimKeys[j])
    ensures r.Ok? ==>
      && Required(params, "uptake", "treated_fraction") == Ok(r.value.treatedFraction)
      && Required(params, "uptake", "dx_to_1l_delay_months").Ok?
      && r.value.delayMonths == Truncate(Required(params, "uptake", "dx_to_1l_delay_months").value)
      && Required(params, "attrition", "p_reach_2l") == Ok(r.value.pReach2L)
      && Required(params, "attrition", "p_reach_3l_given_2l") == Ok(r.value.pReach3LGiven2L)
      && Required(params, "durations_months_median", "1l") == Ok(r.value.median1L)
      && Required(params, "durations_months_median", "2l") == Ok(r.value.median2L)
      && Required(params, "durations_months_median", "3l_plus") == Ok(r.value.median3LPlus)
      && Required(params, "mortality", "monthly_death_hazard_1l") == Ok(r.value.death1L)
      && Required(params, "mortality", "monthly_death_hazard_2l") == Ok(r.value.death2L)
      && Required(params, "mortality", "monthly_death_hazard_3l_plus") == Ok(r.value.death3LPlus)
  {
    var values := LookupAll(params, SimKeys);
    if values.Err? then Err(values.error)
    else
      var v := values.value;
      Ok(SimParams(v[0], Truncate(v[1]), v[2], v[3], v[4], v[5], v[6], v[7], v[8], v[9]))
  }

  /** `run_simulation` on a table already in date order: a KeyError when the
      `Combined_Incidence` column or a parameter is absent, then the
      simulation of the column's incidence. */
  method RunSimulation(m: Maths, f: Frame, params: Params) returns (result: Result<seq<LotRow>>)
    requires Lawful(m)
    requires f.WellFormed()
    ensures "Combined_Incidence" !in f.data ==> result == Err(MissingKey("Combined_Incidence"))
    ensures "Combined_Incidence" in f.data && ReadSimParams(params).Err? ==>
      result == Err(ReadSimParams(params).error)
    ensures "Combined_Incidence" in f.data && ReadSimParams(params).Ok? ==>
      var newDx := f.data["Combined_Incidence"];
      var p := ReadSimParams(params).value;
      && (!InRange(newDx, p) <==> result == Err(IndexOutOfRange))
      && (InRange(newDx, p) ==> result.Ok? && |result.value| == |newDx|)
      && (InRange(newDx, p) ==> forall t :: 0 <= t < |newDx| ==>
           && result.value[t].date == f.dates[t]
           && result.value[t].newDx == newDx[t]
           && result.value[t].onTreatmentTotal == result.value[t].on1L + result.value[t].on2L + result.value[t].on3LPlus
           && var s := StocksAt(m, newDx, p, t);
              result.value[t].on1L == s.n1 && result.value[t].on2L == s.n2 && result.value[t].on3LPlus == s.n3)
  {
    if "Combined_Incidence" !in f.data {
      return Err(MissingKey("Combined_Incidence"));
    }
    var newDx := f.data["Combined_Incidence"];
    var p := ReadSimParams(params);
    if p.Err? {
      return Err(p.error);
    }
    result := SimulateRows(m, f.dates, newDx, p.value);
  }

  /** The stocks the loop computes for month t, from its starts and the
      stocks of month t - 1, are `StocksAt`. */
  lemma MonthStocks(m: Maths, newDx: seq<real>, p: SimParams, t: nat, prev: Stocks, starts1L: real)
    requires Lawful(m)
    requires p.delayMonths >= 0 && t < |newDx|
    requires t > 0 ==> prev == StocksAt(m, newDx, p, t - 1)
    requires t >= p.delayMonths ==> starts1L == newDx[t - p.delayMonths] * p.treatedFraction
    requires t < p.delayMonths ==> starts1L == 0.0
    ensures StocksAt(m, newDx, p, t) ==
      if t == 0 then Stocks(Max0(starts1L), 0.0, 0.0) else Step(ProgressionHazards(m, p), p, prev, starts1L)
  {
    StartsOfMonth(newDx, p, t, starts1L);
    if t > 0 {
      StocksAtStep(m, newDx, p, t);
    }
  }

  /** The starts the loop computes for month t are `Starts1L`. */
  lemma StartsOfMonth(newDx: seq<real>, p: SimParams, t: nat, starts1L: real)
    requires p.delayMonths >= 0 && t < |newDx|
    requires t >= p.delayMonths ==> starts1L == newDx[t - p.delayMonths] * p.treatedFraction
    requires t < p.delayMonths ==> starts1L == 0.0
    ensures starts1L == Starts1L(newDx, p, t)
  {
  }

  /** Month t > 0 is one step from month t - 1. */
  lemma StocksAtStep(m: Maths, newDx: seq<real>, p: SimParams, t: nat)
    requires Lawful(m)
    requires p.delayMonths >= 0 && 0 < t < |newDx|
    ensures StocksAt(m, newDx, p, t) == Step(ProgressionHazards(m, p), p, StocksAt(m, newDx, p, t - 1), Starts1L(newDx, p, t))
  {
  }

  /** Before the delay has elapsed nobody starts treatment, so every stock is zero. */
  lemma {:induction false} NoPatientsBeforeDelay(m: Maths, newDx: seq<real>, p: SimParams, t: nat)
    requires Lawful(m)
    requires p.delayMonths >= 0 && t < |newDx|
    requires t < p.delayMonths
    ensures StocksAt(m, newDx, p, t) == Stocks(0.0, 0.0, 0.0)
  {
    if t > 0 {
      NoPatientsBeforeDelay(m, newDx, p, t - 1);
    }
  }

  /** When no clamp is active, the step conserves patients up to the
      outflows: deaths on every line, 3L+ progressions, and the 1L and 2L
      progressions that do not reach the next line. */
  lemma StepBalance(h: Hazards, p: SimParams, prev: Stocks, starts1L: real)
    requires var f := FlowsFrom(h, p, prev);
      && prev.n1 + starts1L - (f.prog1L + f.death1L) >= 0.0
      && prev.n2 + f.starts2L - (f.prog2L + f.death2L) >= 0.0
      && prev.n3 + f.starts3L - (f.prog3L + f.death3L) >= 0.0
    ensures var f := FlowsFrom(h, p, prev);
      Step(h, p, prev, starts1L).Total() ==
        prev.Total() + starts1L
        - (f.death1L + f.death2L + f.death3L)
        - f.prog3L
        - (f.prog1L - f.starts2L)
        - (f.prog2L - f.starts3L)
  {
  }

  /** Parameters under which each line keeps a non-negative fraction of its
      patients every month and the transition probabilities are not negative. */
  predicate Retaining(h: Hazards, p: SimParams)
  {
    && p.treatedFraction >= 0.0
    && p.pReach2L >= 0.0 && p.pReach3LGiven2L >= 0.0
    && h.h1 >= 0.0 && h.h2 >= 0.0
    && h.h1 + p.death1L <= 1.0
    && h.h2 + p.death2L <= 1.0
    && h.h3 + p.death3LPlus <= 1.0
  }

  predicate AtMost(s: Stocks, t: Stocks)
  {
    s.n1 <= t.n1 && s.n2 <= t.n2 && s.n3 <= t.n3
  }

  /** What a line keeps of its stock, n - (n h + n d) = n (1 - h - d), grows
      with the stock when 1 - h - d is not negative. */
  lemma RetainedMonotone(na: real, nb: real, h: real, d: real)
    requires na <= nb && h + d <= 1.0
    ensures na - (na * h + na * d) <= nb - (nb * h + nb * d)
  {
    assert (nb - na) * (1.0 - h - d) >= 0.0;
  }

  /** Flows that leave each line with no less and start each later line
      with no less give next stocks that are no smaller. */
  lemma AdvanceMonotone(a: Stocks, b: Stocks, sa: real, sb: real, fa: Flows, fb: Flows)
    requires sa <= sb && fa.starts2L <= fb.starts2L && fa.starts3L <= fb.starts3L
    requires a.n1 - (fa.prog1L + fa.death1L) <= b.n1 - (fb.prog1L + fb.death1L)
    requires a.n2 - (fa.prog2L + fa.death2L) <= b.n2 - (fb.prog2L + fb.death2L)
    requires a.n3 - (fa.prog3L + fa.death3L) <= b.n3 - (fb.prog3L + fb.death3L)
    ensures AtMost(Advance(a, sa, fa), Advance(b, sb, fb))
  {
    Max0Monotone(a.n1 + sa - (fa.prog1L + fa.death1L), b.n1 + sb - (fb.prog1L + fb.death1L));
    Max0Monotone(a.n2 + fa.starts2L - (fa.prog2L + fa.death2L), b.n2 + fb.starts2L - (fb.prog2L + fb.death2L));
    Max0Monotone(a.n3 + fa.starts3L - (fa.prog3L + fa.death3L), b.n3 + fb.starts3L - (fb.prog3L + fb.death3L));
  }

  /** Under `Retaining`, larger stocks keep more on each line after their
      outflows and send no fewer patients on to the next line. */
  lemma FlowsMonotone(h: Hazards, p: SimParams, a: Stocks, b: Stocks)
    requires Retaining(h, p)
    requires AtMost(a, b)
    ensures var fa, fb := FlowsFrom(h, p, a), FlowsFrom(h, p, b);
      && fa.starts2L <= fb.starts2L && fa.starts3L <= fb.starts3L
      && a.n1 - (fa.prog1L + fa.death1L) <= b.n1 - (fb.prog1L + fb.death1L)
      && a.n2 - (fa.prog2L + fa.death2L) <= b.n2 - (fb.prog2L + fb.death2L)
      && a.n3 - (fa.prog3L + fa.death3L) <= b.n3 - (fb.prog3L + fb.death3L)
  {
    ScaleMonotone(h.h1, a.n1, b.n1);
    ScaleMonotone(p.pReach2L, a.n1 * h.h1, b.n1 * h.h1);
    ScaleMonotone(h.h2, a.n2, b.n2);
    ScaleMonotone(p.pReach3LGiven2L, a.n2 * h.h2, b.n2 * h.h2);
    RetainedMonotone(a.n1, b.n1, h.h1, p.death1L);
    RetainedMonotone(a.n2, b.n2, h.h2, p.death2L);
    RetainedMonotone(a.n3, b.n3, h.h3, p.death3LPlus);
  }

  /** One step is monotone in the previous stocks and the month's starts. */
  lemma StepMonotone(h: Hazards, p: SimParams, a: Stocks, b: Stocks, sa: real, sb: real)
    requires Retaining(h, p)
    requires AtMost(a, b) && sa <= sb
    ensures AtMost(Step(h, p, a, sa), Step(h, p, b, sb))
  {
    FlowsMonotone(h, p, a, b);
    AdvanceMonotone(a, b, sa, sb, FlowsFrom(h, p, a), FlowsFrom(h, p, b));
  }

  /** More incidence never means fewer patients on any line, as long as each
      line retains a non-negative fraction of its patients every month. */
  lemma {:induction false} StocksMonotoneInIncidence(m: Maths, dx1: seq<real>, dx2: seq<real>, p: SimParams, t: nat)
    requires Lawful(m)
    requires Retaining(ProgressionHazards(m, p), p)
    requires p.delayMonths >= 0 && |dx1| == |dx2| && t < |dx1|
    requires forall i :: 0 <= i < |dx1| ==> dx1[i] <= dx2[i]
    ensures AtMost(StocksAt(m, dx1, p, t), StocksAt(m, dx2, p, t))
  {
    var s1 := Starts1L(dx1, p, t);
    var s2 := Starts1L(dx2, p, t);
    if t >= p.delayMonths {
      ScaleMonotone(p.treatedFraction, dx1[t - p.delayMonths], dx2[t - p.delayMonths]);
    }
    assert s1 <= s2;
    if t == 0 {
      Max0Monotone(s1, s2);
    } else {
      StocksMonotoneInIncidence(m, dx1, dx2, p, t - 1);
      StepMonotone(ProgressionHazards(m, p), p, StocksAt(m, dx1, p, t - 1), StocksAt(m, dx2, p, t - 1), s1, s2);
    }
  }
}
