/** Market-share allocation among competing regimens (adoption.py). */
module Adoption {
  import opened Common
  import opened Numerics
  import opened Survival

  /** The engine holds the catalogue; its event list is never read. */
  datatype AdoptionEngine = AdoptionEngine(regimens: Catalogue)

  /** The threshold under which the total score counts as zero. */
  const NegligibleScore: real := 0.000000001

  /** `date.year + date.month / 12.0`. */
  function CurrentYear(d: Date): real
  {
    d.year as real + d.month as real / 12.0
  }

  function NormalizeLine(line: string): string
  {
    ReplaceAll(line, "_PLUS", "+")
  }

  /** Same line after "_PLUS" becomes "+", or a "4L" request meets a "4L+" regimen. */
  predicate LineMatches(regimenLine: string, requested: string)
  {
    var target := NormalizeLine(regimenLine);
    var req := NormalizeLine(requested);
    target == req || (Contains(req, "4L") && Contains(target, "4L+"))
  }

  predicate EligibilityMatches(regimenEligibility: string, requested: string)
  {
    regimenEligibility == "Both" || regimenEligibility == requested
  }

  predicate IsCandidate(r: Regimen, line: string, eligibility: string)
  {
    LineMatches(r.line, line) && EligibilityMatches(r.eligibility, eligibility)
  }

  /** The regimens that compete for a (line, eligibility) slot, in catalogue order. */
  function Candidates(regs: Catalogue, line: string, eligibility: string): (c: Catalogue)
    ensures forall r :: r in c <==> r in regs && IsCandidate(r, line, eligibility)
    ensures |c| <= |regs|
  {
    if |regs| == 0 then []
    else
      var n := |regs| - 1;
      var prefix: Catalogue := regs[..n];
      var before := Candidates(prefix, line, eligibility);
      assert regs == prefix + [regs[n]];
      if IsCandidate(regs[n], line, eligibility) then
        forall i | 0 <= i < |before| ensures before[i].name != regs[n].name {
          assert before[i] in before;
          var j :| 0 <= j < n && prefix[j] == before[i];
          assert regs[j] == prefix[j];
        }
        before + [regs[n]]
      else before
  }

  function Param(params: map<string, real>, key: string, default: real): real
  {
    if key in params then params[key] else default
  }

  function Peak(r: Regimen): real { Param(r.adoptionParams, "peak_share", 0.5) }
  function Speed(r: Regimen): real { Param(r.adoptionParams, "speed", 1.0) }
  function Inflection(r: Regimen): real { Param(r.adoptionParams, "time_to_peak", 2.0) }

  /** `-k (years since approval - t0)`. */
  function Exponent(r: Regimen, yearsSince: real): real
  {
    -Speed(r) * (yearsSince - Inflection(r))
  }

  /** `1 + exp(-k (years since approval - t0))`, the denominator of the
      logistic curve; never below 1. */
  function LogisticDenominator(m: Maths, r: Regimen, yearsSince: real): (d: real)
    requires Lawful(m)
    ensures d >= 1.0
  {
    ExpNonNegative(m, Exponent(r, yearsSince));
    1.0 + Exp(m, Exponent(r, yearsSince))
  }

  /** The logistic diffusion score of one regimen at a calendar year:
      zero before approval, then peak / (1 + exp(-k (years since approval - t0))). */
  function RawScore(m: Maths, r: Regimen, currentYear: real): (score: real)
    requires Lawful(m)
    ensures currentYear < r.approvalYear as real ==> score == 0.0
  {
    var yearsSince := currentYear - r.approvalYear as real;
    if yearsSince < 0.0 then 0.0
    else Peak(r) / LogisticDenominator(m, r, yearsSince)
  }

  /** With a non-negative peak, a score lies between 0 and the peak. */
  lemma RawScoreBounded(m: Maths, r: Regimen, currentYear: real)
    requires Lawful(m)
    requires Peak(r) >= 0.0
    ensures 0.0 <= RawScore(m, r, currentYear) <= Peak(r)
  {
    var yearsSince := currentYear - r.approvalYear as real;
    if yearsSince >= 0.0 {
      DivideByAtLeastOne(Peak(r), LogisticDenominator(m, r, yearsSince));
    }
  }

  /** At `time_to_peak` years after approval a regimen holds half its peak score. */
  lemma RawScoreAtInflection(m: Maths, r: Regimen, currentYear: real)
    requires Lawful(m)
    requires Inflection(r) >= 0.0
    requires currentYear - r.approvalYear as real == Inflection(r)
    ensures RawScore(m, r, currentYear) * 2.0 == Peak(r)
  {
    var y := currentYear - r.approvalYear as real;
    ProductWithZero(-Speed(r), y - Inflection(r));
    assert Exponent(r, y) == 0.0;
    assert RawScore(m, r, currentYear) == Peak(r) / 2.0;
  }

  lemma DenominatorNonIncreasing(m: Maths, r: Regimen, y1: real, y2: real)
    requires Lawful(m)
    requires Speed(r) >= 0.0 && y1 <= y2
    ensures LogisticDenominator(m, r, y2) <= LogisticDenominator(m, r, y1)
  {
    NegatedScaleAntitone(Speed(r), y1 - Inflection(r), y2 - Inflection(r));
    assert Exponent(r, y2) <= Exponent(r, y1);
    ExpMonotone(m, Exponent(r, y2), Exponent(r, y1));
  }

  /** With a non-negative peak and speed, a regimen's score never decreases
      as time goes on: adoption only ramps up. */
  lemma RawScoreNonDecreasing(m: Maths, r: Regimen, year1: real, year2: real)
    requires Lawful(m)
    requires Peak(r) >= 0.0 && Speed(r) >= 0.0
    requires year1 <= year2
    ensures RawScore(m, r, year1) <= RawScore(m, r, year2)
  {
    var a := r.approvalYear as real;
    if year1 >= a {
      var y1 := year1 - a;
      var y2 := year2 - a;
      DenominatorNonIncreasing(m, r, y1, y2);
      DivideByLarger(Peak(r), LogisticDenominator(m, r, y1), LogisticDenominator(m, r, y2));
    } else {
      RawScoreBounded(m, r, year2);
    }
  }

  /** Scores of the candidates, in candidate order. */
  function Scores(m: Maths, cands: seq<Regimen>, currentYear: real): (s: seq<real>)
    requires Lawful(m)
    ensures |s| == |cands|
    ensures forall i :: 0 <= i < |cands| ==> s[i] == RawScore(m, cands[i], currentYear)
  {
    if |cands| == 0 then []
    else Scores(m, cands[..|cands| - 1], currentYear) + [RawScore(m, cands[|cands| - 1], currentYear)]
  }

  function TotalScore(m: Maths, cands: seq<Regimen>, currentYear: real): real
    requires Lawful(m)
  {
    Sum(Scores(m, cands, currentYear))
  }

  /** The `raw_shares` dict: each candidate's name mapped to its score. */
  function RawShares(m: Maths, cands: Catalogue, currentYear: real): (raw: map<string, real>)
    requires Lawful(m)
    ensures forall i :: 0 <= i < |cands| ==> cands[i].name in raw && raw[cands[i].name] == RawScore(m, cands[i], currentYear)
  {
    if |cands| == 0 then map[]
    else
      var n := |cands| - 1;
      var prefix: Catalogue := cands[..n];
      var before := RawShares(m, prefix, currentYear);
      assert cands == prefix + [cands[n]];
      assert forall i :: 0 <= i < n ==> cands[i].name != cands[n].name;
      before[cands[n].name := RawScore(m, cands[n], currentYear)]
  }

  lemma {:induction false} RawSharesKeys(m: Maths, cands: Catalogue, currentYear: real)
    requires Lawful(m)
    ensures RawShares(m, cands, currentYear).Keys == Names(cands)
  {
    if |cands| > 0 {
      var n := |cands| - 1;
      var prefix: Catalogue := cands[..n];
      RawSharesKeys(m, prefix, currentYear);
      NamesOfPrefix(cands);
    }
  }

  /** The shares of a non-empty candidate list: scores divided by their
      total, or an equal split when the total is negligible. */
  function Shares(m: Maths, cands: Catalogue, currentYear: real): (shares: map<string, real>)
    requires Lawful(m)
    requires |cands| > 0
  {
    var raw := RawShares(m, cands, currentYear);
    var total := TotalScore(m, cands, currentYear);
    if total <= NegligibleScore then map name | name in raw :: 1.0 / |cands| as real
    else map name | name in raw :: raw[name] / total
  }

  /** What `get_market_share` returns: regimen name to share. */
  function MarketShare(m: Maths, engine: AdoptionEngine, date: Date, line: string, eligibility: string): map<string, real>
    requires Lawful(m)
  {
    var cands := Candidates(engine.regimens, line, eligibility);
    if |cands| == 0 then map[] else Shares(m, cands, CurrentYear(date))
  }

  /** The filtering loop of `get_market_share`. */
  method CollectCandidates(regs: Catalogue, line: string, eligibility: string) returns (candidates: Catalogue)
    ensures candidates == Candidates(regs, line, eligibility)
  {
    var found: seq<Regimen> := [];
    for i := 0 to |regs|
      invariant found == Candidates(regs[..i], line, eligibility)
    {
      assert regs[..i + 1][..i] == regs[..i];
      if IsCandidate(regs[i], line, eligibility) {
        found := found + [regs[i]];
      }
    }
    assert regs[..|regs|] == regs;
    candidates := found;
  }

  /** The scoring loop of `get_market_share`, filling `raw_shares`. */
  method ScoreCandidates(m: Maths, candidates: Catalogue, currentYear: real) returns (rawShares: map<string, real>)
    requires Lawful(m)
    ensures rawShares == RawShares(m, candidates, currentYear)
  {
    rawShares := map[];
    for i := 0 to |candidates|
      invariant rawShares == RawShares(m, candidates[..i], currentYear)
    {
      var r := candidates[i];
      assert candidates[..i + 1][..i] == candidates[..i];
      rawShares := rawShares[r.name := RawScore(m, r, currentYear)];
    }
    assert candidates[..|candidates|] == candidates;
  }

  /** `sum(raw_shares.values())`: the names are distinct, so there is one
      value per candidate. */
  method SumScores(m: Maths, candidates: seq<Regimen>, currentYear: real, rawShares: map<string, real>) returns (total: real)
    requires Lawful(m)
    requires forall i :: 0 <= i < |candidates| ==>
      candidates[i].name in rawShares && rawShares[candidates[i].name] == RawScore(m, candidates[i], currentYear)
    ensures total == TotalScore(m, candidates, currentYear)
  {
    total := 0.0;
    for i := 0 to |candidates|
      invariant total == Sum(Scores(m, candidates[..i], currentYear))
    {
      TotalScoreStep(m, candidates, currentYear, i);
      total := total + rawShares[candidates[i].name];
    }
    assert candidates[..|candidates|] == candidates;
  }

  /** The running total after one more candidate. */
  lemma TotalScoreStep(m: Maths, candidates: seq<Regimen>, currentYear: real, i: nat)
    requires Lawful(m)
    requires i < |candidates|
    ensures Sum(Scores(m, candidates[..i + 1], currentYear)) ==
      Sum(Scores(m, candidates[..i], currentYear)) + RawScore(m, candidates[i], currentYear)
  {
    assert candidates[..i + 1][..i] == candidates[..i];
    SumSnoc(Scores(m, candidates[..i], currentYear), RawScore(m, candidates[i], currentYear));
  }

  /** `AdoptionEngine.get_market_share`: collect the candidates, score them,
      then normalise (or split equally when the total score is negligible). */
  method GetMarketShare(m: Maths, engine: AdoptionEngine, date: Date, line: string, eligibility: string)
    returns (shares: map<string, real>)
    requires Lawful(m)
    ensures shares == MarketShare(m, engine, date, line, eligibility)
  {
    var currentYear := CurrentYear(date);
    var candidates := CollectCandidates(engine.regimens, line, eligibility);
    if |candidates| == 0 {
      return map[];
    }
    var rawShares := ScoreCandidates(m, candidates, currentYear);
    var totalScore := SumScores(m, candidates, currentYear, rawShares);
    if totalScore <= NegligibleScore {
      shares := map name | name in rawShares :: 1.0 / |candidates| as real;
    } else {
      shares := map name | name in rawShares :: rawShares[name] / totalScore;
    }
  }

  /** With no candidate the result is empty; otherwise its keys are exactly
      the names of the catalogue regimens whose line and eligibility match. */
  lemma MarketShareKeys(m: Maths, engine: AdoptionEngine, date: Date, line: string, eligibility: string)
    requires Lawful(m)
    ensures MarketShare(m, engine, date, line, eligibility).Keys ==
      set r | r in engine.regimens && IsCandidate(r, line, eligibility) :: r.name
  {
    var cands := Candidates(engine.regimens, line, eligibility);
    CandidateNames(engine.regimens, line, eligibility);
    if |cands| > 0 {
      var currentYear := CurrentYear(date);
      RawSharesKeys(m, cands, currentYear);
      assert Shares(m, cands, currentYear).Keys == RawShares(m, cands, currentYear).Keys;
    }
  }

  /** The names of the candidates are those of the matching regimens. */
  lemma CandidateNames(regs: Catalogue, line: string, eligibility: string)
    ensures Names(Candidates(regs, line, eligibility)) ==
      set r | r in regs && IsCandidate(r, line, eligibility) :: r.name
  {
    var cands := Candidates(regs, line, eligibility);
    forall x | x in Names(cands)
      ensures x in set r | r in regs && IsCandidate(r, line, eligibility) :: r.name
    {
      var r :| r in cands && r.name == x;
    }
    forall x | x in set r | r in regs && IsCandidate(r, line, eligibility) :: r.name
      ensures x in Names(cands)
    {
      var r :| r in regs && IsCandidate(r, line, eligibility) && r.name == x;
      assert r in cands;
    }
  }

  /** The values of a share map read in candidate order. */
  function InOrder(shares: map<string, real>, cands: seq<Regimen>): (values: seq<real>)
    requires forall i :: 0 <= i < |cands| ==> cands[i].name in shares
    ensures |values| == |cands|
    ensures forall i :: 0 <= i < |cands| ==> values[i] == shares[cands[i].name]
  {
    seq(|cands|, i requires 0 <= i < |cands| => shares[cands[i].name])
  }

  /** The share of the candidate at position k. */
  lemma ShareOfCandidate(m: Maths, cands: Catalogue, currentYear: real, k: nat)
    requires Lawful(m)
    requires k < |cands|
    ensures cands[k].name in Shares(m, cands, currentYear)
    ensures var total := TotalScore(m, cands, currentYear);
      Shares(m, cands, currentYear)[cands[k].name] ==
        if total <= NegligibleScore then 1.0 / |cands| as real
        else Scores(m, cands, currentYear)[k] / total
  {
  }

  /** The shares of a non-empty candidate list, read in candidate order, sum to 1. */
  lemma {:induction false} SharesSumToOne(m: Maths, cands: Catalogue, currentYear: real)
    requires Lawful(m)
    requires |cands| > 0
    ensures var shares := Shares(m, cands, currentYear);
      && (forall i :: 0 <= i < |cands| ==> cands[i].name in shares)
      && Sum(InOrder(shares, cands)) == 1.0
  {
    var shares := Shares(m, cands, currentYear);
    var scores := Scores(m, cands, currentYear);
    var total := Sum(scores);
    forall i | 0 <= i < |cands|
      ensures cands[i].name in shares
      ensures shares[cands[i].name] == if total <= NegligibleScore then 1.0 / |cands| as real else scores[i] / total
    {
      ShareOfCandidate(m, cands, currentYear, i);
    }
    var inOrder := InOrder(shares, cands);
    if total <= NegligibleScore {
      EqualSplitSumsToOne(inOrder);
    } else {
      NormalisedSumsToOne(scores, inOrder);
    }
  }

  /** When every candidate's peak share is non-negative, every share is in [0, 1]. */
  lemma {:induction false} SharesBounded(m: Maths, cands: Catalogue, currentYear: real)
    requires Lawful(m)
    requires |cands| > 0
    requires forall i :: 0 <= i < |cands| ==> Peak(cands[i]) >= 0.0
    ensures var shares := Shares(m, cands, currentYear);
      forall k :: 0 <= k < |cands| ==> cands[k].name in shares && 0.0 <= shares[cands[k].name] <= 1.0
  {
    var shares := Shares(m, cands, currentYear);
    var scores := Scores(m, cands, currentYear);
    var total := Sum(scores);
    forall i | 0 <= i < |cands| ensures scores[i] >= 0.0 {
      RawScoreBounded(m, cands[i], currentYear);
    }
    forall k | 0 <= k < |cands| ensures cands[k].name in shares && 0.0 <= shares[cands[k].name] <= 1.0 {
      ShareOfCandidate(m, cands, currentYear, k);
      if total > NegligibleScore {
        TermAtMostSum(scores, k);
        FractionOfWhole(scores[k], total);
      }
    }
  }

  /** A candidate not yet approved gets no share, unless every score is
      negligible and the split is equal. */
  lemma NotYetApprovedGetsNothing(m: Maths, cands: Catalogue, currentYear: real, k: nat)
    requires Lawful(m)
    requires k < |cands|
    requires currentYear < cands[k].approvalYear as real
    requires TotalScore(m, cands, currentYear) > NegligibleScore
    ensures Shares(m, cands, currentYear)[cands[k].name] == 0.0
  {
  }

  /** When the total score is negligible (every candidate before approval,
      say), every candidate gets 1 / (number of candidates). */
  lemma NegligibleScoresSplitEqually(m: Maths, cands: Catalogue, currentYear: real, k: nat)
    requires Lawful(m)
    requires k < |cands|
    requires TotalScore(m, cands, currentYear) <= NegligibleScore
    ensures Shares(m, cands, currentYear)[cands[k].name] * |cands| as real == 1.0
  {
  }

  /** A request for "4L" (or "4L_PLUS") reaches regimens declared "4L+" or
      "4L_PLUS". */
  lemma FourthLineWildcard()
    ensures LineMatches("4L+", "4L")
    ensures LineMatches("4L_PLUS", "4L")
    ensures LineMatches("4L+", "4L_PLUS")
    ensures !LineMatches("2L", "4L")
  {
    assert NormalizeLine("4L_PLUS") == "4L+" by {
      assert "4L_PLUS"[..5][0] == '4';
      assert "4L_PLUS"[1..] == "L_PLUS";
      assert "L_PLUS"[..5][0] == 'L';
      assert "L_PLUS"[1..] == "_PLUS";
      assert "_PLUS"[..5] == "_PLUS";
      assert "_PLUS"[5..] == "";
    }
    assert !Contains("4L", "_PLUS");
    assert !Contains("4L+", "_PLUS");
    assert !Contains("2L", "_PLUS");
    assert StartsWith("4L+", "4L+");
    assert StartsWith("4L", "4L");
    assert "2L"[0] != "4L"[0];
    assert !Contains("2L", "4L+");
  }
}
