/** Values shared by every part of the model: optional values, failures the
    source raises, floats that may be NaN, calendar months, sums of reals and
    the few string operations the source uses. */
module Common {

  datatype Option<+T> = None | Some(value: T) {
    /** `dict.get(key, default)` once the lookup has been done. */
    function GetOr(default: T): T {
      if Some? then value else default
    }
  }

  /** The exceptions the modelled code can raise. */
  datatype Failure =
    | MissingKey(key: string)   // KeyError on `d[key]` / `df[col]`
    | ZeroDivision              // ZeroDivisionError
    | IndexOutOfRange           // IndexError on a numpy array
    | FileNotFound              // FileNotFoundError
    | NothingToConcatenate      // ValueError of `pd.concat([])`

  datatype Result<+T> = Ok(value: T) | Err(error: Failure)

  /** The parameters file: named sections of named numbers. */
  type Params = map<string, map<string, real>>

  /** `params[section][key]`, failing on the first absent key. */
  function Required(params: Params, section: string, key: string): (r: Result<real>)
    ensures section !in params ==> r == Err(MissingKey(section))
    ensures section in params && key !in params[section] ==> r == Err(MissingKey(key))
    ensures section in params && key in params[section] ==> r == Ok(params[section][key])
  {
    if section !in params then Err(MissingKey(section))
    else if key !in params[section] then Err(MissingKey(key))
    else Ok(params[section][key])
  }

  /** `params.get(section, {}).get(key, default)`. */
  function Optional(params: Params, section: string, key: string, default: real): (r: real)
    ensures section in params && key in params[section] ==> r == params[section][key]
    ensures section !in params || key !in params[section] ==> r == default
  {
    if section in params && key in params[section] then params[section][key] else default
  }

  /** A float as the source sees it: a number or NaN. */
  datatype Float = Num(v: real) | NaN

  /** A calendar month, as the source's timestamps are used (year and month only). */
  datatype Date = Date(year: int, month: int)

  function Max0(x: real): (r: real)
    ensures r >= 0.0 && r >= x
    ensures r == x || r == 0.0
  {
    if x >= 0.0 then x else 0.0
  }

  // ---------------------------------------------------------------- sums

  /** Sum of a sequence of reals, accumulated left to right. */
  function Sum(s: seq<real>): real
  {
    if |s| == 0 then 0.0 else Sum(s[..|s| - 1]) + s[|s| - 1]
  }

  lemma SumSnoc(s: seq<real>, v: real)
    ensures Sum(s + [v]) == Sum(s) + v
  {
    assert (s + [v])[..|s|] == s;
  }

  lemma {:induction false} SumOfScaled(s: seq<real>, t: seq<real>, c: real)
    requires c != 0.0
    requires |s| == |t|
    requires forall i :: 0 <= i < |s| ==> t[i] == s[i] / c
    ensures Sum(t) == Sum(s) / c
  {
    if |s| > 0 {
      var n := |s| - 1;
      SumOfScaled(s[..n], t[..n], c);
    }
  }

  lemma {:induction false} SumOfConstant(t: seq<real>, c: real)
    requires forall i :: 0 <= i < |t| ==> t[i] == c
    ensures Sum(t) == |t| as real * c
  {
    if |t| > 0 {
      SumOfConstant(t[..|t| - 1], c);
    }
  }

  lemma {:induction false} SumNonNegative(s: seq<real>)
    requires forall i :: 0 <= i < |s| ==> s[i] >= 0.0
    ensures Sum(s) >= 0.0
  {
    if |s| > 0 {
      SumNonNegative(s[..|s| - 1]);
    }
  }

  /** With no negative term, each term is at most the whole sum. */
  lemma {:induction false} TermAtMostSum(s: seq<real>, k: nat)
    requires forall i :: 0 <= i < |s| ==> s[i] >= 0.0
    requires k < |s|
    ensures s[k] <= Sum(s)
  {
    var n := |s| - 1;
    SumNonNegative(s[..n]);
    if k < n {
      TermAtMostSum(s[..n], k);
    }
  }

  lemma {:induction false} SumMonotone(s: seq<real>, t: seq<real>)
    requires |s| == |t|
    requires forall i :: 0 <= i < |s| ==> s[i] <= t[i]
    ensures Sum(s) <= Sum(t)
  {
    if |s| > 0 {
      SumMonotone(s[..|s| - 1], t[..|t| - 1]);
    }
  }

  /** Dividing a non-negative amount by at least one keeps it in [0, p]. */
  lemma DivideByAtLeastOne(p: real, d: real)
    requires p >= 0.0 && d >= 1.0
    ensures 0.0 <= p / d <= p
  {
    assert p / d * d == p;
  }

  /** A larger divisor gives a smaller quotient of a non-negative amount. */
  lemma DivideByLarger(p: real, d1: real, d2: real)
    requires p >= 0.0 && 0.0 < d2 <= d1
    ensures p / d1 <= p / d2
  {
    assert p / d1 * d1 == p && p / d2 * d2 == p;
    assert p / d1 * d2 <= p / d1 * d1;
  }

  lemma ProductNonNegative(a: real, b: real)
    requires a >= 0.0 && b >= 0.0
    ensures a * b >= 0.0
  {
  }

  lemma ProductWithZero(a: real, b: real)
    requires b == 0.0
    ensures a * b == 0.0
  {
  }

  lemma QuotientNonNegative(a: real, b: real)
    requires a >= 0.0 && b > 0.0
    ensures a / b >= 0.0
  {
  }

  /** n equal parts of 1 / n make up 1. */
  lemma EqualSplitSumsToOne(t: seq<real>)
    requires |t| > 0
    requires forall i :: 0 <= i < |t| ==> t[i] == 1.0 / |t| as real
    ensures Sum(t) == 1.0
  {
    SumOfConstant(t, 1.0 / |t| as real);
  }

  lemma ScaleMonotone(k: real, a: real, b: real)
    requires k >= 0.0 && a <= b
    ensures a * k <= b * k
  {
  }

  lemma Max0Monotone(x: real, y: real)
    requires x <= y
    ensures Max0(x) <= Max0(y)
  {
  }

  lemma NegatedScaleAntitone(k: real, a: real, b: real)
    requires k >= 0.0 && a <= b
    ensures -k * b <= -k * a
  {
  }

  lemma DivideBySelf(x: real)
    requires x != 0.0
    ensures x / x == 1.0
  {
  }

  /** Dividing every term by the sum makes the terms sum to 1. */
  lemma NormalisedSumsToOne(s: seq<real>, t: seq<real>)
    requires Sum(s) != 0.0
    requires |s| == |t|
    requires forall i :: 0 <= i < |s| ==> t[i] == s[i] / Sum(s)
    ensures Sum(t) == 1.0
  {
    var total := Sum(s);
    DivideBySelf(total);
    SumOfScaled(s, t, total);
  }

  /** A part of a positive whole is a fraction in [0, 1]. */
  lemma FractionOfWhole(a: real, t: real)
    requires 0.0 <= a <= t && t > 0.0
    ensures 0.0 <= a / t <= 1.0
  {
    assert a / t * t == a;
  }

  /** `pd.concat` of a list of row blocks: the blocks one after another. */
  function Concat<T>(blocks: seq<seq<T>>): seq<T>
  {
    if |blocks| == 0 then [] else Concat(blocks[..|blocks| - 1]) + blocks[|blocks| - 1]
  }

  lemma MulStep(j: int, m: int, n: int, i: int)
    requires 0 <= j < m && 0 <= i < n
    ensures j * n + i < m * n
  {
    assert (j + 1) * n <= m * n;
  }

  /** Blocks of n rows each concatenate to |blocks| * n rows. */
  lemma {:induction false} ConcatLength<T>(blocks: seq<seq<T>>, n: nat)
    requires forall k :: 0 <= k < |blocks| ==> |blocks[k]| == n
    ensures |Concat(blocks)| == |blocks| * n
  {
    if |blocks| > 0 {
      ConcatLength(blocks[..|blocks| - 1], n);
    }
  }

  /** Row i of block j is row j * n + i of the concatenation. */
  lemma {:induction false} ConcatAt<T>(blocks: seq<seq<T>>, n: nat, j: nat, i: nat)
    requires forall k :: 0 <= k < |blocks| ==> |blocks[k]| == n
    requires j < |blocks| && i < n
    ensures j * n + i < |Concat(blocks)|
    ensures Concat(blocks)[j * n + i] == blocks[j][i]
  {
    var m := |blocks| - 1;
    ConcatLength(blocks[..m], n);
    ConcatLength(blocks, n);
    if j < m {
      ConcatAt(blocks[..m], n, j, i);
      MulStep(j, m, n, i);
    }
  }

  /** `[c for c in names if keep(c)]`. */
  function Filter(s: seq<string>, keep: string -> bool): (r: seq<string>)
    ensures forall x :: x in r <==> x in s && keep(x)
    ensures |r| <= |s|
  {
    if |s| == 0 then []
    else
      var last := s[|s| - 1];
      assert s == s[..|s| - 1] + [last];
      Filter(s[..|s| - 1], keep) + (if keep(last) then [last] else [])
  }

  /** Filtering keeps the order: filtering a concatenation concatenates the
      filtered parts. */
  lemma {:induction false} FilterConcat(a: seq<string>, b: seq<string>, keep: string -> bool)
    ensures Filter(a + b, keep) == Filter(a, keep) + Filter(b, keep)
  {
    if |b| > 0 {
      var n := |b| - 1;
      assert (a + b)[..|a + b| - 1] == a + b[..n];
      FilterConcat(a, b[..n], keep);
    } else {
      assert a + b == a;
    }
  }

  lemma {:induction false} FilterDistinct(s: seq<string>, keep: string -> bool)
    requires Distinct(s)
    ensures Distinct(Filter(s, keep))
  {
    if |s| > 0 {
      var n := |s| - 1;
      FilterDistinct(s[..n], keep);
      assert s[n] !in s[..n];
    }
  }

  // ------------------------------------------------------------- strings

  predicate StartsWith(s: string, prefix: string)
  {
    |prefix| <= |s| && s[..|prefix|] == prefix
  }

  /** Python's `sub in s`. */
  predicate Contains(s: string, sub: string)
    decreases |s|
  {
    StartsWith(s, sub) || (|s| > 0 && Contains(s[1..], sub))
  }

  /** Python's `s.replace(pattern, replacement)`: every non-overlapping occurrence,
      scanning left to right. */
  function ReplaceAll(s: string, pattern: string, replacement: string): (r: string)
    requires |pattern| > 0
    ensures !Contains(s, pattern) ==> r == s
    decreases |s|
  {
    if |s| == 0 then ""
    else if StartsWith(s, pattern) then replacement + ReplaceAll(s[|pattern|..], pattern, replacement)
    else [s[0]] + ReplaceAll(s[1..], pattern, replacement)
  }

  function UpperChar(c: char): char
  {
    if 'a' <= c <= 'z' then (c as int - 32) as char else c
  }

  /** Python's `s.upper()` on ASCII letters. */
  function Upper(s: string): (r: string)
    ensures |r| == |s|
    ensures forall i :: 0 <= i < |s| ==> r[i] == UpperChar(s[i])
  {
    seq(|s|, i requires 0 <= i < |s| => UpperChar(s[i]))
  }

  /** `parts = s.split(sep, 1)`: the text after the first `sep` when there
      are two parts. */
  function AfterFirst(s: string, sep: char): (r: Option<string>)
    ensures r.None? <==> sep !in s
    ensures r.Some? ==> exists i :: 0 <= i < |s| && s[i] == sep && sep !in s[..i] && r.value == s[i + 1..]
    decreases |s|
  {
    if |s| == 0 then None
    else if s[0] == sep then Some(s[1..])
    else
      var rest := AfterFirst(s[1..], sep);
      assert s == [s[0]] + s[1..];
      if rest.Some? then
        var i :| 0 <= i < |s[1..]| && s[1..][i] == sep && sep !in s[1..][..i] && rest.value == s[1..][i + 1..];
        assert s[..i + 1] == [s[0]] + s[1..][..i];
        rest
      else rest
  }

  predicate Distinct<T(==)>(s: seq<T>)
  {
    forall i, j :: 0 <= i < j < |s| ==> s[i] != s[j]
  }
}
