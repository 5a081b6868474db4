/** The numeric primitives the source takes from numpy and Python: `np.exp`,
    `np.log` and the power operator `**`. They are not computed here; each model
    function receives them as a `Maths` value and relies only on the laws in
    `Lawful`, which the floating-point primitives satisfy up to rounding. */
module Numerics {

  datatype Maths = Maths(exp: real -> real, ln: real -> real, pow: (real, real) -> real)

  function Exp(m: Maths, x: real): real { m.exp(x) }
  function Ln(m: Maths, x: real): real { m.ln(x) }
  function Pow(m: Maths, x: real, y: real): real { m.pow(x, y) }

  /** `x ** (1 / k)`, the k-th root. */
  function Root(m: Maths, x: real, k: real): real
    requires k != 0.0
  {
    Pow(m, x, 1.0 / k)
  }

  /** `np.log(2)`. */
  function Ln2(m: Maths): real
  {
    Ln(m, 2.0)
  }

  // Each law is stated on a named predicate and triggered only by it, so that
  // a proof uses a law only when it calls the lemma below that states it.

  predicate ExpNonNegativeAt(m: Maths, x: real) { 0.0 <= Exp(m, x) }
  predicate ExpOrdered(m: Maths, x: real, y: real) { Exp(m, x) <= Exp(m, y) }
  predicate PowPositiveAt(m: Maths, x: real, y: real) { Pow(m, x, y) > 0.0 }
  predicate PowOfZeroAt(m: Maths, y: real) { Pow(m, 0.0, y) == 0.0 }
  predicate PowZeroExponentAt(m: Maths, x: real) { Pow(m, x, 0.0) == 1.0 }
  predicate PowOfOneAt(m: Maths, y: real) { Pow(m, 1.0, y) == 1.0 }
  predicate PowOrdered(m: Maths, a: real, b: real, y: real) { Pow(m, a, y) <= Pow(m, b, y) }
  predicate RootUndoneAt(m: Maths, x: real, k: real)
    requires k != 0.0
  {
    Pow(m, Root(m, x, k), k) == x
  }

  /** The laws of exp, ln and pow used by the proofs. `exp` is only asked to
      be non-negative, because the floating-point exponential underflows to 0. */
  ghost predicate Lawful(m: Maths)
  {
    && Exp(m, 0.0) == 1.0
    && Exp(m, -Ln2(m)) == 0.5          // the defining property of a median
    && (forall x {:trigger ExpNonNegativeAt(m, x)} :: ExpNonNegativeAt(m, x))
    && (forall x, y {:trigger ExpOrdered(m, x, y)} :: x <= y ==> ExpOrdered(m, x, y))
    && (forall x, y {:trigger PowPositiveAt(m, x, y)} :: x > 0.0 ==> PowPositiveAt(m, x, y))
    && (forall y {:trigger PowOfZeroAt(m, y)} :: y > 0.0 ==> PowOfZeroAt(m, y))
    && (forall x {:trigger PowZeroExponentAt(m, x)} :: x > 0.0 ==> PowZeroExponentAt(m, x))
    && (forall y {:trigger PowOfOneAt(m, y)} :: PowOfOneAt(m, y))
    && (forall a, b, y {:trigger PowOrdered(m, a, b, y)} :: 0.0 <= a <= b && y > 0.0 ==> PowOrdered(m, a, b, y))
    && (forall x, k {:trigger RootUndoneAt(m, x, k)} :: x > 0.0 && k != 0.0 ==> RootUndoneAt(m, x, k))
  }

  lemma ExpNonNegative(m: Maths, x: real)
    requires Lawful(m)
    ensures Exp(m, x) >= 0.0
  {
    assert ExpNonNegativeAt(m, x);
  }

  lemma ExpMonotone(m: Maths, x: real, y: real)
    requires Lawful(m)
    requires x <= y
    ensures Exp(m, x) <= Exp(m, y)
  {
    assert ExpOrdered(m, x, y);
  }

  lemma PowPositive(m: Maths, x: real, y: real)
    requires Lawful(m)
    requires x > 0.0
    ensures Pow(m, x, y) > 0.0
  {
    assert PowPositiveAt(m, x, y);
  }

  lemma PowOfZero(m: Maths, y: real)
    requires Lawful(m)
    requires y > 0.0
    ensures Pow(m, 0.0, y) == 0.0
  {
    assert PowOfZeroAt(m, y);
  }

  lemma PowZeroExponent(m: Maths, x: real)
    requires Lawful(m)
    requires x > 0.0
    ensures Pow(m, x, 0.0) == 1.0
  {
    assert PowZeroExponentAt(m, x);
  }

  lemma PowOfOne(m: Maths, y: real)
    requires Lawful(m)
    ensures Pow(m, 1.0, y) == 1.0
  {
    assert PowOfOneAt(m, y);
  }

  lemma PowMonotone(m: Maths, a: real, b: real, y: real)
    requires Lawful(m)
    requires 0.0 <= a <= b && y > 0.0
    ensures Pow(m, a, y) <= Pow(m, b, y)
  {
    assert PowOrdered(m, a, b, y);
  }

  lemma RootUndone(m: Maths, x: real, k: real)
    requires Lawful(m)
    requires x > 0.0 && k != 0.0
    ensures Pow(m, Root(m, x, k), k) == x
  {
    assert RootUndoneAt(m, x, k);
  }

  lemma Ln2Positive(m: Maths)
    requires Lawful(m)
    ensures Ln2(m) > 0.0
  {
    // exp(-ln 2) = 1/2 < 1 = exp(0), so -ln 2 < 0 by monotonicity
    if Ln2(m) <= 0.0 {
      ExpMonotone(m, 0.0, -Ln2(m));
    }
  }

  lemma ExpOfNonPositive(m: Maths, x: real)
    requires Lawful(m)
    requires x <= 0.0
    ensures 0.0 <= Exp(m, x) <= 1.0
  {
    ExpNonNegative(m, x);
    ExpMonotone(m, x, 0.0);
  }

  lemma PowNonNegative(m: Maths, x: real, y: real)
    requires Lawful(m)
    requires x >= 0.0 && y > 0.0
    ensures Pow(m, x, y) >= 0.0
  {
    if x == 0.0 {
      PowOfZero(m, y);
    } else {
      PowPositive(m, x, y);
    }
  }
}
