/** `Math.pow` with a natural exponent, as the calculator uses it, and the
    geometric sums that its year-by-year and month-by-month series add up to,
    and sums of a yearly series.

    Neither function carries a postcondition: facts about them are lemmas,
    called where they are needed, so that the solver is not handed them (and
    the products they mention) in every proof that merely names a power. */
module SolarMath {

  /** x^n; the calculator only raises to whole, non-negative powers. */
  function Pow(x: real, n: nat): real
  {
    if n == 0 then 1.0 else x * Pow(x, n - 1)
  }

  /** 1 + x + x^2 + ... + x^(n-1), written in Horner form 1 + x * (1 + x * (...)). */
  function GeoSum(x: real, n: nat): real
  {
    if n == 0 then 0.0 else 1.0 + x * GeoSum(x, n - 1)
  }

  /** Equals multiplied by the same factor are equal. The solver treats a
      product of two named quantities as an opaque monomial, so proofs below
      state such substitutions with this lemma. */
  lemma MulLeft(c: real, a: real, b: real)
    requires a == b
    ensures c * a == c * b
  {
  }

  /** A power of a non-negative base is non-negative, and positive when the
      base is. */
  lemma {:induction false} PowSign(x: real, n: nat)
    ensures x >= 0.0 ==> Pow(x, n) >= 0.0
    ensures x > 0.0 ==> Pow(x, n) > 0.0
  {
    if n > 0 {
      PowSign(x, n - 1);
      if x > 0.0 {
        StrictStep(0.0, x, Pow(x, n - 1), Pow(x, n - 1));
      } else if x == 0.0 {
        assert Pow(x, n) == 0.0;
      }
    }
  }

  /** Raising a product to a power raises each factor to it. */
  lemma {:induction false} PowMul(a: real, b: real, n: nat)
    ensures Pow(a, n) * Pow(b, n) == Pow(a * b, n)
  {
    if n > 0 {
      PowMul(a, b, n - 1);
      ProductStep(a, b, Pow(a, n - 1), Pow(b, n - 1), Pow(a * b, n - 1), Pow(a, n), Pow(b, n), Pow(a * b, n));
    }
  }

  lemma ProductStep(a: real, b: real, pa: real, pb: real, pab: real, qa: real, qb: real, qab: real)
    requires pa * pb == pab && qa == a * pa && qb == b * pb && qab == (a * b) * pab
    ensures qa * qb == qab
  {
    MulLeft(a * b, pa * pb, pab);
    MulLeft(qb, qa, a * pa);
    MulLeft(a * pa, qb, b * pb);
  }

  /** For a non-negative base, a larger base never gives a smaller power. */
  lemma {:induction false} PowMonotoneBase(a: real, b: real, n: nat)
    requires 0.0 <= a <= b
    ensures Pow(a, n) <= Pow(b, n)
  {
    if n > 0 {
      PowMonotoneBase(a, b, n - 1);
      PowSign(a, n - 1);
      MonotoneStep(a, b, Pow(a, n - 1), Pow(b, n - 1));
    }
  }

  lemma MonotoneStep(a: real, b: real, pa: real, pb: real)
    requires 0.0 <= a <= b && 0.0 <= pa <= pb
    ensures a * pa <= b * pb
  {
    assert (b - a) * pa >= 0.0;
    assert b * (pb - pa) >= 0.0;
  }

  /** A base of at least one never gives a power below one, and a base in
      [0, 1] never gives a power above one. */
  lemma {:induction false} PowVersusOne(x: real, n: nat)
    ensures x >= 1.0 ==> Pow(x, n) >= 1.0
    ensures 0.0 <= x <= 1.0 ==> Pow(x, n) <= 1.0
  {
    if n > 0 {
      PowVersusOne(x, n - 1);
      PowSign(x, n - 1);
      if x >= 1.0 {
        MonotoneStep(1.0, x, 1.0, Pow(x, n - 1));
      }
      if 0.0 <= x <= 1.0 {
        MonotoneStep(x, 1.0, Pow(x, n - 1), 1.0);
      }
    }
  }

  /** A positive power of a base other than 1 and -1 is never 1. */
  lemma PowNotOne(x: real, n: nat)
    requires n >= 1 && x != 1.0 && x != -1.0
    ensures Pow(x, n) != 1.0
  {
    PowNegate(x, n);
    if x < 0.0 {
      PowAbsNotOne(-x, n);
    } else {
      PowAbsNotOne(x, n);
    }
  }

  /** A power and the same power of the negated base agree up to sign. */
  lemma {:induction false} PowNegate(x: real, n: nat)
    ensures Pow(-x, n) == Pow(x, n) || Pow(-x, n) == -Pow(x, n)
  {
    if n > 0 {
      PowNegate(x, n - 1);
      if Pow(-x, n - 1) == Pow(x, n - 1) {
        MulLeft(-x, Pow(-x, n - 1), Pow(x, n - 1));
      } else {
        MulLeft(-x, Pow(-x, n - 1), -Pow(x, n - 1));
      }
    }
  }

  lemma PowAbsNotOne(a: real, n: nat)
    requires a >= 0.0 && a != 1.0 && n >= 1
    ensures Pow(a, n) != 1.0 && Pow(a, n) != -1.0
  {
    PowVersusOne(a, n - 1);
    PowSign(a, n - 1);
    if a > 1.0 {
      StrictStep(1.0, a, 1.0, Pow(a, n - 1));
    } else {
      StrictStep(a, 1.0, Pow(a, n - 1), 1.0);
    }
  }

  lemma StrictStep(a: real, b: real, pa: real, pb: real)
    requires 0.0 <= a < b && 0.0 <= pa <= pb && pb > 0.0
    ensures a * pa < b * pb
  {
    assert (b - a) * pb > 0.0;
    assert a * (pb - pa) >= 0.0;
  }

  /** The sum gains its highest term last: 1 + ... + x^(n-1) is the sum of
      the first n - 1 terms plus x^(n-1). */
  lemma {:induction false} GeoSumAppend(x: real, n: nat)
    requires n >= 1
    ensures GeoSum(x, n) == GeoSum(x, n - 1) + Pow(x, n - 1)
  {
    if n > 1 {
      GeoSumAppend(x, n - 1);
      MulLeft(x, GeoSum(x, n - 1), GeoSum(x, n - 2) + Pow(x, n - 2));
    }
  }

  /** For a non-negative base the sum is non-negative, and at least its
      first term 1 once it has one. */
  lemma {:induction false} GeoSumSign(x: real, n: nat)
    requires x >= 0.0
    ensures GeoSum(x, n) >= 0.0
    ensures n >= 1 ==> GeoSum(x, n) >= 1.0
  {
    if n > 0 {
      GeoSumSign(x, n - 1);
      MonotoneStep(0.0, x, GeoSum(x, n - 1), GeoSum(x, n - 1));
    }
  }

  /** The geometric series satisfies (x - 1) * (1 + x + ... + x^(n-1)) == x^n - 1. */
  lemma {:induction false} GeoSumClosedForm(x: real, n: nat)
    ensures (x - 1.0) * GeoSum(x, n) == Pow(x, n) - 1.0
  {
    if n > 0 {
      GeoSumClosedForm(x, n - 1);
      ClosedFormStep(x, GeoSum(x, n - 1), Pow(x, n - 1));
    }
  }

  lemma ClosedFormStep(x: real, g: real, p: real)
    requires (x - 1.0) * g == p - 1.0
    ensures (x - 1.0) * (1.0 + x * g) == x * p - 1.0
  {
    MulLeft(x, (x - 1.0) * g, p - 1.0);
  }

  /** The closed form in terms of a growth rate r: r * (1 + (1+r) + ... + (1+r)^(n-1)) == (1+r)^n - 1. */
  lemma GeoSumRate(r: real, n: nat)
    ensures r * GeoSum(1.0 + r, n) == Pow(1.0 + r, n) - 1.0
  {
    GeoSumClosedForm(1.0 + r, n);
  }

  /** For a base of at least one, each of the n terms is at most x^n. */
  lemma {:induction false} GeoSumAtMost(x: real, n: nat)
    requires x >= 1.0
    ensures GeoSum(x, n) <= n as real * Pow(x, n)
  {
    if n > 0 {
      GeoSumAtMost(x, n - 1);
      GeoSumSign(x, n - 1);
      PowVersusOne(x, n - 1);
      AtMostStep(x, GeoSum(x, n - 1), Pow(x, n - 1), (n - 1) as real, Pow(x, n), n as real);
    }
  }

  lemma AtMostStep(x: real, g: real, p: real, k: real, q: real, m: real)
    requires x >= 1.0 && p >= 1.0 && k >= 0.0 && 0.0 <= g <= k * p
    requires q == x * p && m == k + 1.0
    ensures 1.0 + x * g <= m * q
  {
    MonotoneStep(x, x, g, k * p);
    assert x * (k * p) == k * q;
    MonotoneStep(1.0, x, 1.0, p);
    MulLeft(q, m, k + 1.0);
  }

  /** term(1) + term(2) + ... + term(n): the total a loop over years 1..n
      accumulates. */
  function SeriesSum(term: nat -> real, n: nat): real
  {
    if n == 0 then 0.0 else SeriesSum(term, n - 1) + term(n)
  }

  /** A series whose year-y term is f * g^(y-1) sums to f times the
      geometric sum. */
  lemma {:induction false} GeometricSeries(term: nat -> real, f: real, g: real, n: nat)
    requires forall y :: 1 <= y <= n ==> term(y) == f * Pow(g, y - 1)
    ensures SeriesSum(term, n) == f * GeoSum(g, n)
    decreases n
  {
    if n > 0 {
      GeometricSeries(term, f, g, n - 1);
      GeometricStep(term, f, g, n);
    }
  }

  lemma GeometricStep(term: nat -> real, f: real, g: real, n: nat)
    requires n >= 1 && SeriesSum(term, n - 1) == f * GeoSum(g, n - 1) && term(n) == f * Pow(g, n - 1)
    ensures SeriesSum(term, n) == f * GeoSum(g, n)
  {
    GeoSumAppend(g, n);
    SumStep(SeriesSum(term, n - 1), term(n), f, GeoSum(g, n - 1), Pow(g, n - 1), GeoSum(g, n));
  }

  /** One more term of a scaled sum: f * G + f * p == f * (G + p). */
  lemma SumStep(t: real, u: real, f: real, gs: real, p: real, gs1: real)
    requires t == f * gs && u == f * p && gs1 == gs + p
    ensures t + u == f * gs1
  {
    MulLeft(f, gs1, gs + p);
  }

  /** A series that is termwise no larger has no larger a sum. */
  lemma {:induction false} SeriesMonotone(a: nat -> real, b: nat -> real, n: nat)
    requires forall y :: 1 <= y <= n ==> a(y) <= b(y)
    ensures SeriesSum(a, n) <= SeriesSum(b, n)
  {
    if n > 0 {
      SeriesMonotone(a, b, n - 1);
    }
  }
}
