/** Complex numbers over the reals: the value type of every calibration quantity
    (raw measurements, ideal standard coefficients and error terms).
    Arithmetic is exact; division asks for a nonzero divisor instead of producing
    an infinity or NaN as floating point would. */
module ComplexNumbers {

  datatype Complex = Complex(re: real, im: real)

  const Zero: Complex := Complex(0.0, 0.0)
  const One: Complex := Complex(1.0, 0.0)

  function Of(x: real): Complex { Complex(x, 0.0) }

  /** Products of real numbers stay real. */
  lemma MulOf(a: real, b: real)
    ensures Mul(Of(a), Of(b)) == Of(a * b)
  {
  }

  function Add(a: Complex, b: Complex): Complex { Complex(a.re + b.re, a.im + b.im) }

  /** Sums of real numbers stay real. */
  lemma AddOf(a: real, b: real)
    ensures Add(Of(a), Of(b)) == Of(a + b)
  {
  }

  function Sub(a: Complex, b: Complex): Complex { Complex(a.re - b.re, a.im - b.im) }

  function Neg(a: Complex): Complex { Complex(-a.re, -a.im) }

  function Mul(a: Complex, b: Complex): Complex {
    Complex(a.re * b.re - a.im * b.im, a.re * b.im + a.im * b.re)
  }

  function Conj(a: Complex): Complex { Complex(a.re, -a.im) }

  /** |b|^2, written as the real part of b times its conjugate. */
  function NormSq(b: Complex): real { Mul(b, Conj(b)).re }

  lemma PosTimesPos(x: real, y: real)
    requires x > 0.0 && y > 0.0
    ensures x * y > 0.0
  {}

  lemma NegTimesNeg(x: real, y: real)
    requires x < 0.0 && y < 0.0
    ensures x * y > 0.0
  {}

  /** The product of a real with itself is nonnegative, and positive unless it is zero. */
  lemma SelfProduct(x: real, y: real)
    requires x == y
    ensures x * y >= 0.0
    ensures x != 0.0 ==> x * y > 0.0
  {
    if x > 0.0 {
      PosTimesPos(x, y);
    } else if x < 0.0 {
      NegTimesNeg(x, y);
    }
  }

  /** |b|^2 is positive when b is not zero. */
  lemma NormSqPositive(b: Complex)
    requires b != Zero
    ensures NormSq(b) > 0.0
  {
    var c := Conj(b);
    SelfProduct(b.re, c.re);
    SelfProduct(-b.im, c.im);
  }

  /** a / b, defined by the product with the conjugate of b over |b|^2. */
  function Div(a: Complex, b: Complex): (q: Complex)
    requires b != Zero
    ensures Mul(q, b) == a
  {
    NormSqPositive(b);
    var n := NormSq(b);
    var q := Complex((a.re * b.re + a.im * b.im) / n, (a.im * b.re - a.re * b.im) / n);
    assert q.re * n == a.re * b.re + a.im * b.im;
    assert q.im * n == a.im * b.re - a.re * b.im;
    assert (q.re * b.re - q.im * b.im) * n == a.re * n;
    assert (q.re * b.im + q.im * b.re) * n == a.im * n;
    q
  }

  // ---------------------------------------------------------------------------
  // Field facts

  /** A product of nonzero numbers is nonzero (no zero divisors). */
  lemma MulNonZero(a: Complex, b: Complex)
    requires a != Zero && b != Zero
    ensures Mul(a, b) != Zero
  {
    var p := Mul(a, b);
    NormSqPositive(b);
    var n := NormSq(b);
    assert p.re * b.re + p.im * b.im == a.re * n;
    assert p.im * b.re - p.re * b.im == a.im * n;
    assert a.re != 0.0 || a.im != 0.0;
    assert a.re * n != 0.0 || a.im * n != 0.0;
  }

  /** Division is the unique solution of q * b == a. */
  lemma DivUnique(a: Complex, b: Complex, q: Complex)
    requires b != Zero
    ensures Div(a, b) == q <==> Mul(q, b) == a
  {
    if Mul(q, b) == a {
      var d := Sub(q, Div(a, b));
      assert Mul(d, b) == Sub(Mul(q, b), Mul(Div(a, b), b));
      if d != Zero {
        MulNonZero(d, b);
      }
    }
  }

  /** A nonzero product has nonzero factors. */
  lemma NonZeroFactors(a: Complex, b: Complex)
    requires Mul(a, b) != Zero
    ensures a != Zero && b != Zero
  {
  }

  /** Sum of two fractions over a common product denominator. */
  lemma AddFractions(a: Complex, b: Complex, c: Complex, d: Complex)
    requires b != Zero && d != Zero
    ensures Mul(b, d) != Zero
    ensures Add(Div(a, b), Div(c, d)) == Div(Add(Mul(a, d), Mul(c, b)), Mul(b, d))
  {
    MulNonZero(b, d);
    var x, y := Div(a, b), Div(c, d);
    FractionSumCleared(x, y, b, d);
    DivUnique(Add(Mul(a, d), Mul(c, b)), Mul(b, d), Add(x, y));
  }

  lemma FractionSumCleared(x: Complex, y: Complex, b: Complex, d: Complex)
    ensures Mul(Add(x, y), Mul(b, d)) == Add(Mul(Mul(x, b), d), Mul(Mul(y, d), b))
  {
    RingRules();
  }

  lemma NegDiv(a: Complex, d: Complex)
    requires d != Zero
    ensures Div(Neg(a), d) == Neg(Div(a, d))
  {
    var q := Div(a, d);
    assert Mul(Neg(q), d) == Neg(Mul(q, d));
    DivUnique(Neg(a), d, Neg(q));
  }

  lemma SubZeroIff(a: Complex, b: Complex)
    ensures Sub(a, b) == Zero <==> a == b
  {
  }

  lemma MulDivCancel(a: Complex, d: Complex)
    requires d != Zero
    ensures Div(Mul(a, d), d) == a
  {
    DivUnique(Mul(a, d), d, a);
  }

  lemma AddDivs(a: Complex, b: Complex, d: Complex)
    requires d != Zero
    ensures Add(Div(a, d), Div(b, d)) == Div(Add(a, b), d)
  {
    var x, y := Div(a, d), Div(b, d);
    MulAddRight(x, y, d);
    DivUnique(Add(a, b), d, Add(x, y));
  }

  /** A nonzero factor cancels from both sides of an equation. */
  lemma CancelRight(a: Complex, b: Complex, c: Complex)
    requires c != Zero && Mul(a, c) == Mul(b, c)
    ensures a == b
  {
    MulDivCancel(a, c);
    MulDivCancel(b, c);
  }

  lemma MulNonZeroContra(a: Complex, b: Complex)
    requires b != Zero && Mul(a, b) == Zero
    ensures a == Zero
  {
    if a != Zero {
      MulNonZero(a, b);
    }
  }

  lemma DivNonZero(a: Complex, b: Complex)
    requires a != Zero && b != Zero
    ensures Div(a, b) != Zero
  {
  }

  lemma DivSelf(a: Complex)
    requires a != Zero
    ensures Div(a, a) == One
  {
    DivUnique(a, a, One);
  }

  lemma DivOne(a: Complex)
    ensures Div(a, One) == a
  {
    DivUnique(a, One, a);
  }

  lemma DivZero(b: Complex)
    requires b != Zero
    ensures Div(Zero, b) == Zero
  {
    DivUnique(Zero, b, Zero);
  }

  /** a * (n / d) == (a * n) / d */
  lemma MulDiv(a: Complex, n: Complex, d: Complex)
    requires d != Zero
    ensures Mul(a, Div(n, d)) == Div(Mul(a, n), d)
  {
    RingRules();
    var q := Div(n, d);
    assert Mul(Mul(a, q), d) == Mul(a, Mul(q, d));
    DivUnique(Mul(a, n), d, Mul(a, q));
  }

  // ---------------------------------------------------------------------------
  // Ring normalisation. The facts below orient distribution left to right and
  // spell out products of three and four numbers componentwise; with them in
  // scope, the solver checks a polynomial identity by comparing monomials.

  function Prod3(x: Complex, y: Complex, z: Complex): Complex {
    Complex(x.re * y.re * z.re - x.re * y.im * z.im - x.im * y.re * z.im - x.im * y.im * z.re,
            x.re * y.re * z.im + x.re * y.im * z.re + x.im * y.re * z.re - x.im * y.im * z.im)
  }

  function Prod4(w: Complex, x: Complex, y: Complex, z: Complex): Complex {
    Complex(w.re * x.re * y.re * z.re
              - w.re * x.re * y.im * z.im - w.re * x.im * y.re * z.im - w.re * x.im * y.im * z.re
              - w.im * x.re * y.re * z.im - w.im * x.re * y.im * z.re - w.im * x.im * y.re * z.re
              + w.im * x.im * y.im * z.im,
            w.re * x.re * y.re * z.im + w.re * x.re * y.im * z.re + w.re * x.im * y.re * z.re
              + w.im * x.re * y.re * z.re
              - w.re * x.im * y.im * z.im - w.im * x.re * y.im * z.im - w.im * x.im * y.re * z.im
              - w.im * x.im * y.im * z.re)
  }

  lemma MulComm(a: Complex, b: Complex)
    ensures Mul(a, b) == Mul(b, a)
  {
  }

  lemma MulAssoc(a: Complex, b: Complex, c: Complex)
    ensures Mul(Mul(a, b), c) == Mul(a, Mul(b, c))
  {
  }

  lemma MulAddRight(a: Complex, b: Complex, c: Complex)
    ensures Mul(Add(a, b), c) == Add(Mul(a, c), Mul(b, c))
  {
  }

  lemma MulAddRule()
    ensures forall x, y, z :: Mul(x, Add(y, z)) == Add(Mul(x, y), Mul(x, z))
  {
  }

  lemma AddMulRule()
    ensures forall x, y, z :: Mul(Add(x, y), z) == Add(Mul(x, z), Mul(y, z))
  {
  }

  lemma MulSubRule()
    ensures forall x, y, z :: Mul(x, Sub(y, z)) == Sub(Mul(x, y), Mul(x, z))
  {
  }

  lemma SubMulRule()
    ensures forall x, y, z :: Mul(Sub(x, y), z) == Sub(Mul(x, z), Mul(y, z))
  {
  }

  lemma NegRules()
    ensures forall x, y :: Mul(x, Neg(y)) == Neg(Mul(x, y))
    ensures forall x, y :: Mul(Neg(x), y) == Neg(Mul(x, y))
  {
  }

  lemma DistributionRules()
    ensures forall x, y, z :: Mul(x, Add(y, z)) == Add(Mul(x, y), Mul(x, z))
    ensures forall x, y, z :: Mul(Add(x, y), z) == Add(Mul(x, z), Mul(y, z))
    ensures forall x, y, z :: Mul(x, Sub(y, z)) == Sub(Mul(x, y), Mul(x, z))
    ensures forall x, y, z :: Mul(Sub(x, y), z) == Sub(Mul(x, z), Mul(y, z))
    ensures forall x, y :: Mul(x, Neg(y)) == Neg(Mul(x, y))
    ensures forall x, y :: Mul(Neg(x), y) == Neg(Mul(x, y))
  {
    MulAddRule();
    AddMulRule();
    MulSubRule();
    SubMulRule();
    NegRules();
  }

  lemma Prod3Rules()
    ensures forall x, y, z :: Mul(x, Mul(y, z)) == Prod3(x, y, z)
    ensures forall x, y, z :: Mul(Mul(x, y), z) == Prod3(x, y, z)
  {
  }

  lemma Prod4RightNested(w: Complex, x: Complex, y: Complex, z: Complex)
    ensures Mul(w, Mul(x, Mul(y, z))) == Prod4(w, x, y, z)
  {
  }

  lemma Prod4Rules()
    ensures forall w, x, y, z :: Mul(w, Mul(x, Mul(y, z))) == Prod4(w, x, y, z)
    ensures forall w, x, y, z :: Mul(Mul(w, x), Mul(y, z)) == Prod4(w, x, y, z)
    ensures forall w, x, y, z :: Mul(Mul(Mul(w, x), y), z) == Prod4(w, x, y, z)
    ensures forall w, x, y, z :: Mul(Mul(w, Mul(x, y)), z) == Prod4(w, x, y, z)
    ensures forall w, x, y, z :: Mul(w, Mul(Mul(x, y), z)) == Prod4(w, x, y, z)
  {
    forall w, x, y, z ensures Mul(w, Mul(x, Mul(y, z))) == Prod4(w, x, y, z) {
      Prod4RightNested(w, x, y, z);
    }
    forall w, x, y, z ensures Mul(Mul(w, x), Mul(y, z)) == Prod4(w, x, y, z) {
      MulAssoc(w, x, Mul(y, z));
      Prod4RightNested(w, x, y, z);
    }
    forall w, x, y, z ensures Mul(Mul(Mul(w, x), y), z) == Prod4(w, x, y, z) {
      MulAssoc(Mul(w, x), y, z);
      MulAssoc(w, x, Mul(y, z));
      Prod4RightNested(w, x, y, z);
    }
    forall w, x, y, z ensures Mul(Mul(w, Mul(x, y)), z) == Prod4(w, x, y, z) {
      MulAssoc(w, Mul(x, y), z);
      MulAssoc(x, y, z);
      Prod4RightNested(w, x, y, z);
    }
    forall w, x, y, z ensures Mul(w, Mul(Mul(x, y), z)) == Prod4(w, x, y, z) {
      MulAssoc(x, y, z);
      Prod4RightNested(w, x, y, z);
    }
  }

  /** Brings every normalisation fact into scope at once. */
  lemma RingRules()
    ensures forall x, y, z :: Mul(x, Add(y, z)) == Add(Mul(x, y), Mul(x, z))
    ensures forall x, y, z :: Mul(Add(x, y), z) == Add(Mul(x, z), Mul(y, z))
    ensures forall x, y, z :: Mul(x, Sub(y, z)) == Sub(Mul(x, y), Mul(x, z))
    ensures forall x, y, z :: Mul(Sub(x, y), z) == Sub(Mul(x, z), Mul(y, z))
    ensures forall x, y :: Mul(x, Neg(y)) == Neg(Mul(x, y))
    ensures forall x, y :: Mul(Neg(x), y) == Neg(Mul(x, y))
    ensures forall x, y, z :: Mul(x, Mul(y, z)) == Prod3(x, y, z)
    ensures forall x, y, z :: Mul(Mul(x, y), z) == Prod3(x, y, z)
    ensures forall w, x, y, z :: Mul(w, Mul(x, Mul(y, z))) == Prod4(w, x, y, z)
    ensures forall w, x, y, z :: Mul(Mul(w, x), Mul(y, z)) == Prod4(w, x, y, z)
    ensures forall w, x, y, z :: Mul(Mul(Mul(w, x), y), z) == Prod4(w, x, y, z)
    ensures forall w, x, y, z :: Mul(Mul(w, Mul(x, y)), z) == Prod4(w, x, y, z)
    ensures forall w, x, y, z :: Mul(w, Mul(Mul(x, y), z)) == Prod4(w, x, y, z)
  {
    DistributionRules();
    Prod3Rules();
    Prod4Rules();
  }
}
