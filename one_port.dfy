/** One-port Open/Short/Load calibration.

    At every frequency point the raw reflection m of a standard whose true
    reflection is g follows the bilinear error model
        m = D + R * g / (1 - S * g)
    with directivity D, source match S and reflection tracking R. Measuring
    three standards gives three equations that are linear in the unknowns
    x = (R - D * S, D, S); the calibration solves them point by point and
    corrects later raw readings by inverting the model. */
module OnePort {
  import opened Wrappers
  import opened ComplexNumbers
  import opened LinearAlgebra

  const MinusOne: Complex := Complex(-1.0, 0.0)

  /** The error terms of one frequency point. */
  datatype PointTerms = PointTerms(d: Complex, s: Complex, r: Complex)

  /** Raw reflection of a standard with true reflection g, under terms t. */
  function Measured(t: PointTerms, g: Complex): (m: Complex)
    requires Sub(One, Mul(t.s, g)) != Zero
    ensures Mul(Sub(m, t.d), Sub(One, Mul(t.s, g))) == Mul(t.r, g)
  {
    var q := Div(Mul(t.r, g), Sub(One, Mul(t.s, g)));
    assert Sub(Add(t.d, q), t.d) == q;
    Add(t.d, q)
  }

  /** The denominator of the correction formula. */
  function CorrectionDenominator(t: PointTerms, m: Complex): Complex {
    Add(t.r, Mul(t.s, Sub(m, t.d)))
  }

  /** The corrected reflection (m - D) / (R + S * (m - D)). */
  function Corrected(t: PointTerms, m: Complex): (g: Complex)
    requires CorrectionDenominator(t, m) != Zero
    ensures Mul(g, CorrectionDenominator(t, m)) == Sub(m, t.d)
  {
    Div(Sub(m, t.d), CorrectionDenominator(t, m))
  }

  /** The unknowns of the linear system that belong to the terms t. */
  function Unknowns(t: PointTerms): Vec3 {
    Vec3(Sub(t.r, Mul(t.d, t.s)), t.d, t.s)
  }

  /** The terms read off a solution vector: D = x1, S = x2, R = x0 + x1 * x2.
      This is the inverse of Unknowns. */
  function TermsOf(x: Vec3): (t: PointTerms)
    ensures Unknowns(t) == x
  {
    var t := PointTerms(x.x1, x.x2, Add(x.x0, Mul(x.x1, x.x2)));
    assert Sub(Add(x.x0, Mul(x.x1, x.x2)), Mul(x.x1, x.x2)) == x.x0;
    t
  }

  lemma TermsOfUnknowns(t: PointTerms)
    ensures TermsOf(Unknowns(t)) == t
  {
    assert Add(Sub(t.r, Mul(t.d, t.s)), Mul(t.d, t.s)) == t.r;
  }

  /** The row of the system that belongs to a standard with ideal reflection g
      and raw reading m. */
  function Row(g: Complex, m: Complex): Vec3 {
    Vec3(g, One, Mul(g, m))
  }

  /** The system matrix at one point: rows for load, open and short. */
  function SystemMatrix(gLoad: Complex, gOpen: Complex, gShort: Complex,
                        mLoad: Complex, mOpen: Complex, mShort: Complex): Mat3 {
    Mat3(Row(gLoad, mLoad), Row(gOpen, mOpen), Row(gShort, mShort))
  }

  /** The right-hand side at one point: the raw readings in the same order. */
  function SystemVector(mLoad: Complex, mOpen: Complex, mShort: Complex): Vec3 {
    Vec3(mLoad, mOpen, mShort)
  }

  /** A row equation holds exactly when the reading follows the error model
      with the terms read off the solution vector. */
  lemma RowMeaning(x: Vec3, g: Complex, m: Complex)
    requires Sub(One, Mul(x.x2, g)) != Zero
    ensures Dot(Row(g, m), x) == m <==> m == Measured(TermsOf(x), g)
  {
    var t := TermsOf(x);
    var u := Sub(One, Mul(x.x2, g));
    var model := Measured(t, g);
    RowCleared(x, g, m);
    RowCleared(x, g, model);
    if Dot(Row(g, m), x) == m {
      assert Mul(Sub(m, t.d), u) == Mul(t.r, g);
      SameClearedReading(t, g, m, model);
    }
  }

  /** Dot(Row(g, m), x) == m, with the denominator of the model cleared. */
  lemma RowCleared(x: Vec3, g: Complex, m: Complex)
    ensures Dot(Row(g, m), x) == m
        <==> Mul(Sub(m, x.x1), Sub(One, Mul(x.x2, g))) == Mul(Add(x.x0, Mul(x.x1, x.x2)), g)
  {
    var lhs := Dot(Row(g, m), x);
    RowIdentity(x, g, m);
    SubZeroIff(lhs, m);
    SubZeroIff(Mul(Add(x.x0, Mul(x.x1, x.x2)), g), Mul(Sub(m, x.x1), Sub(One, Mul(x.x2, g))));
  }

  lemma RowIdentity(x: Vec3, g: Complex, m: Complex)
    ensures Sub(Dot(Row(g, m), x), m)
         == Sub(Mul(Add(x.x0, Mul(x.x1, x.x2)), g), Mul(Sub(m, x.x1), Sub(One, Mul(x.x2, g))))
  {
    ExpandTracking(x.x0, x.x1, x.x2, g);
    ExpandCleared(x.x1, x.x2, g, m);
    ExpandRowProduct(g, m, x.x2);
    assert Mul(One, x.x1) == x.x1;
  }

  lemma ExpandTracking(x0: Complex, x1: Complex, x2: Complex, g: Complex)
    ensures Mul(Add(x0, Mul(x1, x2)), g) == Add(Mul(x0, g), Prod3(x1, x2, g))
  {
    RingRules();
  }

  lemma ExpandCleared(x1: Complex, x2: Complex, g: Complex, m: Complex)
    ensures Mul(Sub(m, x1), Sub(One, Mul(x2, g)))
         == Sub(Sub(m, x1), Sub(Prod3(m, x2, g), Prod3(x1, x2, g)))
  {
    RingRules();
  }

  lemma ExpandRowProduct(g: Complex, m: Complex, x2: Complex)
    ensures Mul(Mul(g, m), x2) == Prod3(m, x2, g)
  {
    Prod3Rules();
  }

  /** Two readings that satisfy the same cleared model equation are equal. */
  lemma SameClearedReading(t: PointTerms, g: Complex, m: Complex, n: Complex)
    requires Sub(One, Mul(t.s, g)) != Zero
    requires Mul(Sub(m, t.d), Sub(One, Mul(t.s, g))) == Mul(t.r, g)
    requires Mul(Sub(n, t.d), Sub(One, Mul(t.s, g))) == Mul(t.r, g)
    ensures m == n
  {
    var u := Sub(One, Mul(t.s, g));
    DivUnique(Mul(t.r, g), u, Sub(m, t.d));
    DivUnique(Mul(t.r, g), u, Sub(n, t.d));
    assert Add(Sub(m, t.d), t.d) == m;
    assert Add(Sub(n, t.d), t.d) == n;
  }

  // ---------------------------------------------------------------------------
  // Correction inverts the error model

  /** Correcting the model reading of a standard gives back its true reflection. */
  lemma CorrectMeasured(t: PointTerms, g: Complex)
    requires Sub(One, Mul(t.s, g)) != Zero
    requires t.r != Zero
    ensures CorrectionDenominator(t, Measured(t, g)) != Zero
    ensures Corrected(t, Measured(t, g)) == g
  {
    var u := Sub(One, Mul(t.s, g));
    var q := Div(Mul(t.r, g), u);
    var m := Measured(t, g);
    assert Sub(m, t.d) == q;
    var den := CorrectionDenominator(t, m);
    MulAddRight(t.r, Mul(t.s, q), u);
    MulAssoc(t.s, q, u);
    TrackingCancel(t.r, t.s, g);
    assert Mul(den, u) == t.r;
    DivUnique(t.r, u, den);
    DivNonZero(t.r, u);
    MulDiv(g, t.r, u);
    MulComm(g, t.r);
    assert Mul(g, den) == q;
    DivUnique(q, den, g);
  }

  lemma TrackingCancel(r: Complex, s: Complex, g: Complex)
    ensures Add(Mul(r, Sub(One, Mul(s, g))), Mul(s, Mul(r, g))) == r
  {
    TrackingCancelWith(r, s, g, One);
    assert Mul(r, One) == r;
  }

  lemma TrackingCancelWith(r: Complex, s: Complex, g: Complex, o: Complex)
    ensures Add(Mul(r, Sub(o, Mul(s, g))), Mul(s, Mul(r, g))) == Mul(r, o)
  {
    RingRules();
  }

  /** Every reading is the model reading of its corrected reflection. */
  lemma MeasuredCorrected(t: PointTerms, m: Complex)
    requires CorrectionDenominator(t, m) != Zero
    requires t.r != Zero
    ensures Sub(One, Mul(t.s, Corrected(t, m))) != Zero
    ensures Measured(t, Corrected(t, m)) == m
  {
    var den := CorrectionDenominator(t, m);
    var k := Sub(m, t.d);
    var gamma := Corrected(t, m);
    var w := Sub(One, Mul(t.s, gamma));
    SourceMatchCleared(t.s, gamma, den);
    assert Mul(w, den) == t.r;
    NonZeroFactors(w, den);
    MulAssoc(gamma, den, w);
    MulComm(den, w);
    MulComm(gamma, t.r);
    assert Mul(k, w) == Mul(t.r, gamma);
    SameClearedReading(t, gamma, m, Measured(t, gamma));
  }

  lemma SourceMatchCleared(s: Complex, gamma: Complex, den: Complex)
    ensures Mul(Sub(One, Mul(s, gamma)), den) == Sub(den, Mul(s, Mul(gamma, den)))
  {
    RingRules();
  }

  // ---------------------------------------------------------------------------
  // Per-point arrays

  /** The calibration table: one directivity, source match and tracking per point. */
  datatype Cals = Cals(d: seq<Complex>, s: seq<Complex>, r: seq<Complex>)
  {
    predicate Aligned() {
      |d| == |s| == |r|
    }

    function At(i: nat): PointTerms
      requires Aligned() && i < |d|
    {
      PointTerms(d[i], s[i], r[i])
    }

    function Append(t: PointTerms): (c: Cals)
      requires Aligned()
      ensures c.Aligned() && |c.d| == |d| + 1
      ensures c.At(|d|) == t
      ensures forall i :: 0 <= i < |d| ==> c.At(i) == At(i)
    {
      Cals(d + [t.d], s + [t.s], r + [t.r])
    }
  }

  const NoCals: Cals := Cals([], [], [])

  /** The table of a sequence of point terms. */
  function CalsOf(ts: seq<PointTerms>): (c: Cals)
    ensures c.Aligned() && |c.d| == |ts|
    ensures forall i :: 0 <= i < |ts| ==> c.At(i) == ts[i]
  {
    if ts == [] then NoCals else CalsOf(ts[..|ts| - 1]).Append(ts[|ts| - 1])
  }

  /** Whether a raw sequence can be corrected with a table: same length and no
      vanishing denominator. */
  predicate Correctable(c: Cals, m: seq<Complex>) {
    c.Aligned() && |m| == |c.d|
    && forall i :: 0 <= i < |m| ==> CorrectionDenominator(c.At(i), m[i]) != Zero
  }

  /** The correction applied point by point. */
  function CorrectAll(c: Cals, m: seq<Complex>): (g: seq<Complex>)
    requires Correctable(c, m)
    ensures |g| == |m|
  {
    seq(|m|, i requires 0 <= i < |m| => Corrected(c.At(i), m[i]))
  }

  /** Whether every point of a table has a nonzero 1 - S * g for the reflections g. */
  predicate Measurable(c: Cals, g: seq<Complex>) {
    c.Aligned() && |g| == |c.d|
    && forall i :: 0 <= i < |g| ==> Sub(One, Mul(c.s[i], g[i])) != Zero
  }

  /** The model readings of the reflections g, point by point. */
  function MeasuredAll(c: Cals, g: seq<Complex>): (m: seq<Complex>)
    requires Measurable(c, g)
    ensures |m| == |g|
  {
    seq(|g|, i requires 0 <= i < |g| => Measured(c.At(i), g[i]))
  }

  /** Whether every tracking term of a table is nonzero. */
  predicate TrackingNonZero(c: Cals) {
    c.Aligned() && forall i :: 0 <= i < |c.r| ==> c.r[i] != Zero
  }

  /** Correcting the model readings of a sequence of reflections returns that sequence. */
  lemma CorrectAllMeasuredAll(c: Cals, g: seq<Complex>)
    requires Measurable(c, g) && TrackingNonZero(c)
    ensures Correctable(c, MeasuredAll(c, g))
    ensures CorrectAll(c, MeasuredAll(c, g)) == g
  {
    var m := MeasuredAll(c, g);
    forall i | 0 <= i < |g|
      ensures CorrectionDenominator(c.At(i), m[i]) != Zero
      ensures Corrected(c.At(i), m[i]) == g[i]
    {
      CorrectMeasured(c.At(i), g[i]);
    }
  }

  /** Every raw sequence is the model reading of its correction. */
  lemma MeasuredAllCorrectAll(c: Cals, m: seq<Complex>)
    requires Correctable(c, m) && TrackingNonZero(c)
    ensures Measurable(c, CorrectAll(c, m))
    ensures MeasuredAll(c, CorrectAll(c, m)) == m
  {
    var g := CorrectAll(c, m);
    forall i | 0 <= i < |m|
      ensures Sub(One, Mul(c.s[i], g[i])) != Zero
      ensures Measured(c.At(i), g[i]) == m[i]
    {
      MeasuredCorrected(c.At(i), m[i]);
    }
  }

  // ---------------------------------------------------------------------------
  // The solve at one frequency point

  /** Solves the system of one point and reads the error terms off the solution.
      None stands for a singular system, where the matrix inversion fails. */
  function SolvePoint(gLoad: Complex, gOpen: Complex, gShort: Complex,
                      mLoad: Complex, mOpen: Complex, mShort: Complex): (t: Option<PointTerms>)
    ensures t.Some? <==> Det(SystemMatrix(gLoad, gOpen, gShort, mLoad, mOpen, mShort)) != Zero
    ensures t.Some? && Sub(One, Mul(t.value.s, gLoad)) != Zero ==> mLoad == Measured(t.value, gLoad)
    ensures t.Some? && Sub(One, Mul(t.value.s, gOpen)) != Zero ==> mOpen == Measured(t.value, gOpen)
    ensures t.Some? && Sub(One, Mul(t.value.s, gShort)) != Zero ==> mShort == Measured(t.value, gShort)
  {
    var c := SystemMatrix(gLoad, gOpen, gShort, mLoad, mOpen, mShort);
    var v := SystemVector(mLoad, mOpen, mShort);
    match OnePortCalibration.CalculateErrorMatrix(c, v)
    case None => None
    case Some(x) =>
      RowFollowsModel(x, gLoad, mLoad);
      RowFollowsModel(x, gOpen, mOpen);
      RowFollowsModel(x, gShort, mShort);
      Some(TermsOf(x))
  }

  /** A satisfied row says the reading follows the model of the solved terms,
      wherever that model is defined. */
  lemma RowFollowsModel(x: Vec3, g: Complex, m: Complex)
    requires Dot(Row(g, m), x) == m
    ensures Sub(One, Mul(x.x2, g)) != Zero ==> m == Measured(TermsOf(x), g)
  {
    if Sub(One, Mul(x.x2, g)) != Zero {
      RowMeaning(x, g, m);
    }
  }

  /** The solution is unique: the terms that reproduce all three readings are the
      ones the solve returns, whenever the system is regular. */
  lemma SolvePointUnique(t: PointTerms, gLoad: Complex, gOpen: Complex, gShort: Complex)
    requires Sub(One, Mul(t.s, gLoad)) != Zero
    requires Sub(One, Mul(t.s, gOpen)) != Zero
    requires Sub(One, Mul(t.s, gShort)) != Zero
    requires Det(SystemMatrix(gLoad, gOpen, gShort,
                              Measured(t, gLoad), Measured(t, gOpen), Measured(t, gShort))) != Zero
    ensures SolvePoint(gLoad, gOpen, gShort,
                       Measured(t, gLoad), Measured(t, gOpen), Measured(t, gShort)) == Some(t)
  {
    var mLoad, mOpen, mShort := Measured(t, gLoad), Measured(t, gOpen), Measured(t, gShort);
    var x := Unknowns(t);
    TermsOfUnknowns(t);
    RowMeaning(x, gLoad, mLoad);
    RowMeaning(x, gOpen, mOpen);
    RowMeaning(x, gShort, mShort);
    var c := SystemMatrix(gLoad, gOpen, gShort, mLoad, mOpen, mShort);
    var v := SystemVector(mLoad, mOpen, mShort);
    assert Apply(c, x) == v;
    SolveUnique(c, v, x);
  }

  // ---------------------------------------------------------------------------
  // The default standards: load 0, open 1, short -1

  /** The determinant of the system as a polynomial in the standards a, b, c
      and their readings p, q, r. */
  function SystemDeterminant(a: Complex, b: Complex, c: Complex,
                             p: Complex, q: Complex, r: Complex): (d: Complex)
    ensures d == Det(SystemMatrix(a, b, c, p, q, r))
  {
    SystemDeterminantWith(a, b, c, p, q, r, One);
    OneTimes(Add(Add(Mul(Mul(a, p), Sub(b, c)), Mul(Mul(b, q), Sub(c, a))), Mul(Mul(c, r), Sub(a, b))));
    Add(Add(Mul(Mul(a, p), Sub(b, c)), Mul(Mul(b, q), Sub(c, a))), Mul(Mul(c, r), Sub(a, b)))
  }

  lemma SystemDeterminantWith(a: Complex, b: Complex, c: Complex,
                              p: Complex, q: Complex, r: Complex, o: Complex)
    ensures Det(Mat3(Vec3(a, o, Mul(a, p)), Vec3(b, o, Mul(b, q)), Vec3(c, o, Mul(c, r))))
         == Mul(o, Add(Add(Mul(Mul(a, p), Sub(b, c)), Mul(Mul(b, q), Sub(c, a))), Mul(Mul(c, r), Sub(a, b))))
  {
    RingRules();
  }

  lemma OneTimes(x: Complex)
    ensures Mul(One, x) == x && Mul(x, One) == x
  {
  }

  lemma MinusOneTimes(x: Complex)
    ensures Mul(MinusOne, x) == Neg(x) && Mul(x, MinusOne) == Neg(x)
  {
  }

  lemma ZeroTimes(x: Complex)
    ensures Mul(Zero, x) == Zero && Mul(x, Zero) == Zero
  {
  }

  /** With the default standards the determinant is mShort - mOpen. */
  lemma DefaultDeterminant(mLoad: Complex, mOpen: Complex, mShort: Complex)
    ensures Det(SystemMatrix(Zero, One, MinusOne, mLoad, mOpen, mShort)) == Sub(mShort, mOpen)
  {
    var d := SystemDeterminant(Zero, One, MinusOne, mLoad, mOpen, mShort);
    ZeroTimes(mLoad);
    ZeroTimes(Sub(One, MinusOne));
    OneTimes(mOpen);
    MinusOneTimes(mShort);
    MinusOneTimes(mOpen);
    assert Sub(MinusOne, Zero) == MinusOne;
    assert Sub(Zero, One) == MinusOne;
    MinusOneTimes(Neg(mShort));
  }

  /** The closed-form solution for the default standards. */
  function DefaultSolution(mLoad: Complex, mOpen: Complex, mShort: Complex): Vec3
    requires mOpen != mShort
  {
    var x2 := Div(Sub(Add(mOpen, mShort), Add(mLoad, mLoad)), Sub(mOpen, mShort));
    Vec3(Sub(Sub(mOpen, mLoad), Mul(mOpen, x2)), mLoad, x2)
  }

  /** With the default standards the system is regular exactly when the open and
      short readings differ, and then its solution has a closed form. */
  lemma DefaultRegular(mLoad: Complex, mOpen: Complex, mShort: Complex)
    requires mOpen != mShort
    ensures OnePortCalibration.CalculateErrorMatrix(
              SystemMatrix(Zero, One, MinusOne, mLoad, mOpen, mShort),
              SystemVector(mLoad, mOpen, mShort))
         == Some(DefaultSolution(mLoad, mOpen, mShort))
  {
    DefaultDeterminant(mLoad, mOpen, mShort);
    SubZeroIff(mShort, mOpen);
    DefaultSolves(mLoad, mOpen, mShort);
    ErrorMatrixOfSolution(SystemMatrix(Zero, One, MinusOne, mLoad, mOpen, mShort),
                          SystemVector(mLoad, mOpen, mShort), DefaultSolution(mLoad, mOpen, mShort));
  }

  /** The closed form solves the system of the default standards. */
  lemma DefaultSolves(mLoad: Complex, mOpen: Complex, mShort: Complex)
    requires mOpen != mShort
    ensures Apply(SystemMatrix(Zero, One, MinusOne, mLoad, mOpen, mShort),
                  DefaultSolution(mLoad, mOpen, mShort))
         == SystemVector(mLoad, mOpen, mShort)
  {
    var x := DefaultSolution(mLoad, mOpen, mShort);
    DefaultRows(mLoad, mOpen, mShort, x.x0, x.x2);
    SystemSolved(Zero, One, MinusOne, mLoad, mOpen, mShort, x);
  }

  /** With the default standards, equal open and short readings make the system
      singular. */
  lemma DefaultSingular(mLoad: Complex, mOpen: Complex, mShort: Complex)
    requires mOpen == mShort
    ensures OnePortCalibration.CalculateErrorMatrix(
              SystemMatrix(Zero, One, MinusOne, mLoad, mOpen, mShort),
              SystemVector(mLoad, mOpen, mShort))
         == None
  {
    DefaultDeterminant(mLoad, mOpen, mShort);
    SubZeroIff(mShort, mOpen);
    ErrorMatrixSingular(SystemMatrix(Zero, One, MinusOne, mLoad, mOpen, mShort),
                        SystemVector(mLoad, mOpen, mShort));
  }

  lemma ErrorMatrixOfSolution(c: Mat3, v: Vec3, x: Vec3)
    requires Det(c) != Zero && Apply(c, x) == v
    ensures OnePortCalibration.CalculateErrorMatrix(c, v) == Some(x)
  {
    SolveUnique(c, v, x);
  }

  lemma ErrorMatrixSingular(c: Mat3, v: Vec3)
    requires Det(c) == Zero
    ensures OnePortCalibration.CalculateErrorMatrix(c, v) == None
  {
  }

  /** A vector that satisfies the three rows solves the system. */
  lemma SystemSolved(gLoad: Complex, gOpen: Complex, gShort: Complex,
                     mLoad: Complex, mOpen: Complex, mShort: Complex, x: Vec3)
    requires Dot(Row(gLoad, mLoad), x) == mLoad
    requires Dot(Row(gOpen, mOpen), x) == mOpen
    requires Dot(Row(gShort, mShort), x) == mShort
    ensures Apply(SystemMatrix(gLoad, gOpen, gShort, mLoad, mOpen, mShort), x)
         == SystemVector(mLoad, mOpen, mShort)
  {
  }

  /** The closed form satisfies the three row equations of the default standards. */
  lemma DefaultRows(mLoad: Complex, mOpen: Complex, mShort: Complex, x0: Complex, x2: Complex)
    requires mOpen != mShort
    requires x2 == Div(Sub(Add(mOpen, mShort), Add(mLoad, mLoad)), Sub(mOpen, mShort))
    requires x0 == Sub(Sub(mOpen, mLoad), Mul(mOpen, x2))
    ensures Dot(Row(Zero, mLoad), Vec3(x0, mLoad, x2)) == mLoad
    ensures Dot(Row(One, mOpen), Vec3(x0, mLoad, x2)) == mOpen
    ensures Dot(Row(MinusOne, mShort), Vec3(x0, mLoad, x2)) == mShort
  {
    SubZeroIff(mOpen, mShort);
    assert Mul(x2, Sub(mOpen, mShort)) == Sub(Add(mOpen, mShort), Add(mLoad, mLoad));
    ZeroTimes(x0);
    ZeroTimes(mLoad);
    ZeroTimes(x2);
    OneTimes(x0);
    OneTimes(mLoad);
    OneTimes(mOpen);
    MinusOneTimes(x0);
    MinusOneTimes(mShort);
    ShortRow(mLoad, mOpen, mShort, x0, x2);
  }

  lemma ShortRow(mLoad: Complex, mOpen: Complex, mShort: Complex, x0: Complex, x2: Complex)
    requires Mul(x2, Sub(mOpen, mShort)) == Sub(Add(mOpen, mShort), Add(mLoad, mLoad))
    requires x0 == Sub(Sub(mOpen, mLoad), Mul(mOpen, x2))
    ensures Add(Add(Neg(x0), mLoad), Mul(Neg(mShort), x2)) == mShort
  {
    RingRules();
  }

  /** Readings generated from terms with nonzero tracking and source match other
      than +1 and -1 give distinct open and short readings. */
  lemma DefaultReadingsDistinct(t: PointTerms)
    requires t.r != Zero
    requires Sub(One, t.s) != Zero && Add(One, t.s) != Zero
    ensures Sub(One, Mul(t.s, One)) != Zero && Sub(One, Mul(t.s, MinusOne)) != Zero
    ensures Measured(t, One) != Measured(t, MinusOne)
  {
    var u1, u2 := Sub(One, t.s), Add(One, t.s);
    OneTimes(t.s);
    OneTimes(t.r);
    MinusOneTimes(t.s);
    MinusOneTimes(t.r);
    assert Sub(One, Mul(t.s, MinusOne)) == u2;
    var mOpen, mShort := Measured(t, One), Measured(t, MinusOne);
    assert mOpen == Add(t.d, Div(t.r, u1));
    assert mShort == Add(t.d, Div(Neg(t.r), u2));
    NegDiv(t.r, u2);
    assert Sub(mOpen, mShort) == Add(Div(t.r, u1), Div(t.r, u2));
    AddFractions(t.r, u1, t.r, u2);
    OpenShortGap(t.r, t.s, One);
    assert Add(t.r, t.r) != Zero;
    DivNonZero(Add(t.r, t.r), Mul(u1, u2));
    SubZeroIff(mOpen, mShort);
  }

  lemma OpenShortGap(r: Complex, s: Complex, o: Complex)
    ensures Add(Mul(r, Add(o, s)), Mul(r, Sub(o, s))) == Add(Mul(r, o), Mul(r, o))
  {
    RingRules();
  }

  /** Exact recovery with the default standards: the solve returns the terms that
      generated the three readings. */
  lemma DefaultExactRecovery(t: PointTerms)
    requires t.r != Zero
    requires Sub(One, t.s) != Zero && Add(One, t.s) != Zero
    ensures Sub(One, Mul(t.s, One)) != Zero && Sub(One, Mul(t.s, MinusOne)) != Zero
    ensures SolvePoint(Zero, One, MinusOne, Measured(t, Zero), Measured(t, One), Measured(t, MinusOne))
         == Some(t)
  {
    DefaultReadingsDistinct(t);
    var mLoad, mOpen, mShort := Measured(t, Zero), Measured(t, One), Measured(t, MinusOne);
    DefaultDeterminant(mLoad, mOpen, mShort);
    SubZeroIff(mShort, mOpen);
    SolvePointUnique(t, Zero, One, MinusOne);
  }

  // ---------------------------------------------------------------------------
  // The whole sweep

  /** The raw readings of the three standards, one entry per frequency point. */
  datatype Readings = Readings(open: seq<Complex>, short: seq<Complex>, load: seq<Complex>)
  {
    /** The open and short readings cover every load point (the sweep runs over
        the load points and indexes the other two by the same index). */
    predicate Covers() {
      |open| >= |load| && |short| >= |load|
    }
  }

  /** The ideal reflection coefficients of the three standards. */
  datatype Ideals = Ideals(open: Complex, short: Complex, load: Complex)

  const DefaultIdeals: Ideals := Ideals(One, MinusOne, Zero)

  /** The solve of point i, from entry i of the three readings and the ideals. */
  function PointSolution(rd: Readings, id: Ideals, i: nat): Option<PointTerms>
    requires rd.Covers() && i < |rd.load|
  {
    SolvePoint(id.load, id.open, id.short, rd.load[i], rd.open[i], rd.short[i])
  }

  /** The first point at or after i whose system is singular, or the number of
      points when there is none. */
  function SingularFrom(rd: Readings, id: Ideals, i: nat): (k: nat)
    requires rd.Covers() && i <= |rd.load|
    ensures i <= k <= |rd.load|
    ensures forall j :: i <= j < k ==> PointSolution(rd, id, j).Some?
    ensures k < |rd.load| ==> PointSolution(rd, id, k).None?
    decreases |rd.load| - i
  {
    if i == |rd.load| then i
    else if PointSolution(rd, id, i).None? then i
    else SingularFrom(rd, id, i + 1)
  }

  /** The first singular point of the sweep, or the number of points. */
  function FirstSingular(rd: Readings, id: Ideals): (k: nat)
    requires rd.Covers()
    ensures k <= |rd.load|
    ensures forall j :: 0 <= j < k ==> PointSolution(rd, id, j).Some?
    ensures k < |rd.load| ==> PointSolution(rd, id, k).None?
  {
    SingularFrom(rd, id, 0)
  }

  /** The table of the first k points. */
  function CalibrationUpTo(rd: Readings, id: Ideals, k: nat): (c: Cals)
    requires rd.Covers() && k <= FirstSingular(rd, id)
    ensures c.Aligned() && |c.d| == k
    ensures forall j :: 0 <= j < k ==> c.At(j) == PointSolution(rd, id, j).value
  {
    if k == 0 then NoCals else CalibrationUpTo(rd, id, k - 1).Append(PointSolution(rd, id, k - 1).value)
  }

  /** Whether every point of the sweep has a regular system. */
  predicate Solvable(rd: Readings, id: Ideals) {
    rd.Covers() && FirstSingular(rd, id) == |rd.load|
  }

  /** The table of a sweep whose every point is regular. */
  function Calibration(rd: Readings, id: Ideals): (c: Cals)
    requires Solvable(rd, id)
    ensures c.Aligned() && |c.d| == |rd.load|
    ensures forall j :: 0 <= j < |rd.load| ==> c.At(j) == PointSolution(rd, id, j).value
  {
    CalibrationUpTo(rd, id, |rd.load|)
  }

  /** The solve of point i is the error matrix of its system, read as terms. */
  lemma SolutionOfPoint(rd: Readings, id: Ideals, i: nat, x: Option<Vec3>)
    requires rd.Covers() && i < |rd.load|
    requires x == OnePortCalibration.CalculateErrorMatrix(
                    SystemMatrix(id.load, id.open, id.short, rd.load[i], rd.open[i], rd.short[i]),
                    SystemVector(rd.load[i], rd.open[i], rd.short[i]))
    ensures x.None? <==> PointSolution(rd, id, i).None?
    ensures x.Some? ==> PointSolution(rd, id, i).value == TermsOf(x.value)
  {
  }

  lemma SingularStops(rd: Readings, id: Ideals, i: nat)
    requires rd.Covers() && i <= FirstSingular(rd, id) && i < |rd.load|
    requires PointSolution(rd, id, i).None?
    ensures FirstSingular(rd, id) == i
  {
  }

  lemma RegularContinues(rd: Readings, id: Ideals, i: nat)
    requires rd.Covers() && i <= FirstSingular(rd, id) && i < |rd.load|
    requires PointSolution(rd, id, i).Some?
    ensures i + 1 <= FirstSingular(rd, id)
    ensures CalibrationUpTo(rd, id, i + 1)
         == CalibrationUpTo(rd, id, i).Append(PointSolution(rd, id, i).value)
  {
  }

  /** Point i of the sweep depends only on entry i of the three readings: two
      sweeps that agree there solve point i alike. */
  lemma PointsIndependent(rd: Readings, rd': Readings, id: Ideals, i: nat)
    requires rd.Covers() && rd'.Covers() && i < |rd.load| && i < |rd'.load|
    requires rd.open[i] == rd'.open[i] && rd.short[i] == rd'.short[i] && rd.load[i] == rd'.load[i]
    ensures PointSolution(rd, id, i) == PointSolution(rd', id, i)
  {
  }

  /** Two tables with the same entries are equal. */
  lemma CalsEqual(a: Cals, b: Cals)
    requires a.Aligned() && b.Aligned() && |a.d| == |b.d|
    requires forall i :: 0 <= i < |a.d| ==> a.At(i) == b.At(i)
    ensures a == b
  {
    assert forall i :: 0 <= i < |a.d| ==> a.d[i] == a.At(i).d && b.d[i] == b.At(i).d;
    assert forall i :: 0 <= i < |a.d| ==> a.s[i] == a.At(i).s && b.s[i] == b.At(i).s;
    assert forall i :: 0 <= i < |a.d| ==> a.r[i] == a.At(i).r && b.r[i] == b.At(i).r;
  }

  /** Whether the model of a point's terms is defined at all three standards. */
  predicate MeasurableAt(t: PointTerms, id: Ideals) {
    Sub(One, Mul(t.s, id.open)) != Zero && Sub(One, Mul(t.s, id.short)) != Zero
    && Sub(One, Mul(t.s, id.load)) != Zero
  }

  /** The readings of the three standards through the terms t. */
  function ModelReadings(t: PointTerms, id: Ideals): (m: Vec3)
    requires MeasurableAt(t, id)
  {
    Vec3(Measured(t, id.open), Measured(t, id.short), Measured(t, id.load))
  }

  /** Whether the system built from the model readings of t is regular. */
  predicate RegularAt(t: PointTerms, id: Ideals)
    requires MeasurableAt(t, id)
  {
    var m := ModelReadings(t, id);
    Det(SystemMatrix(id.load, id.open, id.short, m.x2, m.x0, m.x1)) != Zero
  }

  /** The readings the standards give through the terms of each point. */
  function GeneratedReadings(ts: seq<PointTerms>, id: Ideals): (rd: Readings)
    requires forall i :: 0 <= i < |ts| ==> MeasurableAt(ts[i], id)
    ensures rd.Covers() && |rd.load| == |ts|
    ensures forall i :: 0 <= i < |ts| ==>
              Vec3(rd.open[i], rd.short[i], rd.load[i]) == ModelReadings(ts[i], id)
  {
    Readings(seq(|ts|, i requires 0 <= i < |ts| => ModelReadings(ts[i], id).x0),
             seq(|ts|, i requires 0 <= i < |ts| => ModelReadings(ts[i], id).x1),
             seq(|ts|, i requires 0 <= i < |ts| => ModelReadings(ts[i], id).x2))
  }

  /** Exact recovery over a sweep: readings generated from per-point terms
      calibrate back to exactly those terms, whenever every point's system is
      regular. */
  lemma {:induction false} CalibrationRecovers(ts: seq<PointTerms>, id: Ideals)
    requires forall i :: 0 <= i < |ts| ==> MeasurableAt(ts[i], id) && RegularAt(ts[i], id)
    ensures Solvable(GeneratedReadings(ts, id), id)
    ensures Calibration(GeneratedReadings(ts, id), id) == CalsOf(ts)
  {
    var rd := GeneratedReadings(ts, id);
    forall j | 0 <= j < |ts|
      ensures PointSolution(rd, id, j) == Some(ts[j])
    {
      assert Vec3(rd.open[j], rd.short[j], rd.load[j]) == ModelReadings(ts[j], id);
      SolvePointUnique(ts[j], id.load, id.open, id.short);
    }
    CalsEqual(Calibration(rd, id), CalsOf(ts));
  }

  /** Terms the default standards can be measured through and recovered from:
      nonzero tracking and a source match other than +1 and -1. */
  predicate DefaultMeasurable(t: PointTerms) {
    t.r != Zero && Sub(One, t.s) != Zero && Add(One, t.s) != Zero
  }

  /** With the default standards, such terms give a regular system. */
  lemma DefaultRegularAt(t: PointTerms)
    requires DefaultMeasurable(t)
    ensures MeasurableAt(t, DefaultIdeals) && RegularAt(t, DefaultIdeals)
  {
    DefaultReadingsDistinct(t);
    ZeroTimes(t.s);
    var m := ModelReadings(t, DefaultIdeals);
    DefaultDeterminant(m.x2, m.x0, m.x1);
    SubZeroIff(m.x1, m.x0);
  }

  /** Exact recovery over a sweep with the default standards. */
  lemma CalibrationRecoversDefault(ts: seq<PointTerms>)
    requires forall i :: 0 <= i < |ts| ==> DefaultMeasurable(ts[i])
    ensures forall i :: 0 <= i < |ts| ==> MeasurableAt(ts[i], DefaultIdeals)
    ensures Solvable(GeneratedReadings(ts, DefaultIdeals), DefaultIdeals)
    ensures Calibration(GeneratedReadings(ts, DefaultIdeals), DefaultIdeals) == CalsOf(ts)
  {
    forall i | 0 <= i < |ts|
      ensures MeasurableAt(ts[i], DefaultIdeals) && RegularAt(ts[i], DefaultIdeals)
    {
      DefaultRegularAt(ts[i]);
    }
    CalibrationRecovers(ts, DefaultIdeals);
  }

  // ---------------------------------------------------------------------------
  // The calibration object

  const NoneMeasureError: string := "Measure data should not be None!"

  class OnePortCalibration {
    const sm11Open: seq<Complex>
    const sm11Short: seq<Complex>
    const sm11Load: seq<Complex>
    const s11Open: Complex
    const s11Short: Complex
    const s11Load: Complex
    var calibratedMeasure: seq<Complex>
    var cals: Cals

    constructor (sm11Open: seq<Complex>, sm11Short: seq<Complex>, sm11Load: seq<Complex>,
                 s11Open: Complex := One, s11Short: Complex := MinusOne, s11Load: Complex := Zero)
      ensures this.sm11Open == sm11Open && this.sm11Short == sm11Short && this.sm11Load == sm11Load
      ensures this.s11Open == s11Open && this.s11Short == s11Short && this.s11Load == s11Load
      ensures calibratedMeasure == [] && cals == NoCals
    {
      this.sm11Open := sm11Open;
      this.sm11Short := sm11Short;
      this.sm11Load := sm11Load;
      this.s11Open := s11Open;
      this.s11Short := s11Short;
      this.s11Load := s11Load;
      calibratedMeasure := [];
      cals := NoCals;
    }

    /** The least-squares solve of C * x == V. For a square regular C it is the
        exact solution; for a singular C the inversion fails (None). */
    static function CalculateErrorMatrix(c: Mat3, v: Vec3): (x: Option<Vec3>)
      ensures x.Some? <==> Det(c) != Zero
      ensures x.Some? ==> Apply(c, x.value) == v
    {
      if Det(c) == Zero then None else Some(Solve(c, v))
    }

    function Inputs(): Readings {
      Readings(sm11Open, sm11Short, sm11Load)
    }

    function Standards(): Ideals {
      Ideals(s11Open, s11Short, s11Load)
    }

    /** Appends the terms read off one solution vector to the table. */
    method AppendErrorCoeffs(x: Vec3)
      requires cals.Aligned()
      modifies this
      ensures cals == old(cals).Append(TermsOf(x))
      ensures calibratedMeasure == old(calibratedMeasure)
    {
      cals := cals.Append(TermsOf(x));
    }

    /** Solves every point in order, starting from an empty table. At the first
        singular point the solve fails and the table keeps the points before it. */
    method CalculateCalibration() returns (ok: bool)
      requires Inputs().Covers()
      modifies this
      ensures ok <==> Solvable(Inputs(), Standards())
      ensures cals == CalibrationUpTo(Inputs(), Standards(), FirstSingular(Inputs(), Standards()))
      ensures calibratedMeasure == old(calibratedMeasure)
    {
      cals := NoCals;
      var i := 0;
      while i < |sm11Load|
        invariant i <= FirstSingular(Inputs(), Standards())
        invariant cals == CalibrationUpTo(Inputs(), Standards(), i)
        invariant calibratedMeasure == old(calibratedMeasure)
      {
        var regular := SolveNext(i);
        if !regular {
          return false;
        }
        i := i + 1;
      }
      return true;
    }

    /** One pass of the loop: builds the system of point i, solves it and
        appends the terms; a singular system appends nothing. */
    method SolveNext(i: nat) returns (regular: bool)
      requires Inputs().Covers() && i < |sm11Load| && i <= FirstSingular(Inputs(), Standards())
      requires cals == CalibrationUpTo(Inputs(), Standards(), i)
      modifies this
      ensures regular <==> i < FirstSingular(Inputs(), Standards())
      ensures regular ==> cals == CalibrationUpTo(Inputs(), Standards(), i + 1)
      ensures !regular ==> cals == old(cals)
      ensures calibratedMeasure == old(calibratedMeasure)
    {
      var c := SystemMatrix(s11Load, s11Open, s11Short, sm11Load[i], sm11Open[i], sm11Short[i]);
      var v := SystemVector(sm11Load[i], sm11Open[i], sm11Short[i]);
      var x := CalculateErrorMatrix(c, v);
      SolutionOfPoint(Inputs(), Standards(), i, x);
      if x.None? {
        SingularStops(Inputs(), Standards(), i);
        return false;
      }
      RegularContinues(Inputs(), Standards(), i);
      AppendErrorCoeffs(x.value);
      return true;
    }

    /** Corrects raw readings with the current table and keeps the result. */
    method CalibrateMeasure(sm11: Option<seq<Complex>>) returns (gamma: Result<seq<Complex>>)
      requires sm11.Some? ==> Correctable(cals, sm11.value)
      modifies this
      ensures cals == old(cals)
      ensures sm11.None? ==> gamma == Failure(NoneMeasureError)
                             && calibratedMeasure == old(calibratedMeasure)
      ensures sm11.Some? ==> gamma == Success(CorrectAll(cals, sm11.value))
                             && calibratedMeasure == gamma.value
    {
      if sm11.None? {
        return Failure(NoneMeasureError);
      }
      calibratedMeasure := CorrectAll(cals, sm11.value);
      return Success(calibratedMeasure);
    }
  }
}
