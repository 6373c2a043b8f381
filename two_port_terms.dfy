/** The twelve-term error model of a two-port at one frequency point.

    The forward direction (stimulus at port 1) has directivity e00, source match
    e11, reflection tracking e10e01, leakage e30, load match e22 and transmission
    tracking e10e32; the reverse direction (stimulus at port 2) has e33', e22',
    e23'e32', e03', e11' and e23'e01'. This module holds the per-point formulas
    of the through solve and of the de-embedding, and what they do to the
    readings of an ideal through. */
module TwoPortTerms {
  import opened ComplexNumbers
  import opened OnePort

  // ---------------------------------------------------------------------------
  // One frequency point

  /** The twelve error terms at one frequency point. */
  datatype ErrorTerms = ErrorTerms(
    e00: Complex, e11: Complex, e10e01: Complex, e30: Complex, e22: Complex, e10e32: Complex,
    e33R: Complex, e22R: Complex, e23e32R: Complex, e03R: Complex, e11R: Complex, e23e01R: Complex)
  {
    /** The one-port terms seen from port 1: directivity, source match, tracking. */
    function Forward(): PointTerms {
      PointTerms(e00, e11, e10e01)
    }

    /** The one-port terms seen from port 2. */
    function Reverse(): PointTerms {
      PointTerms(e33R, e22R, e23e32R)
    }
  }

  /** The four raw S-parameter readings of one frequency point. */
  datatype Reading = Reading(sm11: Complex, sm22: Complex, sm12: Complex, sm21: Complex)

  // ---------------------------------------------------------------------------
  // Step 3 at one point: the through solve

  /** The denominator of the load-match formula: m * S - (D * S - R). */
  function ThroughDenominator(t: PointTerms, m: Complex): Complex {
    Sub(Mul(m, t.s), Sub(Mul(t.d, t.s), t.r))
  }

  /** The load match of the far port, from the through reflection m seen through
      the one-port terms t: (m - D) / (m * S - (D * S - R)). It is the one-port
      correction of m. */
  function LoadMatch(t: PointTerms, m: Complex): (l: Complex)
    requires ThroughDenominator(t, m) != Zero
    ensures CorrectionDenominator(t, m) != Zero
    ensures l == Corrected(t, m)
  {
    ThroughDenominatorIs(t.d, t.s, t.r, m);
    Div(Sub(m, t.d), ThroughDenominator(t, m))
  }

  lemma ThroughDenominatorIs(d: Complex, s: Complex, r: Complex, m: Complex)
    ensures Sub(Mul(m, s), Sub(Mul(d, s), r)) == Add(r, Mul(s, Sub(m, d)))
  {
    RingRules();
  }

  /** The transmission tracking, from the through transmission m, the leakage,
      the source match s and the load match l: (m - leakage) * (1 - s * l). */
  function TransmissionTracking(leakage: Complex, s: Complex, l: Complex, m: Complex): Complex {
    Mul(Sub(m, leakage), Sub(One, Mul(s, l)))
  }

  /** The through reflection of a port with one-port terms t whose far end shows
      the load match l: (l * dE - D) / (l * S - 1) with dE = D * S - R. */
  function ThroughReflection(t: PointTerms, l: Complex): Complex
    requires Sub(Mul(l, t.s), One) != Zero
  {
    Div(Sub(Mul(l, Sub(Mul(t.d, t.s), t.r)), t.d), Sub(Mul(l, t.s), One))
  }

  /** The through transmission: leakage + tracking / (1 - s * l). */
  function ThroughTransmission(leakage: Complex, tracking: Complex, s: Complex, l: Complex): Complex
    requires Sub(One, Mul(s, l)) != Zero
  {
    Add(leakage, Div(tracking, Sub(One, Mul(s, l))))
  }

  /** The through reflection is the one-port model reading of the load match. */
  lemma ThroughReflectionMeasured(t: PointTerms, l: Complex)
    requires Sub(Mul(l, t.s), One) != Zero
    ensures Sub(One, Mul(t.s, l)) != Zero
    ensures ThroughReflection(t, l) == Measured(t, l)
  {
    var u := Sub(One, Mul(t.s, l));
    var v := Sub(Mul(l, t.s), One);
    MulComm(l, t.s);
    assert v == Neg(u);
    var m := Measured(t, l);
    assert Mul(Sub(m, t.d), u) == Mul(t.r, l);
    ReflectionCleared(t.d, t.s, t.r, l, m);
    DivUnique(Sub(Mul(l, Sub(Mul(t.d, t.s), t.r)), t.d), v, m);
  }

  lemma ReflectionCleared(d: Complex, s: Complex, r: Complex, l: Complex, m: Complex)
    requires Mul(Sub(m, d), Sub(One, Mul(s, l))) == Mul(r, l)
    ensures Mul(m, Sub(Mul(l, s), One)) == Sub(Mul(l, Sub(Mul(d, s), r)), d)
  {
    ReflectionClearedWith(d, s, r, l, m, One);
    OneTimes(m);
    OneTimes(d);
  }

  lemma ReflectionClearedWith(d: Complex, s: Complex, r: Complex, l: Complex, m: Complex, o: Complex)
    requires Mul(Sub(m, d), Sub(o, Mul(s, l))) == Mul(r, l)
    ensures Mul(m, Sub(Mul(l, s), o)) == Sub(Mul(l, Sub(Mul(d, s), r)), Mul(d, o))
  {
    RingRules();
  }

  /** The load-match formula inverts the through reflection: a port whose terms
      have nonzero tracking recovers the load match it was measured with. */
  lemma LoadMatchRecovers(t: PointTerms, l: Complex)
    requires t.r != Zero && Sub(One, Mul(t.s, l)) != Zero
    ensures ThroughDenominator(t, Measured(t, l)) != Zero
    ensures LoadMatch(t, Measured(t, l)) == l
  {
    CorrectMeasured(t, l);
    ThroughDenominatorIs(t.d, t.s, t.r, Measured(t, l));
  }

  /** The tracking formula inverts the through transmission. */
  lemma TrackingRecovers(leakage: Complex, tracking: Complex, s: Complex, l: Complex)
    requires Sub(One, Mul(s, l)) != Zero
    ensures TransmissionTracking(leakage, s, l, ThroughTransmission(leakage, tracking, s, l)) == tracking
  {
    var u := Sub(One, Mul(s, l));
    assert Sub(ThroughTransmission(leakage, tracking, s, l), leakage) == Div(tracking, u);
  }

  /** Normalised readings of one port through the through standard. With the
      reflection m and transmission n of the through, X = (n - leakage) / tracking
      is 1 / (1 - s * l); the normalised reflection (m - D) / R is l * X, and
      1 + s * l * X is X again. */
  lemma PortNormalised(t: PointTerms, l: Complex, leakage: Complex, tracking: Complex)
    requires t.r != Zero && tracking != Zero && Sub(One, Mul(t.s, l)) != Zero
    ensures var x := Div(Sub(ThroughTransmission(leakage, tracking, t.s, l), leakage), tracking);
            x != Zero
            && Div(Sub(Measured(t, l), t.d), t.r) == Mul(l, x)
            && Add(One, Mul(t.s, Mul(l, x))) == x
  {
    var u := Sub(One, Mul(t.s, l));
    var q := Div(tracking, u);
    var x := Div(Sub(ThroughTransmission(leakage, tracking, t.s, l), leakage), tracking);
    assert Sub(ThroughTransmission(leakage, tracking, t.s, l), leakage) == q;
    // x * u == 1
    assert Mul(x, tracking) == q;
    MulAssoc(x, tracking, u);
    MulAssoc(x, u, tracking);
    MulComm(tracking, u);
    OneTimes(tracking);
    CancelRight(Mul(x, u), One, tracking);
    assert Mul(x, u) == One;
    if x == Zero {
      ZeroTimes(u);
    }
    // (m - D) / R == l * x
    var m := Measured(t, l);
    var n := Div(Sub(m, t.d), t.r);
    assert Mul(Sub(m, t.d), u) == Mul(t.r, l);
    assert Mul(n, t.r) == Sub(m, t.d);
    MulAssoc(n, t.r, u);
    MulAssoc(n, u, t.r);
    MulComm(t.r, u);
    MulComm(t.r, l);
    CancelRight(Mul(n, u), l, t.r);
    MulAssoc(l, x, u);
    OneTimes(l);
    CancelRight(n, Mul(l, x), u);
    // (1 + s * l * x) * u == 1 == x * u
    var p := Mul(t.s, l);
    MulAssoc(t.s, l, x);
    MulAddRight(One, Mul(p, x), u);
    OneTimes(u);
    MulAssoc(p, x, u);
    OneTimes(p);
    assert Add(u, p) == One;
    CancelRight(Add(One, Mul(p, x)), x, u);
  }

  // ---------------------------------------------------------------------------
  // The through standard through the error model

  /** Whether the through can be measured through the terms e: the far port's
      match times the near port's source match is not 1, in both directions. */
  predicate ThroughMeasurable(e: ErrorTerms) {
    Sub(Mul(e.e22, e.e11), One) != Zero && Sub(Mul(e.e11R, e.e22R), One) != Zero
  }

  /** The raw readings of a through standard (S11 = S22 = 0, S21 = S12 = 1)
      measured through the twelve terms e. */
  function ThroughReading(e: ErrorTerms): (m: Reading)
    requires ThroughMeasurable(e)
    ensures Sub(One, Mul(e.e11, e.e22)) != Zero && Sub(One, Mul(e.e22R, e.e11R)) != Zero
    ensures m.sm11 == Measured(e.Forward(), e.e22) && m.sm22 == Measured(e.Reverse(), e.e11R)
  {
    ThroughReflectionMeasured(e.Forward(), e.e22);
    ThroughReflectionMeasured(e.Reverse(), e.e11R);
    Reading(ThroughReflection(e.Forward(), e.e22),
            ThroughReflection(e.Reverse(), e.e11R),
            ThroughTransmission(e.e03R, e.e23e01R, e.e22R, e.e11R),
            ThroughTransmission(e.e30, e.e10e32, e.e11, e.e22))
  }

  /** The through solve at one point recovers the load matches and transmission
      trackings the through readings were generated with. */
  lemma ThroughRecovery(e: ErrorTerms)
    requires ThroughMeasurable(e) && e.e10e01 != Zero && e.e23e32R != Zero
    ensures ThroughDenominator(e.Forward(), ThroughReading(e).sm11) != Zero
    ensures ThroughDenominator(e.Reverse(), ThroughReading(e).sm22) != Zero
    ensures LoadMatch(e.Forward(), ThroughReading(e).sm11) == e.e22
    ensures LoadMatch(e.Reverse(), ThroughReading(e).sm22) == e.e11R
    ensures TransmissionTracking(e.e30, e.e11, e.e22, ThroughReading(e).sm21) == e.e10e32
    ensures TransmissionTracking(e.e03R, e.e22R, e.e11R, ThroughReading(e).sm12) == e.e23e01R
  {
    var m := ThroughReading(e);
    LoadMatchRecovers(e.Forward(), e.e22);
    LoadMatchRecovers(e.Reverse(), e.e11R);
    TrackingRecovers(e.e30, e.e10e32, e.e11, e.e22);
    TrackingRecovers(e.e03R, e.e23e01R, e.e22R, e.e11R);
  }

  // ---------------------------------------------------------------------------
  // De-embedding at one point

  /** The divisors of the de-embedding formulas: the four trackings. */
  predicate Deembeddable(e: ErrorTerms) {
    e.e10e01 != Zero && e.e23e32R != Zero && e.e10e32 != Zero && e.e23e01R != Zero
  }

  /** (sm21 - e30) / e10e32: the normalised forward transmission. */
  function NormForward(e: ErrorTerms, m: Reading): Complex
    requires Deembeddable(e)
  {
    Div(Sub(m.sm21, e.e30), e.e10e32)
  }

  /** (sm12 - e03') / e23'e01': the normalised reverse transmission. */
  function NormReverse(e: ErrorTerms, m: Reading): Complex
    requires Deembeddable(e)
  {
    Div(Sub(m.sm12, e.e03R), e.e23e01R)
  }

  /** 1 + k * (sm11 - e00) / e10e01 */
  function Port1Factor(e: ErrorTerms, m: Reading, k: Complex): Complex
    requires Deembeddable(e)
  {
    Add(One, Div(Mul(k, Sub(m.sm11, e.e00)), e.e10e01))
  }

  /** 1 + k * (sm22 - e33') / e23'e32' */
  function Port2Factor(e: ErrorTerms, m: Reading, k: Complex): Complex
    requires Deembeddable(e)
  {
    Add(One, Div(Mul(k, Sub(m.sm22, e.e33R)), e.e23e32R))
  }

  /** The common denominator D = a * b - c of the four S-parameters. */
  function DeembedD(e: ErrorTerms, m: Reading): Complex
    requires Deembeddable(e)
  {
    Sub(Mul(Port1Factor(e, m, e.e11), Port2Factor(e, m, e.e22R)),
        Mul(Mul(Mul(e.e22, e.e11R), NormForward(e, m)), NormReverse(e, m)))
  }

  function DeembedS11(e: ErrorTerms, m: Reading): Complex
    requires Deembeddable(e) && DeembedD(e, m) != Zero
  {
    Div(Sub(Mul(Div(Sub(m.sm11, e.e00), e.e10e01), Port2Factor(e, m, e.e22R)),
            Mul(Mul(e.e22, NormForward(e, m)), NormReverse(e, m))),
        DeembedD(e, m))
  }

  function DeembedS21(e: ErrorTerms, m: Reading): Complex
    requires Deembeddable(e) && DeembedD(e, m) != Zero
  {
    Div(Mul(NormForward(e, m), Port2Factor(e, m, Sub(e.e22R, e.e22))), DeembedD(e, m))
  }

  /** S22 as the source computes it: its second factor is 1 + e22 * (sm22 - e00) / e10e01. */
  function DeembedS22(e: ErrorTerms, m: Reading): Complex
    requires Deembeddable(e) && DeembedD(e, m) != Zero
  {
    Div(Sub(Mul(Div(Sub(m.sm22, e.e33R), e.e23e32R),
                Add(One, Div(Mul(e.e22, Sub(m.sm22, e.e00)), e.e10e01))),
            Mul(Mul(e.e11R, NormForward(e, m)), NormReverse(e, m))),
        DeembedD(e, m))
  }

  /** S22 with the second factor mirrored from S11: 1 + e11 * (sm11 - e00) / e10e01. */
  function DeembedS22Corrected(e: ErrorTerms, m: Reading): Complex
    requires Deembeddable(e) && DeembedD(e, m) != Zero
  {
    Div(Sub(Mul(Div(Sub(m.sm22, e.e33R), e.e23e32R), Port1Factor(e, m, e.e11)),
            Mul(Mul(e.e11R, NormForward(e, m)), NormReverse(e, m))),
        DeembedD(e, m))
  }

  function DeembedS12(e: ErrorTerms, m: Reading): Complex
    requires Deembeddable(e) && DeembedD(e, m) != Zero
  {
    Div(Mul(NormReverse(e, m), Port1Factor(e, m, Sub(e.e11, e.e11R))), DeembedD(e, m))
  }

  // ---------------------------------------------------------------------------
  // De-embedding the through

  /** The normalised through readings: with X = (sm21 - e30) / e10e32 and
      Y = (sm12 - e03') / e23'e01', the port factors reduce to X and Y and the
      normalised reflections to e22 * X and e11' * Y. */
  lemma ThroughNormalised(e: ErrorTerms)
    requires ThroughMeasurable(e) && Deembeddable(e)
    ensures var m, x, y := ThroughReading(e), NormForward(e, ThroughReading(e)), NormReverse(e, ThroughReading(e));
            x != Zero && y != Zero
            && Div(Sub(m.sm11, e.e00), e.e10e01) == Mul(e.e22, x)
            && Div(Sub(m.sm22, e.e33R), e.e23e32R) == Mul(e.e11R, y)
            && (forall k :: Port1Factor(e, m, k) == Add(One, Mul(k, Mul(e.e22, x))))
            && (forall k :: Port2Factor(e, m, k) == Add(One, Mul(k, Mul(e.e11R, y))))
            && Port1Factor(e, m, e.e11) == x
            && Port2Factor(e, m, e.e22R) == y
  {
    var m := ThroughReading(e);
    PortNormalised(e.Forward(), e.e22, e.e30, e.e10e32);
    PortNormalised(e.Reverse(), e.e11R, e.e03R, e.e23e01R);
    forall k ensures Port1Factor(e, m, k) == Add(One, Mul(k, Mul(e.e22, NormForward(e, m)))) {
      MulDiv(k, Sub(m.sm11, e.e00), e.e10e01);
    }
    forall k ensures Port2Factor(e, m, k) == Add(One, Mul(k, Mul(e.e11R, NormReverse(e, m)))) {
      MulDiv(k, Sub(m.sm22, e.e33R), e.e23e32R);
    }
  }

  lemma TransmissionFactor(x: Complex, y: Complex, a: Complex, b: Complex, c: Complex, o: Complex)
    ensures Mul(x, Add(o, Mul(Sub(a, c), Mul(b, y))))
         == Sub(Mul(x, Add(o, Mul(a, Mul(b, y)))), Mul(Mul(Mul(c, b), x), y))
  {
    RingRules();
  }

  lemma ReverseTransmissionFactor(x: Complex, y: Complex, a: Complex, b: Complex, c: Complex, o: Complex)
    ensures Mul(y, Add(o, Mul(Sub(a, c), Mul(b, x))))
         == Sub(Mul(Add(o, Mul(a, Mul(b, x))), y), Mul(Mul(Mul(b, c), x), y))
  {
    RingRules();
  }

  lemma SwappedProducts(a: Complex, x: Complex, y: Complex)
    ensures Sub(Mul(Mul(a, y), x), Mul(Mul(a, x), y)) == Zero
  {
    RingRules();
  }

  /** The common denominator of the through is X * Y * (1 - e22 * e11'). */
  lemma ThroughDeterminant(x: Complex, y: Complex, b: Complex, c: Complex)
    ensures Sub(Mul(x, y), Mul(Mul(Mul(c, b), x), y)) == Mul(Mul(x, y), Sub(One, Mul(c, b)))
  {
    DeterminantFactoredWith(x, y, Mul(c, b), One);
    OneTimes(Mul(x, y));
    MulComm(Mul(x, y), Mul(c, b));
    MulAssoc(Mul(c, b), x, y);
  }

  lemma DeterminantFactoredWith(x: Complex, y: Complex, p: Complex, o: Complex)
    ensures Mul(Mul(x, y), Sub(o, p)) == Sub(Mul(Mul(x, y), o), Mul(Mul(x, y), p))
  {
    RingRules();
  }

  /** De-embedding the through with the twelve terms it was measured with, and
      with the symmetric S22 formula, gives the through back: S11 = S22 = 0 and
      S21 = S12 = 1. */
  lemma ThroughDeembeds(e: ErrorTerms)
    requires ThroughMeasurable(e) && Deembeddable(e) && Sub(One, Mul(e.e22, e.e11R)) != Zero
    ensures DeembedD(e, ThroughReading(e)) != Zero
    ensures DeembedS11(e, ThroughReading(e)) == Zero
    ensures DeembedS21(e, ThroughReading(e)) == One
    ensures DeembedS22Corrected(e, ThroughReading(e)) == Zero
    ensures DeembedS12(e, ThroughReading(e)) == One
  {
    var m := ThroughReading(e);
    var x, y := NormForward(e, m), NormReverse(e, m);
    ThroughNormalised(e);
    var d := DeembedD(e, m);
    assert d == Sub(Mul(x, y), Mul(Mul(Mul(e.e22, e.e11R), x), y));
    ThroughDeterminant(x, y, e.e11R, e.e22);
    MulNonZero(x, y);
    MulNonZero(Mul(x, y), Sub(One, Mul(e.e22, e.e11R)));
    DivZero(d);
    DivSelf(d);
    // S21
    TransmissionFactor(x, y, e.e22R, e.e11R, e.e22, One);
    assert Mul(x, Port2Factor(e, m, Sub(e.e22R, e.e22))) == d;
    // S12
    ReverseTransmissionFactor(x, y, e.e11, e.e22, e.e11R, One);
    MulComm(e.e22, e.e11R);
    assert Mul(y, Port1Factor(e, m, Sub(e.e11, e.e11R))) == d;
    // S22 with the symmetric factor
    SwappedProducts(e.e11R, x, y);
  }

  /** De-embedding the through with e11' left at 0, as the calibration leaves
      it, and the readings taken with the true e11': S11 and S12 still come out
      as 0 and 1, but S21 comes out as 1 - e22 * e11' instead of 1, and S22 as
      e11' * b / X (see ThroughS22WithoutE11R) instead of 0. */
  lemma ThroughDeembedsWithoutE11R(e: ErrorTerms)
    requires ThroughMeasurable(e) && Deembeddable(e)
    ensures var f, m := e.(e11R := Zero), ThroughReading(e);
            Deembeddable(f)
            && DeembedD(f, m) != Zero
            && DeembedS11(f, m) == Zero
            && DeembedS21(f, m) == Sub(One, Mul(e.e22, e.e11R))
            && DeembedS12(f, m) == One
            && Mul(DeembedS22(f, m), NormForward(e, m))
               == Mul(e.e11R, Add(One, Div(Mul(e.e22, Sub(m.sm22, e.e00)), e.e10e01)))
            && (DeembedS22(f, m) == Zero
                <==> e.e11R == Zero || Add(One, Div(Mul(e.e22, Sub(m.sm22, e.e00)), e.e10e01)) == Zero)
  {
    ThroughTransmissionsWithoutE11R(e);
    ThroughS22WithoutE11R(e);
  }

  /** S11, S21 and S12 of the through de-embedded with e11' left at 0:
      S11 = 0, S12 = 1 and S21 = 1 - e22 * e11'. */
  lemma ThroughTransmissionsWithoutE11R(e: ErrorTerms)
    requires ThroughMeasurable(e) && Deembeddable(e)
    ensures var f, m := e.(e11R := Zero), ThroughReading(e);
            Deembeddable(f)
            && DeembedD(f, m) != Zero
            && DeembedS11(f, m) == Zero
            && DeembedS21(f, m) == Sub(One, Mul(e.e22, e.e11R))
            && DeembedS12(f, m) == One
  {
    var f, m := e.(e11R := Zero), ThroughReading(e);
    var x, y := NormForward(e, m), NormReverse(e, m);
    ThroughNormalised(e);
    assert NormForward(f, m) == x && NormReverse(f, m) == y;
    assert forall k :: Port1Factor(f, m, k) == Port1Factor(e, m, k);
    assert forall k :: Port2Factor(f, m, k) == Port2Factor(e, m, k);
    ZeroTimes(e.e22);
    ZeroTimes(x);
    ZeroTimes(y);
    var d := DeembedD(f, m);
    assert d == Mul(x, y);
    MulNonZero(x, y);
    DivZero(d);
    // S21: the numerator is the true determinant X * Y * (1 - e22 * e11')
    TransmissionFactor(x, y, e.e22R, e.e11R, e.e22, One);
    ThroughDeterminant(x, y, e.e11R, e.e22);
    var k := Sub(One, Mul(e.e22, e.e11R));
    assert Mul(x, Port2Factor(f, m, Sub(e.e22R, e.e22))) == Mul(d, k);
    MulComm(d, k);
    MulDivCancel(k, d);
    // S12
    assert Sub(e.e11, Zero) == e.e11;
    MulComm(y, x);
    DivSelf(d);
  }

  /** S22 of the through as the calibration leaves it (e11' = 0), with the
      formula as written: S22 * X == e11' * b, where X is the normalised forward
      transmission and b = 1 + e22 * (sm22 - e00) / e10e01 is line 167's
      factor. So S22 is 0 only when e11' or b is 0. */
  lemma ThroughS22WithoutE11R(e: ErrorTerms)
    requires ThroughMeasurable(e) && Deembeddable(e)
    ensures var f, m := e.(e11R := Zero), ThroughReading(e);
            var b := Add(One, Div(Mul(e.e22, Sub(m.sm22, e.e00)), e.e10e01));
            Deembeddable(f) && DeembedD(f, m) != Zero
            && Mul(DeembedS22(f, m), NormForward(e, m)) == Mul(e.e11R, b)
            && (DeembedS22(f, m) == Zero <==> e.e11R == Zero || b == Zero)
  {
    var f, m := e.(e11R := Zero), ThroughReading(e);
    var x, y := NormForward(e, m), NormReverse(e, m);
    ThroughNormalised(e);
    assert NormForward(f, m) == x && NormReverse(f, m) == y;
    assert Port1Factor(f, m, e.e11) == x && Port2Factor(f, m, e.e22R) == y;
    ZeroTimes(e.e22);
    ZeroTimes(x);
    ZeroTimes(y);
    var d := DeembedD(f, m);
    assert d == Mul(x, y);
    MulNonZero(x, y);
    var b := Add(One, Div(Mul(e.e22, Sub(m.sm22, e.e00)), e.e10e01));
    var a := Div(Sub(m.sm22, e.e33R), e.e23e32R);
    assert a == Mul(e.e11R, y);
    var n := Sub(Mul(a, b), Mul(Mul(Zero, x), y));
    assert n == Mul(Mul(e.e11R, y), b);
    var s22 := DeembedS22(f, m);
    assert s22 == Div(n, d);
    DivUnique(n, d, s22);
    // s22 * X * Y == e11' * b * Y, and Y cancels
    MulAssoc(s22, x, y);
    MulAssoc(e.e11R, y, b);
    MulComm(y, b);
    MulAssoc(e.e11R, b, y);
    CancelRight(Mul(s22, x), Mul(e.e11R, b), y);
    ZeroProduct(e.e11R, b);
    ZeroTimes(x);
    if Mul(e.e11R, b) == Zero {
      MulNonZeroContra(s22, x);
    }
  }

  /** With e11' left at 0, the through de-embeds to S21 = 1 only when the load
      match e22 or the reverse source match e11' is 0. */
  lemma WithoutE11RCounterexample(e: ErrorTerms)
    requires ThroughMeasurable(e) && Deembeddable(e)
    requires e.e22 != Zero && e.e11R != Zero
    ensures var f, m := e.(e11R := Zero), ThroughReading(e);
            Deembeddable(f) && DeembedD(f, m) != Zero && DeembedS21(f, m) != One
  {
    ThroughDeembedsWithoutE11R(e);
    MulNonZero(e.e22, e.e11R);
  }

  lemma FactorOfDifference(a: Complex, b: Complex, x: Complex, c: Complex)
    requires Sub(Mul(a, x), c) == Zero
    ensures Sub(Mul(a, b), c) == Mul(a, Sub(b, x))
  {
    RingRules();
  }

  lemma ZeroProduct(a: Complex, b: Complex)
    ensures Mul(a, b) == Zero <==> a == Zero || b == Zero
  {
    if a != Zero && b != Zero {
      MulNonZero(a, b);
    }
  }

  lemma DivInjective(p: Complex, q: Complex, r: Complex)
    requires r != Zero
    ensures Div(p, r) == Div(q, r) <==> p == q
  {
  }

  /** Where the S22 formula as written and the mirrored one part: with the
      true twelve terms, S22 of the through is 0 exactly when e11' is 0 or
      e22 * (sm22 - e00) equals e11 * (sm11 - e00). */
  lemma S22AsWrittenVanishes(e: ErrorTerms)
    requires ThroughMeasurable(e) && Deembeddable(e) && Sub(One, Mul(e.e22, e.e11R)) != Zero
    ensures var m := ThroughReading(e);
            DeembedD(e, m) != Zero
            && (DeembedS22(e, m) == Zero
                <==> e.e11R == Zero || Mul(e.e22, Sub(m.sm22, e.e00)) == Mul(e.e11, Sub(m.sm11, e.e00)))
  {
    var m := ThroughReading(e);
    ThroughDeembeds(e);
    ThroughNormalised(e);
    var x, y := NormForward(e, m), NormReverse(e, m);
    var d := DeembedD(e, m);
    var a := Div(Sub(m.sm22, e.e33R), e.e23e32R);
    var b := Add(One, Div(Mul(e.e22, Sub(m.sm22, e.e00)), e.e10e01));
    var c := Mul(Mul(e.e11R, x), y);
    // the mirrored numerator a * X - c is 0, since S22Corrected is 0 and D != 0
    DivUnique(Sub(Mul(a, x), c), d, Zero);
    ZeroTimes(d);
    FactorOfDifference(a, b, x, c);
    DivUnique(Sub(Mul(a, b), c), d, Zero);
    ZeroProduct(a, Sub(b, x));
    ZeroProduct(e.e11R, y);
    DivInjective(Mul(e.e22, Sub(m.sm22, e.e00)), Mul(e.e11, Sub(m.sm11, e.e00)), e.e10e01);
  }

  /** A family of terms on which the S22 formula as written fails on the
      through: neither port has directivity or source match, and both e22 and
      e11' are nonzero. */
  predicate S22Family(e: ErrorTerms) {
    e.e00 == Zero && e.e11 == Zero && e.e33R == Zero && e.e22R == Zero
    && e.e22 != Zero && e.e11R != Zero
    && Deembeddable(e) && Sub(One, Mul(e.e22, e.e11R)) != Zero
  }

  /** On the family, the mirrored formula de-embeds the through to S22 = 0 and
      the formula as written does not. */
  lemma S22Counterexample(e: ErrorTerms)
    requires S22Family(e)
    ensures ThroughMeasurable(e)
    ensures var m := ThroughReading(e);
            DeembedD(e, m) != Zero
            && DeembedS22Corrected(e, m) == Zero
            && DeembedS22(e, m) != Zero
  {
    ZeroTimes(e.e22);
    ZeroTimes(e.e11R);
    assert ThroughMeasurable(e);
    var m := ThroughReading(e);
    ThroughDeembeds(e);
    S22AsWrittenVanishes(e);
    // sm22 = e23'e32' * e11'
    OneTimes(Sub(m.sm22, e.e33R));
    assert m.sm22 == Mul(e.e23e32R, e.e11R);
    MulNonZero(e.e23e32R, e.e11R);
    MulNonZero(e.e22, m.sm22);
    ZeroTimes(Sub(m.sm11, e.e00));
  }

  /** Example terms: unit trackings, no leakage, and every match 0 except the
      load match e22 = h and the reverse source match e11' = q. */
  function ExampleTerms(h: real, q: real): (e: ErrorTerms)
    ensures e.e22 == Of(h) && e.e11R == Of(q)
  {
    ErrorTerms(Zero, Zero, One, Zero, Of(h), One, Zero, Zero, One, Zero, Of(q), One)
  }

  /** The example terms meet the hypotheses of WithoutE11RCounterexample
      whenever h and q are nonzero; there S21 comes out as 1 - h * q. */
  lemma ExampleInS21Family(h: real, q: real)
    requires h != 0.0 && q != 0.0
    ensures var e := ExampleTerms(h, q);
            ThroughMeasurable(e) && Deembeddable(e) && e.e22 != Zero && e.e11R != Zero
  {
    ZeroTimes(Of(h));
    ZeroTimes(Of(q));
  }

  /** Through readings of terms with matched, unit-tracking ports: the
      forward transmission is 1 and the reverse reflection is e11'. */
  predicate MatchedPorts(e: ErrorTerms) {
    e.e00 == Zero && e.e11 == Zero && e.e10e01 == One && e.e30 == Zero && e.e10e32 == One
    && e.e33R == Zero && e.e22R == Zero && e.e23e32R == One && e.e23e01R != Zero
  }

  lemma MatchedThroughReading(e: ErrorTerms)
    requires MatchedPorts(e)
    ensures ThroughMeasurable(e) && Deembeddable(e)
    ensures var m := ThroughReading(e);
            m.sm21 == One && m.sm22 == e.e11R
  {
    ZeroTimes(e.e22);
    ZeroTimes(e.e11R);
    assert ThroughMeasurable(e);
    var m := ThroughReading(e);
    // 0 + 1 / (1 - 0 * e22)
    DivSelf(One);
    // (sm22 - 0) * (1 - 0 * e11') == 1 * e11'
    OneTimes(e.e11R);
    OneTimes(Sub(m.sm22, Zero));
  }

  /** With matched, unit-tracking ports, X is 1 and line 167's factor is
      1 + e22 * e11' on the through. */
  lemma MatchedFactors(e: ErrorTerms)
    requires MatchedPorts(e)
    ensures ThroughMeasurable(e) && Deembeddable(e)
    ensures var m := ThroughReading(e);
            NormForward(e, m) == One
            && Add(One, Div(Mul(e.e22, Sub(m.sm22, e.e00)), e.e10e01)) == Add(One, Mul(e.e22, e.e11R))
  {
    MatchedThroughReading(e);
    var m := ThroughReading(e);
    DivSelf(One);
    assert Sub(m.sm22, e.e00) == e.e11R;
    DivOne(Mul(e.e22, e.e11R));
  }

  /** With matched, unit-tracking ports and e11' left at 0, the through
      de-embeds to S22 = e11' * (1 + e22 * e11'), where 1 + e22 * e11' is
      line 167's factor. */
  lemma MatchedS22WithoutE11R(e: ErrorTerms)
    requires MatchedPorts(e)
    ensures ThroughMeasurable(e)
    ensures var f, m := e.(e11R := Zero), ThroughReading(e);
            Deembeddable(f) && DeembedD(f, m) != Zero
            && DeembedS22(f, m) == Mul(e.e11R, Add(One, Mul(e.e22, e.e11R)))
  {
    MatchedFactors(e);
    ThroughS22WithoutE11R(e);
    OneTimes(DeembedS22(e.(e11R := Zero), ThroughReading(e)));
  }

  /** On the example terms, the through de-embeds with e11' left at 0 to
      S22 = q * (1 + h * q) instead of 0. */
  lemma ExampleS22WithoutE11R(h: real, q: real)
    ensures ThroughMeasurable(ExampleTerms(h, q))
    ensures var e := ExampleTerms(h, q);
            var f, m := e.(e11R := Zero), ThroughReading(e);
            Deembeddable(f) && DeembedD(f, m) != Zero
            && DeembedS22(f, m) == Of(q * (1.0 + h * q))
  {
    var e := ExampleTerms(h, q);
    assert MatchedPorts(e);
    MatchedS22WithoutE11R(e);
    ExampleValue(h, q);
  }

  /** q * (1 + h * q) on complex numbers with no imaginary part. */
  lemma ExampleValue(h: real, q: real)
    ensures Mul(Of(q), Add(One, Mul(Of(h), Of(q)))) == Of(q * (1.0 + h * q))
  {
    MulOf(h, q);
    assert One == Of(1.0);
    AddOf(1.0, h * q);
    MulOf(q, 1.0 + h * q);
  }

  /** The example terms lie in the S22 family whenever h and q are nonzero and
      h * q is not 1. */
  lemma ExampleInS22Family(h: real, q: real)
    requires h != 0.0 && q != 0.0 && h * q != 1.0
    ensures S22Family(ExampleTerms(h, q))
  {
    MulOf(h, q);
  }
}
