/** Twelve-term two-port calibration (Through, Open, Short, Load) over a
    frequency sweep.

    The calibration object holds the raw readings of the four standards and
    twelve error-term fields. The fields start as the scalar 0; calibrating
    fills them in three steps: two one-port solves (one per port), the
    transmissions of the load standard as leakage, and a closed-form solve from
    the through readings. De-embedding then maps raw readings to corrected
    S-parameters, point by point. */
module TwoPort {
  import opened Wrappers
  import opened ComplexNumbers
  import opened OnePort
  import opened TwoPortTerms

  // ---------------------------------------------------------------------------
  // The state

  /** An error-term field: the scalar it starts as, or one value per point.
      A scalar combines with a sweep of any length, point by point. */
  datatype Term = Scalar(c: Complex) | Points(v: seq<Complex>)
  {
    /** Whether the term combines with a sweep of n points. */
    predicate Covers(n: nat) {
      Scalar? || |v| == n
    }

    /** Whether the term has a value at point i. */
    predicate Has(i: nat) {
      Scalar? || i < |v|
    }

    function At(i: nat): Complex
      requires Has(i)
    {
      if Scalar? then c else v[i]
    }
  }

  /** The twelve error-term fields of the calibration object. */
  datatype TermTable = TermTable(
    e00: Term, e11: Term, e10e01: Term, e30: Term, e22: Term, e10e32: Term,
    e33R: Term, e22R: Term, e23e32R: Term, e03R: Term, e11R: Term, e23e01R: Term)
  {
    predicate Covers(n: nat) {
      e00.Covers(n) && e11.Covers(n) && e10e01.Covers(n) && e30.Covers(n)
      && e22.Covers(n) && e10e32.Covers(n) && e33R.Covers(n) && e22R.Covers(n)
      && e23e32R.Covers(n) && e03R.Covers(n) && e11R.Covers(n) && e23e01R.Covers(n)
    }

    predicate Has(i: nat) {
      e00.Has(i) && e11.Has(i) && e10e01.Has(i) && e30.Has(i)
      && e22.Has(i) && e10e32.Has(i) && e33R.Has(i) && e22R.Has(i)
      && e23e32R.Has(i) && e03R.Has(i) && e11R.Has(i) && e23e01R.Has(i)
    }

    /** The twelve terms of point i. */
    function At(i: nat): ErrorTerms
      requires Has(i)
    {
      ErrorTerms(e00.At(i), e11.At(i), e10e01.At(i), e30.At(i), e22.At(i), e10e32.At(i),
                 e33R.At(i), e22R.At(i), e23e32R.At(i), e03R.At(i), e11R.At(i), e23e01R.At(i))
    }

    /** The one-port terms of port 1 at point i. */
    function ForwardAt(i: nat): PointTerms
      requires e00.Has(i) && e11.Has(i) && e10e01.Has(i)
    {
      PointTerms(e00.At(i), e11.At(i), e10e01.At(i))
    }

    /** The one-port terms of port 2 at point i. */
    function ReverseAt(i: nat): PointTerms
      requires e33R.Has(i) && e22R.Has(i) && e23e32R.Has(i)
    {
      PointTerms(e33R.At(i), e22R.At(i), e23e32R.At(i))
    }
  }

  /** The fields of a new calibration object: every term is the scalar 0. */
  const Unset: TermTable :=
    TermTable(Scalar(Zero), Scalar(Zero), Scalar(Zero), Scalar(Zero), Scalar(Zero), Scalar(Zero),
              Scalar(Zero), Scalar(Zero), Scalar(Zero), Scalar(Zero), Scalar(Zero), Scalar(Zero))

  /** The keys under which the terms are reported. */
  const CalsKeys: set<string> :=
    {"E00", "E11", "E10E01", "E30", "E22", "E10E32",
     "E33'", "E22'", "E23'E32'", "E03'", "E11'", "E23'E01'"}

  /** The report of the twelve terms under their keys. */
  function Report(s: TermTable): (m: map<string, Term>)
    ensures m.Keys == CalsKeys
  {
    map["E00" := s.e00, "E11" := s.e11, "E10E01" := s.e10e01, "E30" := s.e30,
        "E22" := s.e22, "E10E32" := s.e10e32,
        "E33'" := s.e33R, "E22'" := s.e22R, "E23'E32'" := s.e23e32R, "E03'" := s.e03R,
        "E11'" := s.e11R, "E23'E01'" := s.e23e01R]
  }

  /** The report gives back every field: two states with the same report are
      the same state. */
  lemma CalsReportsAll(s: TermTable, s': TermTable)
    ensures Report(s) == Report(s') ==> s == s'
  {
    var m, m' := Report(s), Report(s');
    if m == m' {
      assert m["E00"] == s.e00 && m'["E00"] == s'.e00;
      assert m["E11"] == s.e11 && m'["E11"] == s'.e11;
      assert m["E10E01"] == s.e10e01 && m'["E10E01"] == s'.e10e01;
      assert m["E30"] == s.e30 && m'["E30"] == s'.e30;
      assert m["E22"] == s.e22 && m'["E22"] == s'.e22;
      assert m["E10E32"] == s.e10e32 && m'["E10E32"] == s'.e10e32;
      assert m["E33'"] == s.e33R && m'["E33'"] == s'.e33R;
      assert m["E22'"] == s.e22R && m'["E22'"] == s'.e22R;
      assert m["E23'E32'"] == s.e23e32R && m'["E23'E32'"] == s'.e23e32R;
      assert m["E03'"] == s.e03R && m'["E03'"] == s'.e03R;
      assert m["E11'"] == s.e11R && m'["E11'"] == s'.e11R;
      assert m["E23'E01'"] == s.e23e01R && m'["E23'E01'"] == s'.e23e01R;
    }
  }

  /** The inputs of the calibration object: the raw readings of the four
      standards and the ideal reflections of open, short and load. */
  datatype TwoPortInputs = TwoPortInputs(
    loadSm11: seq<Complex>, loadSm22: seq<Complex>, loadSm12: seq<Complex>, loadSm21: seq<Complex>,
    openSm11: seq<Complex>, openSm22: seq<Complex>, shortSm11: seq<Complex>, shortSm22: seq<Complex>,
    throwSm11: seq<Complex>, throwSm22: seq<Complex>, throwSm12: seq<Complex>, throwSm21: seq<Complex>,
    ideals: Ideals)
  {
    /** The one-port readings of port 1. */
    function Port1(): Readings {
      Readings(openSm11, shortSm11, loadSm11)
    }

    /** The one-port readings of port 2. */
    function Port2(): Readings {
      Readings(openSm22, shortSm22, loadSm22)
    }

    /** The through readings of point i. */
    function ThroughAt(i: nat): Reading
      requires i < |throwSm11| && i < |throwSm22| && i < |throwSm12| && i < |throwSm21|
    {
      Reading(throwSm11[i], throwSm22[i], throwSm12[i], throwSm21[i])
    }
  }

  // ---------------------------------------------------------------------------
  // The three steps as state transformers

  /** Step 1: the one-port solve of port 1 sets e00, e11, e10e01 and that of
      port 2 sets e33', e22', e23'e32'. A solve that fails stops the step; the
      terms set before it stay set. */
  function Step1Of(inp: TwoPortInputs, s: TermTable): TermTable
    requires inp.Port1().Covers() && inp.Port2().Covers()
  {
    if !Solvable(inp.Port1(), inp.ideals) then s
    else
      var c1 := Calibration(inp.Port1(), inp.ideals);
      var s1 := s.(e00 := Points(c1.d), e11 := Points(c1.s), e10e01 := Points(c1.r));
      if !Solvable(inp.Port2(), inp.ideals) then s1
      else
        var c2 := Calibration(inp.Port2(), inp.ideals);
        s1.(e33R := Points(c2.d), e22R := Points(c2.s), e23e32R := Points(c2.r))
  }

  /** Step 1 when both solves succeed. */
  lemma Step1Both(inp: TwoPortInputs, s: TermTable, c1: Cals, c2: Cals)
    requires inp.Port1().Covers() && inp.Port2().Covers() && BothSolvable(inp)
    requires c1 == Calibration(inp.Port1(), inp.ideals) && c2 == Calibration(inp.Port2(), inp.ideals)
    ensures Step1Of(inp, s) == s.(e00 := Points(c1.d), e11 := Points(c1.s), e10e01 := Points(c1.r))
                                .(e33R := Points(c2.d), e22R := Points(c2.s), e23e32R := Points(c2.r))
  {
  }

  /** Step 1 when only the solve of port 1 succeeds. */
  lemma Step1Half(inp: TwoPortInputs, s: TermTable, c1: Cals)
    requires inp.Port1().Covers() && inp.Port2().Covers()
    requires Solvable(inp.Port1(), inp.ideals) && !Solvable(inp.Port2(), inp.ideals)
    requires c1 == Calibration(inp.Port1(), inp.ideals)
    ensures Step1Of(inp, s) == s.(e00 := Points(c1.d), e11 := Points(c1.s), e10e01 := Points(c1.r))
  {
  }

  /** Step 2: the transmissions of the load standard are the leakage terms. */
  function Step2Of(inp: TwoPortInputs, s: TermTable): TermTable {
    s.(e30 := Points(inp.loadSm21), e03R := Points(inp.loadSm12))
  }

  /** Whether step 3 can run on the fields s: the four through readings have one
      value per point, the fields it reads combine with them, and no load-match
      denominator vanishes. */
  predicate ThroughReady(inp: TwoPortInputs, s: TermTable) {
    var n := |inp.throwSm11|;
    |inp.throwSm22| == n && |inp.throwSm12| == n && |inp.throwSm21| == n
    && s.e00.Covers(n) && s.e11.Covers(n) && s.e10e01.Covers(n) && s.e30.Covers(n)
    && s.e33R.Covers(n) && s.e22R.Covers(n) && s.e23e32R.Covers(n) && s.e03R.Covers(n)
    && forall i :: 0 <= i < n ==>
         ThroughDenominator(s.ForwardAt(i), inp.throwSm11[i]) != Zero
         && ThroughDenominator(s.ReverseAt(i), inp.throwSm22[i]) != Zero
  }

  /** The load match of port 2 seen from port 1, point by point. */
  function ForwardLoadMatch(inp: TwoPortInputs, s: TermTable): (l: seq<Complex>)
    requires ThroughReady(inp, s)
    ensures |l| == |inp.throwSm11|
  {
    seq(|inp.throwSm11|, i requires 0 <= i < |inp.throwSm11| => LoadMatch(s.ForwardAt(i), inp.throwSm11[i]))
  }

  /** The load match of port 1 seen from port 2, point by point. */
  function ReverseLoadMatch(inp: TwoPortInputs, s: TermTable): (l: seq<Complex>)
    requires ThroughReady(inp, s)
    ensures |l| == |inp.throwSm11|
  {
    seq(|inp.throwSm11|, i requires 0 <= i < |inp.throwSm11| => LoadMatch(s.ReverseAt(i), inp.throwSm22[i]))
  }

  /** The forward transmission tracking from the load match l. */
  function ForwardTracking(inp: TwoPortInputs, s: TermTable, l: seq<Complex>): (t: seq<Complex>)
    requires ThroughReady(inp, s) && |l| == |inp.throwSm11|
    ensures |t| == |inp.throwSm11|
  {
    seq(|inp.throwSm11|, i requires 0 <= i < |inp.throwSm11| =>
      TransmissionTracking(s.e30.At(i), s.e11.At(i), l[i], inp.throwSm21[i]))
  }

  /** The reverse transmission tracking from the load match l. */
  function ReverseTracking(inp: TwoPortInputs, s: TermTable, l: seq<Complex>): (t: seq<Complex>)
    requires ThroughReady(inp, s) && |l| == |inp.throwSm11|
    ensures |t| == |inp.throwSm11|
  {
    seq(|inp.throwSm11|, i requires 0 <= i < |inp.throwSm11| =>
      TransmissionTracking(s.e03R.At(i), s.e22R.At(i), l[i], inp.throwSm12[i]))
  }

  /** Step 3: the through solve sets e22, e10e32 and e23'e01'. The reverse load
      match e11' is computed for e23'e01' but is not stored. */
  function Step3Of(inp: TwoPortInputs, s: TermTable): TermTable
    requires ThroughReady(inp, s)
  {
    var l := ForwardLoadMatch(inp, s);
    s.(e22 := Points(l),
       e10e32 := Points(ForwardTracking(inp, s, l)),
       e23e01R := Points(ReverseTracking(inp, s, ReverseLoadMatch(inp, s))))
  }

  /** Step 3 storing the reverse load match it computes as e11'. */
  function Step3CorrectedOf(inp: TwoPortInputs, s: TermTable): TermTable
    requires ThroughReady(inp, s)
  {
    Step3Of(inp, s).(e11R := Points(ReverseLoadMatch(inp, s)))
  }

  /** Whether both one-port solves succeed. */
  predicate BothSolvable(inp: TwoPortInputs) {
    Solvable(inp.Port1(), inp.ideals) && Solvable(inp.Port2(), inp.ideals)
  }

  /** Whether calibrating can run from the fields s: the one-port readings
      cover the sweep and, when both solves succeed, step 3 can run. */
  predicate CalibrateReady(inp: TwoPortInputs, s: TermTable) {
    inp.Port1().Covers() && inp.Port2().Covers()
    && (BothSolvable(inp) ==> ThroughReady(inp, Step2Of(inp, Step1Of(inp, s))))
  }

  /** The three steps in order; a failed one-port solve stops the calibration. */
  function CalibrateOf(inp: TwoPortInputs, s: TermTable): TermTable
    requires CalibrateReady(inp, s)
  {
    if BothSolvable(inp) then Step3Of(inp, Step2Of(inp, Step1Of(inp, s))) else Step1Of(inp, s)
  }

  /** The three steps with the corrected step 3. */
  function CalibrateCorrectedOf(inp: TwoPortInputs, s: TermTable): TermTable
    requires CalibrateReady(inp, s)
  {
    if BothSolvable(inp) then Step3CorrectedOf(inp, Step2Of(inp, Step1Of(inp, s))) else Step1Of(inp, s)
  }

  // ---------------------------------------------------------------------------
  // What calibrating does to the state

  /** The port-1 terms of a state are the one-port solve of port 1, point by point. */
  predicate ForwardSolved(inp: TwoPortInputs, r: TermTable)
    requires inp.Port1().Covers()
  {
    forall i :: 0 <= i < |inp.loadSm11| ==>
      r.e00.Has(i) && r.e11.Has(i) && r.e10e01.Has(i)
      && PointSolution(inp.Port1(), inp.ideals, i) == Some(r.ForwardAt(i))
  }

  /** The port-2 terms of a state are the one-port solve of port 2, point by point. */
  predicate ReverseSolved(inp: TwoPortInputs, r: TermTable)
    requires inp.Port2().Covers()
  {
    forall i :: 0 <= i < |inp.loadSm22| ==>
      r.e33R.Has(i) && r.e22R.Has(i) && r.e23e32R.Has(i)
      && PointSolution(inp.Port2(), inp.ideals, i) == Some(r.ReverseAt(i))
  }

  /** The through terms of a state solve the through equations with the
      state's own one-port and leakage terms: e22 is the load match seen from
      port 1, e10e32 the forward tracking with that e22, and e23'e01' the
      reverse tracking with the load match seen from port 2. */
  predicate ThroughSolved(inp: TwoPortInputs, r: TermTable)
    requires ThroughReady(inp, r)
  {
    var n := |inp.throwSm11|;
    r.e22.Points? && r.e10e32.Points? && r.e23e01R.Points?
    && |r.e22.v| == n && |r.e10e32.v| == n && |r.e23e01R.v| == n
    && forall i :: 0 <= i < n ==>
         r.e22.v[i] == LoadMatch(r.ForwardAt(i), inp.throwSm11[i])
         && r.e10e32.v[i] == TransmissionTracking(r.e30.At(i), r.e11.At(i), r.e22.v[i], inp.throwSm21[i])
         && r.e23e01R.v[i]
            == TransmissionTracking(r.e03R.At(i), r.e22R.At(i),
                                    LoadMatch(r.ReverseAt(i), inp.throwSm22[i]), inp.throwSm12[i])
  }

  /** The fields step 3 reads. */
  predicate SameThroughInputs(a: TermTable, b: TermTable) {
    a.e00 == b.e00 && a.e11 == b.e11 && a.e10e01 == b.e10e01 && a.e30 == b.e30
    && a.e33R == b.e33R && a.e22R == b.e22R && a.e23e32R == b.e23e32R && a.e03R == b.e03R
  }

  /** Step 3 reads only the one-port and leakage terms: on two states that
      agree on them it writes the same values, and leaves e11' as it was. */
  lemma Step3ReadsOnly(inp: TwoPortInputs, a: TermTable, b: TermTable)
    requires ThroughReady(inp, a) && SameThroughInputs(a, b)
    ensures ThroughReady(inp, b)
    ensures Step3Of(inp, a) == Step3Of(inp, b).(e11R := a.e11R)
    ensures Step3CorrectedOf(inp, a) == Step3CorrectedOf(inp, b)
  {
    assert forall i :: 0 <= i < |inp.throwSm11| ==> a.ForwardAt(i) == b.ForwardAt(i) && a.ReverseAt(i) == b.ReverseAt(i);
    assert ForwardLoadMatch(inp, a) == ForwardLoadMatch(inp, b);
    assert ReverseLoadMatch(inp, a) == ReverseLoadMatch(inp, b);
    var l := ForwardLoadMatch(inp, a);
    assert ForwardTracking(inp, a, l) == ForwardTracking(inp, b, l);
    var l' := ReverseLoadMatch(inp, a);
    assert ReverseTracking(inp, a, l') == ReverseTracking(inp, b, l');
  }

  /** Point i of a solvable sweep's table is the solve of point i. */
  lemma CalibrationAt(rd: Readings, id: Ideals, i: nat)
    requires Solvable(rd, id) && i < |rd.load|
    ensures PointSolution(rd, id, i) == Some(Calibration(rd, id).At(i))
  {
  }

  /** A one-port table stored as three terms gives the solve of every point. */
  lemma StoredSolve(rd: Readings, id: Ideals, c: Cals, d: Term, sT: Term, r: Term)
    requires Solvable(rd, id) && c == Calibration(rd, id)
    requires d == Points(c.d) && sT == Points(c.s) && r == Points(c.r)
    ensures forall i :: 0 <= i < |rd.load| ==>
              d.Has(i) && sT.Has(i) && r.Has(i)
              && PointSolution(rd, id, i) == Some(PointTerms(d.At(i), sT.At(i), r.At(i)))
  {
    forall i | 0 <= i < |rd.load|
      ensures PointSolution(rd, id, i) == Some(PointTerms(d.At(i), sT.At(i), r.At(i)))
    {
      CalibrationAt(rd, id, i);
    }
  }

  /** When the solve of port 1 succeeds, step 1 stores it. */
  lemma Step1SolvesForward(inp: TwoPortInputs, s: TermTable)
    requires inp.Port1().Covers() && inp.Port2().Covers() && Solvable(inp.Port1(), inp.ideals)
    ensures ForwardSolved(inp, Step1Of(inp, s))
  {
    var r := Step1Of(inp, s);
    var c1 := Calibration(inp.Port1(), inp.ideals);
    if Solvable(inp.Port2(), inp.ideals) {
      Step1Both(inp, s, c1, Calibration(inp.Port2(), inp.ideals));
    } else {
      Step1Half(inp, s, c1);
    }
    StoredSolve(inp.Port1(), inp.ideals, c1, r.e00, r.e11, r.e10e01);
  }

  /** When both solves succeed, step 1 stores the solve of port 2. */
  lemma Step1SolvesReverse(inp: TwoPortInputs, s: TermTable)
    requires inp.Port1().Covers() && inp.Port2().Covers() && BothSolvable(inp)
    ensures ReverseSolved(inp, Step1Of(inp, s))
  {
    var r := Step1Of(inp, s);
    var c2 := Calibration(inp.Port2(), inp.ideals);
    Step1Both(inp, s, Calibration(inp.Port1(), inp.ideals), c2);
    StoredSolve(inp.Port2(), inp.ideals, c2, r.e33R, r.e22R, r.e23e32R);
  }

  /** Step 3 solves the through equations with the terms it reads, and leaves
      e11' as it was. */
  lemma Step3Solves(inp: TwoPortInputs, a: TermTable)
    requires ThroughReady(inp, a)
    ensures ThroughReady(inp, Step3Of(inp, a))
    ensures ThroughSolved(inp, Step3Of(inp, a))
    ensures Step3Of(inp, a).e11R == a.e11R
  {
    var r := Step3Of(inp, a);
    assert SameThroughInputs(a, r);
    Step3ReadsOnly(inp, a, r);
    forall i | 0 <= i < |inp.throwSm11|
      ensures r.ForwardAt(i) == a.ForwardAt(i) && r.ReverseAt(i) == a.ReverseAt(i)
    {
    }
  }

  /** Whether a state is solved depends only on the terms it names. */
  lemma SolvedFrame(inp: TwoPortInputs, a: TermTable, b: TermTable)
    requires inp.Port1().Covers() && inp.Port2().Covers()
    requires a.e00 == b.e00 && a.e11 == b.e11 && a.e10e01 == b.e10e01
    requires a.e33R == b.e33R && a.e22R == b.e22R && a.e23e32R == b.e23e32R
    ensures ForwardSolved(inp, a) ==> ForwardSolved(inp, b)
    ensures ReverseSolved(inp, a) ==> ReverseSolved(inp, b)
  {
    if ForwardSolved(inp, a) {
      forall i | 0 <= i < |inp.loadSm11|
        ensures PointSolution(inp.Port1(), inp.ideals, i) == Some(b.ForwardAt(i))
      {
        assert a.ForwardAt(i) == b.ForwardAt(i);
      }
    }
    if ReverseSolved(inp, a) {
      forall i | 0 <= i < |inp.loadSm22|
        ensures PointSolution(inp.Port2(), inp.ideals, i) == Some(b.ReverseAt(i))
      {
        assert a.ReverseAt(i) == b.ReverseAt(i);
      }
    }
  }

  /** After a successful calibration, the one-port terms are the two one-port
      solves with the same ideals, and the leakage terms are the load
      transmissions. */
  lemma CalibrateSolvesOnePorts(inp: TwoPortInputs, s: TermTable)
    requires CalibrateReady(inp, s) && BothSolvable(inp)
    ensures var r := CalibrateOf(inp, s);
            ForwardSolved(inp, r) && ReverseSolved(inp, r)
            && r.e30 == Points(inp.loadSm21) && r.e03R == Points(inp.loadSm12)
  {
    var s1 := Step1Of(inp, s);
    var r := CalibrateOf(inp, s);
    Step1SolvesForward(inp, s);
    Step1SolvesReverse(inp, s);
    SolvedFrame(inp, s1, r);
  }

  /** After a successful calibration, the through terms solve the through
      equations with the terms steps 1 and 2 wrote, and e11' is whatever it was
      before. */
  lemma CalibrateSolvesThrough(inp: TwoPortInputs, s: TermTable)
    requires CalibrateReady(inp, s) && BothSolvable(inp)
    ensures ThroughReady(inp, CalibrateOf(inp, s)) && ThroughSolved(inp, CalibrateOf(inp, s))
    ensures CalibrateOf(inp, s).e11R == s.e11R
  {
    Step3Solves(inp, Step2Of(inp, Step1Of(inp, s)));
  }

  /** Calibrating never writes e11'. */
  lemma CalibrateKeepsE11R(inp: TwoPortInputs, s: TermTable)
    requires CalibrateReady(inp, s)
    ensures CalibrateOf(inp, s).e11R == s.e11R
  {
  }

  /** A successful calibration does not depend on the state it starts from,
      except for e11', which it never writes. */
  lemma CalibrateForgetsState(inp: TwoPortInputs, s: TermTable, s': TermTable)
    requires CalibrateReady(inp, s) && CalibrateReady(inp, s') && BothSolvable(inp)
    ensures CalibrateOf(inp, s) == CalibrateOf(inp, s').(e11R := s.e11R)
  {
    var a, b := Step2Of(inp, Step1Of(inp, s)), Step2Of(inp, Step1Of(inp, s'));
    assert SameThroughInputs(a, b);
    Step3ReadsOnly(inp, a, b);
  }

  /** Calibrating twice gives the same terms as calibrating once. */
  lemma CalibrateIdempotent(inp: TwoPortInputs, s: TermTable)
    requires CalibrateReady(inp, s)
    ensures CalibrateReady(inp, CalibrateOf(inp, s))
    ensures CalibrateOf(inp, CalibrateOf(inp, s)) == CalibrateOf(inp, s)
  {
    var r := CalibrateOf(inp, s);
    if BothSolvable(inp) {
      var a, b := Step2Of(inp, Step1Of(inp, s)), Step2Of(inp, Step1Of(inp, r));
      assert SameThroughInputs(a, b);
      Step3ReadsOnly(inp, a, b);
      CalibrateForgetsState(inp, r, s);
    }
  }

  // ---------------------------------------------------------------------------
  // Exact recovery of the terms

  /** The names of the twelve terms. */
  datatype TermName = E00 | E11 | E10E01 | E30 | E22 | E10E32
                    | E33R | E22R | E23E32R | E03R | E11R | E23E01R

  /** The term of a point with the given name. */
  function Field(e: ErrorTerms, k: TermName): Complex {
    match k
    case E00 => e.e00
    case E11 => e.e11
    case E10E01 => e.e10e01
    case E30 => e.e30
    case E22 => e.e22
    case E10E32 => e.e10e32
    case E33R => e.e33R
    case E22R => e.e22R
    case E23E32R => e.e23e32R
    case E03R => e.e03R
    case E11R => e.e11R
    case E23E01R => e.e23e01R
  }

  /** One term of every point. */
  function Column(es: seq<ErrorTerms>, k: TermName): (c: seq<Complex>)
    ensures |c| == |es| && forall i :: 0 <= i < |es| ==> c[i] == Field(es[i], k)
  {
    seq(|es|, i requires 0 <= i < |es| => Field(es[i], k))
  }

  /** The state holding the terms of every point. */
  function TableOf(es: seq<ErrorTerms>): TermTable {
    TermTable(Points(Column(es, E00)), Points(Column(es, E11)),
              Points(Column(es, E10E01)), Points(Column(es, E30)),
              Points(Column(es, E22)), Points(Column(es, E10E32)),
              Points(Column(es, E33R)), Points(Column(es, E22R)),
              Points(Column(es, E23E32R)), Points(Column(es, E03R)),
              Points(Column(es, E11R)), Points(Column(es, E23E01R)))
  }

  function Forwards(es: seq<ErrorTerms>): (ts: seq<PointTerms>)
    ensures |ts| == |es| && forall i :: 0 <= i < |es| ==> ts[i] == es[i].Forward()
  {
    seq(|es|, i requires 0 <= i < |es| => es[i].Forward())
  }

  function Reverses(es: seq<ErrorTerms>): (ts: seq<PointTerms>)
    ensures |ts| == |es| && forall i :: 0 <= i < |es| ==> ts[i] == es[i].Reverse()
  {
    seq(|es|, i requires 0 <= i < |es| => es[i].Reverse())
  }

  /** The through readings of every point. */
  function Throughs(es: seq<ErrorTerms>): (ms: seq<Reading>)
    requires forall i :: 0 <= i < |es| ==> ThroughMeasurable(es[i])
    ensures |ms| == |es| && forall i :: 0 <= i < |es| ==> ms[i] == ThroughReading(es[i])
  {
    seq(|es|, i requires 0 <= i < |es| => ThroughReading(es[i]))
  }

  /** Whether the terms of every point give readings the calibration recovers
      with the ideals id: each port's one-port system is regular at every point
      (which needs nonzero tracking), the through can be measured, and the
      reflection trackings are nonzero. */
  predicate RecoverableSweep(es: seq<ErrorTerms>, id: Ideals) {
    (forall i :: 0 <= i < |es| ==> MeasurableAt(Forwards(es)[i], id) && RegularAt(Forwards(es)[i], id))
    && (forall i :: 0 <= i < |es| ==> MeasurableAt(Reverses(es)[i], id) && RegularAt(Reverses(es)[i], id))
    && (forall i :: 0 <= i < |es| ==>
          ThroughMeasurable(es[i]) && es[i].e10e01 != Zero && es[i].e23e32R != Zero)
  }

  /** The inputs the standards with ideals id give through the terms es, with
      a load standard that transmits exactly the leakage. */
  function GeneratedInputs(es: seq<ErrorTerms>, id: Ideals): (inp: TwoPortInputs)
    requires RecoverableSweep(es, id)
    ensures inp.ideals == id
    ensures inp.Port1() == GeneratedReadings(Forwards(es), id)
    ensures inp.Port2() == GeneratedReadings(Reverses(es), id)
    ensures inp.loadSm21 == Column(es, E30) && inp.loadSm12 == Column(es, E03R)
    ensures |inp.throwSm11| == |es| && |inp.throwSm22| == |es|
    ensures |inp.throwSm12| == |es| && |inp.throwSm21| == |es|
    ensures forall i :: 0 <= i < |es| ==> inp.ThroughAt(i) == ThroughReading(es[i])
  {
    var p1 := GeneratedReadings(Forwards(es), id);
    var p2 := GeneratedReadings(Reverses(es), id);
    var t := Throughs(es);
    TwoPortInputs(p1.load, p2.load, Column(es, E03R), Column(es, E30),
                  p1.open, p2.open, p1.short, p2.short,
                  seq(|es|, i requires 0 <= i < |es| => t[i].sm11),
                  seq(|es|, i requires 0 <= i < |es| => t[i].sm22),
                  seq(|es|, i requires 0 <= i < |es| => t[i].sm12),
                  seq(|es|, i requires 0 <= i < |es| => t[i].sm21),
                  id)
  }

  /** Steps 1 and 2 on generated inputs store the one-port and leakage terms
      of every point. */
  lemma GeneratedOnePorts(es: seq<ErrorTerms>, id: Ideals, s: TermTable)
    requires RecoverableSweep(es, id)
    ensures var inp := GeneratedInputs(es, id);
            inp.Port1().Covers() && inp.Port2().Covers() && BothSolvable(inp)
            && SameThroughInputs(Step2Of(inp, Step1Of(inp, s)), TableOf(es))
  {
    var inp := GeneratedInputs(es, id);
    CalibrationRecovers(Forwards(es), id);
    CalibrationRecovers(Reverses(es), id);
    ForwardColumns(es);
    ReverseColumns(es);
  }

  /** The table of the port-1 terms of every point holds their columns. */
  lemma ForwardColumns(es: seq<ErrorTerms>)
    ensures OnePort.CalsOf(Forwards(es)) == Cals(Column(es, E00), Column(es, E11), Column(es, E10E01))
  {
    var c := OnePort.CalsOf(Forwards(es));
    forall i | 0 <= i < |es|
      ensures c.d[i] == es[i].e00 && c.s[i] == es[i].e11 && c.r[i] == es[i].e10e01
    {
      assert c.At(i) == es[i].Forward();
    }
  }

  /** The table of the port-2 terms of every point holds their columns. */
  lemma ReverseColumns(es: seq<ErrorTerms>)
    ensures OnePort.CalsOf(Reverses(es)) == Cals(Column(es, E33R), Column(es, E22R), Column(es, E23E32R))
  {
    var c := OnePort.CalsOf(Reverses(es));
    forall i | 0 <= i < |es|
      ensures c.d[i] == es[i].e33R && c.s[i] == es[i].e22R && c.r[i] == es[i].e23e32R
    {
      assert c.At(i) == es[i].Reverse();
    }
  }

  /** On generated inputs, a state holding the one-port and leakage terms of
      every point has those terms at every point. */
  lemma GeneratedPointTerms(es: seq<ErrorTerms>, a: TermTable)
    requires SameThroughInputs(a, TableOf(es))
    ensures forall i :: 0 <= i < |es| ==>
              a.e00.Has(i) && a.e11.Has(i) && a.e10e01.Has(i) && a.e33R.Has(i) && a.e22R.Has(i)
              && a.e23e32R.Has(i) && a.e30.Has(i) && a.e03R.Has(i)
              && a.ForwardAt(i) == es[i].Forward() && a.ReverseAt(i) == es[i].Reverse()
              && a.e30.At(i) == es[i].e30 && a.e03R.At(i) == es[i].e03R
              && a.e11.At(i) == es[i].e11 && a.e22R.At(i) == es[i].e22R
  {
  }

  /** Step 3 can run on generated inputs. */
  lemma GeneratedThroughReady(es: seq<ErrorTerms>, id: Ideals, a: TermTable)
    requires RecoverableSweep(es, id)
    requires SameThroughInputs(a, TableOf(es))
    ensures ThroughReady(GeneratedInputs(es, id), a)
  {
    var inp := GeneratedInputs(es, id);
    GeneratedPointTerms(es, a);
    forall i | 0 <= i < |es|
      ensures ThroughDenominator(a.ForwardAt(i), inp.throwSm11[i]) != Zero
      ensures ThroughDenominator(a.ReverseAt(i), inp.throwSm22[i]) != Zero
    {
      assert inp.ThroughAt(i) == ThroughReading(es[i]);
      ThroughRecovery(es[i]);
    }
  }

  /** The forward half of step 3 on generated inputs gives back e22 and e10e32. */
  lemma GeneratedForward(es: seq<ErrorTerms>, id: Ideals, a: TermTable)
    requires RecoverableSweep(es, id)
    requires SameThroughInputs(a, TableOf(es)) && ThroughReady(GeneratedInputs(es, id), a)
    ensures ForwardLoadMatch(GeneratedInputs(es, id), a) == Column(es, E22)
    ensures ForwardTracking(GeneratedInputs(es, id), a, Column(es, E22)) == Column(es, E10E32)
  {
    var inp := GeneratedInputs(es, id);
    GeneratedPointTerms(es, a);
    forall i | 0 <= i < |es|
      ensures LoadMatch(a.ForwardAt(i), inp.throwSm11[i]) == es[i].e22
      ensures TransmissionTracking(a.e30.At(i), a.e11.At(i), es[i].e22, inp.throwSm21[i]) == es[i].e10e32
    {
      assert inp.ThroughAt(i) == ThroughReading(es[i]);
      ThroughRecovery(es[i]);
    }
  }

  /** The reverse half of step 3 on generated inputs gives back e11' (as a
      local value) and e23'e01'. */
  lemma GeneratedReverse(es: seq<ErrorTerms>, id: Ideals, a: TermTable)
    requires RecoverableSweep(es, id)
    requires SameThroughInputs(a, TableOf(es)) && ThroughReady(GeneratedInputs(es, id), a)
    ensures ReverseLoadMatch(GeneratedInputs(es, id), a) == Column(es, E11R)
    ensures ReverseTracking(GeneratedInputs(es, id), a, Column(es, E11R)) == Column(es, E23E01R)
  {
    var inp := GeneratedInputs(es, id);
    GeneratedPointTerms(es, a);
    forall i | 0 <= i < |es|
      ensures LoadMatch(a.ReverseAt(i), inp.throwSm22[i]) == es[i].e11R
      ensures TransmissionTracking(a.e03R.At(i), a.e22R.At(i), es[i].e11R, inp.throwSm12[i]) == es[i].e23e01R
    {
      assert inp.ThroughAt(i) == ThroughReading(es[i]);
      ThroughRecovery(es[i]);
    }
  }

  /** Step 3 on generated inputs, from a state holding the one-port and
      leakage terms of every point, stores the load match e22 and the
      trackings e10e32 and e23'e01' of every point; the corrected step also
      stores e11'. */
  lemma GeneratedThrough(es: seq<ErrorTerms>, id: Ideals, a: TermTable)
    requires RecoverableSweep(es, id)
    requires SameThroughInputs(a, TableOf(es))
    ensures ThroughReady(GeneratedInputs(es, id), a)
    ensures Step3Of(GeneratedInputs(es, id), a) == TableOf(es).(e11R := a.e11R)
    ensures Step3CorrectedOf(GeneratedInputs(es, id), a) == TableOf(es)
  {
    GeneratedThroughReady(es, id, a);
    GeneratedForward(es, id, a);
    GeneratedReverse(es, id, a);
  }

  /** Exact recovery: calibrating the readings the standards give through the
      terms of every point stores those terms, except e11', which stays the
      scalar 0 the object starts with; with the corrected step 3 it stores all
      twelve. */
  lemma CalibrationRecoversTerms(es: seq<ErrorTerms>, id: Ideals)
    requires RecoverableSweep(es, id)
    ensures CalibrateReady(GeneratedInputs(es, id), Unset) && BothSolvable(GeneratedInputs(es, id))
    ensures CalibrateOf(GeneratedInputs(es, id), Unset) == TableOf(es).(e11R := Scalar(Zero))
    ensures CalibrateCorrectedOf(GeneratedInputs(es, id), Unset) == TableOf(es)
  {
    var inp := GeneratedInputs(es, id);
    GeneratedOnePorts(es, id, Unset);
    var s2 := Step2Of(inp, Step1Of(inp, Unset));
    GeneratedThrough(es, id, s2);
  }

  /** The table of a sweep holds the terms of each point. */
  lemma TableAt(es: seq<ErrorTerms>, i: nat)
    requires i < |es|
    ensures TableOf(es).Has(i) && TableOf(es).At(i) == es[i]
    ensures TableOf(es).(e11R := Scalar(Zero)).At(i) == es[i].(e11R := Zero)
  {
    var t := TableOf(es);
    assert t.e00.At(i) == es[i].e00 && t.e11.At(i) == es[i].e11 && t.e10e01.At(i) == es[i].e10e01;
    assert t.e30.At(i) == es[i].e30 && t.e22.At(i) == es[i].e22 && t.e10e32.At(i) == es[i].e10e32;
    assert t.e33R.At(i) == es[i].e33R && t.e22R.At(i) == es[i].e22R && t.e23e32R.At(i) == es[i].e23e32R;
    assert t.e03R.At(i) == es[i].e03R && t.e11R.At(i) == es[i].e11R && t.e23e01R.At(i) == es[i].e23e01R;
  }

  /** After the corrected calibration on generated readings, point i holds
      the terms it was generated with. */
  lemma CorrectedCalibrationAt(es: seq<ErrorTerms>, id: Ideals, i: nat)
    requires RecoverableSweep(es, id) && i < |es|
    ensures CalibrateReady(GeneratedInputs(es, id), Unset)
    ensures CalibrateCorrectedOf(GeneratedInputs(es, id), Unset).Has(i)
    ensures CalibrateCorrectedOf(GeneratedInputs(es, id), Unset).At(i) == es[i]
  {
    CalibrationRecoversTerms(es, id);
    TableAt(es, i);
  }

  /** After the calibration as written on generated readings, point i holds
      the terms it was generated with, except e11', which is 0. */
  lemma CalibrationAtWithoutE11R(es: seq<ErrorTerms>, id: Ideals, i: nat)
    requires RecoverableSweep(es, id) && i < |es|
    ensures CalibrateReady(GeneratedInputs(es, id), Unset)
    ensures CalibrateOf(GeneratedInputs(es, id), Unset).Has(i)
    ensures CalibrateOf(GeneratedInputs(es, id), Unset).At(i) == es[i].(e11R := Zero)
  {
    CalibrationRecoversTerms(es, id);
    TableAt(es, i);
  }

  /** After the corrected calibration on generated readings, the terms of
      point i de-embed its through readings to the ideal through: S11 = S22 = 0
      and S21 = S12 = 1. */
  lemma CorrectedCalibrationDeembedsThrough(es: seq<ErrorTerms>, id: Ideals, i: nat)
    requires RecoverableSweep(es, id) && i < |es|
    requires Deembeddable(es[i]) && Sub(One, Mul(es[i].e22, es[i].e11R)) != Zero
    ensures CalibrateReady(GeneratedInputs(es, id), Unset)
    ensures var e, m := CalibrateCorrectedOf(GeneratedInputs(es, id), Unset).At(i), GeneratedInputs(es, id).ThroughAt(i);
            e == es[i] && m == ThroughReading(es[i])
            && DeembedD(e, m) != Zero
            && DeembedS11(e, m) == Zero && DeembedS21(e, m) == One
            && DeembedS22Corrected(e, m) == Zero && DeembedS12(e, m) == One
  {
    CorrectedCalibrationAt(es, id, i);
    ThroughDeembeds(es[i]);
  }

  /** After the calibration as written on generated readings, de-embedding the
      through readings of point i gives S21 = 1 - e22 * e11' instead of 1, and
      an S22 with S22 * X == e11' * b instead of 0. */
  lemma CalibrationDeembedsThroughWithoutE11R(es: seq<ErrorTerms>, id: Ideals, i: nat)
    requires RecoverableSweep(es, id) && i < |es| && Deembeddable(es[i])
    ensures CalibrateReady(GeneratedInputs(es, id), Unset)
    ensures var e, m := CalibrateOf(GeneratedInputs(es, id), Unset).At(i), GeneratedInputs(es, id).ThroughAt(i);
            e == es[i].(e11R := Zero) && m == ThroughReading(es[i])
            && Deembeddable(e) && DeembedD(e, m) != Zero
            && DeembedS11(e, m) == Zero
            && DeembedS21(e, m) == Sub(One, Mul(es[i].e22, es[i].e11R))
            && DeembedS12(e, m) == One
            && Mul(DeembedS22(e, m), NormForward(e, m))
               == Mul(es[i].e11R, Add(One, Div(Mul(e.e22, Sub(m.sm22, e.e00)), e.e10e01)))
            && (DeembedS22(e, m) == Zero
                <==> es[i].e11R == Zero || Add(One, Div(Mul(e.e22, Sub(m.sm22, e.e00)), e.e10e01)) == Zero)
  {
    CalibrationAtWithoutE11R(es, id, i);
    ThroughDeembedsWithoutE11R(es[i]);
  }

  // ---------------------------------------------------------------------------
  // De-embedding a sweep

  /** Whether four raw sweeps of n points can be de-embedded with the fields s:
      the fields combine with them and no tracking term of any point is 0. */
  predicate SweepDeembeddable(s: TermTable, sm11: seq<Complex>, sm22: seq<Complex>,
                              sm12: seq<Complex>, sm21: seq<Complex>) {
    var n := |sm11|;
    |sm22| == n && |sm12| == n && |sm21| == n && s.Covers(n)
    && forall i :: 0 <= i < n ==> Deembeddable(s.At(i))
  }

  /** The four raw readings of point i. */
  function ReadingAt(sm11: seq<Complex>, sm22: seq<Complex>, sm12: seq<Complex>,
                     sm21: seq<Complex>, i: nat): Reading
    requires i < |sm11| && i < |sm22| && i < |sm12| && i < |sm21|
  {
    Reading(sm11[i], sm22[i], sm12[i], sm21[i])
  }

  /** Whether, in addition, the determinant D of no point is 0. */
  predicate SweepInvertible(s: TermTable, sm11: seq<Complex>, sm22: seq<Complex>,
                            sm12: seq<Complex>, sm21: seq<Complex>) {
    SweepDeembeddable(s, sm11, sm22, sm12, sm21)
    && forall i :: 0 <= i < |sm11| ==> DeembedD(s.At(i), ReadingAt(sm11, sm22, sm12, sm21, i)) != Zero
  }

  // ---------------------------------------------------------------------------
  // The calibration object

  class TwoPortCalibration {
    const loadSm11: seq<Complex>
    const loadSm22: seq<Complex>
    const loadSm12: seq<Complex>
    const loadSm21: seq<Complex>
    const openSm11: seq<Complex>
    const openSm22: seq<Complex>
    const shortSm11: seq<Complex>
    const shortSm22: seq<Complex>
    const throwSm11: seq<Complex>
    const throwSm22: seq<Complex>
    const throwSm12: seq<Complex>
    const throwSm21: seq<Complex>
    const s11Load: Complex
    const s11Open: Complex
    const s11Short: Complex

    // forward terms
    var e00: Term
    var e11: Term
    var e10e01: Term
    var e30: Term
    var e22: Term
    var e10e32: Term
    // reverse terms
    var e33R: Term
    var e22R: Term
    var e23e32R: Term
    var e03R: Term
    var e11R: Term
    var e23e01R: Term

    constructor (loadSm11: seq<Complex>, loadSm22: seq<Complex>, loadSm12: seq<Complex>, loadSm21: seq<Complex>,
                 openSm11: seq<Complex>, openSm22: seq<Complex>,
                 shortSm11: seq<Complex>, shortSm22: seq<Complex>,
                 throwSm11: seq<Complex>, throwSm22: seq<Complex>, throwSm12: seq<Complex>, throwSm21: seq<Complex>,
                 s11Load: Complex := Zero, s11Open: Complex := One, s11Short: Complex := MinusOne)
      ensures Inputs() == TwoPortInputs(loadSm11, loadSm22, loadSm12, loadSm21, openSm11, openSm22,
                                        shortSm11, shortSm22, throwSm11, throwSm22, throwSm12, throwSm21,
                                        Ideals(s11Open, s11Short, s11Load))
      ensures State() == Unset
    {
      this.loadSm11, this.loadSm22, this.loadSm12, this.loadSm21 := loadSm11, loadSm22, loadSm12, loadSm21;
      this.openSm11, this.openSm22 := openSm11, openSm22;
      this.shortSm11, this.shortSm22 := shortSm11, shortSm22;
      this.throwSm11, this.throwSm22, this.throwSm12, this.throwSm21 := throwSm11, throwSm22, throwSm12, throwSm21;
      this.s11Load, this.s11Open, this.s11Short := s11Load, s11Open, s11Short;
      e00, e11, e10e01, e30, e22, e10e32 := Scalar(Zero), Scalar(Zero), Scalar(Zero), Scalar(Zero), Scalar(Zero), Scalar(Zero);
      e33R, e22R, e23e32R, e03R, e11R, e23e01R := Scalar(Zero), Scalar(Zero), Scalar(Zero), Scalar(Zero), Scalar(Zero), Scalar(Zero);
    }

    /** The readings and ideals the object was built with. */
    function Inputs(): TwoPortInputs {
      TwoPortInputs(loadSm11, loadSm22, loadSm12, loadSm21, openSm11, openSm22,
                    shortSm11, shortSm22, throwSm11, throwSm22, throwSm12, throwSm21,
                    Ideals(s11Open, s11Short, s11Load))
    }

    /** The twelve error-term fields. */
    function State(): TermTable
      reads this
    {
      TermTable(e00, e11, e10e01, e30, e22, e10e32, e33R, e22R, e23e32R, e03R, e11R, e23e01R)
    }

    /** The terms under their twelve keys. */
    function Cals(): (m: map<string, Term>)
      reads this
      ensures m.Keys == CalsKeys
      ensures m["E00"] == e00 && m["E11"] == e11 && m["E10E01"] == e10e01 && m["E30"] == e30
      ensures m["E22"] == e22 && m["E10E32"] == e10e32 && m["E33'"] == e33R && m["E22'"] == e22R
      ensures m["E23'E32'"] == e23e32R && m["E03'"] == e03R && m["E11'"] == e11R && m["E23'E01'"] == e23e01R
    {
      Report(State())
    }

    /** Step 1: a one-port calibration of each port. A failed solve stops the
        step (ok is false) and leaves the terms set before it. */
    method Step1() returns (ok: bool)
      requires Inputs().Port1().Covers() && Inputs().Port2().Covers()
      modifies this
      ensures ok <==> BothSolvable(Inputs())
      ensures State() == Step1Of(Inputs(), old(State()))
    {
      ghost var inp, s0 := Inputs(), State();
      var ok1, c1 := SolvePort(openSm11, shortSm11, loadSm11);
      if !ok1 {
        return false;
      }
      SetForward(c1);
      var ok2, c2 := SolvePort(openSm22, shortSm22, loadSm22);
      if !ok2 {
        Step1Half(inp, s0, c1);
        return false;
      }
      SetReverse(c2);
      Step1Both(inp, s0, c1, c2);
      return true;
    }

    /** Stores the table of port 1 as e00, e11, e10e01. */
    method SetForward(c: Cals)
      modifies this
      ensures State() == old(State()).(e00 := Points(c.d), e11 := Points(c.s), e10e01 := Points(c.r))
    {
      e00, e11, e10e01 := Points(c.d), Points(c.s), Points(c.r);
    }

    /** Stores the table of port 2 as e33', e22', e23'e32'. */
    method SetReverse(c: Cals)
      modifies this
      ensures State() == old(State()).(e33R := Points(c.d), e22R := Points(c.s), e23e32R := Points(c.r))
    {
      e33R, e22R, e23e32R := Points(c.d), Points(c.s), Points(c.r);
    }

    /** The one-port calibration of one port with the object's ideals: a new
        one-port object is built and solved, and its table is returned. */
    method SolvePort(open: seq<Complex>, short: seq<Complex>, load: seq<Complex>) returns (ok: bool, c: Cals)
      requires Readings(open, short, load).Covers()
      ensures ok <==> Solvable(Readings(open, short, load), Inputs().ideals)
      ensures ok ==> c == Calibration(Readings(open, short, load), Inputs().ideals)
    {
      var p := new OnePortCalibration(open, short, load, s11Open, s11Short, s11Load);
      assert p.Inputs() == Readings(open, short, load) && p.Standards() == Inputs().ideals;
      ok := p.CalculateCalibration();
      c := p.cals;
    }

    /** Step 2: the load transmissions become the leakage terms. */
    method Step2()
      modifies this
      ensures State() == Step2Of(Inputs(), old(State()))
    {
      e30 := Points(loadSm21);
      e03R := Points(loadSm12);
    }

    /** Step 3: the through solve. The reverse load match is a local value. */
    method Step3()
      requires ThroughReady(Inputs(), State())
      modifies this
      ensures State() == Step3Of(Inputs(), old(State()))
    {
      var s := State();
      var l := ForwardLoadMatch(Inputs(), s);
      e22 := Points(l);
      e10e32 := Points(ForwardTracking(Inputs(), s, l));
      var lR := ReverseLoadMatch(Inputs(), s);
      e23e01R := Points(ReverseTracking(Inputs(), s, lR));
    }

    /** The three steps in order; a failed one-port solve stops the calibration. */
    method Calibrate() returns (ok: bool)
      requires CalibrateReady(Inputs(), State())
      modifies this
      ensures ok <==> BothSolvable(Inputs())
      ensures State() == CalibrateOf(Inputs(), old(State()))
    {
      ok := Step1();
      if !ok {
        return;
      }
      Step2();
      Step3();
    }

    /** The determinant D of every point. */
    function CalcD(sm11: seq<Complex>, sm22: seq<Complex>, sm12: seq<Complex>, sm21: seq<Complex>): (d: seq<Complex>)
      reads this
      requires SweepDeembeddable(State(), sm11, sm22, sm12, sm21)
      ensures |d| == |sm11|
      ensures forall i :: 0 <= i < |sm11| ==> d[i] == DeembedD(State().At(i), ReadingAt(sm11, sm22, sm12, sm21, i))
    {
      var s := State();
      seq(|sm11|, i requires 0 <= i < |sm11| => DeembedD(s.At(i), ReadingAt(sm11, sm22, sm12, sm21, i)))
    }

    /** The corrected S11 of every point. */
    function CalcS11(sm11: seq<Complex>, sm22: seq<Complex>, sm12: seq<Complex>, sm21: seq<Complex>): (r: seq<Complex>)
      reads this
      requires SweepInvertible(State(), sm11, sm22, sm12, sm21)
      ensures |r| == |sm11|
      ensures forall i :: 0 <= i < |sm11| ==> r[i] == DeembedS11(State().At(i), ReadingAt(sm11, sm22, sm12, sm21, i))
    {
      var s := State();
      seq(|sm11|, i requires 0 <= i < |sm11| => DeembedS11(s.At(i), ReadingAt(sm11, sm22, sm12, sm21, i)))
    }

    /** The corrected S21 of every point. */
    function CalcS21(sm11: seq<Complex>, sm22: seq<Complex>, sm12: seq<Complex>, sm21: seq<Complex>): (r: seq<Complex>)
      reads this
      requires SweepInvertible(State(), sm11, sm22, sm12, sm21)
      ensures |r| == |sm11|
      ensures forall i :: 0 <= i < |sm11| ==> r[i] == DeembedS21(State().At(i), ReadingAt(sm11, sm22, sm12, sm21, i))
    {
      var s := State();
      seq(|sm11|, i requires 0 <= i < |sm11| => DeembedS21(s.At(i), ReadingAt(sm11, sm22, sm12, sm21, i)))
    }

    /** The corrected S22 of every point, with the second factor as written. */
    function CalcS22(sm11: seq<Complex>, sm22: seq<Complex>, sm12: seq<Complex>, sm21: seq<Complex>): (r: seq<Complex>)
      reads this
      requires SweepInvertible(State(), sm11, sm22, sm12, sm21)
      ensures |r| == |sm11|
      ensures forall i :: 0 <= i < |sm11| ==> r[i] == DeembedS22(State().At(i), ReadingAt(sm11, sm22, sm12, sm21, i))
    {
      var s := State();
      seq(|sm11|, i requires 0 <= i < |sm11| => DeembedS22(s.At(i), ReadingAt(sm11, sm22, sm12, sm21, i)))
    }

    /** The corrected S12 of every point. */
    function CalcS12(sm11: seq<Complex>, sm22: seq<Complex>, sm12: seq<Complex>, sm21: seq<Complex>): (r: seq<Complex>)
      reads this
      requires SweepInvertible(State(), sm11, sm22, sm12, sm21)
      ensures |r| == |sm11|
      ensures forall i :: 0 <= i < |sm11| ==> r[i] == DeembedS12(State().At(i), ReadingAt(sm11, sm22, sm12, sm21, i))
    {
      var s := State();
      seq(|sm11|, i requires 0 <= i < |sm11| => DeembedS12(s.At(i), ReadingAt(sm11, sm22, sm12, sm21, i)))
    }
  }
}
