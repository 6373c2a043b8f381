/** Square 3x3 complex linear systems C * x == V, solved by Cramer's rule.
    The rows of the adjugate of C are the cross products of pairs of rows
    of C, so every quantity here is a polynomial in the entries of C and V
    followed by one division by det C. */
module LinearAlgebra {
  import opened ComplexNumbers

  datatype Vec3 = Vec3(x0: Complex, x1: Complex, x2: Complex)

  /** A matrix given by its three rows. */
  datatype Mat3 = Mat3(r0: Vec3, r1: Vec3, r2: Vec3)

  function Dot(a: Vec3, b: Vec3): Complex {
    Add(Add(Mul(a.x0, b.x0), Mul(a.x1, b.x1)), Mul(a.x2, b.x2))
  }

  function Cross(a: Vec3, b: Vec3): Vec3 {
    Vec3(Sub(Mul(a.x1, b.x2), Mul(a.x2, b.x1)),
         Sub(Mul(a.x2, b.x0), Mul(a.x0, b.x2)),
         Sub(Mul(a.x0, b.x1), Mul(a.x1, b.x0)))
  }

  function Scale(c: Complex, a: Vec3): Vec3 {
    Vec3(Mul(c, a.x0), Mul(c, a.x1), Mul(c, a.x2))
  }

  function AddV(a: Vec3, b: Vec3): Vec3 {
    Vec3(Add(a.x0, b.x0), Add(a.x1, b.x1), Add(a.x2, b.x2))
  }

  /** The product C * x. */
  function Apply(m: Mat3, x: Vec3): Vec3 {
    Vec3(Dot(m.r0, x), Dot(m.r1, x), Dot(m.r2, x))
  }

  /** The determinant, as the scalar triple product of the rows. */
  function Det(m: Mat3): Complex {
    Dot(m.r0, Cross(m.r1, m.r2))
  }

  /** adj(C) * v: the columns of adj(C) are the cross products of row pairs. */
  function AdjApply(m: Mat3, v: Vec3): Vec3 {
    AddV(AddV(Scale(v.x0, Cross(m.r1, m.r2)), Scale(v.x1, Cross(m.r2, m.r0))),
         Scale(v.x2, Cross(m.r0, m.r1)))
  }

  /** Cramer's rule: the unique x with C * x == V when det C is nonzero. */
  function Solve(m: Mat3, v: Vec3): (x: Vec3)
    requires Det(m) != Zero
    ensures Apply(m, x) == v
  {
    var d := Det(m);
    var a := AdjApply(m, v);
    var x := Vec3(Div(a.x0, d), Div(a.x1, d), Div(a.x2, d));
    RowTimesAdjugate(m, v);
    DotDiv(m.r0, a, d);
    DotDiv(m.r1, a, d);
    DotDiv(m.r2, a, d);
    MulDivCancel(v.x0, d);
    MulDivCancel(v.x1, d);
    MulDivCancel(v.x2, d);
    x
  }

  /** The solution is unique: any x with C * x == V is the one Cramer's rule gives. */
  lemma SolveUnique(m: Mat3, v: Vec3, y: Vec3)
    requires Det(m) != Zero
    requires Apply(m, y) == v
    ensures Solve(m, v) == y
  {
    var d := Det(m);
    AdjugateTimesRows(m, y);
    MulDivCancel(y.x0, d);
    MulDivCancel(y.x1, d);
    MulDivCancel(y.x2, d);
    MulComm(d, y.x0);
    MulComm(d, y.x1);
    MulComm(d, y.x2);
  }

  // ---------------------------------------------------------------------------
  // Polynomial identities behind Cramer's rule

  /** A row dotted with a cross product containing that row vanishes. */
  lemma DotCrossSame(a: Vec3, b: Vec3)
    ensures Dot(a, Cross(a, b)) == Zero
    ensures Dot(a, Cross(b, a)) == Zero
  {
    RingRules();
  }

  /** The scalar triple product is invariant under cyclic rotation. */
  lemma TripleCyclic(a: Vec3, b: Vec3, c: Vec3)
    ensures Dot(b, Cross(c, a)) == Dot(a, Cross(b, c))
    ensures Dot(c, Cross(a, b)) == Dot(a, Cross(b, c))
  {
    RingRules();
  }

  /** Row i of C times adj(C) * v is v_i * det C. */
  lemma RowTimesAdjugate(m: Mat3, v: Vec3)
    ensures Dot(m.r0, AdjApply(m, v)) == Mul(v.x0, Det(m))
    ensures Dot(m.r1, AdjApply(m, v)) == Mul(v.x1, Det(m))
    ensures Dot(m.r2, AdjApply(m, v)) == Mul(v.x2, Det(m))
  {
    DotCrossSame(m.r0, m.r1);
    DotCrossSame(m.r0, m.r2);
    DotCrossSame(m.r1, m.r2);
    DotCrossSame(m.r1, m.r0);
    DotCrossSame(m.r2, m.r0);
    DotCrossSame(m.r2, m.r1);
    TripleCyclic(m.r0, m.r1, m.r2);
    DotLinear(m.r0, v, m);
    DotLinear(m.r1, v, m);
    DotLinear(m.r2, v, m);
  }

  /** Dot product with adj(C) * v, expanded by linearity. */
  lemma DotLinear(r: Vec3, v: Vec3, m: Mat3)
    ensures Dot(r, AdjApply(m, v))
         == Add(Add(Mul(v.x0, Dot(r, Cross(m.r1, m.r2))), Mul(v.x1, Dot(r, Cross(m.r2, m.r0)))),
                Mul(v.x2, Dot(r, Cross(m.r0, m.r1))))
  {
    RingRules();
  }

  /** adj(C) * (C * y) == det C * y. */
  lemma AdjugateTimesRows(m: Mat3, y: Vec3)
    ensures AdjApply(m, Apply(m, y)) == Scale(Det(m), y)
  {
    AdjugateColumn0(m.r0, m.r1, m.r2, y);
    AdjugateColumn0(Rot(m.r0), Rot(m.r1), Rot(m.r2), Rot(y));
    AdjugateColumn0(Rot(Rot(m.r0)), Rot(Rot(m.r1)), Rot(Rot(m.r2)), Rot(Rot(y)));
    RotCross(m.r1, m.r2);
    RotCross(m.r2, m.r0);
    RotCross(m.r0, m.r1);
    RotCross(Rot(m.r1), Rot(m.r2));
    RotCross(Rot(m.r2), Rot(m.r0));
    RotCross(Rot(m.r0), Rot(m.r1));
    RotDot(m.r0, y);
    RotDot(m.r1, y);
    RotDot(m.r2, y);
    RotDot(Rot(m.r0), Rot(y));
    RotDot(Rot(m.r1), Rot(y));
    RotDot(Rot(m.r2), Rot(y));
    RotDot(m.r0, Cross(m.r1, m.r2));
    RotDot(Rot(m.r0), Rot(Cross(m.r1, m.r2)));
  }

  /** Cyclic shift of coordinates. */
  function Rot(a: Vec3): Vec3 {
    Vec3(a.x1, a.x2, a.x0)
  }

  lemma RotCross(a: Vec3, b: Vec3)
    ensures Cross(Rot(a), Rot(b)) == Rot(Cross(a, b))
  {
  }

  lemma RotDot(a: Vec3, b: Vec3)
    ensures Dot(Rot(a), Rot(b)) == Dot(a, b)
  {
    RingRules();
  }

  /** First coordinate of adj(C) * (C * y) == det C * y. */
  lemma AdjugateColumn0(r0: Vec3, r1: Vec3, r2: Vec3, y: Vec3)
    ensures Add(Add(Mul(Dot(r0, y), Cross(r1, r2).x0), Mul(Dot(r1, y), Cross(r2, r0).x0)),
                Mul(Dot(r2, y), Cross(r0, r1).x0))
         == Mul(Dot(r0, Cross(r1, r2)), y.x0)
  {
    RingRules();
  }

  lemma DotDiv(r: Vec3, a: Vec3, d: Complex)
    requires d != Zero
    ensures Dot(r, Vec3(Div(a.x0, d), Div(a.x1, d), Div(a.x2, d))) == Div(Dot(r, a), d)
  {
    MulDiv(r.x0, a.x0, d);
    MulDiv(r.x1, a.x1, d);
    MulDiv(r.x2, a.x2, d);
    AddDivs(Mul(r.x0, a.x0), Mul(r.x1, a.x1), d);
    AddDivs(Add(Mul(r.x0, a.x0), Mul(r.x1, a.x1)), Mul(r.x2, a.x2), d);
  }
}
