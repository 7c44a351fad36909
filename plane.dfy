/** The two-variable least-squares fit y = b0 + b1 * x1 + b2 * x2 over
    samples [x1, x2, y].

    The solver gathers the sample count and eight running sums of the data
    (`StatsOf`), then solves the mean-centred normal equations for b1 and b2
    by Cramer's rule and recovers b0 from the means (`Solve`). `Fit` is the
    composition; the solver method is proved to compute it. */
module Plane {
  import opened Samples
  import opened Algebra
  import opened Outcome

  /** The sample count and the eight running sums of the solver. */
  datatype Stats = Stats(n: real, sumX1: real, sumX2: real, sumY: real,
                         sumX1X1: real, sumX2X2: real, sumX1X2: real, sumX1Y: real, sumX2Y: real)
  {
    /** Mean-centred sum of squares of x1. */
    function Sx1x1(): real requires n != 0.0 { sumX1X1 - sumX1 * (sumX1 / n) }
    /** Mean-centred sum of squares of x2. */
    function Sx2x2(): real requires n != 0.0 { sumX2X2 - sumX2 * (sumX2 / n) }
    /** Mean-centred sum of cross products of x1 and x2. */
    function Sx1x2(): real requires n != 0.0 { sumX1X2 - sumX1 * (sumX2 / n) }
    /** Mean-centred sum of cross products of x1 and y. */
    function Sx1y(): real requires n != 0.0 { sumX1Y - sumX1 * (sumY / n) }
    /** Mean-centred sum of cross products of x2 and y. */
    function Sx2y(): real requires n != 0.0 { sumX2Y - sumX2 * (sumY / n) }
    /** The determinant of the centred 2 x 2 system in (b1, b2). */
    function Denominator(): real requires n != 0.0 { Det(Sx1x1(), Sx1x2(), Sx2x2()) }
  }

  /** The statistics of the empty data set. */
  const Zero := Stats(0.0, 0.0, 0.0, 0.0, 0.0, 0.0, 0.0, 0.0, 0.0)

  /** The contribution of one sample [x1, x2, y] to the statistics. */
  function Sample(v: seq<real>): Stats {
    Stats(1.0, At(v, 0), At(v, 1), At(v, 2), At(v, 0) * At(v, 0), At(v, 1) * At(v, 1),
          At(v, 0) * At(v, 1), At(v, 0) * At(v, 2), At(v, 1) * At(v, 2))
  }

  /** Statistics of two data sets combined. */
  function Add(a: Stats, b: Stats): Stats {
    Stats(a.n + b.n, a.sumX1 + b.sumX1, a.sumX2 + b.sumX2, a.sumY + b.sumY,
          a.sumX1X1 + b.sumX1X1, a.sumX2X2 + b.sumX2X2, a.sumX1X2 + b.sumX1X2,
          a.sumX1Y + b.sumX1Y, a.sumX2Y + b.sumX2Y)
  }

  /** The statistics of a data set, accumulated in sample order. */
  function StatsOf(s: seq<seq<real>>): Stats {
    if s == [] then Zero else Add(StatsOf(s[..|s| - 1]), Sample(s[|s| - 1]))
  }

  /** The two-variable closed form, as [b0, b1, b2]. */
  function Solve(m: Stats): (r: Result<seq<real>>)
    ensures r.Ok? ==> |r.value| == 3
  {
    if m.n == 0.0 then Err(InsufficientData)
    else if m.Denominator() == 0.0 then Err(SingularDesignMatrix)
    else
      var b1 := CramerFirst(m.Sx1x1(), m.Sx1x2(), m.Sx2x2(), m.Sx1y(), m.Sx2y());
      var b2 := CramerSecond(m.Sx1x1(), m.Sx1x2(), m.Sx2x2(), m.Sx1y(), m.Sx2y());
      Ok([m.sumY / m.n - b1 * (m.sumX1 / m.n) - b2 * (m.sumX2 / m.n), b1, b2])
  }

  /** The two-variable fit of a data set. */
  function Fit(s: seq<seq<real>>): Result<seq<real>> {
    Solve(StatsOf(s))
  }

  /* Accumulating the statistics. */

  /** One more sample adds its contribution: the step of the solver's loop. */
  lemma StatsOfStep(s: seq<seq<real>>, k: nat)
    requires k < |s|
    ensures StatsOf(s[..k + 1]) == Add(StatsOf(s[..k]), Sample(s[k]))
  {
    assert s[..k + 1][..k] == s[..k];
  }

  /** The contribution of a row [x1, x2, y], written out. */
  lemma SampleRow(v: seq<real>)
    requires |v| == 3
    ensures Sample(v) == Stats(1.0, v[0], v[1], v[2], v[0] * v[0], v[1] * v[1], v[0] * v[1], v[0] * v[2], v[1] * v[2])
  {
  }

  /** The loop step on rows: when the first k rows have statistics a, the
      first k + 1 have a with each running sum grown by the term of row k, v. */
  lemma StatsOfRow(s: seq<seq<real>>, k: nat, a: Stats, v: seq<real>)
    requires k < |s| && v == s[k] && |v| == 3 && a == StatsOf(s[..k])
    ensures StatsOf(s[..k + 1])
            == Stats(a.n + 1.0, a.sumX1 + v[0], a.sumX2 + v[1], a.sumY + v[2],
                     a.sumX1X1 + v[0] * v[0], a.sumX2X2 + v[1] * v[1],
                     a.sumX1X2 + v[0] * v[1], a.sumX1Y + v[0] * v[2],
                     a.sumX2Y + v[1] * v[2])
  {
    StatsOfStep(s, k);
    SampleRow(v);
  }

  /** The count is the number of samples. */
  lemma {:induction false} CountIsSize(s: seq<seq<real>>)
    ensures StatsOf(s).n == |s| as real
  {
    if s != [] {
      CountIsSize(s[..|s| - 1]);
    }
  }

  /** The statistics of a concatenation combine those of its parts. */
  lemma {:induction false} StatsOfAppend(s: seq<seq<real>>, t: seq<seq<real>>)
    ensures StatsOf(s + t) == Add(StatsOf(s), StatsOf(t))
    decreases |t|
  {
    if t == [] {
      assert s + t == s;
    } else {
      var t' := t[..|t| - 1];
      assert (s + t)[..|s + t| - 1] == s + t';
      StatsOfAppend(s, t');
    }
  }

  /** Removing the sample at position `k` removes its contribution. */
  lemma StatsOfRemoveAt(t: seq<seq<real>>, k: nat)
    requires k < |t|
    ensures StatsOf(t) == Add(StatsOf(RemoveAt(t, k)), Sample(t[k]))
  {
    var before, after := t[..k], t[k + 1..];
    SplitAt(t, k);
    StatsOfAppend(t[..k + 1], after);
    StatsOfStep(t, k);
    StatsOfAppend(before, after);
    AddSwap(StatsOf(before), Sample(t[k]), StatsOf(after));
  }

  /** Contributions can be added in either order. */
  lemma AddSwap(a: Stats, b: Stats, c: Stats)
    ensures Add(Add(a, b), c) == Add(Add(a, c), b)
  {
  }

  /** The statistics do not depend on the order of the samples. */
  lemma {:induction false} StatsOfPermutation(s: seq<seq<real>>, t: seq<seq<real>>)
    requires multiset(s) == multiset(t)
    ensures StatsOf(s) == StatsOf(t)
    decreases |s|
  {
    SameLength(s, t);
    if s != [] {
      var k := Find(t, s[|s| - 1]);
      DropLast(s);
      StatsOfPermutation(s[..|s| - 1], RemoveAt(t, k));
      StatsOfRemoveAt(t, k);
    }
  }

  /* The closed form and the normal equations. */

  /** The normal equations (X^T X) b = X^T y of the two-variable model, X
      having the rows [1, x1, x2], written with the statistics. */
  ghost predicate Normal(m: Stats, b0: real, b1: real, b2: real) {
    && m.n * b0 + m.sumX1 * b1 + m.sumX2 * b2 == m.sumY
    && m.sumX1 * b0 + m.sumX1X1 * b1 + m.sumX1X2 * b2 == m.sumX1Y
    && m.sumX2 * b0 + m.sumX1X2 * b1 + m.sumX2X2 * b2 == m.sumX2Y
  }

  /** The returned slopes solve the centred system
      Sx1x1 * b1 + Sx1x2 * b2 == Sx1y and Sx1x2 * b1 + Sx2x2 * b2 == Sx2y. */
  lemma SolveCentred(m: Stats)
    requires Solve(m).Ok?
    ensures var b := Solve(m).value;
            && m.Sx1x1() * b[1] + m.Sx1x2() * b[2] == m.Sx1y()
            && m.Sx1x2() * b[1] + m.Sx2x2() * b[2] == m.Sx2y()
  {
    var b := Solve(m).value;
    assert b[1] == CramerFirst(m.Sx1x1(), m.Sx1x2(), m.Sx2x2(), m.Sx1y(), m.Sx2y());
    assert b[2] == CramerSecond(m.Sx1x1(), m.Sx1x2(), m.Sx2x2(), m.Sx1y(), m.Sx2y());
    CramerSolves(m.Sx1x1(), m.Sx1x2(), m.Sx2x2(), m.Sx1y(), m.Sx2y());
  }

  /** The fitted plane passes through the mean point (mean x1, mean x2, mean y). */
  lemma SolveThroughMean(m: Stats)
    requires Solve(m).Ok?
    ensures var b := Solve(m).value;
            b[0] + b[1] * (m.sumX1 / m.n) + b[2] * (m.sumX2 / m.n) == m.sumY / m.n
  {
  }

  /** With a nonzero count, (c0, c1, c2) solves the normal equations exactly
      when the plane passes through the mean point and (c1, c2) solves the
      centred system. */
  lemma NormalCentred(m: Stats, c0: real, c1: real, c2: real)
    requires m.n != 0.0
    ensures Normal(m, c0, c1, c2)
        <==> (&& c0 == m.sumY / m.n - c1 * (m.sumX1 / m.n) - c2 * (m.sumX2 / m.n)
              && m.Sx1x1() * c1 + m.Sx1x2() * c2 == m.Sx1y()
              && m.Sx1x2() * c1 + m.Sx2x2() * c2 == m.Sx2y())
  {
    CentreSystem(m.n, m.sumX1, m.sumX2, m.sumY, m.sumX1X1, m.sumX1X2, m.sumX2X2, m.sumX1Y, m.sumX2Y, c0, c1, c2);
  }

  /** The closed form solves the normal equations. */
  lemma SolveNormal(m: Stats)
    requires Solve(m).Ok?
    ensures var b := Solve(m).value; Normal(m, b[0], b[1], b[2])
  {
    var b := Solve(m).value;
    SolveCentred(m);
    NormalCentred(m, b[0], b[1], b[2]);
  }

  /** With a nonzero count and determinant the closed form is the only
      solution of the normal equations. */
  lemma SolveUnique(m: Stats, c0: real, c1: real, c2: real)
    requires m.n != 0.0 && m.Denominator() != 0.0
    requires Normal(m, c0, c1, c2)
    ensures Solve(m) == Ok([c0, c1, c2])
  {
    NormalCentred(m, c0, c1, c2);
    CramerUnique(m.Sx1x1(), m.Sx1x2(), m.Sx2x2(), m.Sx1y(), m.Sx2y(), c1, c2);
    var b := Solve(m).value;
    assert b == [c0, c1, c2] by {
      assert b[1] == c1 && b[2] == c2;
      assert b[0] == c0;
    }
  }

  /** The solver's centred sums, computed from the count n and the eight
      running sums, are those of the statistics, and so is its denominator. */
  lemma CentredSums(n: real, s1: real, s2: real, sy: real, s11: real, s22: real, s12: real, s1y: real, s2y: real,
                    c11: real, c22: real, c1y: real, c2y: real, c12: real, den: real)
    requires n != 0.0
    requires c11 == s11 - s1 * (s1 / n) && c22 == s22 - s2 * (s2 / n) && c12 == s12 - s1 * (s2 / n)
    requires c1y == s1y - s1 * (sy / n) && c2y == s2y - s2 * (sy / n)
    requires den == c11 * c22 - c12 * c12
    ensures var m := Stats(n, s1, s2, sy, s11, s22, s12, s1y, s2y);
            && m.Sx1x1() == c11 && m.Sx2x2() == c22 && m.Sx1x2() == c12
            && m.Sx1y() == c1y && m.Sx2y() == c2y && m.Denominator() == den
  {
  }

  /** With a nonzero denominator, the coefficients as the solver computes
      them from its centred sums are the result of `Solve`. */
  lemma SolveFromSums(n: real, s1: real, s2: real, sy: real, s11: real, s22: real, s12: real, s1y: real, s2y: real,
                      c11: real, c22: real, c1y: real, c2y: real, c12: real, den: real, b0: real, b1: real, b2: real)
    requires n != 0.0
    requires c11 == s11 - s1 * (s1 / n) && c22 == s22 - s2 * (s2 / n) && c12 == s12 - s1 * (s2 / n)
    requires c1y == s1y - s1 * (sy / n) && c2y == s2y - s2 * (sy / n)
    requires den == c11 * c22 - c12 * c12 && den != 0.0
    requires b1 == (c22 * c1y - c12 * c2y) / den && b2 == (c11 * c2y - c12 * c1y) / den
    requires b0 == sy / n - b1 * (s1 / n) - b2 * (s2 / n)
    ensures Solve(Stats(n, s1, s2, sy, s11, s22, s12, s1y, s2y)) == Ok([b0, b1, b2])
  {
    var m := Stats(n, s1, s2, sy, s11, s22, s12, s1y, s2y);
    CentredSums(n, s1, s2, sy, s11, s22, s12, s1y, s2y, c11, c22, c1y, c2y, c12, den);
    var r := Solve(m).value;
    assert r == [b0, b1, b2] by {
      assert r[1] == b1 && r[2] == b2;
      assert r[0] == b0;
    }
  }

  /* Exact fit. */

  /** Every sample lies on the plane y = c0 + c1 * x1 + c2 * x2. */
  ghost predicate OnPlane(s: seq<seq<real>>, c0: real, c1: real, c2: real) {
    forall k | 0 <= k < |s| :: |s[k]| == 3 && s[k][2] == c0 + c1 * s[k][0] + c2 * s[k][1]
  }

  /** The normal equations are linear in the statistics. */
  lemma NormalAdd(a: Stats, b: Stats, c0: real, c1: real, c2: real)
    requires Normal(a, c0, c1, c2) && Normal(b, c0, c1, c2)
    ensures Normal(Add(a, b), c0, c1, c2)
  {
  }

  /** A sample on the plane satisfies the plane's normal equations. */
  lemma SampleNormal(v: seq<real>, c0: real, c1: real, c2: real)
    requires |v| == 3 && v[2] == c0 + c1 * v[0] + c2 * v[1]
    ensures Normal(Sample(v), c0, c1, c2)
  {
    var x1, x2 := v[0], v[1];
    assert x1 * c0 + (x1 * x1) * c1 + (x1 * x2) * c2 == x1 * (c0 + c1 * x1 + c2 * x2);
    assert x2 * c0 + (x1 * x2) * c1 + (x2 * x2) * c2 == x2 * (c0 + c1 * x1 + c2 * x2);
  }

  /** Data that lie on a plane satisfy that plane's normal equations. */
  lemma {:induction false} OnPlaneNormal(s: seq<seq<real>>, c0: real, c1: real, c2: real)
    requires OnPlane(s, c0, c1, c2)
    ensures Normal(StatsOf(s), c0, c1, c2)
  {
    if s != [] {
      var s' := s[..|s| - 1];
      assert OnPlane(s', c0, c1, c2) by {
        assert forall k | 0 <= k < |s'| :: s'[k] == s[k];
      }
      OnPlaneNormal(s', c0, c1, c2);
      SampleNormal(s[|s| - 1], c0, c1, c2);
      NormalAdd(StatsOf(s'), Sample(s[|s| - 1]), c0, c1, c2);
    }
  }

  /** Exact fit: noise-free data on the plane y = c0 + c1 * x1 + c2 * x2 with
      a nonzero determinant give back (c0, c1, c2). */
  lemma FitExact(s: seq<seq<real>>, c0: real, c1: real, c2: real)
    requires OnPlane(s, c0, c1, c2)
    requires StatsOf(s).n != 0.0 && StatsOf(s).Denominator() != 0.0
    ensures Fit(s) == Ok([c0, c1, c2])
  {
    OnPlaneNormal(s, c0, c1, c2);
    SolveUnique(StatsOf(s), c0, c1, c2);
  }

  /** The statistics of a data set of three samples. */
  lemma StatsOfThree(u: seq<real>, v: seq<real>, w: seq<real>)
    ensures StatsOf([u, v, w]) == Add(Add(Add(Zero, Sample(u)), Sample(v)), Sample(w))
  {
    assert [u, v, w][..2] == [u, v];
    assert [u, v][..1] == [u];
    assert [u][..0] == [];
    assert StatsOf([u]) == Add(Zero, Sample(u));
    assert StatsOf([u, v]) == Add(StatsOf([u]), Sample(v));
  }

  /** The three unit design points (0, 0), (1, 0), (0, 1) with responses on
      the plane y = c0 + c1 * x1 + c2 * x2 give back (c0, c1, c2). */
  lemma FitUnitDesign(c0: real, c1: real, c2: real)
    ensures Fit([[0.0, 0.0, c0], [1.0, 0.0, c0 + c1], [0.0, 1.0, c0 + c2]]) == Ok([c0, c1, c2])
  {
    var u, v, w := [0.0, 0.0, c0], [1.0, 0.0, c0 + c1], [0.0, 1.0, c0 + c2];
    StatsOfThree(u, v, w);
    var m := StatsOf([u, v, w]);
    assert m == Stats(3.0, 1.0, 1.0, 3.0 * c0 + c1 + c2, 1.0, 1.0, 0.0, c0 + c1, c0 + c2);
    assert m.Sx1x1() == 2.0 / 3.0 && m.Sx2x2() == 2.0 / 3.0 && m.Sx1x2() == -1.0 / 3.0;
    SolveUnique(m, c0, c1, c2);
  }

  /** The example data (0, 0, 1), (1, 0, 3), (0, 1, 5) lie on
      y = 1 + 2 * x1 + 4 * x2, and the fit returns (1, 2, 4). */
  lemma FitExample()
    ensures Fit([[0.0, 0.0, 1.0], [1.0, 0.0, 3.0], [0.0, 1.0, 5.0]]) == Ok([1.0, 2.0, 4.0])
  {
    FitUnitDesign(1.0, 2.0, 4.0);
  }

  /** The fit does not depend on the order of the samples. */
  lemma FitPermutation(s: seq<seq<real>>, t: seq<seq<real>>)
    requires multiset(s) == multiset(t)
    ensures Fit(s) == Fit(t)
  {
    StatsOfPermutation(s, t);
  }

  /* Degenerate data. */

  /** Column x2 is the affine function a + q * x1 of column x1, as seen by
      the statistics. */
  ghost predicate Affine(m: Stats, a: real, q: real) {
    && m.sumX2 == a * m.n + q * m.sumX1
    && m.sumX1X2 == a * m.sumX1 + q * m.sumX1X1
    && m.sumX2X2 == a * m.sumX2 + q * m.sumX1X2
  }

  /** An affine x2 column gives a singular centred system. */
  lemma AffineSingular(m: Stats, a: real, q: real)
    requires m.n != 0.0 && Affine(m, a, q)
    ensures m.Denominator() == 0.0
  {
    var c11 := m.Sx1x1();
    assert m.Sx1x2() == q * c11;
    assert m.Sx2x2() == q * (q * c11);
    assert c11 * (q * (q * c11)) == (q * c11) * (q * c11);
  }

  /** The relation Affine is linear in the statistics. */
  lemma AffineAdd(m: Stats, d: Stats, a: real, q: real)
    requires Affine(m, a, q) && Affine(d, a, q)
    ensures Affine(Add(m, d), a, q)
  {
    LinearSum(a, q, m.n, m.sumX1, d.n, d.sumX1);
    LinearSum(a, q, m.sumX1, m.sumX1X1, d.sumX1, d.sumX1X1);
    LinearSum(a, q, m.sumX2, m.sumX1X2, d.sumX2, d.sumX1X2);
  }

  /** A sample whose x2 is a + q * x1 has affine statistics. */
  lemma SampleAffine(v: seq<real>, a: real, q: real)
    requires |v| == 3 && v[1] == a + q * v[0]
    ensures Affine(Sample(v), a, q)
  {
    var x1, x2 := v[0], v[1];
    assert x1 * x2 == a * x1 + q * (x1 * x1);
    assert x2 * x2 == a * x2 + q * (x1 * x2);
  }

  /** Data whose x2 is a + q * x1 in every sample have affine statistics. */
  lemma {:induction false} AffineStatsOf(s: seq<seq<real>>, a: real, q: real)
    requires forall k | 0 <= k < |s| :: |s[k]| == 3 && s[k][1] == a + q * s[k][0]
    ensures Affine(StatsOf(s), a, q)
  {
    if s != [] {
      var s', v := s[..|s| - 1], s[|s| - 1];
      AffineStatsOf(s', a, q);
      SampleAffine(v, a, q);
      AffineAdd(StatsOf(s'), Sample(v), a, q);
    }
  }

  /** Degenerate input: when x2 is an affine function a + q * x1 of x1 in
      every sample (x2 = q * x1 is the case a = 0), the system is singular. */
  lemma FitCollinear(s: seq<seq<real>>, a: real, q: real)
    requires forall k | 0 <= k < |s| :: |s[k]| == 3 && s[k][1] == a + q * s[k][0]
    ensures Fit(s) == Err(if |s| == 0 then InsufficientData else SingularDesignMatrix)
  {
    CountIsSize(s);
    if |s| > 0 {
      AffineStatsOf(s, a, q);
      AffineSingular(StatsOf(s), a, q);
    }
  }

  /** Statistics of a single sample: count one, and each sum of squares or
      cross products of x1 and x2 is the product of the plain sums. */
  ghost predicate Single(a: Stats) {
    && a.n == 1.0 && a.sumX1X1 == a.sumX1 * a.sumX1
    && a.sumX2X2 == a.sumX2 * a.sumX2 && a.sumX1X2 == a.sumX1 * a.sumX2
  }

  /** Every sample contributes single-sample statistics. */
  lemma SampleSingle(v: seq<real>)
    ensures Single(Sample(v))
  {
  }

  /** The centred system of one sample is singular. */
  lemma OneSampleSingular(a: Stats)
    requires Single(a)
    ensures Add(Zero, a).Denominator() == 0.0
  {
    var m := Add(Zero, a);
    assert m.Sx1x1() == 0.0 && m.Sx1x2() == 0.0;
  }

  /** The centred system of two samples is singular. */
  lemma TwoSampleSingular(a: Stats, b: Stats)
    requires Single(a) && Single(b)
    ensures Add(Add(Zero, a), b).Denominator() == 0.0
  {
    var m := Add(Add(Zero, a), b);
    TwoPointSingular(m.n, m.sumX1, m.sumX2, m.sumX1X1, m.sumX1X2, m.sumX2X2, a.sumX1, a.sumX2, b.sumX1, b.sumX2);
  }

  /** Fewer than three samples never determine a plane. */
  lemma FitTooFewSamples(s: seq<seq<real>>)
    requires |s| < 3
    ensures Fit(s) == Err(if |s| == 0 then InsufficientData else SingularDesignMatrix)
  {
    if |s| == 1 {
      assert s[..0] == [] && s[..1] == s;
      StatsOfStep(s, 0);
      SampleSingle(s[0]);
      OneSampleSingular(Sample(s[0]));
    } else if |s| == 2 {
      assert s[..0] == [] && s[..2] == s;
      StatsOfStep(s, 0);
      StatsOfStep(s, 1);
      SampleSingle(s[0]);
      SampleSingle(s[1]);
      TwoSampleSingular(Sample(s[0]), Sample(s[1]));
    }
  }
}
