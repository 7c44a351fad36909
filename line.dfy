/** The one-variable least-squares fit y = b0 + b1 * x over samples [x, y].

    The solver gathers the sample count and four running sums (`StatsOf`),
    inverts the 2 x 2 matrix of the normal equations through its adjugate and
    applies the inverse to the right-hand side. `Solve` states the result in
    the textbook closed form, `InverseSolve` shows that the inverse-matrix
    computation gives the same values, and `Fit` is the composition the
    solver method is proved to compute. */
module Line {
  import opened Samples
  import opened Algebra
  import opened Outcome

  /** The sample count and the running sums of the solver. */
  datatype Stats = Stats(n: real, sumX: real, sumY: real, sumXX: real, sumXY: real)
  {
    /** The determinant n * sum(x^2) - sum(x)^2 of the normal-equations
        matrix [[n, sum(x)], [sum(x), sum(x^2)]]. */
    function Determinant(): real { Det(n, sumX, sumXX) }
  }

  /** The statistics of the empty data set. */
  const Zero := Stats(0.0, 0.0, 0.0, 0.0, 0.0)

  /** The contribution of one sample [x, y] to the statistics. */
  function Sample(v: seq<real>): Stats {
    Stats(1.0, At(v, 0), At(v, 1), At(v, 0) * At(v, 0), At(v, 0) * At(v, 1))
  }

  /** Statistics of two data sets combined. */
  function Add(a: Stats, b: Stats): Stats {
    Stats(a.n + b.n, a.sumX + b.sumX, a.sumY + b.sumY, a.sumXX + b.sumXX, a.sumXY + b.sumXY)
  }

  /** The statistics of a data set, accumulated in sample order. */
  function StatsOf(s: seq<seq<real>>): Stats {
    if s == [] then Zero else Add(StatsOf(s[..|s| - 1]), Sample(s[|s| - 1]))
  }

  /** The closed form, as [b0, b1], in the textbook shape
      b0 = (sum(x^2) * sum(y) - sum(x) * sum(xy)) / det and
      b1 = (n * sum(xy) - sum(x) * sum(y)) / det. */
  function Solve(m: Stats): (r: Result<seq<real>>)
    ensures r.Ok? ==> |r.value| == 2
  {
    var det := m.Determinant();
    if det == 0.0 then Err(SingularDesignMatrix)
    else Ok([(m.sumXX * m.sumY - m.sumX * m.sumXY) / det, (m.n * m.sumXY - m.sumX * m.sumY) / det])
  }

  /** The one-variable fit of a data set. */
  function Fit(s: seq<seq<real>>): Result<seq<real>> {
    Solve(StatsOf(s))
  }

  /* Accumulating the statistics. */

  /** One more sample adds its contribution: the step of the solver's loops. */
  lemma StatsOfStep(s: seq<seq<real>>, k: nat)
    requires k < |s|
    ensures StatsOf(s[..k + 1]) == Add(StatsOf(s[..k]), Sample(s[k]))
  {
    assert s[..k + 1][..k] == s[..k];
  }

  /** The contribution of a row [x, y], written out. */
  lemma SampleRow(v: seq<real>)
    requires |v| == 2
    ensures Sample(v) == Stats(1.0, v[0], v[1], v[0] * v[0], v[0] * v[1])
  {
  }

  /** The loop step on rows: when the first k rows have statistics a, the
      first k + 1 have a with each running sum grown by the term of row k, v. */
  lemma StatsOfRow(s: seq<seq<real>>, k: nat, a: Stats, v: seq<real>)
    requires k < |s| && v == s[k] && |v| == 2 && a == StatsOf(s[..k])
    ensures StatsOf(s[..k + 1])
            == Stats(a.n + 1.0, a.sumX + v[0], a.sumY + v[1],
                     a.sumXX + v[0] * v[0], a.sumXY + v[0] * v[1])
  {
    StatsOfStep(s, k);
    SampleRow(v);
  }

  /** The count is the number of samples. */
  lemma {:induction false} CountIsSize(s: seq<seq<real>>)
    ensures StatsOf(s).n == |s| as real
  {
    if s != [] {
      CountIsSize(s[..|s| - 1]);
    }
  }

  /** The statistics of a concatenation combine those of its parts. */
  lemma {:induction false} StatsOfAppend(s: seq<seq<real>>, t: seq<seq<real>>)
    ensures StatsOf(s + t) == Add(StatsOf(s), StatsOf(t))
    decreases |t|
  {
    if t == [] {
      assert s + t == s;
    } else {
      var t' := t[..|t| - 1];
      assert (s + t)[..|s + t| - 1] == s + t';
      StatsOfAppend(s, t');
    }
  }

  /** Contributions can be added in either order. */
  lemma AddSwap(a: Stats, b: Stats, c: Stats)
    ensures Add(Add(a, b), c) == Add(Add(a, c), b)
  {
  }

  /** Removing the sample at position `k` removes its contribution. */
  lemma StatsOfRemoveAt(t: seq<seq<real>>, k: nat)
    requires k < |t|
    ensures StatsOf(t) == Add(StatsOf(RemoveAt(t, k)), Sample(t[k]))
  {
    var before, after := t[..k], t[k + 1..];
    SplitAt(t, k);
    StatsOfAppend(t[..k + 1], after);
    StatsOfStep(t, k);
    StatsOfAppend(before, after);
    AddSwap(StatsOf(before), Sample(t[k]), StatsOf(after));
  }

  /** The statistics do not depend on the order of the samples. */
  lemma {:induction false} StatsOfPermutation(s: seq<seq<real>>, t: seq<seq<real>>)
    requires multiset(s) == multiset(t)
    ensures StatsOf(s) == StatsOf(t)
    decreases |s|
  {
    SameLength(s, t);
    if s != [] {
      var k := Find(t, s[|s| - 1]);
      DropLast(s);
      StatsOfPermutation(s[..|s| - 1], RemoveAt(t, k));
      StatsOfRemoveAt(t, k);
    }
  }

  /* The closed form and the normal equations. */

  /** The normal equations (X^T X) b = X^T y of the one-variable model, X
      having the rows [1, x], written with the statistics. */
  ghost predicate Normal(m: Stats, b0: real, b1: real) {
    && m.n * b0 + m.sumX * b1 == m.sumY
    && m.sumX * b0 + m.sumXX * b1 == m.sumXY
  }

  /** The closed form solves the normal equations. */
  lemma SolveNormal(m: Stats)
    requires Solve(m).Ok?
    ensures var b := Solve(m).value; Normal(m, b[0], b[1])
  {
    var b := Solve(m).value;
    assert b[0] == CramerFirst(m.n, m.sumX, m.sumXX, m.sumY, m.sumXY);
    assert b[1] == CramerSecond(m.n, m.sumX, m.sumXX, m.sumY, m.sumXY);
    CramerSolves(m.n, m.sumX, m.sumXX, m.sumY, m.sumXY);
  }

  /** The intercept is the textbook mean(y) - slope * mean(x): the fitted
      line passes through the mean point. */
  lemma SolveThroughMean(m: Stats)
    requires Solve(m).Ok? && m.n != 0.0
    ensures var b := Solve(m).value; b[0] == m.sumY / m.n - b[1] * (m.sumX / m.n)
  {
    var b := Solve(m).value;
    SolveNormal(m);
    assert m.n * b[0] == m.sumY - m.sumX * b[1];
  }

  /** With a nonzero determinant the closed form is the only solution of the
      normal equations. */
  lemma SolveUnique(m: Stats, c0: real, c1: real)
    requires m.Determinant() != 0.0
    requires Normal(m, c0, c1)
    ensures Solve(m) == Ok([c0, c1])
  {
    CramerUnique(m.n, m.sumX, m.sumXX, m.sumY, m.sumXY, c0, c1);
    var b := Solve(m).value;
    assert b == [c0, c1] by {
      assert b[0] == c0 && b[1] == c1;
    }
  }

  /** The solver's determinant a * d - b * c of the matrix [[a, b], [c, d]] =
      [[n, sum(x)], [sum(x), sum(x^2)]] is that of the statistics. */
  lemma MatrixDeterminant(m: Stats, a: real, b: real, c: real, d: real, det: real)
    requires a == m.n && b == m.sumX && c == m.sumX && d == m.sumXX
    requires det == a * d - b * c
    ensures m.Determinant() == det
  {
  }

  /** The inverse-matrix computation: with det = a * d - b * c for the
      matrix [[a, b], [c, d]] = [[n, sum(x)], [sum(x), sum(x^2)]], its
      inverse is [[di, bi], [ci, ai]] = (1 / det) * [[d, -b], [-c, a]], and
      applying the inverse to the right-hand side (y0, y1) = (sum(y), sum(xy))
      gives the closed form. */
  lemma InverseSolve(m: Stats, a: real, b: real, c: real, d: real, det: real,
                     ai: real, bi: real, ci: real, di: real, y0: real, y1: real)
    requires a == m.n && b == m.sumX && c == m.sumX && d == m.sumXX && y0 == m.sumY && y1 == m.sumXY
    requires det == a * d - b * c && det != 0.0
    requires ai == (1.0 / det) * a && bi == (1.0 / det) * -b && ci == (1.0 / det) * -c && di == (1.0 / det) * d
    ensures Solve(m) == Ok([di * y0 + bi * y1, ci * y0 + ai * y1])
  {
    assert det == m.Determinant();
    var inv := 1.0 / det;
    var r := Solve(m).value;
    assert r[0] == (d * y0 - b * y1) * inv == di * y0 + bi * y1;
    assert r[1] == (a * y1 - c * y0) * inv == ci * y0 + ai * y1;
    assert r == [r[0], r[1]];
  }

  /* Exact fit. */

  /** Every sample lies on the line y = c0 + c1 * x. */
  ghost predicate OnLine(s: seq<seq<real>>, c0: real, c1: real) {
    forall k | 0 <= k < |s| :: |s[k]| == 2 && s[k][1] == c0 + c1 * s[k][0]
  }

  /** The normal equations are linear in the statistics. */
  lemma NormalAdd(a: Stats, b: Stats, c0: real, c1: real)
    requires Normal(a, c0, c1) && Normal(b, c0, c1)
    ensures Normal(Add(a, b), c0, c1)
  {
  }

  /** A sample on the line satisfies the line's normal equations. */
  lemma SampleNormal(v: seq<real>, c0: real, c1: real)
    requires |v| == 2 && v[1] == c0 + c1 * v[0]
    ensures Normal(Sample(v), c0, c1)
  {
    var x := v[0];
    assert x * c0 + (x * x) * c1 == x * (c0 + c1 * x);
  }

  /** Data that lie on a line satisfy that line's normal equations. */
  lemma {:induction false} OnLineNormal(s: seq<seq<real>>, c0: real, c1: real)
    requires OnLine(s, c0, c1)
    ensures Normal(StatsOf(s), c0, c1)
  {
    if s != [] {
      var s' := s[..|s| - 1];
      assert OnLine(s', c0, c1) by {
        assert forall k | 0 <= k < |s'| :: s'[k] == s[k];
      }
      OnLineNormal(s', c0, c1);
      SampleNormal(s[|s| - 1], c0, c1);
      NormalAdd(StatsOf(s'), Sample(s[|s| - 1]), c0, c1);
    }
  }

  /** Exact fit: noise-free data on y = c0 + c1 * x with a nonzero
      determinant give back (c0, c1). */
  lemma FitExact(s: seq<seq<real>>, c0: real, c1: real)
    requires OnLine(s, c0, c1) && StatsOf(s).Determinant() != 0.0
    ensures Fit(s) == Ok([c0, c1])
  {
    OnLineNormal(s, c0, c1);
    SolveUnique(StatsOf(s), c0, c1);
  }

  /** The statistics of a data set of three samples. */
  lemma StatsOfThree(u: seq<real>, v: seq<real>, w: seq<real>)
    ensures StatsOf([u, v, w]) == Add(Add(Add(Zero, Sample(u)), Sample(v)), Sample(w))
  {
    assert [u, v, w][..2] == [u, v];
    assert [u, v][..1] == [u];
    assert [u][..0] == [];
    assert StatsOf([u]) == Add(Zero, Sample(u));
    assert StatsOf([u, v]) == Add(StatsOf([u]), Sample(v));
  }

  /** The points x = 1, 2, 3 with responses on the line y = c0 + c1 * x give
      back (c0, c1). */
  lemma FitThreePoints(c0: real, c1: real)
    ensures Fit([[1.0, c0 + c1], [2.0, c0 + 2.0 * c1], [3.0, c0 + 3.0 * c1]]) == Ok([c0, c1])
  {
    var u, v, w := [1.0, c0 + c1], [2.0, c0 + 2.0 * c1], [3.0, c0 + 3.0 * c1];
    StatsOfThree(u, v, w);
    var m := StatsOf([u, v, w]);
    assert m == Stats(3.0, 6.0, 3.0 * c0 + 6.0 * c1, 14.0, 6.0 * c0 + 14.0 * c1);
    assert m.Determinant() == 6.0;
    SolveUnique(m, c0, c1);
  }

  /** The example data (1, 2), (2, 4), (3, 6) lie on y = 2 * x, and the fit
      returns intercept 0 and slope 2. */
  lemma FitExample()
    ensures Fit([[1.0, 2.0], [2.0, 4.0], [3.0, 6.0]]) == Ok([0.0, 2.0])
  {
    FitThreePoints(0.0, 2.0);
  }

  /** The fit does not depend on the order of the samples. */
  lemma FitPermutation(s: seq<seq<real>>, t: seq<seq<real>>)
    requires multiset(s) == multiset(t)
    ensures Fit(s) == Fit(t)
  {
    StatsOfPermutation(s, t);
  }

  /* Degenerate data. */

  /** Every x equals x0, as seen by the statistics. */
  ghost predicate ConstantX(m: Stats, x0: real) {
    m.sumX == x0 * m.n && m.sumXX == x0 * m.sumX
  }

  /** The relation ConstantX is linear in the statistics. */
  lemma ConstantXAdd(a: Stats, b: Stats, x0: real)
    requires ConstantX(a, x0) && ConstantX(b, x0)
    ensures ConstantX(Add(a, b), x0)
  {
  }

  /** Data whose every x is x0 have statistics with constant x. */
  lemma {:induction false} ConstantXStatsOf(s: seq<seq<real>>, x0: real)
    requires forall k | 0 <= k < |s| :: |s[k]| == 2 && s[k][0] == x0
    ensures ConstantX(StatsOf(s), x0)
  {
    if s != [] {
      var s' := s[..|s| - 1];
      assert forall k | 0 <= k < |s'| :: s'[k] == s[k];
      ConstantXStatsOf(s', x0);
      ConstantXAdd(StatsOf(s'), Sample(s[|s| - 1]), x0);
    }
  }

  /** Degenerate input: when every sample has the same x, the system is singular. */
  lemma FitConstantX(s: seq<seq<real>>, x0: real)
    requires forall k | 0 <= k < |s| :: |s[k]| == 2 && s[k][0] == x0
    ensures Fit(s) == Err(SingularDesignMatrix)
  {
    ConstantXStatsOf(s, x0);
    var m := StatsOf(s);
    assert m.n * (x0 * m.sumX) == (x0 * m.n) * m.sumX;
  }

  /** Fewer than two samples never determine a line. */
  lemma FitTooFewSamples(s: seq<seq<real>>)
    ensures |s| < 2 ==> Fit(s) == Err(SingularDesignMatrix)
  {
    if |s| == 1 {
      assert s[..0] == [] && s[..1] == s;
      StatsOfStep(s, 0);
      var x := At(s[0], 0);
      assert StatsOf(s).Determinant() == 1.0 * (x * x) - x * x;
    }
  }
}
