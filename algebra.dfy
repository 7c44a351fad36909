/** Facts about real arithmetic that the solvers' proofs use: 2 x 2 systems
    solved by Cramer's rule, and the step from the raw normal equations to
    the mean-centred ones. Each is stated over plain reals so that the
    nonlinear reasoning stays small. */
module Algebra {

  /** The determinant of the symmetric matrix [[a11, a12], [a12, a22]]. */
  function Det(a11: real, a12: real, a22: real): real {
    a11 * a22 - a12 * a12
  }

  /** Cramer's rule: the first unknown of [[a11, a12], [a12, a22]] x = (b1, b2). */
  function CramerFirst(a11: real, a12: real, a22: real, b1: real, b2: real): real
    requires Det(a11, a12, a22) != 0.0
  {
    (a22 * b1 - a12 * b2) / Det(a11, a12, a22)
  }

  /** Cramer's rule: the second unknown of [[a11, a12], [a12, a22]] x = (b1, b2). */
  function CramerSecond(a11: real, a12: real, a22: real, b1: real, b2: real): real
    requires Det(a11, a12, a22) != 0.0
  {
    (a11 * b2 - a12 * b1) / Det(a11, a12, a22)
  }

  /** A nonzero factor cancels. */
  lemma Cancel(e: real, b: real, d: real)
    requires d != 0.0 && e * d == b * d
    ensures e == b
  {
    assert (e - b) * d == 0.0;
  }

  /** Cramer's rule gives a solution of the system. */
  lemma CramerSolves(a11: real, a12: real, a22: real, b1: real, b2: real)
    requires Det(a11, a12, a22) != 0.0
    ensures a11 * CramerFirst(a11, a12, a22, b1, b2) + a12 * CramerSecond(a11, a12, a22, b1, b2) == b1
    ensures a12 * CramerFirst(a11, a12, a22, b1, b2) + a22 * CramerSecond(a11, a12, a22, b1, b2) == b2
  {
    var d := Det(a11, a12, a22);
    var x1, x2 := CramerFirst(a11, a12, a22, b1, b2), CramerSecond(a11, a12, a22, b1, b2);
    assert x1 * d == a22 * b1 - a12 * b2;
    assert x2 * d == a11 * b2 - a12 * b1;
    assert (a11 * x1 + a12 * x2) * d == a11 * (x1 * d) + a12 * (x2 * d);
    assert (a12 * x1 + a22 * x2) * d == a12 * (x1 * d) + a22 * (x2 * d);
    Cancel(a11 * x1 + a12 * x2, b1, d);
    Cancel(a12 * x1 + a22 * x2, b2, d);
  }

  /** A nonsingular system has no solution but Cramer's. */
  lemma CramerUnique(a11: real, a12: real, a22: real, b1: real, b2: real, x1: real, x2: real)
    requires Det(a11, a12, a22) != 0.0
    requires a11 * x1 + a12 * x2 == b1 && a12 * x1 + a22 * x2 == b2
    ensures x1 == CramerFirst(a11, a12, a22, b1, b2) && x2 == CramerSecond(a11, a12, a22, b1, b2)
  {
    var d := Det(a11, a12, a22);
    assert a22 * b1 - a12 * b2 == x1 * d;
    assert a11 * b2 - a12 * b1 == x2 * d;
  }

  /** Given the first normal equation n * c0 + s1 * c1 + s2 * c2 == sy, the
      equation of row l holds exactly when its mean-centred form does. */
  lemma CentreRow(n: real, s1: real, s2: real, sy: real, sl: real, sl1: real, sl2: real, sly: real,
                  c0: real, c1: real, c2: real)
    requires n != 0.0
    requires n * c0 + s1 * c1 + s2 * c2 == sy
    ensures sl * c0 + sl1 * c1 + sl2 * c2 == sly
        <==> (sl1 - sl * (s1 / n)) * c1 + (sl2 - sl * (s2 / n)) * c2 == sly - sl * (sy / n)
  {
    assert c0 == sy / n - c1 * (s1 / n) - c2 * (s2 / n);
    assert sl * c0 == sl * (sy / n) - c1 * (sl * (s1 / n)) - c2 * (sl * (s2 / n));
  }

  /** The 3 x 3 normal equations of a plane fit are equivalent to the mean
      equation for c0 together with the mean-centred 2 x 2 system in (c1, c2). */
  lemma CentreSystem(n: real, s1: real, s2: real, sy: real, s11: real, s12: real, s22: real,
                     s1y: real, s2y: real, c0: real, c1: real, c2: real)
    requires n != 0.0
    ensures (&& n * c0 + s1 * c1 + s2 * c2 == sy
             && s1 * c0 + s11 * c1 + s12 * c2 == s1y
             && s2 * c0 + s12 * c1 + s22 * c2 == s2y)
        <==> (&& c0 == sy / n - c1 * (s1 / n) - c2 * (s2 / n)
              && (s11 - s1 * (s1 / n)) * c1 + (s12 - s1 * (s2 / n)) * c2 == s1y - s1 * (sy / n)
              && (s12 - s1 * (s2 / n)) * c1 + (s22 - s2 * (s2 / n)) * c2 == s2y - s2 * (sy / n))
  {
    assert s2 * (s1 / n) == s1 * (s2 / n);
    if n * c0 + s1 * c1 + s2 * c2 == sy {
      CentreRow(n, s1, s2, sy, s1, s11, s12, s1y, c0, c1, c2);
      CentreRow(n, s1, s2, sy, s2, s12, s22, s2y, c0, c1, c2);
    }
    if c0 == sy / n - c1 * (s1 / n) - c2 * (s2 / n) {
      assert n * c0 == sy - c1 * s1 - c2 * s2;
      CentreRow(n, s1, s2, sy, s1, s11, s12, s1y, c0, c1, c2);
      CentreRow(n, s1, s2, sy, s2, s12, s22, s2y, c0, c1, c2);
    }
  }

  /** Two points never determine a plane: the centred 2 x 2 system built
      from the sums over two samples (u1, u2) and (w1, w2) is singular. */
  lemma TwoPointSingular(n: real, s1: real, s2: real, s11: real, s12: real, s22: real,
                         u1: real, u2: real, w1: real, w2: real)
    requires n == 2.0 && s1 == u1 + w1 && s2 == u2 + w2
    requires s11 == u1 * u1 + w1 * w1 && s12 == u1 * u2 + w1 * w2 && s22 == u2 * u2 + w2 * w2
    ensures Det(s11 - s1 * (s1 / n), s12 - s1 * (s2 / n), s22 - s2 * (s2 / n)) == 0.0
  {
    var d1, d2 := u1 - w1, u2 - w2;
    assert s11 - s1 * (s1 / n) == d1 * d1 / 2.0;
    assert s22 - s2 * (s2 / n) == d2 * d2 / 2.0;
    assert s12 - s1 * (s2 / n) == d1 * d2 / 2.0;
  }

  /** A linear form of two sums is the sum of the linear forms. */
  lemma LinearSum(a: real, q: real, x: real, y: real, u: real, v: real)
    ensures a * (x + u) + q * (y + v) == (a * x + q * y) + (a * u + q * v)
  {
  }
}
