/** The sample store and its two least-squares solvers.

    `LinearRegression` holds the samples pushed so far, each a row of
    N + 1 numbers whose last entry is the dependent variable y and whose
    first N entries are the independent variables. The two solvers are the
    store's N = 2 and N = 1 instances: `SolveTwoVariable` fits the plane
    y = b0 + b1 * x1 + b2 * x2 and `SolveSimple` fits the line y = b0 + b1 * x.
    Each solver sweeps the samples in order, accumulating the same running
    sums as the data-level specification, and is proved to return exactly
    `Plane.Fit` / `Line.Fit` of the stored samples; the properties of the
    fits themselves are the lemmas of modules Plane and Line. */
module Regression {
  import opened Samples
  import opened Outcome
  import Plane
  import Line

  class LinearRegression {
    /** The number of independent variables. */
    const N: nat
    /** The samples in push order, each [x_1, ..., x_N, y]. */
    var variables: seq<seq<real>>

    /** Every stored sample has N + 1 entries. */
    ghost predicate Valid()
      reads this
    {
      Arity(variables, N + 1)
    }

    /** An empty store for samples of N independent variables. */
    constructor (n: nat)
      ensures N == n && variables == [] && Valid()
    {
      N := n;
      variables := [];
    }

    /** Appends one sample of N + 1 numbers and changes nothing else. */
    method Push(sample: seq<real>)
      requires Valid() && |sample| == N + 1
      modifies this
      ensures Valid() && variables == old(variables) + [sample]
    {
      variables := variables + [sample];
    }

    /** The number of samples pushed so far. */
    method Size() returns (n: nat)
      ensures n == |variables|
    {
      n := |variables|;
    }

    /** The stored samples, in push order. */
    method Get() returns (samples: seq<seq<real>>)
      ensures samples == variables
    {
      samples := variables;
    }

    /** The two-variable solver: one sweep gathering the count and the eight
        sums, then the centred sums, Cramer's rule for b1 and b2 and the mean
        equation for b0. It changes nothing and returns the fit of the
        stored samples. */
    method SolveTwoVariable() returns (r: Result<seq<real>>)
      requires Valid() && N == 2
      ensures r == Plane.Fit(variables)
    {
      var ySum, x1Sum, x2Sum := 0.0, 0.0, 0.0;
      var x1Sqr, x2Sqr := 0.0, 0.0;
      var x1Cross, x2Cross, x1x2Cross := 0.0, 0.0, 0.0;
      var i := 0;
      while i < |variables|
        invariant 0 <= i <= |variables|
        invariant Plane.Stats(i as real, x1Sum, x2Sum, ySum, x1Sqr, x2Sqr, x1x2Cross, x1Cross, x2Cross)
                  == Plane.StatsOf(variables[..i])
      {
        var v := variables[i];
        Plane.StatsOfRow(variables, i,
          Plane.Stats(i as real, x1Sum, x2Sum, ySum, x1Sqr, x2Sqr, x1x2Cross, x1Cross, x2Cross), v);
        x1Sum := x1Sum + v[0];
        x2Sum := x2Sum + v[1];
        ySum := ySum + v[2];
        x1Sqr := x1Sqr + v[0] * v[0];
        x2Sqr := x2Sqr + v[1] * v[1];
        x1Cross := x1Cross + v[0] * v[2];
        x2Cross := x2Cross + v[1] * v[2];
        x1x2Cross := x1x2Cross + v[0] * v[1];
        i := i + 1;
      }
      Whole(variables);
      var n := |variables| as real;
      if n == 0.0 {
        return Err(InsufficientData);
      }
      var x1SqrSum := x1Sqr - x1Sum * (x1Sum / n);
      var x2SqrSum := x2Sqr - x2Sum * (x2Sum / n);
      var x1yCrossSum := x1Cross - x1Sum * (ySum / n);
      var x2yCrossSum := x2Cross - x2Sum * (ySum / n);
      var x1x2CrossSum := x1x2Cross - x1Sum * (x2Sum / n);
      var denominator := x1SqrSum * x2SqrSum - x1x2CrossSum * x1x2CrossSum;
      Plane.CentredSums(n, x1Sum, x2Sum, ySum, x1Sqr, x2Sqr, x1x2Cross, x1Cross, x2Cross,
                        x1SqrSum, x2SqrSum, x1yCrossSum, x2yCrossSum, x1x2CrossSum, denominator);
      if denominator == 0.0 {
        return Err(SingularDesignMatrix);
      }
      var b1 := (x2SqrSum * x1yCrossSum - x1x2CrossSum * x2yCrossSum) / denominator;
      var b2 := (x1SqrSum * x2yCrossSum - x1x2CrossSum * x1yCrossSum) / denominator;
      var b0 := ySum / n - b1 * (x1Sum / n) - b2 * (x2Sum / n);
      Plane.SolveFromSums(n, x1Sum, x2Sum, ySum, x1Sqr, x2Sqr, x1x2Cross, x1Cross, x2Cross,
                          x1SqrSum, x2SqrSum, x1yCrossSum, x2yCrossSum, x1x2CrossSum, denominator, b0, b1, b2);
      r := Ok([b0, b1, b2]);
    }

    /** The one-variable solver: it builds the matrix [[a, b], [c, d]] =
        [[n, sum(x)], [sum(x), sum(x^2)]] in two sweeps, scales its adjugate
        by 1 / det into the inverse [[dInv, bInv], [cInv, aInv]], gathers
        y0 = sum(y) and y1 = sum(xy) in a third sweep and applies the inverse
        to (y0, y1). It changes nothing and returns the fit of the stored
        samples. */
    method SolveSimple() returns (r: Result<seq<real>>)
      requires Valid() && N == 1
      ensures r == Line.Fit(variables)
    {
      ghost var m := Line.StatsOf(variables);
      var a := |variables| as real;
      var b := SumX();
      var c := b;
      var d := SumXX();
      Line.CountIsSize(variables);
      var det := a * d - b * c;
      Line.MatrixDeterminant(m, a, b, c, d, det);
      if det == 0.0 {
        return Err(SingularDesignMatrix);
      }
      var aInv := (1.0 / det) * a;
      var bInv := (1.0 / det) * -b;
      var cInv := (1.0 / det) * -c;
      var dInv := (1.0 / det) * d;
      var y0, y1 := SumYXY();
      var intercept := dInv * y0 + bInv * y1;
      var slope := cInv * y0 + aInv * y1;
      Line.InverseSolve(m, a, b, c, d, det, aInv, bInv, cInv, dInv, y0, y1);
      r := Ok([intercept, slope]);
    }

    /** The solver's first sweep: the sum of x over the stored samples. */
    method SumX() returns (b: real)
      requires Valid() && N == 1
      ensures b == Line.StatsOf(variables).sumX
    {
      b := 0.0;
      var i := 0;
      while i < |variables|
        invariant 0 <= i <= |variables|
        invariant b == Line.StatsOf(variables[..i]).sumX
      {
        var p := Line.StatsOf(variables[..i]);
        Line.StatsOfRow(variables, i, p, variables[i]);
        b := b + variables[i][0];
        i := i + 1;
      }
      Whole(variables);
    }

    /** The solver's second sweep: the sum of x^2 over the stored samples. */
    method SumXX() returns (d: real)
      requires Valid() && N == 1
      ensures d == Line.StatsOf(variables).sumXX
    {
      d := 0.0;
      var i := 0;
      while i < |variables|
        invariant 0 <= i <= |variables|
        invariant d == Line.StatsOf(variables[..i]).sumXX
      {
        var p := Line.StatsOf(variables[..i]);
        Line.StatsOfRow(variables, i, p, variables[i]);
        d := d + variables[i][0] * variables[i][0];
        i := i + 1;
      }
      Whole(variables);
    }

    /** The solver's third sweep: the sums of y and of x * y over the stored
        samples. */
    method SumYXY() returns (y0: real, y1: real)
      requires Valid() && N == 1
      ensures y0 == Line.StatsOf(variables).sumY && y1 == Line.StatsOf(variables).sumXY
    {
      y0, y1 := 0.0, 0.0;
      var i := 0;
      while i < |variables|
        invariant 0 <= i <= |variables|
        invariant y0 == Line.StatsOf(variables[..i]).sumY
        invariant y1 == Line.StatsOf(variables[..i]).sumXY
      {
        var v, p := variables[i], Line.StatsOf(variables[..i]);
        Line.StatsOfRow(variables, i, p, v);
        y0 := y0 + v[1];
        y1 := y1 + v[0] * v[1];
        i := i + 1;
      }
      Whole(variables);
    }
  }
}
