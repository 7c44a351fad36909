# Least-squares linear regression, modelled in Dafny

The repository fits a regression plane to points a user picks in a 3-D scene.
All of its logic is in `linear-regression.h`:

- `LinearRegression<N>` is an append-only store of samples. Each sample has
  N + 1 numbers. The first N are the independent variables and the last is
  the dependent variable y.
- `TwoVariableLinearRegression` (N = 2) fits y = b0 + b1 * x1 + b2 * x2.
  It makes one pass over the samples and accumulates eight running sums.
  From these it forms the mean-centred sums of squares and cross products.
  It then solves the centred 2 x 2 system by Cramer's rule and recovers b0
  from the means.
- `SimpleLinearRegression` (N = 1) fits y = b0 + b1 * x. It builds the
  normal-equations matrix [[n, sum(x)], [sum(x), sum(x^2)]] in two passes.
  It inverts the matrix through its adjugate scaled by 1 / det, gathers
  (sum(y), sum(xy)) in a third pass and multiplies by the inverse.

The model has these modules:

- `Samples` is a data set as a sequence of rows of reals, with sequence helpers.
- `Outcome` is the solver result: `Ok` carries the coefficients, and `Err`
  says why no fit exists.
- `Algebra` holds 2 x 2 Cramer's rule and the centring of the normal
  equations, over plain reals.
- `Plane` and `Line` hold the specification of each solver:
  - `Stats` holds the count and running sums. `StatsOf` folds a data set
    into `Stats` in sample order, as the source's loops do.
  - `Solve` is the closed form.
  - `Fit = Solve(StatsOf(...))`.
  - The lemmas here state what the fit means: it solves the normal
    equations, it is their only solution, it reproduces exact data, it does
    not depend on sample order, and it reports degenerate input.
- `Regression` holds the class `LinearRegression` with the store's
  operations and both solvers as imperative methods. Each method runs the
  source's loops and arithmetic step by step. Each is proved to return
  exactly `Plane.Fit` or `Line.Fit` of the stored samples.

The solvers are methods without a `modifies` clause, so they cannot change
the store. That is the model's form of the source's promise that `solve`
only reads `variables`.

Arithmetic is over exact reals. Where the source divides by zero (no
samples, or a zero determinant), the model returns `Err` instead of the
source's infinities and NaNs.

## Model

| member | source | states |
|---|---|---|
| Regression.LinearRegression.constructor | linear-regression.h:28-30 | a new store holds no samples, and every sample it will hold has N + 1 entries |
| Regression.LinearRegression.Push | linear-regression.h:12-16 | appends exactly one sample of N + 1 values at the end; earlier samples are unchanged and the arity invariant is kept |
| Regression.LinearRegression.Size | linear-regression.h:20-22 | returns the number of stored samples |
| Regression.LinearRegression.Get | linear-regression.h:24-26 | returns the stored samples in push order |
| Regression.LinearRegression.SolveTwoVariable | linear-regression.h:35-67 | without changing the store, returns the two-variable fit `Plane.Fit` of the stored samples: Err(InsufficientData) with no samples, Err(SingularDesignMatrix) when the denominator is zero, otherwise [b0, b1, b2] |
| Regression.LinearRegression.SolveSimple | linear-regression.h:74-107 | without changing the store, returns the one-variable fit `Line.Fit` of the stored samples: Err(SingularDesignMatrix) when det is zero, otherwise [intercept, slope] |
| Regression.LinearRegression.SumX | linear-regression.h:80-84 | the first pass returns sum(x) over the stored samples, as `b_inv` (and `c_inv`) |
| Regression.LinearRegression.SumXX | linear-regression.h:85-87 | the second pass returns sum(x^2) over the stored samples, as `d_inv` |
| Regression.LinearRegression.SumYXY | linear-regression.h:96-101 | the third pass returns sum(y) and sum(x * y) over the stored samples, as `y0` and `y1` |
| Plane.StatsOfRow | linear-regression.h:45-54 | one iteration of the two-variable loop: adding row k to the sums of the first k rows gives the sums of the first k + 1 rows |
| Plane.CountIsSize | linear-regression.h:56-60 | the count in the statistics is the number of samples, the `variables.size()` the source divides by |
| Plane.StatsOfAppend | linear-regression.h:45-54 | the sums over a concatenation are the sums over its parts added |
| Plane.StatsOfRemoveAt | linear-regression.h:45-54 | removing one sample removes exactly its contribution to the sums |
| Plane.StatsOfPermutation | linear-regression.h:45-54 | the sums do not depend on the order of the samples |
| Plane.CentredSums | linear-regression.h:56-62 | the solver's five centred sums and its denominator are the centred sums and determinant of the statistics |
| Plane.SolveFromSums | linear-regression.h:56-66 | with a nonzero denominator, b1 and b2 by Cramer's rule and b0 from the means, as the solver computes them, are the result of `Plane.Solve` |
| Plane.SolveCentred | linear-regression.h:62-63 | the returned b1 and b2 satisfy the centred normal equations Sx1x1 * b1 + Sx1x2 * b2 = Sx1y and Sx1x2 * b1 + Sx2x2 * b2 = Sx2y |
| Plane.SolveThroughMean | linear-regression.h:64 | the fitted plane passes through the mean point (mean x1, mean x2, mean y) |
| Plane.NormalCentred | linear-regression.h:56-64 | with samples present, (c0, c1, c2) solves the 3 x 3 normal equations exactly when c0 is the mean equation and (c1, c2) solves the centred system |
| Plane.SolveNormal | linear-regression.h:56-66 | the returned [b0, b1, b2] solves the full normal equations (X^T X) b = X^T y |
| Plane.SolveUnique | linear-regression.h:56-66 | with samples present and a nonzero denominator, any solution of the normal equations is the returned one |
| Plane.OnPlaneNormal | linear-regression.h:45-54 | data lying on a plane satisfy that plane's normal equations |
| Plane.FitExact | linear-regression.h:45-66 | noise-free data on y = c0 + c1 * x1 + c2 * x2 with a nonzero denominator give back exactly (c0, c1, c2) |
| Plane.FitUnitDesign | linear-regression.h:45-66 | the design points (0, 0), (1, 0), (0, 1) with responses on any plane give back that plane's coefficients |
| Plane.FitExample | linear-regression.h:45-66 | the samples (0, 0, 1), (1, 0, 3), (0, 1, 5) give (1, 2, 4) |
| Plane.FitPermutation | linear-regression.h:45-66 | the two-variable fit is unchanged under any permutation of the samples |
| Plane.AffineSingular | linear-regression.h:62-63 | when x2 is an affine function of x1, the denominator is zero |
| Plane.FitCollinear | linear-regression.h:56-66 | when x2 = a + q * x1 in every sample, there is no fit: InsufficientData without samples, SingularDesignMatrix otherwise |
| Plane.OneSampleSingular | linear-regression.h:56-63 | the centred system of a single sample is singular |
| Plane.TwoSampleSingular | linear-regression.h:56-63 | the centred system of two samples is singular |
| Plane.FitTooFewSamples | linear-regression.h:56-66 | fewer than three samples never give a fit: InsufficientData for none, SingularDesignMatrix for one or two |
| Line.StatsOfRow | linear-regression.h:81-83 | one iteration of the one-variable loops: adding row k to the sums of the first k rows gives the sums of the first k + 1 rows |
| Line.CountIsSize | linear-regression.h:80 | the count in the statistics is the number of samples, the `a_inv = variables.size()` of the matrix |
| Line.StatsOfAppend | linear-regression.h:81-101 | the sums over a concatenation are the sums over its parts added |
| Line.StatsOfRemoveAt | linear-regression.h:81-101 | removing one sample removes exactly its contribution to the sums |
| Line.StatsOfPermutation | linear-regression.h:81-101 | the sums do not depend on the order of the samples |
| Line.MatrixDeterminant | linear-regression.h:89 | the solver's `det = a * d - b * c` is n * sum(x^2) - sum(x)^2 |
| Line.InverseSolve | linear-regression.h:89-104 | scaling the adjugate by 1 / det and applying it to (sum(y), sum(xy)) gives the textbook closed form: intercept (sum(x^2) sum(y) - sum(x) sum(xy)) / det and slope (n sum(xy) - sum(x) sum(y)) / det |
| Line.SolveNormal | linear-regression.h:89-104 | the returned [intercept, slope] solves the normal equations n b0 + sum(x) b1 = sum(y) and sum(x) b0 + sum(x^2) b1 = sum(xy) |
| Line.SolveThroughMean | linear-regression.h:103-104 | the intercept is mean(y) - slope * mean(x): the fitted line passes through the mean point |
| Line.SolveUnique | linear-regression.h:89-104 | with a nonzero determinant, any solution of the normal equations is the returned one |
| Line.OnLineNormal | linear-regression.h:81-101 | data lying on a line satisfy that line's normal equations |
| Line.FitExact | linear-regression.h:80-106 | noise-free data on y = c0 + c1 * x with a nonzero determinant give back exactly (c0, c1) |
| Line.FitThreePoints | linear-regression.h:80-106 | the points x = 1, 2, 3 with responses on any line give back that line's coefficients |
| Line.FitExample | linear-regression.h:80-106 | the samples (1, 2), (2, 4), (3, 6) give intercept 0 and slope 2 |
| Line.FitPermutation | linear-regression.h:80-106 | the one-variable fit is unchanged under any permutation of the samples |
| Line.ConstantXStatsOf | linear-regression.h:81-87 | when every x equals x0, sum(x) = x0 * n and sum(x^2) = x0 * sum(x) |
| Line.FitConstantX | linear-regression.h:89-94 | when every sample has the same x, the determinant is zero and there is no fit |
| Line.FitTooFewSamples | linear-regression.h:89-94 | fewer than two samples never give a fit: the determinant is zero |
| Algebra.CramerSolves | linear-regression.h:62-63 | Cramer's rule for a symmetric 2 x 2 system with nonzero determinant gives a solution |
| Algebra.CramerUnique | linear-regression.h:62-63 | a nonsingular symmetric 2 x 2 system has no solution other than Cramer's |
| Algebra.CentreSystem | linear-regression.h:56-64 | the 3 x 3 normal equations of a plane are equivalent to the mean equation for b0 plus the centred 2 x 2 system |
| Algebra.TwoPointSingular | linear-regression.h:56-63 | the centred sums of two points give a zero denominator |

## Left out

- `main.cpp` is not part of this model. It is the interactive 3-D viewer:
  window, camera, ray picking, drawing and mesh upload. It is all I/O and
  graphics calls.
- Floating-point behaviour is not modelled:
  - `TwoVariableLinearRegression::solve` works in `double`;
  - `SimpleLinearRegression::solve` keeps its matrix, inverse and sums in
    `float`;
  - rounding, overflow, and the infinities or NaNs the source produces on a
    zero divisor are not modelled.

  The model computes over exact reals. It returns `Err` at the same
  divisions where the source would divide by zero.
- The one-variable solver has no separate check for an empty store. With no
  samples, n, sum(x) and sum(x^2) are all zero, so the model reports
  `SingularDesignMatrix` through det = 0.
- The C++ template, its `requires` clause and the virtual `solve` are
  modelled as one class:
  - `N` is a constant field;
  - the arity constraint becomes `Push`'s precondition and the class invariant `Valid`;
  - the two subclasses become `SolveTwoVariable` (requires N = 2) and
    `SolveSimple` (requires N = 1).
- `Regression.LinearRegression.Get` returns the sequence as a value. The
  source returns a const reference, and aliasing of that reference is not modelled.
- `Samples.At` reads 0 beyond the end of a row. Under the class invariant
  the solvers never read there.
- The source's `int i` loop counters and the `size_t` count are unbounded
  naturals in the model. Counter overflow is not modelled.
- `SimpleLinearRegression::solve` reuses the variables `a_inv` to `d_inv`,
  first for the matrix entries and then for its inverse. The model names the
  matrix entries `a`, `b`, `c`, `d` and the inverse entries `aInv` to `dInv`.
  Each of the solver's three loops is a method of its own (`SumX`, `SumXX`,
  `SumYXY`), called in the source's order.
