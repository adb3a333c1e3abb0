/**
  The scalar primitives the likelihood is assembled from, held abstract.

  The objective function works over an automatic-differentiation scalar type;
  its transcendental functions and the multivariate normal evaluator of the
  TMB density library are not modelled. They are gathered here as fields of
  type `real -> real` (or over matrices and vectors) of one value that every
  operation receives, so nothing at all is assumed about them.
*/
module Numerics {

  type Vector = seq<real>

  /** A matrix as a sequence of rows. */
  type Matrix = seq<seq<real>>

  /**
    exp, log, lgamma, sqrt and pow of the scalar type; `logdetQ(S)` is the
    log-determinant of the precision S^-1 held by a normal density object
    built from S, `quadform(S, x)` is x' S^-1 x, and `mvnorm(S, x)` is the
    negative log density of the zero-mean normal evaluator with covariance S.
  */
  datatype Ops = Ops(
    exp: real -> real,
    log: real -> real,
    lgamma: real -> real,
    sqrt: real -> real,
    pow: (real, real) -> real,
    logdetQ: Matrix -> real,
    quadform: (Matrix, Vector) -> real,
    mvnorm: (Matrix, Vector) -> real)

  /** The value of M_PI. */
  const Pi: real := 3.14159265358979323846

  /** Real division; a zero divisor (an infinity or NaN in floating point) yields 0. */
  function Div(a: real, b: real): real
  {
    if b == 0.0 then 0.0 else a / b
  }

  predicate IsMatrix(m: Matrix, rows: nat, cols: nat)
  {
    |m| == rows && forall r :: 0 <= r < rows ==> |m[r]| == cols
  }

  /** The value held by a two-dimensional array, row by row. */
  function Rows(a: array2<real>): (m: Matrix)
    reads a
    ensures IsMatrix(m, a.Length0, a.Length1)
    ensures forall r, c :: 0 <= r < a.Length0 && 0 <= c < a.Length1 ==> m[r][c] == a[r, c]
  {
    seq(a.Length0, r requires 0 <= r < a.Length0 reads a =>
      seq(a.Length1, c requires 0 <= c < a.Length1 reads a => a[r, c]))
  }

  /** Two matrices of the same shape with the same entries are equal. */
  lemma MatrixExt(m: Matrix, n: Matrix, rows: nat, cols: nat)
    requires IsMatrix(m, rows, cols) && IsMatrix(n, rows, cols)
    requires forall r, c :: 0 <= r < rows && 0 <= c < cols ==> m[r][c] == n[r][c]
    ensures m == n
  {
    forall r | 0 <= r < rows
      ensures m[r] == n[r]
    {
      assert forall c :: 0 <= c < cols ==> m[r][c] == n[r][c];
    }
  }

  /** The value of a 4x4 array, entry by entry. */
  lemma Rows4(a: array2<real>)
    requires a.Length0 == 4 && a.Length1 == 4
    ensures Rows(a) == [[a[0, 0], a[0, 1], a[0, 2], a[0, 3]],
                        [a[1, 0], a[1, 1], a[1, 2], a[1, 3]],
                        [a[2, 0], a[2, 1], a[2, 2], a[2, 3]],
                        [a[3, 0], a[3, 1], a[3, 2], a[3, 3]]]
  {
    MatrixExt(Rows(a), [[a[0, 0], a[0, 1], a[0, 2], a[0, 3]],
                        [a[1, 0], a[1, 1], a[1, 2], a[1, 3]],
                        [a[2, 0], a[2, 1], a[2, 2], a[2, 3]],
                        [a[3, 0], a[3, 1], a[3, 2], a[3, 3]]], 4, 4);
  }

  /** The value of a 2x2 array, entry by entry. */
  lemma Rows2(a: array2<real>)
    requires a.Length0 == 2 && a.Length1 == 2
    ensures Rows(a) == [[a[0, 0], a[0, 1]], [a[1, 0], a[1, 1]]]
  {
    MatrixExt(Rows(a), [[a[0, 0], a[0, 1]], [a[1, 0], a[1, 1]]], 2, 2);
  }

  /** The 2x2 diagonal matrix with v0 and v1 on its diagonal. */
  function Diag2(v0: real, v1: real): Matrix
  {
    [[v0, 0.0], [0.0, v1]]
  }
}
