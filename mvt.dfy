/**
  The multivariate Student-t density object MVT_tt and the two closed-form
  negative log densities it selects between. Both share the factorisation of
  the scale matrix (its precision's log-determinant and the quadratic form).
*/
module Mvt {
  import opened Numerics

  /**
    Negative log density of a zero-mean multivariate t variable x with scale
    matrix sigma and df degrees of freedom (Lange, Little and Taylor, 1989).
  */
  function StudentTNll(num: Ops, sigma: Matrix, df: real, x: Vector): real
  {
    var p := |x| as real;
    - num.lgamma(0.5 * (df + p)) + num.lgamma(0.5 * df) + p * 0.5 * num.log(df)
      + p * num.lgamma(0.5) - 0.5 * num.logdetQ(sigma)
      + 0.5 * (df + p) * num.log(1.0 + Div(num.quadform(sigma, x), df))
  }

  /** Negative log density of a zero-mean normal variable x with covariance sigma. */
  function NormalNll(num: Ops, sigma: Matrix, x: Vector): real
  {
    var p := |x| as real;
    - 0.5 * num.logdetQ(sigma) + 0.5 * num.quadform(sigma, x) + p * num.log(num.sqrt(2.0 * Pi))
  }

  /** The density a table entry with these fields evaluates. */
  function ClassNll(num: Ops, sigma: Matrix, df: real, useNorm: bool, x: Vector): real
  {
    if useNorm then NormalNll(num, sigma, x) else StudentTNll(num, sigma, df, x)
  }

  /**
    A density object: the scale matrix of its normal base part, the degrees of
    freedom, and the switch that makes it evaluate the normal density instead.
  */
  class MvtTT {
    var sigma: Matrix
    var df: real
    var useNorm: bool

    /** No scale matrix, degrees of freedom not set, Student-t mode. */
    constructor ()
      ensures sigma == [] && !useNorm
    {
      sigma := [];
      useNorm := false;
    }

    constructor WithDf(df_: real)
      ensures sigma == [] && df == df_ && !useNorm
    {
      sigma := [];
      df := df_;
      useNorm := false;
    }

    constructor WithSigma(sigma_: Matrix, df_: real)
      ensures sigma == sigma_ && df == df_ && !useNorm
    {
      sigma := sigma_;
      df := df_;
      useNorm := false;
    }

    constructor WithMode(sigma_: Matrix, df_: real, useNorm_: bool)
      ensures sigma == sigma_ && df == df_ && useNorm == useNorm_
    {
      sigma := sigma_;
      df := df_;
      useNorm := useNorm_;
    }

    /** The object holds exactly these fields. */
    predicate Holds(sigma_: Matrix, df_: real, useNorm_: bool)
      reads this
    {
      sigma == sigma_ && df == df_ && useNorm == useNorm_
    }

    method SetDf(df_: real)
      modifies this
      ensures df == df_ && sigma == old(sigma) && useNorm == old(useNorm)
    {
      df := df_;
    }

    /** The negative log density at x: the normal one exactly when useNorm is set. */
    function Eval(num: Ops, x: Vector): (r: real)
      reads this
      ensures useNorm ==> r == NormalNll(num, sigma, x)
      ensures !useNorm ==> r == StudentTNll(num, sigma, df, x)
    {
      var tdens := StudentTNll(num, sigma, df, x);
      var ndens := NormalNll(num, sigma, x);
      if useNorm then ndens else tdens
    }
  }
}
