/**
  The negative log-likelihood as a function of the data and parameters: the
  latent-state counter, the quality-class observation table, the per-record
  process and observation terms, and the record loop with its index errors.
*/
module LikelihoodSpec {
  import opened Numerics
  import opened Mvt
  import opened Process

  /** One entry per record: position fix, time gap, quality class, inclusion weight. */
  datatype Data = Data(
    lon: Vector,
    lat: Vector,
    dt: Vector,
    qual: seq<nat>,
    incl: Vector,
    minDf: real,
    modelCode: int)

  datatype Params = Params(
    logbeta: Vector,
    logSdState: Vector,
    logSdObs: Vector,
    logCorrection: Matrix,
    gamma: Vector,
    mu: Matrix,
    vel: Matrix,
    df: Vector,
    numdata: real)

  /** The two index errors that abort an evaluation, with the record at which they occur. */
  datatype Error = StateOutOfRange(record: nat) | QualityOutOfRange(record: nat)

  datatype Result<T> = Ok(value: T) | Err(error: Error)

  /**
    The shapes the declarations document: one entry per record, two axes
    for every per-axis parameter, latent states as 2 x numStates matrices,
    corrections as 2 x (classes - 1), and one df per quality class.
  */
  predicate WellShaped(d: Data, p: Params)
  {
    && |d.lon| == |d.dt| && |d.lat| == |d.dt| && |d.qual| == |d.dt| && |d.incl| == |d.dt|
    && |p.logbeta| == 2 && |p.logSdState| == 2 && |p.logSdObs| == 2 && |p.gamma| == 2
    && |p.logCorrection| == 2 && IsMatrix(p.logCorrection, 2, |p.logCorrection[0]|)
    && |p.mu| == 2 && Shaped(p.mu, p.vel, |p.mu[0]|)
    && |p.df| == |p.logCorrection[0]| + 1
  }

  /** The number of quality classes: one more than the correction columns. */
  function NumClasses(p: Params): nat
    requires |p.logCorrection| > 0
  {
    |p.logCorrection[0]| + 1
  }

  /** The number of latent-state columns. */
  function NumStates(p: Params): nat
    requires |p.mu| > 0
  {
    |p.mu[0]|
  }

  /** The mean-reversion rates, exp(logbeta), axis by axis. */
  function Beta(num: Ops, p: Params): Vector
    requires |p.logbeta| == 2
  {
    [num.exp(p.logbeta[0]), num.exp(p.logbeta[1])]
  }

  /** The process variance rates, exp(2 logSdState), axis by axis. */
  function VarState(num: Ops, p: Params): Vector
    requires |p.logSdState| == 2
  {
    [num.exp(2.0 * p.logSdState[0]), num.exp(2.0 * p.logSdState[1])]
  }

  /**
    The latent-state index used at record i: it starts at 0 and steps by one
    at every record after the first whose time gap is positive.
  */
  function StateNum(dt: Vector, i: nat): (n: nat)
    requires i < |dt|
    ensures n <= i
  {
    (if i == 0 then 0 else StateNum(dt, i - 1)) + (if dt[i] > 0.0 && i > 0 then 1 else 0)
  }

  /** The records j with 1 <= j <= i whose time gap is positive. */
  function PositiveGaps(dt: Vector, i: nat): set<int>
    requires i < |dt|
  {
    set j | 1 <= j <= i && dt[j] > 0.0
  }

  /** Observation variance of axis r in quality class j; class 0 carries no correction. */
  function VarObsEntry(num: Ops, logSdObs: Vector, logCorrection: Matrix, r: nat, j: nat): real
    requires r < |logCorrection| && r < |logSdObs|
    requires j < |logCorrection[r]| + 1
  {
    if j == 0 then num.exp(2.0 * logSdObs[r])
    else num.exp(2.0 * (logSdObs[r] + logCorrection[r][j - 1]))
  }

  /** The diagonal observation covariance of quality class k. */
  function ClassSigma(num: Ops, p: Params, k: nat): Matrix
    requires |p.logSdObs| == 2 && |p.logCorrection| == 2 && IsMatrix(p.logCorrection, 2, |p.logCorrection[0]|)
    requires k < NumClasses(p)
  {
    Diag2(VarObsEntry(num, p.logSdObs, p.logCorrection, 0, k),
          VarObsEntry(num, p.logSdObs, p.logCorrection, 1, k))
  }

  /** The degrees of freedom of quality class k, kept above the floor minDf. */
  function ClassDf(num: Ops, d: Data, p: Params, k: nat): real
    requires k < |p.df|
  {
    num.exp(p.df[k]) + d.minDf
  }

  /** Model code 0 selects the Student-t density, any other value the normal one. */
  function UseNorm(d: Data): bool
  {
    d.modelCode != 0
  }

  /** The prefix mask: 1 for records before numdata, 0 from numdata on. */
  function Keep(i: nat, numdata: real): (r: real)
    ensures r == 0.0 || r == 1.0
    ensures r == 1.0 <==> (i as real) < numdata
  {
    if (i as real) < numdata then 1.0 else 0.0
  }

  /** Residual of the fix at record i against latent position s. */
  function ObsResidual(d: Data, p: Params, i: nat, s: nat): Vector
    requires WellShaped(d, p) && i < |d.dt| && s < NumStates(p)
  {
    [d.lat[i] - p.mu[0][s], d.lon[i] - p.mu[1][s]]
  }

  function ObsTerm(num: Ops, d: Data, p: Params, i: nat, s: nat): real
    requires WellShaped(d, p) && i < |d.dt| && s < NumStates(p) && d.qual[i] < NumClasses(p)
  {
    var k := d.qual[i];
    ClassNll(num, ClassSigma(num, p, k), ClassDf(num, d, p, k), UseNorm(d), ObsResidual(d, p, i, s))
      * d.incl[i] * Keep(i, p.numdata)
  }

  /** The process term of record i: latent state s scored against its prediction from s - 1. */
  function ProcessTerm(num: Ops, d: Data, p: Params, i: nat, s: nat): real
    requires WellShaped(d, p) && i < |d.dt| && 1 <= s < NumStates(p)
  {
    num.mvnorm(ProcessCov(num, Beta(num, p), VarState(num, p), d.dt[i]),
               ProcessResidual(num, Beta(num, p), p.gamma, p.mu, p.vel, s, d.dt[i]))
  }

  /** What each record adds at its own latent-state column: its process term and its observation term. */
  datatype Terms = Terms(process: Vector, obs: Vector)

  /** One process term and one observation term per record. */
  predicate Covers(t: Terms, dt: Vector)
  {
    |t.process| == |dt| && |t.obs| == |dt|
  }

  /**
    The record loop over the first n records: the accumulated total, or the
    index error that aborted the evaluation. At each record the state column
    is addressed (against numStates) before the quality class (against
    numClasses); the process term is added in the branch where the state is
    not 0 and the gap is positive, the observation term at every record.
  */
  function Accumulate(t: Terms, numStates: nat, numClasses: nat, dt: Vector, qual: seq<nat>, n: nat): Result<real>
    requires |qual| == |dt| && Covers(t, dt) && n <= |dt|
  {
    if n == 0 then Ok(0.0)
    else
      var prev := Accumulate(t, numStates, numClasses, dt, qual, n - 1);
      if prev.Err? then prev
      else
        var i := n - 1;
        var s := StateNum(dt, i);
        if s >= numStates then Err(StateOutOfRange(i))
        else
          var acc := if s != 0 && dt[i] > 0.0 then prev.value + t.process[i] else prev.value;
          if qual[i] >= numClasses then Err(QualityOutOfRange(i))
          else Ok(acc + t.obs[i])
  }

  /** The process term of record i at its state, zero where no state before it exists or it is out of range. */
  function ProcessAt(num: Ops, d: Data, p: Params, i: nat): real
    requires WellShaped(d, p) && i < |d.dt|
  {
    var s := StateNum(d.dt, i);
    if 1 <= s < NumStates(p) then ProcessTerm(num, d, p, i, s) else 0.0
  }

  /** The observation term of record i at its state, zero where its state or class is out of range. */
  function ObsAt(num: Ops, d: Data, p: Params, i: nat): real
    requires WellShaped(d, p) && i < |d.dt|
  {
    var s := StateNum(d.dt, i);
    if s < NumStates(p) && d.qual[i] < NumClasses(p) then ObsTerm(num, d, p, i, s) else 0.0
  }

  /** The process terms of the first n records. */
  function ProcessTerms(num: Ops, d: Data, p: Params, n: nat): (r: Vector)
    requires WellShaped(d, p) && n <= |d.dt|
    ensures |r| == n
  {
    if n == 0 then [] else ProcessTerms(num, d, p, n - 1) + [ProcessAt(num, d, p, n - 1)]
  }

  /** The observation terms of the first n records. */
  function ObsTerms(num: Ops, d: Data, p: Params, n: nat): (r: Vector)
    requires WellShaped(d, p) && n <= |d.dt|
    ensures |r| == n
  {
    if n == 0 then [] else ObsTerms(num, d, p, n - 1) + [ObsAt(num, d, p, n - 1)]
  }

  /** The process and observation terms of the model. */
  function RecordTerms(num: Ops, d: Data, p: Params): (t: Terms)
    requires WellShaped(d, p)
    ensures Covers(t, d.dt)
  {
    Terms(ProcessTerms(num, d, p, |d.dt|), ObsTerms(num, d, p, |d.dt|))
  }

  /**
    t holds, record by record, the process and observation terms of the
    model. The quantifiers fire only where a term of the model is named.
  */
  predicate TermsOf(t: Terms, num: Ops, d: Data, p: Params)
    requires WellShaped(d, p)
  {
    && Covers(t, d.dt)
    && (forall i {:trigger ProcessAt(num, d, p, i)} :: 0 <= i < |d.dt| ==> t.process[i] == ProcessAt(num, d, p, i))
    && (forall i {:trigger ObsAt(num, d, p, i)} :: 0 <= i < |d.dt| ==> t.obs[i] == ObsAt(num, d, p, i))
  }

  /** The outcome after the first n records of the model. */
  function NllUpTo(num: Ops, d: Data, p: Params, n: nat): Result<real>
    requires WellShaped(d, p) && n <= |d.dt|
  {
    Accumulate(RecordTerms(num, d, p), NumStates(p), NumClasses(p), d.dt, d.qual, n)
  }

  /** The value the objective function returns. */
  function Nll(num: Ops, d: Data, p: Params): Result<real>
    requires WellShaped(d, p)
  {
    NllUpTo(num, d, p, |d.dt|)
  }

  /** Every record before n addresses an existing state column and quality class. */
  predicate PrefixInRange(numStates: nat, numClasses: nat, dt: Vector, qual: seq<nat>, n: nat)
    requires |qual| == |dt| && n <= |dt|
  {
    forall i :: 0 <= i < n ==> StateNum(dt, i) < numStates && qual[i] < numClasses
  }

  /**
    The two conditions under which no access is out of range: every quality
    class has a table entry, and the positive gaps after record 0 are fewer
    than the latent-state columns.
  */
  predicate InRange(d: Data, p: Params)
    requires WellShaped(d, p)
  {
    && (forall i :: 0 <= i < |d.dt| ==> d.qual[i] < NumClasses(p))
    && (|d.dt| == 0 || StateNum(d.dt, |d.dt| - 1) < NumStates(p))
  }

  /** Sum of the process terms over the first n records, taken where i > 0 and dt(i) > 0. */
  function ProcessSum(t: Terms, dt: Vector, n: nat): real
    requires Covers(t, dt) && n <= |dt|
  {
    if n == 0 then 0.0
    else
      ProcessSum(t, dt, n - 1)
        + (if n - 1 > 0 && dt[n - 1] > 0.0 then t.process[n - 1] else 0.0)
  }

  /** Sum of the observation terms over the first n records. */
  function ObsSum(t: Terms, dt: Vector, n: nat): real
    requires Covers(t, dt) && n <= |dt|
  {
    if n == 0 then 0.0 else ObsSum(t, dt, n - 1) + t.obs[n - 1]
  }
}
