/**
  The objective function as the program runs it: it fills the observation
  variance matrix and the table of density objects, one per quality class,
  then walks the records, refilling the fixed-size state, covariance and
  observation buffers and adding each record's terms to the running total.
*/
module Orchestrator {
  import opened Numerics
  import opened Mvt
  import opened Process
  import opened LikelihoodSpec
  import opened LikelihoodLemmas

  /**
    The observation variances: one row per axis, column 0 for the base
    quality class and column j for class j with its correction applied.
  */
  method BuildVarObs(num: Ops, logSdObs: Vector, logCorrection: Matrix, cols: nat) returns (varObs: array2<real>)
    requires IsMatrix(logCorrection, |logCorrection|, cols) && |logCorrection| <= |logSdObs|
    ensures varObs.Length0 == |logCorrection| && varObs.Length1 == cols + 1
    ensures forall r, j :: 0 <= r < varObs.Length0 && 0 <= j < varObs.Length1 ==>
      varObs[r, j] == VarObsEntry(num, logSdObs, logCorrection, r, j)
  {
    varObs := new real[|logCorrection|, cols + 1];
    var i := 0;
    while i < varObs.Length0
      invariant 0 <= i <= varObs.Length0
      invariant forall r, j :: 0 <= r < i && 0 <= j < varObs.Length1 ==>
        varObs[r, j] == VarObsEntry(num, logSdObs, logCorrection, r, j)
    {
      varObs[i, 0] := num.exp(2.0 * logSdObs[i]);
      var j := 1;
      while j < varObs.Length1
        invariant 1 <= j <= varObs.Length1
        invariant forall r, c :: 0 <= r < i && 0 <= c < varObs.Length1 ==>
          varObs[r, c] == VarObsEntry(num, logSdObs, logCorrection, r, c)
        invariant forall c :: 0 <= c < j ==> varObs[i, c] == VarObsEntry(num, logSdObs, logCorrection, i, c)
      {
        varObs[i, j] := num.exp(2.0 * (logSdObs[i] + logCorrection[i][j - 1]));
        j := j + 1;
      }
      i := i + 1;
    }
  }

  /** Zeroes the 2x2 buffer and writes the two axis variances on its diagonal. */
  method SetObsCov(covObs: array2<real>, v0: real, v1: real)
    requires covObs.Length0 == 2 && covObs.Length1 == 2
    modifies covObs
    ensures Rows(covObs) == Diag2(v0, v1)
  {
    SetZero(covObs);
    covObs[0, 0] := v0;
    covObs[1, 1] := v1;
    covObs[1, 0] := 0.0;
    covObs[0, 1] := covObs[1, 0];
    Rows2(covObs);
  }

  /**
    The table of density objects: entry k has the diagonal covariance of
    column k of varObs, df exp(df(k)) + minDf, and the normal density exactly
    when the model code is not 0.
  */
  method BuildObsTable(num: Ops, varObs: array2<real>, df: Vector, minDf: real, modelCode: int)
    returns (table: array<MvtTT>)
    requires varObs.Length0 >= 2 && varObs.Length1 <= |df|
    ensures table.Length == varObs.Length1
    ensures forall k :: 0 <= k < table.Length ==>
      && table[k].sigma == Diag2(varObs[0, k], varObs[1, k])
      && table[k].df == num.exp(df[k]) + minDf
      && table[k].useNorm == (modelCode != 0)
  {
    var covObs := new real[2, 2];
    var blank := new MvtTT();
    table := new MvtTT[varObs.Length1](_ => blank);
    var i := 0;
    while i < table.Length
      invariant 0 <= i <= table.Length
      invariant forall k :: 0 <= k < i ==>
        table[k].Holds(Diag2(varObs[0, k], varObs[1, k]), num.exp(df[k]) + minDf, modelCode != 0)
    {
      SetObsCov(covObs, varObs[0, i], varObs[1, i]);
      var entry := new MvtTT.WithMode(Rows(covObs), num.exp(df[i]) + minDf, modelCode != 0);
      table[i] := entry;
      i := i + 1;
    }
  }

  /** Overwrites the 2-vector buffer with the residual of the fix at record i against state s. */
  method SetObs(obs: array<real>, d: Data, p: Params, i: nat, s: nat)
    requires obs.Length == 2
    requires WellShaped(d, p) && i < |d.dt| && s < NumStates(p)
    modifies obs
    ensures obs[..] == ObsResidual(d, p, i, s)
  {
    obs[0], obs[1] := 0.0, 0.0;
    obs[0] := d.lat[i] - p.mu[0][s];
    obs[1] := d.lon[i] - p.mu[1][s];
    assert obs[..] == [obs[0], obs[1]];
  }

  /**
    The process branch of a record: fills the state and covariance buffers
    for state s over the record's gap and scores the state with the normal density.
  */
  method ProcessContribution(cov: array2<real>, state: array<real>, num: Ops, d: Data, p: Params,
                             i: nat, s: nat, beta: Vector, varState: Vector)
    returns (term: real)
    requires cov.Length0 == 4 && cov.Length1 == 4 && state.Length == 4
    requires WellShaped(d, p) && i < |d.dt| && 1 <= s < NumStates(p)
    requires beta == Beta(num, p) && varState == VarState(num, p)
    modifies cov, state
    ensures state[..] == ProcessResidual(num, beta, p.gamma, p.mu, p.vel, s, d.dt[i])
    ensures Rows(cov) == ProcessCov(num, beta, varState, d.dt[i])
    ensures term == ProcessTerm(num, d, p, i, s)
  {
    SetProcessState(state, num, beta, p.gamma, p.mu, p.vel, s, d.dt[i]);
    SetProcessCov(cov, num, beta, varState, d.dt[i]);
    term := num.mvnorm(Rows(cov), state[..]);
  }

  /**
    The observation part of a record: fills the observation buffer and
    evaluates the table entry of the record's quality class, masked by the
    inclusion weight and the prefix mask.
  */
  method ObsContribution(obs: array<real>, entry: MvtTT, num: Ops, d: Data, p: Params, i: nat, s: nat)
    returns (term: real)
    requires obs.Length == 2
    requires WellShaped(d, p) && i < |d.dt| && s < NumStates(p) && d.qual[i] < NumClasses(p)
    requires entry.Holds(ClassSigma(num, p, d.qual[i]), ClassDf(num, d, p, d.qual[i]), UseNorm(d))
    modifies obs
    ensures obs[..] == ObsResidual(d, p, i, s)
    ensures term == ObsTerm(num, d, p, i, s)
  {
    SetObs(obs, d, p, i, s);
    var keep := Keep(i, p.numdata);
    term := entry.Eval(num, obs[..]) * d.incl[i] * keep;
  }

  /** Entry k of the table holds the covariance, df and mode of quality class k. */
  predicate TableHolds(table: array<MvtTT>, num: Ops, d: Data, p: Params)
    requires WellShaped(d, p)
    reads table, table[..]
  {
    && table.Length == NumClasses(p)
    && forall k :: 0 <= k < table.Length ==> table[k].Holds(ClassSigma(num, p, k), ClassDf(num, d, p, k), UseNorm(d))
  }

  /**
    The observation side of the set-up: the variance matrix, then one density
    object per quality class holding that class's covariance, df and mode.
  */
  method ObsTable(num: Ops, d: Data, p: Params) returns (table: array<MvtTT>)
    requires WellShaped(d, p)
    ensures TableHolds(table, num, d, p)
  {
    var varObs := BuildVarObs(num, p.logSdObs, p.logCorrection, |p.logCorrection[0]|);
    table := BuildObsTable(num, varObs, p.df, d.minDf, d.modelCode);
  }

  /**
    The process branch of record i at its state s: where the state is not 0
    and the gap is positive, the record's process term is added to nll.
  */
  method ProcessStep(cov: array2<real>, state: array<real>, num: Ops, d: Data, p: Params,
                     beta: Vector, varState: Vector, ghost t: Terms, i: nat, s: nat, nll: real)
    returns (acc: real)
    requires cov.Length0 == 4 && cov.Length1 == 4 && state.Length == 4
    requires WellShaped(d, p) && TermsOf(t, num, d, p) && i < |d.dt|
    requires beta == Beta(num, p) && varState == VarState(num, p)
    requires s == StateNum(d.dt, i) && s < NumStates(p)
    modifies cov, state
    ensures acc == if s != 0 && d.dt[i] > 0.0 then nll + t.process[i] else nll
    ensures s != 0 && d.dt[i] > 0.0 ==>
      && state[..] == ProcessResidual(num, beta, p.gamma, p.mu, p.vel, s, d.dt[i])
      && Rows(cov) == ProcessCov(num, beta, varState, d.dt[i])
    ensures !(s != 0 && d.dt[i] > 0.0) ==> unchanged(cov, state)
  {
    acc := nll;
    if s == 0 {
    } else if d.dt[i] > 0.0 {
      assert t.process[i] == ProcessAt(num, d, p, i);
      var term := ProcessContribution(cov, state, num, d, p, i, s, beta, varState);
      acc := acc + term;
    }
  }

  /** The observation part of record i at its state s, through the table entry of its class. */
  method ObsStep(obs: array<real>, table: array<MvtTT>, num: Ops, d: Data, p: Params,
                 ghost t: Terms, i: nat, s: nat)
    returns (term: real)
    requires obs.Length == 2
    requires WellShaped(d, p) && TermsOf(t, num, d, p) && i < |d.dt|
    requires TableHolds(table, num, d, p)
    requires s == StateNum(d.dt, i) && s < NumStates(p) && d.qual[i] < table.Length
    modifies obs
    ensures obs[..] == ObsResidual(d, p, i, s)
    ensures term == t.obs[i]
  {
    assert t.obs[i] == ObsAt(num, d, p, i);
    term := ObsContribution(obs, table[d.qual[i]], num, d, p, i, s);
  }

  /**
    The body of the record loop for record i: advances the state counter,
    adds the process term in its branch and the masked observation term, or
    stops at the index error of the record. The outcome is that of the first
    i + 1 records.
  */
  method RecordStep(cov: array2<real>, state: array<real>, obs: array<real>, table: array<MvtTT>,
                    num: Ops, d: Data, p: Params, beta: Vector, varState: Vector, ghost t: Terms,
                    i: nat, stateNum: nat, nll: real)
    returns (out: Result<real>, nextState: nat)
    requires cov.Length0 == 4 && cov.Length1 == 4 && state.Length == 4 && obs.Length == 2
    requires WellShaped(d, p) && TermsOf(t, num, d, p) && i < |d.dt|
    requires beta == Beta(num, p) && varState == VarState(num, p)
    requires TableHolds(table, num, d, p)
    requires stateNum == if i == 0 then 0 else StateNum(d.dt, i - 1)
    requires Accumulate(t, NumStates(p), NumClasses(p), d.dt, d.qual, i) == Ok(nll)
    modifies cov, state, obs
    ensures nextState == StateNum(d.dt, i)
    ensures out == Accumulate(t, NumStates(p), NumClasses(p), d.dt, d.qual, i + 1)
  {
    AccumulateStep(t, NumStates(p), NumClasses(p), d.dt, d.qual, i, nll);
    ProcessBranchIff(d.dt, i);
    nextState := stateNum;
    if d.dt[i] > 0.0 && i > 0 {
      nextState := nextState + 1;
    }
    if nextState >= NumStates(p) {
      return Err(StateOutOfRange(i)), nextState;
    }
    var acc := ProcessStep(cov, state, num, d, p, beta, varState, t, i, nextState, nll);
    if d.qual[i] >= table.Length {
      return Err(QualityOutOfRange(i)), nextState;
    }
    var term := ObsStep(obs, table, num, d, p, t, i, nextState);
    out := Ok(acc + term);
  }

  /**
    The record loop over the set-up table and buffers: the outcome of all
    records, stopping at the first index error.
  */
  method RecordLoop(cov: array2<real>, state: array<real>, obs: array<real>, table: array<MvtTT>,
                    num: Ops, d: Data, p: Params, beta: Vector, varState: Vector, ghost t: Terms)
    returns (r: Result<real>)
    requires cov.Length0 == 4 && cov.Length1 == 4 && state.Length == 4 && obs.Length == 2
    requires WellShaped(d, p) && TermsOf(t, num, d, p)
    requires beta == Beta(num, p) && varState == VarState(num, p)
    requires TableHolds(table, num, d, p)
    modifies cov, state, obs
    ensures r == Accumulate(t, NumStates(p), NumClasses(p), d.dt, d.qual, |d.dt|)
  {
    var nll := 0.0;
    var stateNum: nat := 0;
    var i := 0;
    while i < |d.dt|
      invariant 0 <= i <= |d.dt|
      invariant stateNum == if i == 0 then 0 else StateNum(d.dt, i - 1)
      invariant Accumulate(t, NumStates(p), NumClasses(p), d.dt, d.qual, i) == Ok(nll)
      invariant TableHolds(table, num, d, p)
    {
      var out;
      out, stateNum := RecordStep(cov, state, obs, table, num, d, p, beta, varState, t, i, stateNum, nll);
      if out.Err? {
        ErrPersists(t, NumStates(p), NumClasses(p), d.dt, d.qual, i + 1, |d.dt|);
        return out;
      }
      nll := out.value;
      i := i + 1;
    }
    r := Ok(nll);
  }

  /**
    The objective function: the negative log-likelihood of the track, or the
    index error at the first record whose latent state or quality class is
    out of range.
  */
  method Objective(num: Ops, d: Data, p: Params) returns (r: Result<real>)
    requires WellShaped(d, p)
    ensures r == Nll(num, d, p)
  {
    var beta := Beta(num, p);
    var varState := VarState(num, p);
    var table := ObsTable(num, d, p);
    var cov := new real[4, 4];
    var state := new real[4];
    var obs := new real[2];
    ghost var t := RecordTerms(num, d, p);
    RecordTermsOf(num, d, p);
    r := RecordLoop(cov, state, obs, table, num, d, p, beta, varState, t);
  }
}
