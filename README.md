# Ringed-seal track likelihood: the bookkeeping of the objective function

This project models the objective function of a continuous-time
correlated-velocity state-space model for irregularly observed animal tracks.
The objective is a TMB template in `src/ringednt.cpp`. It returns the negative
log-likelihood of a track of quality-graded location fixes. Its terms are:

- a process term for each positive time gap, scoring the latent position and
  velocity against their closed-form transition from the previous latent state;
- an observation term for each record, scoring the fix against its latent
  position with a multivariate-t (or normal) density chosen by quality class.

The model covers what surrounds the arithmetic:

- the latent-state counter `stateNum` and the three branches of each record;
- the per-class observation table: the variance matrix `varObs`, one diagonal
  covariance per class, and one `MVT_tt` density object per class, with its
  degrees of freedom and normal/t switch;
- the in-place filling of the fixed-size `state`, `cov`, `covObs` and `obs` buffers;
- the inclusion and prefix masks on the observation terms;
- the two index errors: a latent-state column past the end of `mu`, and a
  quality class without a table entry.

`MVT_tt::operator()` is modelled too, as a pure dispatch between the two
closed-form densities.

Files and modules:

- `numerics.dfy` (`Numerics`): the abstract scalar primitives (`Ops`), and the
  matrix helpers that read a two-dimensional array as a value.
- `mvt.dfy` (`Mvt`): the two closed-form negative log densities, and the class
  `MvtTT` with its four constructors, `SetDf` and `Eval`.
- `process.dfy` (`Process`): the transition mean and covariance of one axis,
  the 4-vector residual and the 4x4 block covariance, the lemma about the
  covariance's shape, and the methods that fill the buffers in place.
- `likelihood_spec.dfy` (`LikelihoodSpec`): the likelihood as a function of
  data and parameters. `StateNum` is the counter. `Accumulate` is the record
  loop over any per-record terms, with its error results. `RecordTerms` gives
  the model's terms; `NllUpTo` and `Nll` give the model's outcome.
- `likelihood_lemmas.dfy` (`LikelihoodLemmas`): the properties of the counter,
  the branches, the prefix loop, the in-range condition, the decomposition of
  the total, and the masks.
- `orchestrator.dfy` (`Orchestrator`): the objective function as the program
  runs it. Methods with loops and buffers are proved against the functions above.

The mean-position expression keeps the bracketing of the code,
`vel * (1 - exp(-beta dt) / beta)`, where only the exponential is divided by
`beta` (`Process.MeanPos`).

## Model

| member | source | states |
|---|---|---|
| Mvt.StudentTNll | src/ringednt.cpp:47-50 | the negative log density of a zero-mean multivariate t vector of length p with scale matrix sigma and df degrees of freedom (Lange, Little and Taylor), from the precision's log-determinant and the quadratic form |
| Mvt.NormalNll | src/ringednt.cpp:47-51 | the negative log density of a zero-mean normal vector of length p with covariance sigma, from the same log-determinant and quadratic form |
| Mvt.ClassNll | src/ringednt.cpp:53 | the normal density when the switch is set, otherwise the t density |
| Mvt.MvtTT.constructor | src/ringednt.cpp:18-22 | the default object has an empty scale matrix and is in Student-t mode |
| Mvt.MvtTT.WithDf | src/ringednt.cpp:23-28 | df is the argument; empty scale matrix; Student-t mode |
| Mvt.MvtTT.WithSigma | src/ringednt.cpp:29-34 | scale matrix and df are the arguments; Student-t mode |
| Mvt.MvtTT.WithMode | src/ringednt.cpp:35-40 | scale matrix, df and the normal switch are the three arguments |
| Mvt.MvtTT.SetDf | src/ringednt.cpp:42-44 | df is replaced; scale matrix and switch are unchanged |
| Mvt.MvtTT.Eval | src/ringednt.cpp:47-54 | the normal negative log density exactly when the switch is set, otherwise the multivariate-t one of Lange, Little and Taylor, both over the same scale matrix |
| Process.MeanPos | src/ringednt.cpp:156 | the predicted position pos0 + vel0 (1 - exp(-beta dt) / beta), with the code's bracketing: only the exponential is divided by beta |
| Process.MeanVel | src/ringednt.cpp:157 | the predicted velocity gamma + exp(-beta dt) (vel0 - gamma), reverting towards the drift |
| Process.VarPos | src/ringednt.cpp:167 | the position variance varState / beta^2 (dt - 2 (1 - exp(-beta dt)) / beta + (1 - exp(-2 beta dt)) / (2 beta)) |
| Process.VarVel | src/ringednt.cpp:168 | the velocity variance varState (1 - exp(-2 beta dt)) / (2 beta) |
| Process.CovPosVel | src/ringednt.cpp:169 | the position-velocity covariance varState (1 - 2 exp(-beta dt) + exp(-2 beta dt)) / (2 beta^2) |
| Process.ProcessResidual | src/ringednt.cpp:154-161 | state column s minus its prediction from column s - 1: position and velocity of axis 0, then of axis 1 |
| Process.ProcessCov | src/ringednt.cpp:164-176 | the 4x4 process covariance: one 2x2 block per axis on the diagonal with mirrored off-diagonals, zeros elsewhere |
| Process.ProcessCovShape | src/ringednt.cpp:164-176 | the process covariance is 4x4 and symmetric; every entry coupling axis 0 with axis 1 is zero; axis a's block at rows and columns 2a, 2a+1 holds the position variance, velocity variance and covariance of that axis |
| Process.SetProcessState | src/ringednt.cpp:154-161 | after the fill, the state buffer holds the residual of state s against its prediction from s - 1, axis 0 first |
| Process.SetZero | src/ringednt.cpp:164 | every entry of the buffer is zero |
| Process.SetProcessCov | src/ringednt.cpp:164-176 | after zeroing and the two block fills with mirrored off-diagonals, the buffer holds the process covariance |
| LikelihoodSpec.Beta | src/ringednt.cpp:85 | the mean-reversion rates exp(logbeta), axis by axis |
| LikelihoodSpec.VarState | src/ringednt.cpp:86 | the process variance rates exp(2 logSdState), axis by axis |
| LikelihoodSpec.VarObsEntry | src/ringednt.cpp:89-94 | the observation variance of axis r and class j: exp(2 logSdObs(r)) for class 0, exp(2 (logSdObs(r) + logCorrection(r, j - 1))) otherwise |
| LikelihoodSpec.ClassSigma | src/ringednt.cpp:110-114 | the diagonal 2x2 observation covariance of class k, zero off the diagonal |
| LikelihoodSpec.ClassDf | src/ringednt.cpp:116 | the degrees of freedom of class k: exp(df(k)) + minDf |
| LikelihoodSpec.UseNorm | src/ringednt.cpp:115-116 | model code 0 selects the t density, any other code the normal one |
| LikelihoodSpec.ObsResidual | src/ringednt.cpp:188-190 | the fix of record i minus the latent position of state s: (lat(i) - mu(0, s), lon(i) - mu(1, s)) |
| LikelihoodSpec.ObsTerm | src/ringednt.cpp:203-204 | the density of the record's class at its residual, times its inclusion weight and the prefix mask |
| LikelihoodSpec.ProcessTerm | src/ringednt.cpp:154-181 | the normal evaluator at the process covariance over the record's gap and the residual of its state |
| LikelihoodSpec.Accumulate | src/ringednt.cpp:130-207 | the record loop over the first n records: state column checked before quality class, the process term added where the state is not 0 and the gap positive, the observation term at every record, stopping at the first index error |
| LikelihoodSpec.Nll | src/ringednt.cpp:98-213 | the objective's outcome: the record loop over all records with the model's own terms, starting from nll = 0 |
| LikelihoodSpec.StateNum | src/ringednt.cpp:126-132 | the latent-state index at record i is at most i |
| LikelihoodSpec.Keep | src/ringednt.cpp:203 | the prefix mask is 0 or 1, and it is 1 exactly when i < numdata |
| LikelihoodLemmas.StateNumClosedForm | src/ringednt.cpp:126-132 | the counter at record i is the number of records j with 1 <= j <= i and a positive gap |
| LikelihoodLemmas.StateNumMonotone | src/ringednt.cpp:130-132 | the counter never decreases and grows by at most one per record |
| LikelihoodLemmas.SameStateIffNoGap | src/ringednt.cpp:130-132 | records i <= j share a latent state exactly when no record after i up to j has a positive gap |
| LikelihoodLemmas.SharedStateSharedPrediction | src/ringednt.cpp:189-190 | records with no positive gap between them compare their fixes with the same latent position column |
| LikelihoodLemmas.ProcessBranchIff | src/ringednt.cpp:132-150 | the process branch is taken exactly at records i > 0 with a positive gap, and there the state index is at least 1, so column s - 1 exists |
| LikelihoodLemmas.AccumulateStep | src/ringednt.cpp:130-206 | after a successful prefix, one more record yields one of three outcomes: the state error; the quality error; or the total plus the process term (exactly when i > 0 and the gap is positive) plus the observation term |
| LikelihoodLemmas.ErrPersists | src/ringednt.cpp:130-207 | once an evaluation has aborted at a record, later records do not change the outcome |
| LikelihoodLemmas.PrefixOkIff | src/ringednt.cpp:130-207 | a prefix evaluates without error exactly when every record in it addresses an existing state column and quality class |
| LikelihoodLemmas.PrefixDecomposition | src/ringednt.cpp:130-207 | without error, the total is the sum of the process terms at records i > 0 with a positive gap plus the sum of the observation terms at every record |
| LikelihoodLemmas.AccumulateCongruent | src/ringednt.cpp:130-207 | the outcome depends on the terms only through each record's own process and observation term |
| LikelihoodLemmas.InRangeIffPrefix | src/ringednt.cpp:130-204 | the two range conditions hold exactly when every record is in range: each quality class has an entry, and the last state index is below the number of columns |
| LikelihoodLemmas.NllOkIff | src/ringednt.cpp:101-213 | the objective returns a value, not an index error, exactly when every qual(i) <= logCorrection.cols() and the positive gaps after record 0 are fewer than the columns of mu |
| LikelihoodLemmas.RecordTermsAt | src/ringednt.cpp:150-204 | the model's terms of record i are its process term at its own state (zero at state 0) and its masked observation term |
| LikelihoodLemmas.ModelStep | src/ringednt.cpp:132-204 | for any terms that are the model's, one more record after a successful prefix gives the state error, the quality error, or the total plus ProcessTerm (in its branch) plus ObsTerm |
| LikelihoodLemmas.NllUpToStep | src/ringednt.cpp:132-204 | the same three outcomes of one more record, stated for the model's own prefix outcome |
| LikelihoodLemmas.NllErrPersists | src/ringednt.cpp:130-213 | an index error in a prefix is the result of the whole evaluation |
| LikelihoodLemmas.NllDecomposition | src/ringednt.cpp:98-213 | in range, the returned nll is the sum of the process terms at records i > 0 with a positive gap plus the masked observation terms of all records |
| LikelihoodLemmas.ObsTermMasked | src/ringednt.cpp:203-204 | a record with inclusion weight 0, or with index at least numdata, contributes exactly 0 |
| LikelihoodLemmas.ProcessTermsAgree | src/ringednt.cpp:150-181 | of the data, a record's process term reads only the time gaps |
| LikelihoodLemmas.ObsTermsAgree | src/ringednt.cpp:186-204 | of the data, a record's observation term reads only its own fix, the gaps, its class and weight, minDf and the model code |
| LikelihoodLemmas.MaskedTermsAgree | src/ringednt.cpp:203-204 | at a masked record, the observation term is the same whatever the fixes |
| LikelihoodLemmas.MaskedFixIrrelevant | src/ringednt.cpp:186-204 | changing the latitude and longitude of a masked record leaves the objective's outcome unchanged |
| Orchestrator.BuildVarObs | src/ringednt.cpp:87-94 | varObs has logCorrection.cols() + 1 columns; entry (r, 0) is exp(2 logSdObs(r)) and entry (r, j) is exp(2 (logSdObs(r) + logCorrection(r, j - 1))) |
| Orchestrator.SetObsCov | src/ringednt.cpp:110-114 | after zeroing, the 2x2 buffer is the diagonal matrix of the two axis variances |
| Orchestrator.BuildObsTable | src/ringednt.cpp:101-118 | one density object per varObs column; object k has the diagonal covariance of column k, df exp(df(k)) + minDf, and the normal density exactly when the model code is not 0 |
| Orchestrator.SetObs | src/ringednt.cpp:188-190 | the observation buffer holds (lat(i) - mu(0, s), lon(i) - mu(1, s)) |
| Orchestrator.ProcessContribution | src/ringednt.cpp:154-181 | the buffers hold the residual and the covariance, and the added term is the normal evaluator at them |
| Orchestrator.ObsContribution | src/ringednt.cpp:188-204 | the buffer holds the residual, and the added term is the class's density at it times the inclusion weight and the prefix mask |
| Orchestrator.ObsTable | src/ringednt.cpp:87-118 | the set-up leaves one entry per quality class holding that class's covariance, df and mode |
| Orchestrator.ProcessStep | src/ringednt.cpp:133-184 | nll grows by the record's process term exactly when its state is not 0 and its gap is positive; in that branch the buffers hold the residual and the process covariance, otherwise neither buffer changes |
| Orchestrator.ObsStep | src/ringednt.cpp:188-204 | the observation buffer holds the record's residual, and the added term is the record's observation term, read through the table entry of its class |
| Orchestrator.RecordStep | src/ringednt.cpp:132-204 | the new state index is StateNum(dt, i), and the outcome is that of the first i + 1 records, or the index error of record i |
| Orchestrator.RecordLoop | src/ringednt.cpp:126-207 | the loop's result is the outcome of the record loop over all records |
| Orchestrator.Objective | src/ringednt.cpp:85-213 | the objective function returns Nll: the negative log-likelihood, or the index error at the first record out of range |

## Left out

- The numeric primitives are not modelled. exp, log, lgamma, sqrt and pow, and the TMB density library's `MVNORM_t` (`setSigma`, its Cholesky factor, `logdetQ`, `Quadform` and the evaluator), are fields of one `Ops` value that every operation receives. Nothing is assumed about them. `MVNORM_t` is not part of this model.
- A non-positive-definite covariance, which the density library treats as fatal, is not modelled: the evaluator is abstract.
- The arithmetic is on reals, not floating point. `Div` returns 0 when the divisor is 0, where floating point would give an infinity or NaN. Overflow to infinity is not modelled.
- LikelihoodLemmas.ObsTermMasked: in floating point an infinite or NaN density times a zero mask is NaN, not 0. This lemma and `MaskedFixIrrelevant` hold only where the density values are finite.
- CppAD's `CondExpLt` (line 203) is a plain conditional (`Keep`). The automatic-differentiation tape is not modelled.
- The `test` diagnostic (lines 128, 205) is left out; it is report-only, and its vector-into-scalar `CondExpEq` depends on CppAD overloads that are not part of this model. So are the report-only values `correction`, `sdObs` and `dfs` (lines 88, 96, 208) and the `ADREPORT` calls (lines 209-212).
- The `DATA_*` and `PARAMETER_*` macros (lines 63-83) become the fields of `Data` and `Params`. Quality classes are natural numbers, as a factor's codes are.
- The commented-out initial-state prior (lines 134-148) and per-record observation covariance (lines 193-201) are not live code and are not modelled.
- Objective: the shapes the declarations document are preconditions (`WellShaped`), not error results. These are length-2 per-axis parameters, 2-row `mu`, `vel` and `logCorrection`, one entry per record, and one df per quality class. Only the two data-dependent index errors are modelled as results: the state column and the quality class.
- Objective: out-of-range indexing aborts the evaluation, and the model reports it as the first record at which it happens. A record whose state column is past the end reports the state error, whichever of its reads would fail first.
- Mvt.MvtTT.constructor: the default constructor leaves df uninitialised in the source, so its contract says nothing about df.
- Orchestrator.RecordStep: its contract does not state what the scratch buffers hold afterwards. `ProcessContribution`, `ObsContribution`, `SetProcessState`, `SetProcessCov` and `SetObs` state it for each fill.
- Orchestrator.RecordLoop: its contract does not state what the scratch buffers hold afterwards, for the same reason as `RecordStep`. It is proved against the record loop `Accumulate` over ghost per-record terms `t`, related to the model by `TermsOf`. `Objective` instantiates `t` with the model's own terms, which ties the result to `Nll`.
