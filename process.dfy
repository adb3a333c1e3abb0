/**
  The continuous-time correlated-velocity process term: the closed-form
  transition mean and covariance of one coordinate axis over a time gap dt,
  the 4-vector residual over the two axes, and the 4x4 block covariance,
  both as values and as the in-place fills of fixed-size buffers.

  Axis c of the state occupies positions 2c (position) and 2c+1 (velocity).
*/
module Process {
  import opened Numerics

  /**
    Predicted position after dt from position pos0 and velocity vel0. The
    bracket is kept as written: only the exponential is divided by beta.
  */
  function MeanPos(num: Ops, beta: real, dt: real, pos0: real, vel0: real): real
  {
    pos0 + vel0 * (1.0 - Div(num.exp(-beta * dt), beta))
  }

  /** Predicted velocity after dt, reverting from vel0 towards the drift gamma. */
  function MeanVel(num: Ops, beta: real, gamma: real, dt: real, vel0: real): real
  {
    gamma + num.exp(-beta * dt) * (vel0 - gamma)
  }

  function VarPos(num: Ops, beta: real, varState: real, dt: real): real
  {
    Div(varState, num.pow(beta, 2.0))
      * (dt - Div(2.0 * (1.0 - num.exp(-beta * dt)), beta)
            + Div(1.0 - num.exp(-2.0 * beta * dt), 2.0 * beta))
  }

  function VarVel(num: Ops, beta: real, varState: real, dt: real): real
  {
    Div(varState * (1.0 - num.exp(-2.0 * beta * dt)), 2.0 * beta)
  }

  function CovPosVel(num: Ops, beta: real, varState: real, dt: real): real
  {
    Div(varState * (1.0 - 2.0 * num.exp(-beta * dt) + num.exp(-2.0 * beta * dt)),
        2.0 * num.pow(beta, 2.0))
  }

  predicate Shaped(mu: Matrix, vel: Matrix, cols: nat)
  {
    IsMatrix(mu, 2, cols) && IsMatrix(vel, 2, cols)
  }

  /**
    Residual of latent state s against its prediction from state s - 1:
    (position, velocity) of axis 0, then of axis 1.
  */
  function ProcessResidual(num: Ops, beta: Vector, gamma: Vector, mu: Matrix, vel: Matrix,
                           s: nat, dt: real): (r: Vector)
    requires |beta| == 2 && |gamma| == 2 && |mu| == 2 && Shaped(mu, vel, |mu[0]|)
    requires 1 <= s < |mu[0]|
  {
    [ mu[0][s] - MeanPos(num, beta[0], dt, mu[0][s - 1], vel[0][s - 1]),
      vel[0][s] - MeanVel(num, beta[0], gamma[0], dt, vel[0][s - 1]),
      mu[1][s] - MeanPos(num, beta[1], dt, mu[1][s - 1], vel[1][s - 1]),
      vel[1][s] - MeanVel(num, beta[1], gamma[1], dt, vel[1][s - 1]) ]
  }

  /** The process covariance over dt: one 2x2 block per axis on the diagonal. */
  function ProcessCov(num: Ops, beta: Vector, varState: Vector, dt: real): Matrix
    requires |beta| == 2 && |varState| == 2
  {
    var p0, v0, c0 := VarPos(num, beta[0], varState[0], dt), VarVel(num, beta[0], varState[0], dt),
                      CovPosVel(num, beta[0], varState[0], dt);
    var p1, v1, c1 := VarPos(num, beta[1], varState[1], dt), VarVel(num, beta[1], varState[1], dt),
                      CovPosVel(num, beta[1], varState[1], dt);
    [ [p0, c0, 0.0, 0.0],
      [c0, v0, 0.0, 0.0],
      [0.0, 0.0, p1, c1],
      [0.0, 0.0, c1, v1] ]
  }

  /**
    The process covariance is symmetric, each axis's block sits at rows and
    columns 2a and 2a + 1, and every entry coupling the two axes is zero.
  */
  lemma ProcessCovShape(num: Ops, beta: Vector, varState: Vector, dt: real)
    requires |beta| == 2 && |varState| == 2
    ensures IsMatrix(ProcessCov(num, beta, varState, dt), 4, 4)
    ensures forall r, c :: 0 <= r < 4 && 0 <= c < 4 ==>
      ProcessCov(num, beta, varState, dt)[r][c] == ProcessCov(num, beta, varState, dt)[c][r]
    ensures forall r, c :: 0 <= r < 2 && 2 <= c < 4 ==>
      ProcessCov(num, beta, varState, dt)[r][c] == 0.0 && ProcessCov(num, beta, varState, dt)[c][r] == 0.0
    ensures forall a :: 0 <= a < 2 ==>
      var m := ProcessCov(num, beta, varState, dt);
      && m[2 * a][2 * a] == VarPos(num, beta[a], varState[a], dt)
      && m[2 * a + 1][2 * a + 1] == VarVel(num, beta[a], varState[a], dt)
      && m[2 * a][2 * a + 1] == CovPosVel(num, beta[a], varState[a], dt)
  {
  }

  /** Overwrites the 4-vector buffer with the residual of state s over dt. */
  method SetProcessState(state: array<real>, num: Ops, beta: Vector, gamma: Vector,
                         mu: Matrix, vel: Matrix, s: nat, dt: real)
    requires state.Length == 4
    requires |beta| == 2 && |gamma| == 2 && |mu| == 2 && Shaped(mu, vel, |mu[0]|)
    requires 1 <= s < |mu[0]|
    modifies state
    ensures state[..] == ProcessResidual(num, beta, gamma, mu, vel, s, dt)
  {
    state[0], state[1], state[2], state[3] := 0.0, 0.0, 0.0, 0.0;
    var c := 0;
    state[0] := mu[c][s] - MeanPos(num, beta[c], dt, mu[c][s - 1], vel[c][s - 1]);
    state[1] := vel[c][s] - MeanVel(num, beta[c], gamma[c], dt, vel[c][s - 1]);
    c := 1;
    state[2] := mu[c][s] - MeanPos(num, beta[c], dt, mu[c][s - 1], vel[c][s - 1]);
    state[3] := vel[c][s] - MeanVel(num, beta[c], gamma[c], dt, vel[c][s - 1]);
    assert state[..] == [state[0], state[1], state[2], state[3]];
  }

  /** Sets every entry of the buffer to zero. */
  method SetZero(a: array2<real>)
    modifies a
    ensures forall r, c :: 0 <= r < a.Length0 && 0 <= c < a.Length1 ==> a[r, c] == 0.0
  {
    forall r, c | 0 <= r < a.Length0 && 0 <= c < a.Length1 {
      a[r, c] := 0.0;
    }
  }

  /** Zeroes the 4x4 buffer, then writes the two axis blocks, mirroring each off-diagonal. */
  method SetProcessCov(cov: array2<real>, num: Ops, beta: Vector, varState: Vector, dt: real)
    requires cov.Length0 == 4 && cov.Length1 == 4
    requires |beta| == 2 && |varState| == 2
    modifies cov
    ensures Rows(cov) == ProcessCov(num, beta, varState, dt)
  {
    SetZero(cov);
    var c := 0;
    cov[0, 0] := VarPos(num, beta[c], varState[c], dt);
    cov[1, 1] := VarVel(num, beta[c], varState[c], dt);
    cov[1, 0] := CovPosVel(num, beta[c], varState[c], dt);
    cov[0, 1] := cov[1, 0];
    c := 1;
    cov[2, 2] := VarPos(num, beta[c], varState[c], dt);
    cov[3, 3] := VarVel(num, beta[c], varState[c], dt);
    cov[2, 3] := CovPosVel(num, beta[c], varState[c], dt);
    cov[3, 2] := cov[2, 3];
    ghost var lit := [[cov[0, 0], cov[0, 1], cov[0, 2], cov[0, 3]],
                      [cov[1, 0], cov[1, 1], cov[1, 2], cov[1, 3]],
                      [cov[2, 0], cov[2, 1], cov[2, 2], cov[2, 3]],
                      [cov[3, 0], cov[3, 1], cov[3, 2], cov[3, 3]]];
    assert lit[0] == [VarPos(num, beta[0], varState[0], dt), CovPosVel(num, beta[0], varState[0], dt), 0.0, 0.0];
    assert lit[1] == [CovPosVel(num, beta[0], varState[0], dt), VarVel(num, beta[0], varState[0], dt), 0.0, 0.0];
    assert lit[2] == [0.0, 0.0, VarPos(num, beta[1], varState[1], dt), CovPosVel(num, beta[1], varState[1], dt)];
    assert lit[3] == [0.0, 0.0, CovPosVel(num, beta[1], varState[1], dt), VarVel(num, beta[1], varState[1], dt)];
    assert lit == ProcessCov(num, beta, varState, dt);
    Rows4(cov);
  }
}
