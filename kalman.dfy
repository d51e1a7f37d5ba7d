/** The scalar Kalman filter of the monitoring core (`KalmanFilter` in
    app/lib/algorithms.ts), over exact reals.  The source marks the state
    "not yet initialised" with NaN in both fields; here that is the explicit
    `Uninitialized` variant. */
module Kalman {

  import opened Reals

  datatype Option<T> = None | Some(value: T)

  /** The five tuning scalars the filter is built with. */
  datatype Params = Params(R: real, Q: real, A: real, B: real, C: real)

  /** The configuration the architecture page builds both filters with
      (and the constructor's defaults): R = 1, Q = 1, A = 1, B = 0, C = 1. */
  const DefaultParams := Params(1.0, 1.0, 1.0, 0.0, 1.0)

  /** A configuration for which every division the filter makes is defined:
      positive measurement noise, non-negative process noise and a non-zero
      observation gain. */
  predicate ValidParams(p: Params) {
    p.R > 0.0 && p.Q >= 0.0 && p.C != 0.0
  }

  /** "Value persists and is directly observed": A = 1, B = 0, C = 1. */
  predicate Persistent(p: Params) {
    p.A == 1.0 && p.B == 0.0 && p.C == 1.0
  }

  datatype FilterState = Uninitialized | Tracking(x: real, cov: real)

  predicate CovNonNegative(s: FilterState) {
    s.Tracking? ==> s.cov >= 0.0
  }

  // ---------------------------------------------------------------------
  // The recursion, one stage at a time

  /** Predicted estimate A*x + B*u. */
  function PredictX(p: Params, x: real, u: real): (px: real)
    ensures Persistent(p) ==> px == x
  {
    p.A * x + p.B * u
  }

  /** Predicted covariance A*cov*A + Q, never below Q for a non-negative
      covariance. */
  function PredictCov(p: Params, cov: real): (pc: real)
    requires ValidParams(p) && cov >= 0.0
    ensures pc >= p.Q >= 0.0
  {
    assert p.A * cov * p.A == cov * (p.A * p.A);
    p.A * cov * p.A + p.Q
  }

  /** The innovation denominator C*predCov*C + R, positive because R is. */
  function Innovation(p: Params, predCov: real): (d: real)
    requires ValidParams(p) && predCov >= 0.0
    ensures d >= p.R > 0.0
    ensures d == (p.C * p.C) * predCov + p.R
  {
    assert p.C * predCov * p.C == predCov * (p.C * p.C);
    p.C * predCov * p.C + p.R
  }

  /** Kalman gain predCov*C / (C*predCov*C + R). */
  function Gain(p: Params, predCov: real): real
    requires ValidParams(p) && predCov >= 0.0
  {
    predCov * p.C * (1.0 / Innovation(p, predCov))
  }

  /** Updated covariance predCov - K*C*predCov. */
  function UpdateCov(p: Params, predCov: real): (c: real)
    requires ValidParams(p) && predCov >= 0.0
    ensures 0.0 <= c <= predCov
  {
    GainShrinks(p, predCov);
    predCov - Gain(p, predCov) * p.C * predCov
  }

  /** One call of `filter(z, u)`: initialise from the measurement on the
      first call, otherwise predict and then correct. */
  function Step(p: Params, s: FilterState, z: real, u: real): (s': FilterState)
    requires ValidParams(p) && CovNonNegative(s)
    ensures s'.Tracking? && s'.cov >= 0.0
  {
    match s
    case Uninitialized =>
      assert (1.0 / p.C) * p.R * (1.0 / p.C) == p.R * ((1.0 / p.C) * (1.0 / p.C));
      Tracking((1.0 / p.C) * z, (1.0 / p.C) * p.R * (1.0 / p.C))
    case Tracking(x, cov) =>
      var predX := PredictX(p, x, u);
      var predCov := PredictCov(p, cov);
      Tracking(predX + Gain(p, predCov) * (z - p.C * predX), UpdateCov(p, predCov))
  }

  /** The covariance a tracking filter moves to on its next call; it does not
      depend on the measurement or the control input. */
  function NextCov(p: Params, cov: real): (c: real)
    requires ValidParams(p) && cov >= 0.0
    ensures c >= 0.0
    ensures forall x, z, u :: Step(p, Tracking(x, cov), z, u).cov == c
  {
    UpdateCov(p, PredictCov(p, cov))
  }

  /** Measurements fed one by one into a filter, with the default control
      input 0, as the architecture page does. */
  function Run(p: Params, s: FilterState, zs: seq<real>): (s': FilterState)
    requires ValidParams(p) && CovNonNegative(s)
    ensures CovNonNegative(s')
    ensures zs != [] ==> s'.Tracking?
    decreases |zs|
  {
    if zs == [] then s else Run(p, Step(p, s, zs[0], 0.0), zs[1..])
  }

  /** The covariance after `k` calls, starting from an uninitialised filter. */
  function CovAfter(p: Params, k: nat): (c: real)
    requires ValidParams(p) && k >= 1
    ensures c >= 0.0
  {
    if k == 1 then Step(p, Uninitialized, 0.0, 0.0).cov
    else NextCov(p, CovAfter(p, k - 1))
  }

  // ---------------------------------------------------------------------
  // Properties of the recursion

  /** The first call sets the estimate to z/C and the covariance to R/C^2. */
  lemma FirstCall(p: Params, z: real, u: real)
    requires ValidParams(p)
    ensures Step(p, Uninitialized, z, u) == Tracking(z / p.C, p.R / (p.C * p.C))
  {
    assert (1.0 / p.C) * z == z / p.C;
    assert (1.0 / p.C) * p.R * (1.0 / p.C) == p.R / (p.C * p.C);
  }

  /** A later call predicts predX = A*x + B*u and predCov = A^2*cov + Q, then
      corrects with the gain K = predCov*C / (C^2*predCov + R): the estimate
      moves by K times the innovation z - C*predX and the covariance becomes
      predCov - K*C*predCov. */
  lemma LaterCall(p: Params, x: real, cov: real, z: real, u: real)
    requires ValidParams(p) && cov >= 0.0
    ensures PredictX(p, x, u) == p.A * x + p.B * u
    ensures PredictCov(p, cov) == p.A * p.A * cov + p.Q
    ensures Innovation(p, PredictCov(p, cov)) == p.C * p.C * PredictCov(p, cov) + p.R
    ensures var predX, predCov := PredictX(p, x, u), PredictCov(p, cov);
      var k := predCov * p.C / Innovation(p, predCov);
      Step(p, Tracking(x, cov), z, u) == Tracking(predX + k * (z - p.C * predX), predCov - k * p.C * predCov)
  {
    var predCov := PredictCov(p, cov);
    assert p.A * cov * p.A == p.A * p.A * cov;
    var d := Innovation(p, predCov);
    assert Gain(p, predCov) == predCov * p.C / d;
  }

  /** K*C lies in [0, 1): the correction never overshoots the innovation. */
  lemma GainShrinks(p: Params, predCov: real)
    requires ValidParams(p) && predCov >= 0.0
    ensures 0.0 <= Gain(p, predCov) * p.C < 1.0
    ensures predCov * (1.0 - Gain(p, predCov) * p.C) == predCov - Gain(p, predCov) * p.C * predCov
  {
    var d := Innovation(p, predCov);
    var num := predCov * (p.C * p.C);
    assert Gain(p, predCov) * p.C == num / d;
    assert 0.0 <= num < d;
  }

  /** The updated covariance equals predCov*R / (C^2*predCov + R), and so lies
      in [0, predCov]. */
  lemma UpdateCovClosedForm(p: Params, predCov: real)
    requires ValidParams(p) && predCov >= 0.0
    ensures UpdateCov(p, predCov) == Shrink(predCov, p.R, p.C * p.C)
    ensures 0.0 <= UpdateCov(p, predCov) <= predCov
  {
    var d := Innovation(p, predCov);
    var kc := Gain(p, predCov) * p.C;
    assert kc == predCov * (p.C * p.C) / d;
    assert 1.0 - kc == p.R / d;
    GainShrinks(p, predCov);
  }

  /** With A = 1, B = 0, C = 1 the gain lies in [0, 1), so the new estimate
      lies between the previous estimate and the measurement, and is no
      farther from the measurement than the previous estimate was. */
  lemma EstimateMovesTowardMeasurement(p: Params, x: real, cov: real, z: real, u: real)
    requires ValidParams(p) && Persistent(p) && cov >= 0.0
    ensures Between(x, Step(p, Tracking(x, cov), z, u).x, z)
    ensures Abs(Step(p, Tracking(x, cov), z, u).x - z) <= Abs(x - z)
  {
    var predCov := PredictCov(p, cov);
    var k := Gain(p, predCov);
    GainShrinks(p, predCov);
    assert 0.0 <= k < 1.0;
    var x' := Step(p, Tracking(x, cov), z, u).x;
    assert x' == x + k * (z - x);
    if x <= z {
      MulFraction(k, z - x);
      MulFraction(1.0 - k, z - x);
      assert z - x' == (1.0 - k) * (z - x);
    } else {
      MulFraction(k, x - z);
      MulFraction(1.0 - k, x - z);
      assert x' - z == (1.0 - k) * (x - z);
    }
  }

  /** The covariance update is monotone: a smaller covariance before the call
      gives a covariance no larger after it. */
  lemma NextCovMonotone(p: Params, c1: real, c2: real)
    requires ValidParams(p) && 0.0 <= c1 <= c2
    ensures NextCov(p, c1) <= NextCov(p, c2)
  {
    var p1, p2 := PredictCov(p, c1), PredictCov(p, c2);
    assert p2 - p1 == (c2 - c1) * (p.A * p.A);
    MulLe(0.0, c2 - c1, p.A * p.A);
    UpdateCovMonotone(p, p1, p2);
  }

  /** The covariance update alone is monotone in the predicted covariance. */
  lemma UpdateCovMonotone(p: Params, p1: real, p2: real)
    requires ValidParams(p) && 0.0 <= p1 <= p2
    ensures UpdateCov(p, p1) <= UpdateCov(p, p2)
  {
    var cc := p.C * p.C;
    assert UpdateCov(p, p1) == Shrink(p1, p.R, cc) by { UpdateCovClosedForm(p, p1); }
    assert UpdateCov(p, p2) == Shrink(p2, p.R, cc) by { UpdateCovClosedForm(p, p2); }
    ClosedFormMonotone(p1, p2, p.R, cc);
  }

  /** P*r / (cc*P + r): the updated covariance written in closed form. */
  function Shrink(P: real, r: real, cc: real): real
    requires P >= 0.0 && r > 0.0 && cc >= 0.0
  {
    MulLe(0.0, P, cc);
    P * r / (cc * P + r)
  }

  /** The closed form is monotone in P >= 0. */
  lemma ClosedFormMonotone(p1: real, p2: real, r: real, cc: real)
    requires 0.0 <= p1 <= p2 && r > 0.0 && cc >= 0.0
    ensures Shrink(p1, r, cc) <= Shrink(p2, r, cc)
  {
    MulLe(0.0, p1, cc);
    MulLe(0.0, p2, cc);
    ShrinkCross(p1, p2, r, cc);
    DivideMonotone(p1 * r, cc * p1 + r, p2 * r, cc * p2 + r);
  }

  /** The cross-multiplied form of the closed form's monotonicity. */
  lemma ShrinkCross(p1: real, p2: real, r: real, cc: real)
    requires 0.0 <= p1 <= p2 && r > 0.0 && cc >= 0.0
    ensures (p1 * r) * (cc * p2 + r) <= (p2 * r) * (cc * p1 + r)
  {
    var rr := r * r;
    assert p1 * r * (cc * p2 + r) == p1 * r * (cc * p2) + p1 * rr;
    assert p2 * r * (cc * p1 + r) == p2 * r * (cc * p1) + p2 * rr;
    assert p1 * r * (cc * p2) == p2 * r * (cc * p1);
    MulLe(p1, p2, rr);
  }

  /** Whatever the predicted covariance, the closed form stays below r/cc. */
  lemma ShrinkBelowLimit(P: real, r: real, cc: real)
    requires P >= 0.0 && r > 0.0 && cc > 0.0
    ensures Shrink(P, r, cc) <= r / cc
  {
    MulLe(0.0, P, cc);
    var d := cc * P + r;
    assert P * r * cc + r * r == r * d;
    MulLe(0.0, r, r);
    DivideMonotone(P * r, d, r, cc);
  }

  /** One call after the first never raises the covariance above R/C^2. */
  lemma SecondCallShrinks(p: Params)
    requires ValidParams(p)
    ensures CovAfter(p, 2) <= CovAfter(p, 1)
  {
    FirstCall(p, 0.0, 0.0);
    var cc := p.C * p.C;
    var pc := PredictCov(p, CovAfter(p, 1));
    assert CovAfter(p, 2) == Shrink(pc, p.R, cc) by { UpdateCovClosedForm(p, pc); }
    assert cc > 0.0;
    ShrinkBelowLimit(pc, p.R, cc);
  }

  /** From initialisation on, the covariance never increases, whatever the
      measurements. */
  lemma {:induction false} CovarianceNonIncreasing(p: Params, k: nat)
    requires ValidParams(p) && k >= 1
    ensures CovAfter(p, k + 1) <= CovAfter(p, k)
    decreases k
  {
    if k == 1 {
      SecondCallShrinks(p);
    } else {
      CovarianceNonIncreasing(p, k - 1);
      NextCovMonotone(p, CovAfter(p, k), CovAfter(p, k - 1));
    }
  }

  /** The covariance after a run depends only on the number of measurements. */
  lemma {:induction false} RunCovariance(p: Params, s: FilterState, k: nat, zs: seq<real>)
    requires ValidParams(p) && k >= 1 && s.Tracking? && s.cov == CovAfter(p, k)
    ensures Run(p, s, zs).cov == CovAfter(p, k + |zs|)
    decreases |zs|
  {
    if zs != [] {
      var s' := Step(p, s, zs[0], 0.0);
      assert s'.cov == CovAfter(p, k + 1);
      RunCovariance(p, s', k + 1, zs[1..]);
    }
  }

  /** Feeding one more measurement into a started filter never raises its
      covariance. */
  lemma RunCovarianceNonIncreasing(p: Params, zs: seq<real>, z: real)
    requires ValidParams(p) && zs != []
    ensures Run(p, Uninitialized, zs + [z]).cov <= Run(p, Uninitialized, zs).cov
  {
    var s1 := Step(p, Uninitialized, zs[0], 0.0);
    assert s1.cov == CovAfter(p, 1);
    RunCovariance(p, s1, 1, zs[1..]);
    assert (zs + [z])[1..] == zs[1..] + [z];
    RunCovariance(p, s1, 1, zs[1..] + [z]);
    CovarianceNonIncreasing(p, |zs|);
  }

  /** A persistent filter fed a constant measurement z holds the estimate z
      exactly from the first call on. */
  lemma {:induction false} ConstantInputHeld(p: Params, s: FilterState, zs: seq<real>, z: real)
    requires ValidParams(p) && Persistent(p) && CovNonNegative(s)
    requires s.Tracking? ==> s.x == z
    requires forall i :: 0 <= i < |zs| ==> zs[i] == z
    requires s.Uninitialized? ==> zs != []
    ensures Run(p, s, zs).Tracking? && Run(p, s, zs).x == z
    decreases |zs|
  {
    if zs != [] {
      var s' := Step(p, s, zs[0], 0.0);
      assert s'.x == z;
      ConstantInputHeld(p, s', zs[1..], z);
    }
  }

  // ---------------------------------------------------------------------
  // The stateful filter

  class KalmanFilter {
    const params: Params
    var state: FilterState

    ghost predicate Valid()
      reads this
    {
      ValidParams(params) && CovNonNegative(state)
    }

    /** `new KalmanFilter(R, Q, A, B, C)`: no estimate yet. */
    constructor (p: Params)
      requires ValidParams(p)
      ensures Valid() && params == p && state == Uninitialized
    {
      params := p;
      state := Uninitialized;
    }

    /** `filter(z, u)`: one recursion step; returns the new estimate. */
    method Filter(z: real, u: real) returns (estimate: real)
      requires Valid()
      modifies this
      ensures Valid() && state == Step(params, old(state), z, u)
      ensures estimate == state.x
    {
      match state {
        case Uninitialized =>
          state := Tracking((1.0 / params.C) * z, (1.0 / params.C) * params.R * (1.0 / params.C));
        case Tracking(x, cov) =>
          var predX := PredictX(params, x, u);
          var predCov := PredictCov(params, cov);
          var k := Gain(params, predCov);
          state := Tracking(predX + k * (z - params.C * predX), predCov - k * params.C * predCov);
      }
      assert state == Step(params, old(state), z, u);
      estimate := state.x;
    }

    /** `getUncertainty()`: the stored covariance, or None where the source
        would return NaN (before the first call).  Changes nothing. */
    method GetUncertainty() returns (cov: Option<real>)
      requires Valid()
      ensures cov.None? <==> state.Uninitialized?
      ensures cov.Some? ==> cov.value == state.cov && cov.value >= 0.0
    {
      cov := if state.Tracking? then Some(state.cov) else None;
    }
  }
}
