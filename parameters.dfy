/** The adaptive parameter state of the evolution strategy: step size, the
    success ring buffer for the 1/5-th rule, the five-entry fitness history,
    the smoothed success probability of the Cholesky variants, and the three
    degeneracy checks with their resets. Matrix numerics (eig, cond, isfinite,
    the rank-one updates, exp) are abstract functions bundled in Numerics. */
module Params {
  import opened Common

  /** The open range (1e-16, 1e16) that sigma_mean and the condition number must lie in. */
  predicate InStepRange(x: real) {
    1e-16 < x < 1e16
  }

  /** Python floats that may be +inf: the fitness history is filled with np.inf on an active reset. */
  datatype ExtReal = Fin(r: real) | PosInf

  predicate Less(a: ExtReal, b: ExtReal) {
    match (a, b)
    case (Fin(x), Fin(y)) => x < y
    case (Fin(_), PosInf) => true
    case (PosInf, _) => false
  }

  /** np.linalg.eig(C) followed by np.sqrt of the eigenvalues, and whether they are all real. */
  datatype Eigen = Eigen(d: Matrix, b: Matrix, allReal: bool)

  /** The floating-point operations the module delegates to numpy, left abstract. */
  datatype Numerics = Numerics(
    exp: real -> real,
    allFinite: Matrix -> bool,                    // np.min(np.isfinite(M)) != 0
    eig: Matrix -> Eigen,
    cond: Matrix -> real,                         // np.linalg.cond(M)
    gram: Matrix -> Matrix,                       // np.dot(A, A.T)
    choleskyUpdate: (Matrix, Matrix) -> Matrix,   // new A from (A, last_z)
    activePositive: (Matrix, Matrix, Matrix, Matrix) -> (Matrix, Matrix, Matrix),  // new (s, A, A_inv) from (A, A_inv, s, last_z)
    normSquared: Matrix -> real,                  // np.linalg.norm(M) ** 2
    pow: (real, real) -> real,                    // x ** y
    activeNegative: (Matrix, Matrix, Matrix, real, real) -> (Matrix, Matrix))  // new (A, A_inv) from (A, A_inv, s, z_squared, c_cov_neg)

  /** Mean of the success window: the first t entries while t < N, all N entries afterwards.
      None stands for the NaN numpy returns for the mean of an empty slice. */
  function SuccessRate(history: seq<int>, t: nat): Option<real> {
    var window := if t < |history| then history[..t] else history;
    if |window| == 0 then None else Some(Sum(window) as real / |window| as real)
  }

  /** The sigma adaptation factor c of the 1/5-th rule. */
  const SigmaFactor: real := 0.817

  /** The smoothing rate c_p of the Cholesky success probability. */
  const SmoothingRate: real := 1.0 / 12.0

  /** The target success probability p_target. */
  const TargetSuccess: real := 2.0 / 11.0

  /** The step-size update of the 1/5-th success rule. A NaN rate fails both comparisons. */
  function OneFifthSigma(sigma: real, rate: Option<real>): (r: real)
    ensures sigma > 0.0 ==> r > 0.0
    ensures rate.None? || rate.value == 1.0 / 5.0 ==> r == sigma
    ensures sigma > 0.0 && rate.Some? && rate.value < 1.0 / 5.0 ==> r < sigma
    ensures sigma > 0.0 && rate.Some? && rate.value > 1.0 / 5.0 ==> r > sigma
    ensures r == sigma || r == sigma * SigmaFactor || r * SigmaFactor == sigma
  {
    match rate
    case None => sigma
    case Some(rt) =>
      if rt < 1.0 / 5.0 then sigma * SigmaFactor
      else if rt > 1.0 / 5.0 then sigma / SigmaFactor
      else sigma
  }

  /** Every entry of the ring buffer is a 0/1 flag. */
  predicate Flags(s: seq<int>) {
    forall k :: 0 <= k < |s| ==> s[k] == 0 || s[k] == 1
  }

  lemma {:induction false} FlagSumBounds(s: seq<int>)
    requires Flags(s)
    ensures 0 <= Sum(s) <= |s|
  {
    if |s| > 0 {
      FlagSumBounds(s[..|s| - 1]);
    }
  }

  /** A window of 0/1 flags has a success rate in [0, 1]. */
  lemma SuccessRateInUnit(history: seq<int>, t: nat)
    requires Flags(history)
    ensures SuccessRate(history, t).Some? ==> 0.0 <= SuccessRate(history, t).value <= 1.0
  {
    var window := if t < |history| then history[..t] else history;
    assert Flags(window);
    FlagSumBounds(window);
    if |window| > 0 {
      assert Sum(window) as real <= |window| as real;
    }
  }

  /** A window holding exactly one success in five leaves sigma unchanged. */
  lemma OneFifthFixedPoint(history: seq<int>, t: nat, sigma: real)
    requires var window := if t < |history| then history[..t] else history;
      |window| > 0 && 5 * Sum(window) == |window|
    ensures OneFifthSigma(sigma, SuccessRate(history, t)) == sigma
  {
    var window := if t < |history| then history[..t] else history;
    assert Sum(window) as real / |window| as real == 1.0 / 5.0;
  }

  /** addToFitnessHistory: append, then drop the oldest entry when there are more than five. */
  function RecordFitness(history: seq<ExtReal>, f: ExtReal): (r: seq<ExtReal>)
    requires |history| <= 5
    ensures |r| == Min(|history| + 1, 5)
    ensures r[|r| - 1] == f
    ensures r[..|r| - 1] == history[|history| + 1 - |r|..]
  {
    var appended := history + [f];
    if |appended| > 5 then appended[1..] else appended
  }

  /** The success-probability smoothing of adaptCholeskyCovarianceMatrix: a convex
      combination of the old probability and the latest success flag. */
  function CholeskySuccess(p: real, success: bool): (r: real)
    requires 0.0 <= p <= 1.0
    ensures 0.0 <= r <= 1.0
    ensures success ==> p <= r
    ensures !success ==> r <= p
  {
    (1.0 - SmoothingRate) * p + SmoothingRate * (if success then 1.0 else 0.0)
  }

  /** The success branch of adaptActiveCovarianceMatrix. */
  function ActiveSuccess(p: real): (r: real)
    requires 0.0 <= p <= 1.0
    ensures p <= r <= 1.0
  {
    (1.0 - SmoothingRate) * p + SmoothingRate
  }

  /** The failure branch of adaptActiveCovarianceMatrix. */
  function ActiveFailure(p: real): (r: real)
    requires 0.0 <= p <= 1.0
    ensures 0.0 <= r <= p
    ensures p > 0.0 ==> r < p
  {
    p * (1.0 - SmoothingRate)
  }

  /** Both active branches are the Cholesky smoothing with the flag fixed. */
  lemma ActiveIsCholesky(p: real)
    requires 0.0 <= p <= 1.0
    ensures ActiveSuccess(p) == CholeskySuccess(p, true)
    ensures ActiveFailure(p) == CholeskySuccess(p, false)
  {
  }

  /** The exponent of the step-size update in adaptCholeskyCovarianceMatrix. */
  function CholeskyExponent(p: real, pTarget: real, d: real): real
    requires pTarget != 1.0 && d != 0.0
  {
    (p - (pTarget / (1.0 - pTarget)) * (1.0 - p)) / d
  }

  /** The exponent of the step-size update in adaptActiveCovarianceMatrix. */
  function ActiveExponent(p: real, pTarget: real, d: real): real
    requires pTarget != 1.0 && d != 0.0
  {
    (1.0 / d) * ((p - pTarget) / (1.0 - pTarget))
  }

  /** The c_cov_neg update before a negative Cholesky update: when the stored coefficient
      times 2·z² − 1 exceeds 1 it is cut back to 1/(2·z² − 1), so that product becomes exactly
      1; otherwise the default value is restored. The old value is read, so the result depends
      on the earlier updates. */
  function ClampedCovNeg(current: real, zSquared: real, default: real): (r: real)
    ensures current * (2.0 * zSquared - 1.0) > 1.0 ==>
      r * (2.0 * zSquared - 1.0) == 1.0 && (current > 0.0 ==> 0.0 < r < current)
    ensures current * (2.0 * zSquared - 1.0) <= 1.0 ==> r == default
  {
    if current * (2.0 * zSquared - 1.0) > 1.0 then 1.0 / (2.0 * zSquared - 1.0) else default
  }

  /** With n = 1 (default 0.4/(1 + 1) = 0.2): z² = 10 clamps to 1/19, and a following z² = 5
      restores 0.2, while the same z² = 5 on the default clamps to 1/9. So the coefficient the
      update uses depends on the history, and after the restore 0.2 · (2·5 − 1) = 1.8 > 1. */
  lemma CovNegDependsOnHistory()
    ensures ClampedCovNeg(0.2, 10.0, 0.2) == 1.0 / 19.0
    ensures ClampedCovNeg(ClampedCovNeg(0.2, 10.0, 0.2), 5.0, 0.2) == 0.2
    ensures ClampedCovNeg(0.2, 5.0, 0.2) == 1.0 / 9.0
    ensures ClampedCovNeg(ClampedCovNeg(0.2, 10.0, 0.2), 5.0, 0.2) * (2.0 * 5.0 - 1.0) > 1.0
  {
  }

  /** A second update with the same z² after a clamp restores the default: the clamped
      coefficient gives a product of exactly 1, which is not above 1. */
  lemma ClampedAgain(current: real, zSquared: real, default: real)
    requires current * (2.0 * zSquared - 1.0) > 1.0
    ensures ClampedCovNeg(ClampedCovNeg(current, zSquared, default), zSquared, default) == default
  {
    var x := 2.0 * zSquared - 1.0;
    var r := ClampedCovNeg(current, zSquared, default);
    assert r * x == 1.0;
  }

  /** The three degeneracy tests, over the state they read. */
  predicate CovarianceDegenerate(num: Numerics, C: Matrix, sigmaMean: real) {
    !num.allFinite(C) || !InStepRange(sigmaMean) || !num.eig(C).allReal
  }

  predicate CholeskyDegenerate(num: Numerics, A: Matrix, sigmaMean: real) {
    !num.allFinite(A) || !InStepRange(num.cond(A)) || !InStepRange(sigmaMean)
  }

  predicate ActiveDegenerate(num: Numerics, A: Matrix, sigmaMean: real) {
    num.cond(num.gram(A)) > 1e14 || !InStepRange(sigmaMean)
  }

  class Parameters {
    const n: nat
    const mu: real
    const lambda: int
    const plusSelection: bool
    const N: nat
    const c: real := SigmaFactor
    const tauC: real
    const d: real
    const pTarget: real := TargetSuccess
    const cP: real := SmoothingRate
    const cCov: real
    const pThresh: real := 0.44
    const cAct: real
    const cCovPos: real
    const bestFitness: ExtReal := PosInf
    /** The default c_cov_neg = 0.4/(n^1.6 + 1), the value the update restores. */
    const cCovNegDefault: real

    var sigma: real
    var sigmaMean: real
    const successHistory: array<int>
    var lambdaSuccess: bool
    var C: Matrix
    var B: Matrix
    var D: Matrix
    var A: Matrix
    var AInv: Matrix
    var pC: Matrix
    var s: Matrix
    var lastZ: Matrix
    var pSuccess: real
    var fitnessHistory: seq<ExtReal>
    /** fitness_history has become a numpy array (after an active reset), which has no append. */
    var fitnessHistoryIsArray: bool
    var cCovNeg: real

    /** The state invariant: the buffer has N = 10·n 0/1 flags, at most five fitnesses are
        kept, p_success is a probability, and the derived constants have their values. */
    ghost predicate Valid()
      reads this, successHistory
    {
      && N == 10 * n
      && successHistory.Length == N
      && Flags(successHistory[..])
      && |fitnessHistory| <= 5
      && 0.0 <= pSuccess <= 1.0
      && d == 1.0 + n as real / 2.0
      && cCov == 2.0 / ((n * n) as real + 6.0)
      && cCovPos == cCov
      && cAct == 2.0 / (n as real + 2.0)
    }

    /** Parameters.__init__: the scalar fields, identity matrices and a zeroed history. */
    constructor (n: nat, mu: real, lambda: int, plusSelection: bool, num: Numerics)
      requires mu != 0.0 && num.pow(n as real, 1.6) >= 0.0
      ensures Valid() && fresh(successHistory)
      ensures this.n == n && this.mu == mu && this.lambda == lambda && this.plusSelection == plusSelection
      ensures sigma == 1.0 && sigmaMean == 1.0
      ensures pSuccess == pTarget && !lambdaSuccess
      ensures tauC == 1.0 + ((n * n + n) as real / (2.0 * mu))
      ensures successHistory[..] == seq(10 * n, _ => 0)
      ensures C == Identity(n) && B == Identity(n) && D == Identity(n)
      ensures A == Identity(n) && AInv == Identity(n)
      ensures pC == ZeroRow(n) && s == ZeroRow(n) && lastZ == ZeroRow(n)
      ensures fitnessHistory == [] && !fitnessHistoryIsArray
      ensures cCovNegDefault == 0.4 / (num.pow(n as real, 1.6) + 1.0) && cCovNeg == cCovNegDefault
    {
      this.n := n;
      this.mu := mu;
      this.lambda := lambda;
      this.plusSelection := plusSelection;
      sigma := 1.0;
      N := 10 * n;
      successHistory := new int[10 * n](_ => 0);
      C := Identity(n);
      B := Identity(n);
      D := Identity(n);
      tauC := 1.0 + ((n * n + n) as real / (2.0 * mu));
      sigmaMean := 1.0;
      A := Identity(n);
      d := 1.0 + n as real / 2.0;
      pSuccess := TargetSuccess;
      pC := ZeroRow(n);
      cCov := 2.0 / ((n * n) as real + 6.0);
      lambdaSuccess := false;
      lastZ := ZeroRow(n);
      AInv := Identity(n);
      s := ZeroRow(n);
      fitnessHistory := [];
      cAct := 2.0 / (n as real + 2.0);
      cCovPos := 2.0 / ((n * n) as real + 6.0);
      cCovNegDefault := 0.4 / (num.pow(n as real, 1.6) + 1.0);
      cCovNeg := cCovNegDefault;
      fitnessHistoryIsArray := false;
    }

    /** oneFifthRule(t): only every n evaluations, scale sigma by c or 1/c by the success rate.
        With n = 0 the `t % n` raises ZeroDivisionError: ok is false and nothing changes. */
    method OneFifthRule(t: nat) returns (ok: bool)
      requires Valid()
      modifies this`sigma, this`sigmaMean
      ensures Valid()
      ensures ok <==> n > 0
      ensures !ok || t % n != 0 ==> sigma == old(sigma) && sigmaMean == old(sigmaMean)
      ensures ok && t % n == 0 ==>
        sigma == OneFifthSigma(old(sigma), SuccessRate(successHistory[..], t)) && sigmaMean == sigma
    {
      if n == 0 {
        return false;
      }
      ok := true;
      if t % n != 0 {
        return;
      }
      var rate := SuccessRate(successHistory[..], t);
      sigma := OneFifthSigma(sigma, rate);
      sigmaMean := sigma;
    }

    /** addToSuccessHistory(t, success): write one flag into slot t mod N. With N = 0 the
        `t %= N` raises ZeroDivisionError: ok is false and nothing changes. */
    method AddToSuccessHistory(t: nat, success: bool) returns (ok: bool)
      requires Valid()
      modifies this`lambdaSuccess, successHistory
      ensures Valid()
      ensures ok <==> N > 0
      ensures !ok ==> successHistory[..] == old(successHistory[..]) && lambdaSuccess == old(lambdaSuccess)
      ensures ok ==> successHistory[..] == old(successHistory[..])[t % N := if success then 1 else 0]
      ensures ok ==> lambdaSuccess == success
    {
      if N == 0 {
        return false;
      }
      ok := true;
      var slot := t % N;
      successHistory[slot] := if success then 1 else 0;
      lambdaSuccess := success;
    }

    /** addToFitnessHistory(t, fitness): the time step is not used. Once an active reset has
        made the history a numpy array, `append` raises AttributeError: ok is false and
        nothing changes. */
    method AddToFitnessHistory(t: nat, fitness: real) returns (ok: bool)
      requires Valid()
      modifies this`fitnessHistory
      ensures Valid()
      ensures ok <==> !fitnessHistoryIsArray
      ensures ok ==> fitnessHistory == RecordFitness(old(fitnessHistory), Fin(fitness))
      ensures !ok ==> fitnessHistory == old(fitnessHistory)
    {
      if fitnessHistoryIsArray {
        return false;
      }
      ok := true;
      fitnessHistory := fitnessHistory + [Fin(fitness)];
      if |fitnessHistory| > 5 {
        fitnessHistory := fitnessHistory[1..];
      }
    }

    /** adaptCholeskyCovarianceMatrix: smooth p_success, scale sigma, maybe update A, then check. */
    method AdaptCholesky(num: Numerics)
      requires Valid()
      modifies this`pSuccess, this`sigma, this`sigmaMean, this`A, this`pC
      ensures Valid()
      ensures InStepRange(sigmaMean)
      ensures var p := CholeskySuccess(old(pSuccess), lambdaSuccess);
        && sigma == old(sigma) * num.exp(CholeskyExponent(p, pTarget, d))
        && var a := if lambdaSuccess && p < pThresh then num.choleskyUpdate(old(A), lastZ) else old(A);
           if CholeskyDegenerate(num, a, sigma)
           then sigmaMean == 1.0 && pSuccess == pTarget && A == Identity(n) && pC == ZeroRow(n)
           else sigmaMean == sigma && pSuccess == p && A == a && pC == old(pC)
    {
      pSuccess := CholeskySuccess(pSuccess, lambdaSuccess);
      sigma := sigma * num.exp(CholeskyExponent(pSuccess, pTarget, d));
      sigmaMean := sigma;
      if lambdaSuccess && pSuccess < pThresh {
        A := num.choleskyUpdate(A, lastZ);
      }
      CheckCholeskyDegenerated(num);
    }

    /** adaptActiveCovarianceMatrix: the positive update on success, the step size, the
        negative update when five fitnesses are recorded and the last beats best_fitness,
        then (as in the source) the Cholesky degeneracy check. */
    method AdaptActive(num: Numerics)
      requires Valid()
      modifies this`pSuccess, this`s, this`A, this`AInv, this`sigma, this`sigmaMean, this`pC, this`cCovNeg
      ensures Valid()
      ensures InStepRange(sigmaMean)
      ensures var p := if lambdaSuccess then ActiveSuccess(old(pSuccess)) else ActiveFailure(old(pSuccess));
        var pos := num.activePositive(old(A), old(AInv), old(s), lastZ);
        var s1 := if lambdaSuccess then pos.0 else old(s);
        var a1 := if lambdaSuccess then pos.1 else old(A);
        var ai1 := if lambdaSuccess then pos.2 else old(AInv);
        var due := |fitnessHistory| > 4 && Less(fitnessHistory[|fitnessHistory| - 1], bestFitness);
        var zSquared := num.normSquared(lastZ);
        var neg := num.activeNegative(a1, ai1, s1, zSquared, cCovNeg);
        var a2 := if due then neg.0 else a1;
        && cCovNeg == (if due then ClampedCovNeg(old(cCovNeg), zSquared, cCovNegDefault) else old(cCovNeg))
        && s == s1
        && AInv == (if due then neg.1 else ai1)
        && sigma == old(sigma) * num.exp(ActiveExponent(p, pTarget, d))
        && if CholeskyDegenerate(num, a2, sigma)
           then sigmaMean == 1.0 && pSuccess == pTarget && A == Identity(n) && pC == ZeroRow(n)
           else sigmaMean == sigma && pSuccess == p && A == a2 && pC == old(pC)
    {
      ActiveUpdate(num);
      CheckCholeskyDegenerated(num);
    }

    /** adaptActiveCovarianceMatrix up to its degeneracy check. */
    method ActiveUpdate(num: Numerics)
      requires Valid()
      modifies this`pSuccess, this`s, this`A, this`AInv, this`sigma, this`sigmaMean, this`cCovNeg
      ensures Valid()
      ensures pSuccess == if lambdaSuccess then ActiveSuccess(old(pSuccess)) else ActiveFailure(old(pSuccess))
      ensures var pos := num.activePositive(old(A), old(AInv), old(s), lastZ);
        var s1 := if lambdaSuccess then pos.0 else old(s);
        var a1 := if lambdaSuccess then pos.1 else old(A);
        var ai1 := if lambdaSuccess then pos.2 else old(AInv);
        var due := |fitnessHistory| > 4 && Less(fitnessHistory[|fitnessHistory| - 1], bestFitness);
        var zSquared := num.normSquared(lastZ);
        var neg := num.activeNegative(a1, ai1, s1, zSquared, cCovNeg);
        && cCovNeg == (if due then ClampedCovNeg(old(cCovNeg), zSquared, cCovNegDefault) else old(cCovNeg))
        && s == s1
        && A == (if due then neg.0 else a1)
        && AInv == (if due then neg.1 else ai1)
      ensures sigma == old(sigma) * num.exp(ActiveExponent(pSuccess, pTarget, d)) && sigmaMean == sigma
    {
      if lambdaSuccess {
        pSuccess := ActiveSuccess(pSuccess);
        var pos := num.activePositive(A, AInv, s, lastZ);
        s, A, AInv := pos.0, pos.1, pos.2;
      } else {
        pSuccess := ActiveFailure(pSuccess);
      }
      sigma := sigma * num.exp(ActiveExponent(pSuccess, pTarget, d));
      sigmaMean := sigma;
      ActiveNegative(num);
    }

    /** The negative update, due once five fitnesses are recorded and the last one beats
        best_fitness: c_cov_neg is updated from its stored value, then A and A_inv are
        updated with it. */
    method ActiveNegative(num: Numerics)
      requires Valid()
      modifies this`A, this`AInv, this`cCovNeg
      ensures Valid()
      ensures var due := |fitnessHistory| > 4 && Less(fitnessHistory[|fitnessHistory| - 1], bestFitness);
        var zSquared := num.normSquared(lastZ);
        var neg := num.activeNegative(old(A), old(AInv), s, zSquared, cCovNeg);
        && cCovNeg == (if due then ClampedCovNeg(old(cCovNeg), zSquared, cCovNegDefault) else old(cCovNeg))
        && A == (if due then neg.0 else old(A)) && AInv == (if due then neg.1 else old(AInv))
    {
      if |fitnessHistory| > 4 && Less(fitnessHistory[|fitnessHistory| - 1], bestFitness) {
        var zSquared := num.normSquared(lastZ);
        cCovNeg := ClampedCovNeg(cCovNeg, zSquared, cCovNegDefault);
        var neg := num.activeNegative(A, AInv, s, zSquared, cCovNeg);
        A, AInv := neg.0, neg.1;
      }
    }

    /** checkDegenerated: on a non-finite C, an out-of-range sigma_mean or complex eigenvalues,
        C, B and D become the identity and sigma_mean becomes 1; sigma is not touched. When C
        is finite and sigma_mean in range, B and D are overwritten by the eigen-decomposition. */
    method CheckDegenerated(num: Numerics)
      requires Valid()
      modifies this`C, this`B, this`D, this`sigmaMean
      ensures Valid()
      ensures InStepRange(sigmaMean)
      ensures CovarianceDegenerate(num, old(C), old(sigmaMean)) ==>
        C == Identity(n) && B == Identity(n) && D == Identity(n) && sigmaMean == 1.0
      ensures !CovarianceDegenerate(num, old(C), old(sigmaMean)) ==>
        C == old(C) && sigmaMean == old(sigmaMean) && D == num.eig(C).d && B == num.eig(C).b
    {
      var degenerated := false;
      if !num.allFinite(C) {
        degenerated := true;
      } else if !InStepRange(sigmaMean) {
        degenerated := true;
      } else {
        var e := num.eig(C);
        D, B := e.d, e.b;
        if !e.allReal {
          degenerated := true;
        }
      }
      if degenerated {
        C := Identity(n);
        B := Identity(n);
        D := Identity(n);
        sigmaMean := 1.0;
      }
    }

    /** checkCholeskyDegenerated: on a non-finite A, an out-of-range condition number of A or
        an out-of-range sigma_mean, reset sigma_mean, p_success, A and p_c. */
    method CheckCholeskyDegenerated(num: Numerics)
      requires Valid()
      modifies this`sigmaMean, this`pSuccess, this`A, this`pC
      ensures Valid()
      ensures InStepRange(sigmaMean)
      ensures CholeskyDegenerate(num, old(A), old(sigmaMean)) ==>
        sigmaMean == 1.0 && pSuccess == pTarget && A == Identity(n) && pC == ZeroRow(n)
      ensures !CholeskyDegenerate(num, old(A), old(sigmaMean)) ==>
        sigmaMean == old(sigmaMean) && pSuccess == old(pSuccess) && A == old(A) && pC == old(pC)
    {
      var degenerated := false;
      if !num.allFinite(A) {
        degenerated := true;
      } else if !InStepRange(num.cond(A)) {
        degenerated := true;
      } else if !InStepRange(sigmaMean) {
        degenerated := true;
      }
      if degenerated {
        sigmaMean := 1.0;
        pSuccess := pTarget;
        A := Identity(n);
        pC := ZeroRow(n);
      }
    }

    /** checkActiveDegenerated: on an ill-conditioned A·Aᵀ (above 1e14) or an out-of-range
        sigma_mean, reset A, A_inv, sigma_mean, p_success, s, and fill the fitness history
        with five copies of best_fitness. */
    method CheckActiveDegenerated(num: Numerics)
      requires Valid()
      modifies this`A, this`AInv, this`sigmaMean, this`pSuccess, this`s, this`fitnessHistory,
        this`fitnessHistoryIsArray
      ensures Valid()
      ensures InStepRange(sigmaMean)
      ensures ActiveDegenerate(num, old(A), old(sigmaMean)) ==>
        && A == Identity(n) && AInv == Identity(n) && sigmaMean == 1.0 && pSuccess == 0.0
        && s == ZeroRow(n) && fitnessHistory == seq(5, _ => bestFitness) && fitnessHistoryIsArray
      ensures !ActiveDegenerate(num, old(A), old(sigmaMean)) ==>
        && A == old(A) && AInv == old(AInv) && sigmaMean == old(sigmaMean)
        && pSuccess == old(pSuccess) && s == old(s) && fitnessHistory == old(fitnessHistory)
        && fitnessHistoryIsArray == old(fitnessHistoryIsArray)
    {
      var degenerated := false;
      if num.cond(num.gram(A)) > 1e14 {
        degenerated := true;
      } else if !InStepRange(sigmaMean) {
        degenerated := true;
      }
      if degenerated {
        A := Identity(n);
        AInv := Identity(n);
        sigmaMean := 1.0;
        pSuccess := 0.0;
        s := ZeroRow(n);
        fitnessHistory := seq(5, _ => bestFitness);
        fitnessHistoryIsArray := true;
      }
    }
  }
}
