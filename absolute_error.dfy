/** The Absolute Error loss (class AbsoluteError): the mean of |X.W - Y| and
    its derivative, in which a sample whose residual is exactly zero gets
    sign 0 instead of the undefined 0 / 0. */
module AbsoluteError {
  import opened Arrays

  /** np.divide(r, |r|, out=0, where=|r| != 0): r / |r| where that is
      defined, and 0 at a zero residual. */
  function GuardedSign(r: real): (s: real)
    ensures s == -1.0 || s == 0.0 || s == 1.0
    ensures s == 0.0 <==> r == 0.0
    ensures s * r == Abs(r)
    ensures s == Sign(r)
  {
    if Abs(r) != 0.0 then
      assert r > 0.0 ==> r / Abs(r) == r / r == 1.0;
      assert r < 0.0 ==> r / Abs(r) == r / -r == -1.0;
      r / Abs(r)
    else
      0.0
  }

  /** The guarded np.divide over a whole residual vector, one sign per sample. */
  function GuardedSigns(v: seq<real>): (s: seq<real>)
    ensures |s| == |v| && forall i :: 0 <= i < |v| ==> s[i] == GuardedSign(v[i])
  {
    seq(|v|, i requires 0 <= i < |v| => GuardedSign(v[i]))
  }

  /** AbsoluteError.loss: sum(|X.W - Y|) / M over the M rows of X. */
  function Loss(X: seq<seq<real>>, Y: seq<real>, W: seq<real>): (l: real)
    requires LinearModelShapes(X, Y, W)
    ensures l >= 0.0
  {
    SumAbs(LinearResidual(X, Y, W)) / (|X| as real)
  }

  /** np.dot(signs, X): the per-weight sum of the samples' rows, each taken
      with the sign of its residual; AbsoluteError.derivative divides it by M. */
  function SignedRowSum(X: seq<seq<real>>, Y: seq<real>, W: seq<real>): (g: seq<real>)
    requires LinearModelShapes(X, Y, W)
    ensures |g| == |W|
  {
    VecMat(GuardedSigns(LinearResidual(X, Y, W)), X, |W|)
  }

  /** AbsoluteError.derivative: np.dot(signs, X) / M. */
  function Derivative(X: seq<seq<real>>, Y: seq<real>, W: seq<real>): (g: seq<real>)
    requires LinearModelShapes(X, Y, W)
    ensures |g| == |W|
  {
    Scale(1.0 / (|X| as real), SignedRowSum(X, Y, W))
  }

  /** The loss is zero exactly when X.W fits Y on every sample. */
  lemma {:induction false} LossZeroIffExactFit(X: seq<seq<real>>, Y: seq<real>, W: seq<real>)
    requires LinearModelShapes(X, Y, W)
    ensures Loss(X, Y, W) == 0.0 <==> MatVec(X, W) == Y
  {
    var r := LinearResidual(X, Y, W);
    SumAbsZero(r);
    assert (forall i :: 0 <= i < |r| ==> r[i] == 0.0) <==> MatVec(X, W) == Y by {
      if forall i :: 0 <= i < |r| ==> r[i] == 0.0 {
        assert forall i :: 0 <= i < |Y| ==> MatVec(X, W)[i] == Y[i] by {
          forall i | 0 <= i < |Y| ensures MatVec(X, W)[i] == Y[i] {
            assert r[i] == MatVec(X, W)[i] - Y[i];
          }
        }
      }
    }
  }

  /** A sample whose residual is exactly zero contributes nothing: removing
      it from X and Y leaves np.dot(signs, X) unchanged. */
  lemma {:induction false} ZeroResidualContributesNothing(X: seq<seq<real>>, Y: seq<real>, W: seq<real>, i: nat)
    requires LinearModelShapes(X, Y, W) && i < |X|
    requires Dot(X[i], W) == Y[i]
    ensures RowsHaveLength(Without(X, i), |W|) && |Without(Y, i)| == |Without(X, i)|
    ensures |X| > 1 ==> SignedRowSum(X, Y, W) == SignedRowSum(Without(X, i), Without(Y, i), W)
    ensures |X| == 1 ==> SignedRowSum(X, Y, W) == Zeros(|W|)
  {
    var r := LinearResidual(X, Y, W);
    var s := GuardedSigns(r);
    assert s[i] == 0.0;
    VecMatDropZero(s, X, |W|, i);
    var X', Y' := Without(X, i), Without(Y, i);
    if |X| > 1 {
      assert GuardedSigns(LinearResidual(X', Y', W)) == Without(s, i);
    } else {
      assert X' == [];
      assert VecMat(Without(s, i), X', |W|) == Zeros(|W|);
    }
  }

  /** |s . v| <= sum |v| when every |s[i]| <= 1; here: s . v <= sum |v|. */
  lemma {:induction false} DotSignsBelowSumAbs(s: seq<real>, v: seq<real>)
    requires |s| == |v| && forall i :: 0 <= i < |s| ==> -1.0 <= s[i] <= 1.0
    ensures Dot(s, v) <= SumAbs(v)
  {
    if s != [] {
      DotSignsBelowSumAbs(s[1..], v[1..]);
      BoundedTimes(s[0], v[0]);
    }
  }

  lemma {:induction false} BoundedTimes(c: real, x: real)
    requires -1.0 <= c <= 1.0
    ensures c * x <= Abs(x)
  {
    if x >= 0.0 {
      assert c * x <= 1.0 * x;
    } else {
      assert c * x <= (-1.0) * x;
    }
  }

  /** The guarded signs of v recover its absolute sum. */
  lemma {:induction false} DotSignsSelf(v: seq<real>)
    ensures Dot(GuardedSigns(v), v) == SumAbs(v)
  {
    if v != [] {
      assert GuardedSigns(v)[1..] == GuardedSigns(v[1..]);
      DotSignsSelf(v[1..]);
    }
  }

  /** The derivative is a subgradient of the loss: for every change d of the
      weights, Loss(W + d) >= Loss(W) + Derivative(W).d. */
  lemma {:induction false} DerivativeIsSubgradient(X: seq<seq<real>>, Y: seq<real>, W: seq<real>, d: seq<real>)
    requires LinearModelShapes(X, Y, W) && |d| == |W|
    ensures LinearModelShapes(X, Y, Add(W, d))
    ensures Loss(X, Y, Add(W, d)) >= Loss(X, Y, W) + Dot(Derivative(X, Y, W), d)
  {
    SignedSumIsSubgradient(X, Y, W, d);
    MeanBound(SumAbs(LinearResidual(X, Y, Add(W, d))), SumAbs(LinearResidual(X, Y, W)), SignedRowSum(X, Y, W), d, |X| as real);
  }

  /** Dividing after >= before + g.d through by m > 0, with the factor
      1 / m moved into g. */
  lemma {:induction false} MeanBound(after: real, before: real, g: seq<real>, d: seq<real>, m: real)
    requires m > 0.0 && |g| == |d|
    requires after >= before + Dot(g, d)
    ensures after / m >= before / m + Dot(Scale(1.0 / m, g), d)
  {
    DotScaleLeft(1.0 / m, g, d);
    DivideBound(after, before, Dot(g, d), m);
  }

  /** The same inequality before dividing by M: the absolute sum of the
      residuals rises by at least np.dot(signs, X) . d. */
  lemma {:induction false} SignedSumIsSubgradient(X: seq<seq<real>>, Y: seq<real>, W: seq<real>, d: seq<real>)
    requires LinearModelShapes(X, Y, W) && |d| == |W|
    ensures LinearModelShapes(X, Y, Add(W, d))
    ensures SumAbs(LinearResidual(X, Y, Add(W, d))) >= SumAbs(LinearResidual(X, Y, W)) + Dot(SignedRowSum(X, Y, W), d)
  {
    var r := LinearResidual(X, Y, W);
    LinearResidualShift(X, Y, W, d);
    SumAbsShift(r, MatVec(X, d));
    DotVecMat(GuardedSigns(r), X, d);
  }

  /** Moving the residuals by e changes their absolute sum by at least
      signs(r).e. */
  lemma {:induction false} SumAbsShift(r: seq<real>, e: seq<real>)
    requires |r| == |e|
    ensures SumAbs(Add(r, e)) >= SumAbs(r) + Dot(GuardedSigns(r), e)
  {
    var s := GuardedSigns(r);
    DotSignsBelowSumAbs(s, Add(r, e));
    DotAddRight(s, r, e);
    DotSignsSelf(r);
  }

  /** Dividing `after >= before + c` through by the sample count m. */
  lemma {:induction false} DivideBound(after: real, before: real, c: real, m: real)
    requires m > 0.0 && after >= before + c
    ensures after / m >= before / m + 1.0 / m * c
  {
    assert after / m - (before / m + 1.0 / m * c) == (after - before - c) / m;
  }
}
