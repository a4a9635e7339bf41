/** The Huber loss (class Huber): an elementwise loss that is quadratic for
    residuals of magnitude at most delta and linear beyond, and its
    elementwise derivative. Both return one value per sample; the
    residual of a sample is X - Y. */
module Huber {
  import opened Arrays

  /** The threshold both operations use when the caller passes none. */
  const DefaultDelta := 1.0

  /** The Huber loss of one residual r: 0.5 r^2 when |r| <= delta, and
      delta (|r| - 0.5 delta) otherwise. */
  function ElementLoss(r: real, delta: real): (h: real)
    ensures delta >= 0.0 ==> h >= 0.0
  {
    if Abs(r) <= delta then
      SquareNonnegative(r);
      0.5 * (r * r)
    else
      assert delta >= 0.0 ==> delta * (Abs(r) - 0.5 * delta) >= 0.0 by {
        if delta >= 0.0 {
          NonnegativeTimes(delta, Abs(r) - 0.5 * delta);
        }
      }
      delta * (Abs(r) - 0.5 * delta)
  }

  /** The derivative of the Huber loss at one residual r: r itself when
      |r| <= delta, and delta sign(r) otherwise. */
  function ElementDerivative(r: real, delta: real): (g: real)
    ensures delta >= 0.0 ==> Abs(g) <= delta
  {
    if Abs(r) <= delta then r else delta * Sign(r)
  }

  /** np.clip(r, lo, hi): the independent reference for the derivative. */
  function Clip(r: real, lo: real, hi: real): (c: real)
    requires lo <= hi
    ensures lo <= c <= hi
    ensures lo <= r <= hi ==> c == r
    ensures r < lo ==> c == lo
    ensures r > hi ==> c == hi
  {
    if r < lo then lo else if r > hi then hi else r
  }

  /** Huber.loss: the element loss of every residual X[i] - Y[i]. */
  function Loss(X: seq<real>, Y: seq<real>, delta: real := DefaultDelta): (h: seq<real>)
    requires |X| == |Y|
    ensures |h| == |X|
    ensures forall i :: 0 <= i < |X| ==> h[i] == ElementLoss(Sub(X, Y)[i], delta)
  {
    var r := Sub(X, Y);
    seq(|r|, i requires 0 <= i < |r| => ElementLoss(r[i], delta))
  }

  /** Huber.derivative: the element derivative of every residual X[i] - Y[i]. */
  function Derivative(X: seq<real>, Y: seq<real>, delta: real := DefaultDelta): (g: seq<real>)
    requires |X| == |Y|
    ensures |g| == |X|
    ensures forall i :: 0 <= i < |X| ==> g[i] == ElementDerivative(Sub(X, Y)[i], delta)
  {
    var r := Sub(X, Y);
    seq(|r|, i requires 0 <= i < |r| => ElementDerivative(r[i], delta))
  }

  /** For a nonnegative delta every entry of Huber.loss is nonnegative. */
  lemma {:induction false} LossNonnegative(X: seq<real>, Y: seq<real>, delta: real)
    requires |X| == |Y| && delta >= 0.0
    ensures forall i :: 0 <= i < |X| ==> Loss(X, Y, delta)[i] >= 0.0
  {
  }

  /** For a nonnegative delta every entry of Huber.derivative lies in
      [-delta, delta]. */
  lemma {:induction false} DerivativeBounded(X: seq<real>, Y: seq<real>, delta: real)
    requires |X| == |Y| && delta >= 0.0
    ensures forall i :: 0 <= i < |X| ==> -delta <= Derivative(X, Y, delta)[i] <= delta
  {
  }

  /** With delta omitted, Huber.loss and Huber.derivative use the threshold
      1.0: every loss is nonnegative and every derivative lies in [-1, 1]. */
  lemma {:induction false} DefaultDeltaBounds(X: seq<real>, Y: seq<real>)
    requires |X| == |Y|
    ensures Loss(X, Y) == Loss(X, Y, 1.0) && Derivative(X, Y) == Derivative(X, Y, 1.0)
    ensures forall i :: 0 <= i < |X| ==> Loss(X, Y)[i] >= 0.0 && -1.0 <= Derivative(X, Y)[i] <= 1.0
  {
    LossNonnegative(X, Y, DefaultDelta);
    DerivativeBounded(X, Y, DefaultDelta);
  }

  // ---------------------------------------------------------------------
  // Properties of one element

  /** For a nonnegative delta the Huber loss never exceeds the squared-error
      loss 0.5 r^2, the two differing by 0.5 (|r| - delta)^2 outside. */
  lemma {:induction false} LossBelowHalfSquare(r: real, delta: real)
    requires delta >= 0.0
    ensures ElementLoss(r, delta) <= 0.5 * (r * r)
    ensures Abs(r) > delta ==> 0.5 * (r * r) - ElementLoss(r, delta) == 0.5 * ((Abs(r) - delta) * (Abs(r) - delta))
  {
    if Abs(r) > delta {
      assert 0.5 * (r * r) - delta * (Abs(r) - 0.5 * delta) == 0.5 * ((Abs(r) - delta) * (Abs(r) - delta)) by {
        assert r * r == Abs(r) * Abs(r);
      }
      SquareNonnegative(Abs(r) - delta);
    }
  }

  /** At |r| = delta the quadratic and the linear branch agree, both on the
      loss (0.5 delta^2) and on the derivative (r = delta sign(r)). */
  lemma {:induction false} BoundaryContinuity(r: real, delta: real)
    requires Abs(r) == delta
    ensures 0.5 * (r * r) == delta * (Abs(r) - 0.5 * delta) == 0.5 * (delta * delta)
    ensures ElementLoss(r, delta) == 0.5 * (delta * delta)
    ensures r == delta * Sign(r)
    ensures ElementDerivative(r, delta) == r
  {
    assert r * r == Abs(r) * Abs(r);
  }

  /** For a nonnegative delta the derivative is the residual clipped to
      [-delta, delta]. */
  lemma {:induction false} DerivativeIsClip(r: real, delta: real)
    requires delta >= 0.0
    ensures ElementDerivative(r, delta) == Clip(r, -delta, delta)
  {
  }

  /** Convexity: the tangent line with the derivative's slope lies below the
      loss, for a nonnegative delta. */
  lemma {:induction false} DerivativeIsSubgradient(a: real, b: real, delta: real)
    requires delta >= 0.0
    ensures ElementLoss(b, delta) >= ElementLoss(a, delta) + ElementDerivative(a, delta) * (b - a)
  {
    if Abs(a) <= delta {
      QuadraticTangentBelow(a, b, delta);
    } else {
      LinearTangentBelow(a, b, delta);
    }
  }

  /** Smoothness: the loss exceeds its tangent line by at most half the
      squared step, for a nonnegative delta. */
  lemma {:induction false} TangentGapBelowHalfSquare(a: real, b: real, delta: real)
    requires delta >= 0.0
    ensures ElementLoss(b, delta) <= ElementLoss(a, delta) + ElementDerivative(a, delta) * (b - a) + 0.5 * ((b - a) * (b - a))
  {
    if Abs(a) <= delta {
      QuadraticTangentGap(a, b, delta);
    } else {
      LinearTangentGap(a, b, delta);
    }
  }

  /** The tangent at a point a of the quadratic region, in terms of a. */
  lemma {:induction false} QuadraticTangent(a: real, b: real, delta: real)
    requires Abs(a) <= delta
    ensures ElementLoss(a, delta) + ElementDerivative(a, delta) * (b - a) == 0.5 * (a * a) + a * (b - a)
  {
  }

  /** The tangent at a point a of a linear region, in terms of s = sign(a). */
  lemma {:induction false} LinearTangent(a: real, b: real, delta: real)
    requires 0.0 <= delta < Abs(a)
    ensures ElementLoss(a, delta) + ElementDerivative(a, delta) * (b - a) == delta * (Sign(a) * b) - 0.5 * (delta * delta)
  {
    var s := Sign(a);
    assert ElementLoss(a, delta) == delta * (s * a) - 0.5 * (delta * delta);
    assert ElementDerivative(a, delta) * (b - a) == delta * (s * b) - delta * (s * a) by {
      assert ElementDerivative(a, delta) == delta * s;
    }
  }

  lemma {:induction false} QuadraticTangentBelow(a: real, b: real, delta: real)
    requires 0.0 <= delta && Abs(a) <= delta
    ensures ElementLoss(b, delta) >= ElementLoss(a, delta) + ElementDerivative(a, delta) * (b - a)
  {
    QuadraticTangent(a, b, delta);
    if Abs(b) <= delta {
      QuadraticCurvature(a, b);
    } else {
      QuadraticBelowLinear(a, b, delta);
    }
  }

  lemma {:induction false} LinearTangentBelow(a: real, b: real, delta: real)
    requires 0.0 <= delta < Abs(a)
    ensures ElementLoss(b, delta) >= ElementLoss(a, delta) + ElementDerivative(a, delta) * (b - a)
  {
    LinearTangent(a, b, delta);
    var s := Sign(a);
    if Abs(b) <= delta {
      LinearBelowQuadratic(s, b, delta);
    } else {
      UnitTimesBelowAbs(s, b);
      NonnegativeTimes(delta, Abs(b) - s * b);
    }
  }

  lemma {:induction false} QuadraticTangentGap(a: real, b: real, delta: real)
    requires 0.0 <= delta && Abs(a) <= delta
    ensures ElementLoss(b, delta) <= ElementLoss(a, delta) + ElementDerivative(a, delta) * (b - a) + 0.5 * ((b - a) * (b - a))
  {
    QuadraticTangent(a, b, delta);
    QuadraticCurvature(a, b);
  }

  lemma {:induction false} LinearTangentGap(a: real, b: real, delta: real)
    requires 0.0 <= delta < Abs(a)
    ensures ElementLoss(b, delta) <= ElementLoss(a, delta) + ElementDerivative(a, delta) * (b - a) + 0.5 * ((b - a) * (b - a))
  {
    LinearTangent(a, b, delta);
    if Abs(b) <= delta {
      LinearToQuadraticGap(a, b, delta);
    } else if Sign(a) * b < 0.0 {
      OppositeSignsTangentGap(a, b, delta);
    } else {
      SameSideTangentGap(a, b, delta);
    }
  }

  /** Landing beyond delta on the other side of zero. */
  lemma {:induction false} OppositeSignsTangentGap(a: real, b: real, delta: real)
    requires 0.0 <= delta < Abs(a) && delta < Abs(b) && Sign(a) * b < 0.0
    ensures ElementLoss(b, delta) <= delta * (Sign(a) * b) - 0.5 * (delta * delta) + 0.5 * ((b - a) * (b - a))
  {
    OppositeSignsGap(a, b, delta);
  }

  /** Staying in the same linear region, where the loss is its own tangent. */
  lemma {:induction false} SameSideTangentGap(a: real, b: real, delta: real)
    requires 0.0 <= delta < Abs(a) && delta < Abs(b) && Sign(a) * b >= 0.0
    ensures ElementLoss(b, delta) <= delta * (Sign(a) * b) - 0.5 * (delta * delta) + 0.5 * ((b - a) * (b - a))
  {
    assert Abs(b) == Sign(a) * b;
    SquareNonnegative(b - a);
  }

  /** From a linear region into the quadratic one: the gap is
      0.5 (b - delta s)^2, and delta s lies between b and a. */
  lemma {:induction false} LinearToQuadraticGap(a: real, b: real, delta: real)
    requires 0.0 <= delta < Abs(a) && Abs(b) <= delta
    ensures 0.5 * (b * b) <= delta * (Sign(a) * b) - 0.5 * (delta * delta) + 0.5 * ((b - a) * (b - a))
  {
    var s := Sign(a);
    LinearBelowQuadratic(s, b, delta);
    assert Abs(b - delta * s) <= Abs(b - a);
    SquareMonotone(b - delta * s, b - a);
  }

  /** 0.5 b^2 exceeds its tangent at a by exactly 0.5 (b - a)^2. */
  lemma {:induction false} QuadraticCurvature(a: real, b: real)
    ensures 0.5 * (b * b) == 0.5 * (a * a) + a * (b - a) + 0.5 * ((b - a) * (b - a))
    ensures 0.5 * (b * b) >= 0.5 * (a * a) + a * (b - a)
  {
    SquareNonnegative(b - a);
  }

  /** The gap between the quadratic branch at b and a linear tangent with
      slope delta s is 0.5 (b - delta s)^2. */
  lemma {:induction false} LinearBelowQuadratic(s: real, b: real, delta: real)
    requires s == 1.0 || s == -1.0
    ensures 0.5 * (b * b) - (delta * (s * b) - 0.5 * (delta * delta)) == 0.5 * ((b - delta * s) * (b - delta * s))
    ensures 0.5 * (b * b) >= delta * (s * b) - 0.5 * (delta * delta)
  {
    assert (delta * s) * (delta * s) == (delta * delta) * (s * s);
    SquareNonnegative(b - delta * s);
  }

  /** The quadratic tangent at |a| <= delta stays below the linear branch at
      |b| > delta. */
  lemma {:induction false} QuadraticBelowLinear(a: real, b: real, delta: real)
    requires Abs(a) <= delta < Abs(b)
    ensures delta * (Abs(b) - 0.5 * delta) >= 0.5 * (a * a) + a * (b - a)
  {
    // (delta - |a|) (|b| - (delta + |a|) / 2) >= 0 and a b <= |a| |b|
    NonnegativeTimes(delta - Abs(a), Abs(b) - 0.5 * (delta + Abs(a)));
    TimesBelowAbs(a, b);
    assert a * a == Abs(a) * Abs(a);
    assert delta * (Abs(b) - 0.5 * delta) - (0.5 * (Abs(a) * Abs(a)) + Abs(a) * Abs(b) - Abs(a) * Abs(a))
        == (delta - Abs(a)) * (Abs(b) - 0.5 * (delta + Abs(a)));
  }

  /** Leaving the linear region on one side and landing beyond delta on the
      other costs at most half the squared step more than the tangent. */
  lemma {:induction false} OppositeSignsGap(a: real, b: real, delta: real)
    requires 0.0 <= delta < Abs(a) && delta < Abs(b) && Sign(a) * b < 0.0
    ensures delta * (Abs(b) - Sign(a) * b) <= 0.5 * ((b - a) * (b - a))
  {
    var s := Sign(a);
    // the signs differ: |b - a| = |a| + |b| and 2 delta |b| <= (|a| + |b|)^2 / 2
    assert Abs(b) - s * b == 2.0 * Abs(b);
    assert Abs(b - a) == Abs(a) + Abs(b);
    assert (b - a) * (b - a) == Abs(b - a) * Abs(b - a);
    SquareNonnegative(Abs(b) - delta);
    SquareMonotone(delta + Abs(b), Abs(a) + Abs(b));
    assert (delta + Abs(b)) * (delta + Abs(b)) - 4.0 * (delta * Abs(b)) == (Abs(b) - delta) * (Abs(b) - delta);
  }

  /** Together: the element derivative is the derivative of the element loss,
      with 0 <= H(b) - H(a) - H'(a) (b - a) <= (b - a)^2 / 2 for every pair
      of residuals. */
  lemma {:induction false} DerivativeIsSlope(a: real, b: real, delta: real)
    requires delta >= 0.0
    ensures 0.0 <= ElementLoss(b, delta) - ElementLoss(a, delta) - ElementDerivative(a, delta) * (b - a) <= 0.5 * ((b - a) * (b - a))
  {
    DerivativeIsSubgradient(a, b, delta);
    TangentGapBelowHalfSquare(a, b, delta);
  }

  /** Continuity everywhere: for a nonnegative delta the loss changes by at
      most delta times the change of the residual. */
  lemma {:induction false} LossIsLipschitz(a: real, b: real, delta: real)
    requires delta >= 0.0
    ensures Abs(ElementLoss(b, delta) - ElementLoss(a, delta)) <= delta * Abs(b - a)
  {
    LossRiseBound(a, b, delta);
    LossDropBound(a, b, delta);
  }

  /** By the tangent at a, the loss drops by at most delta |b - a|. */
  lemma {:induction false} LossDropBound(a: real, b: real, delta: real)
    requires delta >= 0.0
    ensures ElementLoss(b, delta) - ElementLoss(a, delta) >= -(delta * Abs(b - a))
  {
    DerivativeIsSubgradient(a, b, delta);
    SlopeStepBound(a, b, delta);
  }

  /** The tangent's change over the step b - a is at least -delta |b - a|. */
  lemma {:induction false} SlopeStepBound(a: real, b: real, delta: real)
    requires delta >= 0.0
    ensures ElementDerivative(a, delta) * (b - a) >= -(delta * Abs(b - a))
  {
    BoundedSlope(ElementDerivative(a, delta), b - a, delta);
  }

  /** By the tangent at b, the loss rises by at most delta |b - a|. */
  lemma {:induction false} LossRiseBound(a: real, b: real, delta: real)
    requires delta >= 0.0
    ensures ElementLoss(b, delta) - ElementLoss(a, delta) <= delta * Abs(b - a)
  {
    LossDropBound(b, a, delta);
    assert delta * Abs(a - b) == delta * Abs(b - a) by {
      assert Abs(a - b) == Abs(b - a);
    }
  }

  /** |g x| <= delta |x| when |g| <= delta. */
  lemma {:induction false} BoundedSlope(g: real, x: real, delta: real)
    requires Abs(g) <= delta
    ensures -(delta * Abs(x)) <= g * x <= delta * Abs(x)
  {
    NonnegativeTimes(delta - Abs(g), Abs(x));
    TimesBelowAbs(g, x);
    TimesBelowAbs(-g, x);
    assert Abs(-g) == Abs(g);
  }

  // ---------------------------------------------------------------------
  // Properties of the arrays

  /** The total Huber loss is convex in the prediction X: moving X to X'
      raises it by at least Derivative(X, Y) . (X' - X). */
  lemma {:induction false} TotalLossSubgradient(X: seq<real>, X': seq<real>, Y: seq<real>, delta: real)
    requires |X| == |Y| && |X'| == |Y| && delta >= 0.0
    ensures Sum(Loss(X', Y, delta)) >= Sum(Loss(X, Y, delta)) + Dot(Derivative(X, Y, delta), Sub(X', X))
  {
    SamplesAboveTangents(X, X', Y, delta);
    SumAboveTangents(Loss(X', Y, delta), Loss(X, Y, delta), Derivative(X, Y, delta), Sub(X', X));
  }

  /** Every after[i] lies on or above the line through before[i] with slope
      g[i], taken a step step[i] along. */
  ghost predicate AboveTangents(after: seq<real>, before: seq<real>, g: seq<real>, step: seq<real>)
    requires |after| == |before| == |g| == |step|
  {
    forall i :: 0 <= i < |after| ==> after[i] >= before[i] + g[i] * step[i]
  }

  /** The tangent inequality for every sample. */
  lemma {:induction false} SamplesAboveTangents(X: seq<real>, X': seq<real>, Y: seq<real>, delta: real)
    requires |X| == |Y| && |X'| == |Y| && delta >= 0.0
    ensures AboveTangents(Loss(X', Y, delta), Loss(X, Y, delta), Derivative(X, Y, delta), Sub(X', X))
  {
    forall i | 0 <= i < |X|
      ensures Loss(X', Y, delta)[i] >= Loss(X, Y, delta)[i] + Derivative(X, Y, delta)[i] * Sub(X', X)[i]
    {
      SampleAboveTangent(X, X', Y, delta, i);
    }
  }

  /** The tangent inequality for one sample i, between its residuals
      X[i] - Y[i] and X'[i] - Y[i]. */
  lemma {:induction false} SampleAboveTangent(X: seq<real>, X': seq<real>, Y: seq<real>, delta: real, i: nat)
    requires |X| == |Y| && |X'| == |Y| && delta >= 0.0 && i < |X|
    ensures Loss(X', Y, delta)[i] >= Loss(X, Y, delta)[i] + Derivative(X, Y, delta)[i] * Sub(X', X)[i]
  {
    TangentStep(Loss(X, Y, delta)[i], Loss(X', Y, delta)[i], Derivative(X, Y, delta)[i], Sub(X, Y)[i], Sub(X', Y)[i], Sub(X', X)[i], delta);
  }

  /** DerivativeIsSubgradient on given values of the two losses, the
      derivative and the step b - a. */
  lemma {:induction false} TangentStep(la: real, lb: real, ga: real, a: real, b: real, d: real, delta: real)
    requires delta >= 0.0 && d == b - a
    requires la == ElementLoss(a, delta) && lb == ElementLoss(b, delta) && ga == ElementDerivative(a, delta)
    ensures lb >= la + ga * d
  {
    DerivativeIsSubgradient(a, b, delta);
  }

  /** Adding up per-sample tangent inequalities. */
  lemma {:induction false} SumAboveTangents(after: seq<real>, before: seq<real>, g: seq<real>, step: seq<real>)
    requires |after| == |before| == |g| == |step|
    requires AboveTangents(after, before, g, step)
    ensures Sum(after) >= Sum(before) + Dot(g, step)
  {
    if after != [] {
      assert after[0] >= before[0] + g[0] * step[0];
      assert AboveTangents(after[1..], before[1..], g[1..], step[1..]) by {
        forall i | 0 <= i < |after| - 1
          ensures after[1..][i] >= before[1..][i] + g[1..][i] * step[1..][i]
        {
          assert after[i + 1] >= before[i + 1] + g[i + 1] * step[i + 1];
        }
      }
      SumAboveTangents(after[1..], before[1..], g[1..], step[1..]);
    }
  }

  lemma {:induction false} TimesBelowAbs(a: real, b: real)
    ensures a * b <= Abs(a) * Abs(b)
  {
    if a * b > Abs(a) * Abs(b) {
      if a >= 0.0 && b < 0.0 {
        NonnegativeTimes(a, -b);
      } else if a < 0.0 && b >= 0.0 {
        NonnegativeTimes(-a, b);
      }
    }
  }

  lemma {:induction false} UnitTimesBelowAbs(s: real, b: real)
    requires s == 1.0 || s == -1.0
    ensures s * b <= Abs(b)
  {
  }

  lemma {:induction false} SquareMonotone(x: real, y: real)
    requires Abs(x) <= Abs(y)
    ensures x * x <= y * y
  {
    assert x * x == Abs(x) * Abs(x);
    assert y * y == Abs(y) * Abs(y);
    NonnegativeTimes(Abs(x), Abs(y) - Abs(x));
    NonnegativeTimes(Abs(y), Abs(y) - Abs(x));
  }
}
