/** The Mean Squared Error loss (class MeanSquaredError, and its alias
    MSELoss): the graph node, whose `forward` caches the residual in the
    context and whose `backward` turns it into the gradient with respect to
    the prediction, and the classical `loss`/`derivative` pair over a design
    matrix, weights and targets. */
module MeanSquaredError {
  import opened Arrays
  import opened Autograd

  datatype LossError =
    | ExpectedTensors(prediction: Kind, target: Kind)  // RuntimeError "Expected Tensors, got ..."
    | NoSampleAxis                                     // IndexError from `target.data.shape[0]` on a 0-d target
    | NoCachedResidual                                 // AttributeError: `ctx.derivative_core` was never set

  datatype Result<T> = Ok(value: T) | Err(error: LossError)

  // -----------------------------------------------------------------------
  // Graph node

  /** What `forward` needs of its callers: when both arguments are Tensors,
      their arrays have the same shape (no broadcasting) and, if they have a
      leading axis, at least one sample on it. */
  predicate ForwardDomain(prediction: Value, target: Value)
  {
    prediction.TensorValue? && target.TensorValue? ==>
      var p := prediction.tensor.data;
      var t := target.tensor.data;
      WellFormed(p) && WellFormed(t) && p.shape == t.shape &&
      (t.shape != [] ==> t.shape[0] > 0)
  }

  /** sum((p - t)^2) / (2 * batch_size), batch_size being t.shape[0]. */
  function ForwardValue(p: NdArray, t: NdArray): (v: real)
    requires WellFormed(p) && HasSamples(t) && p.shape == t.shape
    ensures v >= 0.0
  {
    SumSquaresNonnegative(Minus(p, t).flat);
    SumSquares(Minus(p, t).flat) / (2.0 * (t.shape[0] as real))
  }

  /** The tensor `forward` returns, or the error it raises. */
  function ForwardResult(prediction: Value, target: Value): (r: Result<Tensor>)
    requires ForwardDomain(prediction, target)
    ensures r.Err? ==> r.error.ExpectedTensors? || r.error == NoSampleAxis
    ensures r.Err? && r.error.ExpectedTensors? <==> !(prediction.TensorValue? && target.TensorValue?)
    ensures r.Err? && r.error.ExpectedTensors? ==>
              r.error == ExpectedTensors(KindOf(prediction), KindOf(target))
    ensures prediction.TensorValue? && target.TensorValue? ==>
              (r == Err(NoSampleAxis) <==> target.tensor.data.shape == [])
    ensures r.Ok? ==>
              && prediction.TensorValue? && target.TensorValue?
              && HasSamples(target.tensor.data)
              && r.value.data == Scalar(ForwardValue(prediction.tensor.data, target.tensor.data))
              && r.value.data.flat[0] >= 0.0
              && r.value.requiresGrad == prediction.tensor.requiresGrad
              && r.value.isLeaf == !prediction.tensor.requiresGrad
  {
    if !(prediction.TensorValue? && target.TensorValue?) then
      Err(ExpectedTensors(KindOf(prediction), KindOf(target)))
    else if target.tensor.data.shape == [] then
      Err(NoSampleAxis)
    else
      var requiresGrad := prediction.tensor.requiresGrad;
      Ok(Tensor(Scalar(ForwardValue(prediction.tensor.data, target.tensor.data)), requiresGrad, !requiresGrad))
  }

  /** MeanSquaredError.forward: check that both arguments are Tensors, take
      the residual, cache it in the context when the prediction tracks
      gradients, and return half the mean of its squares. */
  method Forward(ctx: Context, prediction: Value, target: Value) returns (r: Result<Tensor>)
    requires ctx.Valid()
    requires ForwardDomain(prediction, target)
    modifies ctx
    ensures ctx.Valid()
    ensures r == ForwardResult(prediction, target)
    ensures r.Ok? && prediction.tensor.requiresGrad ==>
              ctx.derivativeCore == Some(Minus(prediction.tensor.data, target.tensor.data))
    ensures !(r.Ok? && prediction.tensor.requiresGrad) ==>
              ctx.derivativeCore == old(ctx.derivativeCore)
  {
    if !(prediction.TensorValue? && target.TensorValue?) {
      return Err(ExpectedTensors(KindOf(prediction), KindOf(target)));
    }
    var requiresGrad := prediction.tensor.requiresGrad;
    if target.tensor.data.shape == [] {
      return Err(NoSampleAxis);
    }
    var batchSize := target.tensor.data.shape[0];
    var out := Minus(prediction.tensor.data, target.tensor.data);
    if requiresGrad {
      ctx.derivativeCore := Some(out);
    }
    var loss := SumSquares(out.flat) / (2.0 * (batchSize as real));
    r := Ok(Tensor(Scalar(loss), requiresGrad, !requiresGrad));
  }

  /** (derivative / derivative.shape[0]) * g, elementwise; the shape is kept. */
  function Gradient(derivative: NdArray, g: real): (r: NdArray)
    requires HasSamples(derivative)
    ensures WellFormed(r) && r.shape == derivative.shape
    ensures |r.flat| == |derivative.flat| &&
            forall i :: 0 <= i < |r.flat| ==>
              r.flat[i] == derivative.flat[i] / (derivative.shape[0] as real) * g
  {
    var rows := derivative.shape[0] as real;
    NdArray(derivative.shape, seq(|derivative.flat|, i requires 0 <= i < |derivative.flat| => derivative.flat[i] / rows * g))
  }

  /** unbroadcast(grad, shape) when grad already has that shape: nothing to
      reduce. Shapes that differ (broadcast inputs) are not modelled. */
  function Unbroadcast(grad: NdArray, shape: seq<nat>): (r: NdArray)
    requires grad.shape == shape
    ensures r == grad
  {
    grad
  }

  /** MeanSquaredError.backward: read the cached residual and return the
      gradient with respect to the prediction, of the residual's shape. */
  method Backward(ctx: Context, gradOutput: Tensor) returns (r: Result<Tensor>)
    requires ctx.Valid()
    requires WellFormed(gradOutput.data) && gradOutput.data.shape == []
    ensures r.Err? <==> ctx.derivativeCore.None?
    ensures r.Err? ==> r.error == NoCachedResidual
    ensures r.Ok? ==>
              && ctx.derivativeCore.Some?
              && var d := ctx.derivativeCore.value;
              && r.value.data.shape == d.shape
              && |r.value.data.flat| == |d.flat|
              && (forall i :: 0 <= i < |d.flat| ==>
                    r.value.data.flat[i] == d.flat[i] / (d.shape[0] as real) * gradOutput.data.flat[0])
              && r.value.data == Gradient(d, gradOutput.data.flat[0])
              && r.value.requiresGrad == DefaultRequiresGrad
              && r.value.isLeaf == DefaultIsLeaf
  {
    if ctx.derivativeCore.None? {
      return Err(NoCachedResidual);
    }
    var derivative := ctx.derivativeCore.value;
    var gradPrediction := Gradient(derivative, gradOutput.data.flat[0]);
    r := Ok(Tensor(Unbroadcast(gradPrediction, derivative.shape), DefaultRequiresGrad, DefaultIsLeaf));
  }

  /** How the graph executor drives the node: a fresh context, `forward`,
      then `backward` seeded with the gradient 1 of the scalar loss. */
  method ForwardThenBackward(prediction: Tensor, target: Tensor) returns (loss: Result<Tensor>, grad: Result<Tensor>)
    requires ForwardDomain(TensorValue(prediction), TensorValue(target))
    ensures loss == ForwardResult(TensorValue(prediction), TensorValue(target))
    ensures loss.Ok? <==> target.data.shape != []
    ensures grad.Ok? <==> loss.Ok? && prediction.requiresGrad
    ensures grad.Err? ==> grad.error == NoCachedResidual
    ensures grad.Ok? ==>
              && HasSamples(target.data)
              && grad.value.data.shape == prediction.data.shape
              && grad.value.data == Gradient(Minus(prediction.data, target.data), 1.0)
  {
    var ctx := new Context();
    loss := Forward(ctx, TensorValue(prediction), TensorValue(target));
    grad := Backward(ctx, Tensor(Scalar(1.0), false, true));
  }

  /** The backward gradient is the exact derivative of the forward value:
      moving prediction element k by h changes the loss by entry k of what
      `backward` returns for grad_output h (h times the gradient for
      grad_output 1, see GradientScalesWithSeed) plus the curvature term
      h^2 / (2 * batch_size), with nothing left over. */
  lemma {:induction false} ForwardBackwardFiniteDifference(p: NdArray, t: NdArray, k: nat, h: real)
    requires WellFormed(p) && HasSamples(t) && p.shape == t.shape
    requires k < |p.flat|
    ensures WellFormed(NdArray(p.shape, p.flat[k := p.flat[k] + h]))
    ensures ForwardValue(NdArray(p.shape, p.flat[k := p.flat[k] + h]), t)
            == ForwardValue(p, t) + Gradient(Minus(p, t), h).flat[k]
               + h * h / (2.0 * (t.shape[0] as real))
  {
    ForwardValueStep(p, t, k, h);
  }

  /** The same expansion with the gradient entry written out as
      residual[k] / batch_size * h. */
  lemma {:induction false} ForwardValueStep(p: NdArray, t: NdArray, k: nat, h: real)
    requires WellFormed(p) && HasSamples(t) && p.shape == t.shape
    requires k < |p.flat|
    ensures WellFormed(NdArray(p.shape, p.flat[k := p.flat[k] + h]))
    ensures ForwardValue(NdArray(p.shape, p.flat[k := p.flat[k] + h]), t)
            == ForwardValue(p, t) + Minus(p, t).flat[k] / (t.shape[0] as real) * h
               + h * h / (2.0 * (t.shape[0] as real))
  {
    MovedForwardValue(p, t, k, h);
  }

  /** The gradient `backward` returns is linear in grad_output: seeding it
      with g scales the gradient for grad_output 1 by g. */
  lemma {:induction false} GradientScalesWithSeed(derivative: NdArray, g: real)
    requires HasSamples(derivative)
    ensures forall i :: 0 <= i < |derivative.flat| ==>
              Gradient(derivative, g).flat[i] == g * Gradient(derivative, 1.0).flat[i]
  {
  }

  /** The forward value after moving prediction element k by h, in terms of
      the residual before the move. */
  lemma {:induction false} MovedForwardValue(p: NdArray, t: NdArray, k: nat, h: real)
    requires WellFormed(p) && HasSamples(t) && p.shape == t.shape
    requires k < |p.flat|
    ensures WellFormed(NdArray(p.shape, p.flat[k := p.flat[k] + h]))
    ensures ForwardValue(NdArray(p.shape, p.flat[k := p.flat[k] + h]), t)
            == SumSquares(Minus(p, t).flat) / (2.0 * (t.shape[0] as real))
               + Minus(p, t).flat[k] / (t.shape[0] as real) * h + h * h / (2.0 * (t.shape[0] as real))
  {
    MovedResidual(p, t, k, h);
    BumpHalfMean(Minus(p, t).flat, k, h, t.shape[0] as real);
  }

  /** Moving prediction element k by h moves residual element k by h. */
  lemma {:induction false} MovedResidual(p: NdArray, t: NdArray, k: nat, h: real)
    requires WellFormed(p) && HasSamples(t) && p.shape == t.shape
    requires k < |p.flat|
    ensures WellFormed(NdArray(p.shape, p.flat[k := p.flat[k] + h]))
    ensures ForwardValue(NdArray(p.shape, p.flat[k := p.flat[k] + h]), t)
            == SumSquares(Minus(p, t).flat[k := Minus(p, t).flat[k] + h]) / (2.0 * (t.shape[0] as real))
  {
    assert Minus(NdArray(p.shape, p.flat[k := p.flat[k] + h]), t).flat == Minus(p, t).flat[k := Minus(p, t).flat[k] + h];
  }

  /** Half the mean of the squares, after moving entry k of r by h. */
  lemma {:induction false} BumpHalfMean(r: seq<real>, k: nat, h: real, b: real)
    requires k < |r| && b > 0.0
    ensures SumSquares(r[k := r[k] + h]) / (2.0 * b)
            == SumSquares(r) / (2.0 * b) + r[k] / b * h + h * h / (2.0 * b)
  {
    SumSquaresBump(r, k, h);
    HalfMeanOfBump(SumSquares(r[k := r[k] + h]), SumSquares(r), r[k], h, b);
  }

  lemma {:induction false} HalfMeanOfBump(moved: real, s: real, rk: real, h: real, b: real)
    requires b > 0.0 && moved == s + 2.0 * h * rk + h * h
    ensures moved / (2.0 * b) == s / (2.0 * b) + rk / b * h + h * h / (2.0 * b)
  {
  }

  // -----------------------------------------------------------------------
  // Classical mode

  /** MeanSquaredError.loss: sum((X.W - Y)^2) / (2M) over the M rows of X. */
  function Loss(X: seq<seq<real>>, Y: seq<real>, W: seq<real>): (l: real)
    requires LinearModelShapes(X, Y, W)
    ensures l >= 0.0
  {
    SumSquaresNonnegative(LinearResidual(X, Y, W));
    SumSquares(LinearResidual(X, Y, W)) / (2.0 * (|X| as real))
  }

  /** MeanSquaredError.derivative: np.dot(X.W - Y, X) / M, one entry per weight. */
  function Derivative(X: seq<seq<real>>, Y: seq<real>, W: seq<real>): (g: seq<real>)
    requires LinearModelShapes(X, Y, W)
    ensures |g| == |W|
  {
    Scale(1.0 / (|X| as real), VecMat(LinearResidual(X, Y, W), X, |W|))
  }

  /** The classical loss is the graph node's value when the prediction is
      X.W and the target is Y. */
  lemma {:induction false} LegacyLossMatchesForward(X: seq<seq<real>>, Y: seq<real>, W: seq<real>, requiresGrad: bool, isLeaf: bool, target: Tensor)
    requires LinearModelShapes(X, Y, W)
    requires target.data == Vector(Y)
    ensures ForwardDomain(TensorValue(Tensor(Vector(MatVec(X, W)), requiresGrad, isLeaf)), TensorValue(target))
    ensures ForwardResult(TensorValue(Tensor(Vector(MatVec(X, W)), requiresGrad, isLeaf)), TensorValue(target))
            == Ok(Tensor(Scalar(Loss(X, Y, W)), requiresGrad, !requiresGrad))
  {
    assert Minus(Vector(MatVec(X, W)), Vector(Y)).flat == LinearResidual(X, Y, W);
  }

  /** The classical derivative is the chain rule through X.W applied to the
      gradient `backward` returns for the prediction X.W (seeded with 1). */
  lemma {:induction false} LegacyDerivativeMatchesBackward(X: seq<seq<real>>, Y: seq<real>, W: seq<real>)
    requires LinearModelShapes(X, Y, W)
    ensures HasSamples(Minus(Vector(MatVec(X, W)), Vector(Y)))
    ensures Derivative(X, Y, W)
            == VecMat(Gradient(Minus(Vector(MatVec(X, W)), Vector(Y)), 1.0).flat, X, |W|)
  {
    var r := LinearResidual(X, Y, W);
    var m := |X| as real;
    var grad := Gradient(Minus(Vector(MatVec(X, W)), Vector(Y)), 1.0).flat;
    assert grad == Scale(1.0 / m, r) by {
      forall i | 0 <= i < |r| ensures grad[i] == Scale(1.0 / m, r)[i] {
        assert r[i] / m * 1.0 == 1.0 / m * r[i];
      }
    }
    VecMatScale(1.0 / m, r, X, |W|);
  }

  /** Loss(W + d) == Loss(W) + Derivative(W).d + |X d|^2 / (2M): the
      derivative is the exact gradient of the loss, and the loss lies above
      every tangent plane (it is convex in the weights). */
  lemma {:induction false} LossExpansion(X: seq<seq<real>>, Y: seq<real>, W: seq<real>, d: seq<real>)
    requires LinearModelShapes(X, Y, W) && |d| == |W|
    ensures LinearModelShapes(X, Y, Add(W, d))
    ensures Loss(X, Y, Add(W, d))
            == Loss(X, Y, W) + Dot(Derivative(X, Y, W), d) + SumSquares(MatVec(X, d)) / (2.0 * (|X| as real))
    ensures Loss(X, Y, Add(W, d)) >= Loss(X, Y, W) + Dot(Derivative(X, Y, W), d)
  {
    var r := LinearResidual(X, Y, W);
    var e := MatVec(X, d);
    var m := |X| as real;
    LinearResidualShift(X, Y, W, d);
    SumSquaresOfAdd(r, e);
    SumSquaresNonnegative(e);
    DerivativeAlong(X, Y, W, d);
    ExpandHalfMean(SumSquares(Add(r, e)), SumSquares(r), Dot(r, e), SumSquares(e), m);
  }

  /** The derivative taken along a weight direction d: r.(X d) / M. */
  lemma {:induction false} DerivativeAlong(X: seq<seq<real>>, Y: seq<real>, W: seq<real>, d: seq<real>)
    requires LinearModelShapes(X, Y, W) && |d| == |W|
    ensures Dot(Derivative(X, Y, W), d) == 1.0 / (|X| as real) * Dot(LinearResidual(X, Y, W), MatVec(X, d))
  {
    var r := LinearResidual(X, Y, W);
    DotScaleLeft(1.0 / (|X| as real), VecMat(r, X, |W|), d);
    DotVecMat(r, X, d);
  }

  lemma {:induction false} ExpandHalfMean(moved: real, s: real, c: real, q: real, m: real)
    requires m > 0.0 && q >= 0.0 && moved == s + 2.0 * c + q
    ensures moved / (2.0 * m) == s / (2.0 * m) + 1.0 / m * c + q / (2.0 * m)
    ensures q / (2.0 * m) >= 0.0
  {
  }
}
