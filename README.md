# Loss functions of MLlib, over exact reals

This project models the exact-arithmetic core of `MLlib/loss_func.py`, the
loss library of a small machine-learning package, and proves properties of
it. It has three parts.

- **Mean Squared Error graph node** (`MeanSquaredError`, and its alias
  `MSELoss`, which adds nothing).
  - `forward` refuses arguments that are not Tensors.
  - It takes the residual `prediction - target`, caches it in the call's
    context object when the prediction tracks gradients, and returns
    `sum(residual^2) / (2 * batch_size)` as a 0-d Tensor. That Tensor
    inherits `requires_grad` from the prediction and has `is_leaf` set to
    its negation.
  - `backward` reads the cached residual back and returns
    `residual / rows * grad_output`, in the residual's shape.
  - The classical `loss(X, Y, W)` equals `forward`'s value for the linear
    prediction `X.W`. The classical `derivative(X, Y, W)` is
    `np.dot(g, X) / M` for that prediction's residual g, that is, `backward`'s
    gradient carried through `X.W` by the chain rule.
- **Absolute Error**: the mean of `|X.W - Y|`, and the derivative
  `np.dot(sign, X) / M`. Its sign is `r / |r|` guarded to 0 where `|r| == 0`.
- **Huber**: the elementwise loss `0.5 r^2` for `|r| <= delta` and
  `delta (|r| - 0.5 delta)` beyond, where `r = X - Y`. Its derivative is `r`
  in the first region and `delta * sign(r)` in the second. When the caller
  omits `delta`, both use `Huber.DefaultDelta` (1.0).

Files, one module each:

- `arrays.dfy` (module `Arrays`): numpy arrays as a shape plus the elements
  in row-major order, the elementwise operations, and the reductions the
  losses use.
- `autograd.dfy` (module `Autograd`): the parts of the Tensor and autograd
  collaborators that the graph node touches.
  - A Tensor is its data plus its two flags.
  - A graph argument is either a Tensor or some other value.
  - The context is a class whose one field, `derivativeCore`, is absent
    until `forward` sets it.
- `mean_squared_error.dfy`, `absolute_error.dfy`, `huber.dfy`: the three
  loss classes.

`forward`, `backward` and the sequence forward-then-backward are module-level
methods of `MeanSquaredError` that take the context object as a parameter,
as the source's static methods take `ctx`. `forward` assigns the context's field and `backward` reads it.
The rest of the library is made of pure vectorised expressions with no
loops and no mutation, so it is modelled as functions plus lemmas.

Each operation is tied to an independent partner:

- **MSE graph node.** `forward`'s value and `backward`'s gradient are
  related by an exact finite-difference identity: moving prediction element
  k by h changes the loss by the gradient entry plus `h^2 / (2 batch_size)`.
- **MSE classical pair.**
  - Each is shown equal to the graph path.
  - The exact expansion `Loss(W + d) = Loss(W) + Derivative(W).d + |X d|^2 / (2M)`
    shows that the derivative is the gradient of the loss.
- **Absolute Error.**
  - The derivative is proved to be a subgradient of the loss.
  - The zero guard is proved to drop a zero-residual sample entirely.
- **Huber.**
  - The derivative is the residual clipped to `[-delta, delta]`.
  - It is a true slope of the loss: the tangent lies below the loss, and
    the gap is at most half the squared step.
  - The loss is continuous at the region boundary and delta-Lipschitz.
  - The total loss is convex.

## Model

| member | source | states |
|---|---|---|
| Autograd.KindOf | MLlib/loss_func.py:17-18 | an argument counts as a Tensor exactly when it is one; every other value is reported as another kind |
| Autograd.Context.constructor | MLlib/loss_func.py:31-32 | a fresh context has no cached residual until a `forward` that tracks gradients stores one |
| Arrays.Minus | MLlib/loss_func.py:29 | `prediction.data - target.data` on equal shapes keeps the shape, and each element is the difference of the two elements |
| Arrays.Sign | MLlib/loss_func.py:345 | `np.sign` is -1, 0 or 1, is 0 exactly at 0, and sign(x) * x == &#124;x&#124; |
| Arrays.LinearResidual | MLlib/loss_func.py:70 | `np.dot(X, W).T - Y` has one entry per row of X, row i giving X[i].W - Y[i] |
| Arrays.MatVec | MLlib/loss_func.py:70 | `np.dot(X, W)` for an M x N matrix X has one entry per row, entry i being X[i] . W |
| Arrays.SumSquaresNonnegative | MLlib/loss_func.py:34 | `np.sum(np.power(v, 2))` is never negative |
| Arrays.SumSquaresOfAdd | MLlib/loss_func.py:70 | the sum of squares of r + e is sum(r^2) + 2 r.e + sum(e^2) |
| Arrays.SumAbs | MLlib/loss_func.py:182 | `np.sum(np.absolute(v))` is never negative |
| Arrays.SumAbsZero | MLlib/loss_func.py:182 | `np.sum(np.absolute(v))` is 0 exactly when every entry of v is 0 |
| Arrays.VecMat | MLlib/loss_func.py:93 | `np.dot(s, X)` has one entry per column j of X, equal to s . (column j) |
| MeanSquaredError.ForwardValue | MLlib/loss_func.py:27-34 | half the mean of the squared residuals, where the mean divides by the target's leading length; the value is never negative |
| MeanSquaredError.ForwardResult | MLlib/loss_func.py:17-37 | non-Tensor arguments give the "Expected Tensors" error naming both kinds, before anything else is computed; a 0-d target has no `shape[0]` and gives an error; otherwise the result is a 0-d Tensor holding the nonnegative ForwardValue, with `requires_grad` copied from the prediction and `is_leaf` equal to its negation |
| MeanSquaredError.Forward | MLlib/loss_func.py:16-39 | returns ForwardResult; caches exactly the residual `p - t` iff the call succeeds and the prediction tracks gradients, and otherwise leaves the context unchanged; keeps the context valid |
| MeanSquaredError.Gradient | MLlib/loss_func.py:45 | `(derivative / derivative.shape[0]) * g` keeps the derivative's shape and divides every element by the row count, then scales it by g |
| MeanSquaredError.Unbroadcast | MLlib/loss_func.py:47 | reducing a gradient to the shape it already has returns it unchanged |
| MeanSquaredError.Backward | MLlib/loss_func.py:41-47 | fails exactly when no residual was cached; otherwise returns a Tensor of the cached residual's shape whose element i is residual[i] / rows * grad_output, with the default Tensor flags |
| MeanSquaredError.ForwardThenBackward | MLlib/loss_func.py:16-47 | a fresh context, then `forward`, then `backward` seeded with 1: the loss is ForwardResult; the gradient exists iff the loss did and the prediction tracks gradients, has the prediction's shape, and is Gradient(p - t, 1) |
| MeanSquaredError.ForwardBackwardFiniteDifference | MLlib/loss_func.py:27-47 | moving prediction element k by h changes `forward`'s value by exactly entry k of what `backward` returns for grad_output h, plus h^2 / (2 batch_size) |
| MeanSquaredError.GradientScalesWithSeed | MLlib/loss_func.py:45 | `backward` is linear in grad_output: seeding it with g gives g times the gradient for grad_output 1 |
| MeanSquaredError.Loss | MLlib/loss_func.py:69-70 | the classical loss `sum((X.W - Y)^2) / (2M)` is nonnegative |
| MeanSquaredError.Derivative | MLlib/loss_func.py:92-93 | the classical derivative `np.dot(X.W - Y, X) / M` has one entry per weight |
| MeanSquaredError.LegacyLossMatchesForward | MLlib/loss_func.py:69-70 | the classical loss equals the graph node's output for prediction X.W and target Y, whatever the prediction's flags |
| MeanSquaredError.LegacyDerivativeMatchesBackward | MLlib/loss_func.py:92-93 | the classical derivative is `np.dot(g, X)`, where g is what `backward` returns for prediction X.W seeded with 1: the chain rule through X.W |
| MeanSquaredError.LossExpansion | MLlib/loss_func.py:69-93 | Loss(W + d) == Loss(W) + Derivative(W).d + &#124;X d&#124;^2 / (2M) for every step d, so the derivative is the exact gradient of the loss and the loss lies above each of its tangent planes |
| AbsoluteError.GuardedSign | MLlib/loss_func.py:207-211 | `np.divide(r, abs(r), where=abs(r) != 0)` at one residual is -1, 0 or 1; it is 0 exactly at a zero residual; it equals `np.sign`; and sign * r == &#124;r&#124; |
| AbsoluteError.GuardedSigns | MLlib/loss_func.py:207-211 | the guarded `np.divide` over the whole residual vector keeps its length, and entry i is GuardedSign of residual i |
| AbsoluteError.Loss | MLlib/loss_func.py:181-182 | the mean of &#124;X.W - Y&#124; over the M rows is nonnegative |
| AbsoluteError.SignedRowSum | MLlib/loss_func.py:206-212 | `np.dot(signs, X)` has one entry per weight |
| AbsoluteError.Derivative | MLlib/loss_func.py:204-213 | `np.dot(signs, X) / M` has one entry per weight |
| AbsoluteError.LossZeroIffExactFit | MLlib/loss_func.py:181-182 | the loss is 0 exactly when X.W == Y, in both directions |
| AbsoluteError.ZeroResidualContributesNothing | MLlib/loss_func.py:205-213 | a sample with a zero residual gets sign 0: removing it from X and Y leaves `np.dot(signs, X)` unchanged, and this sum is the zero vector when that sample is the only one |
| AbsoluteError.DerivativeIsSubgradient | MLlib/loss_func.py:181-213 | for every weight step d, Loss(W + d) >= Loss(W) + Derivative(W).d |
| AbsoluteError.SumAbsShift | MLlib/loss_func.py:205-211 | moving the residuals by e raises their absolute sum by at least signs(r).e |
| Huber.ElementLoss | MLlib/loss_func.py:321-323 | the two-branch loss of one residual, nonnegative whenever delta >= 0 |
| Huber.ElementDerivative | MLlib/loss_func.py:345 | the two-branch derivative of one residual, of magnitude at most delta whenever delta >= 0 |
| Huber.Loss | MLlib/loss_func.py:321-323 | one loss per sample: entry i is the element loss of the residual X[i] - Y[i] |
| Huber.Derivative | MLlib/loss_func.py:345 | one derivative per sample: entry i is the element derivative of X[i] - Y[i] |
| Huber.DefaultDeltaBounds | MLlib/loss_func.py:303-345 | with `delta` omitted, `loss` and `derivative` use `Huber.DefaultDelta`, which is 1.0; then every loss is >= 0 and every derivative lies in [-1, 1] |
| Huber.LossNonnegative | MLlib/loss_func.py:321-323 | for delta >= 0 every entry of `loss` is >= 0 |
| Huber.DerivativeBounded | MLlib/loss_func.py:345 | for delta >= 0 every entry of `derivative` lies in [-delta, delta] |
| Huber.LossBelowHalfSquare | MLlib/loss_func.py:321-323 | for delta >= 0 the Huber loss is at most the quadratic branch 0.5 r^2, and beyond delta it falls short of it by exactly 0.5 (&#124;r&#124; - delta)^2 |
| Huber.BoundaryContinuity | MLlib/loss_func.py:321-345 | at &#124;r&#124; == delta both loss branches equal 0.5 delta^2 and both derivative branches equal r |
| Huber.DerivativeIsClip | MLlib/loss_func.py:345 | for delta >= 0 the derivative is the residual clipped to [-delta, delta] |
| Huber.DerivativeIsSubgradient | MLlib/loss_func.py:321-345 | for delta >= 0 and all residuals a, b: H(b) >= H(a) + H'(a) (b - a) |
| Huber.TangentGapBelowHalfSquare | MLlib/loss_func.py:321-345 | for delta >= 0 and all a, b: H(b) <= H(a) + H'(a) (b - a) + 0.5 (b - a)^2 |
| Huber.DerivativeIsSlope | MLlib/loss_func.py:321-345 | for delta >= 0 the gap H(b) - H(a) - H'(a) (b - a) lies between 0 and 0.5 (b - a)^2, so `derivative` is the derivative of `loss` |
| Huber.LossIsLipschitz | MLlib/loss_func.py:321-323 | for delta >= 0, &#124;H(b) - H(a)&#124; <= delta &#124;b - a&#124;: the loss is continuous everywhere |
| Huber.TotalLossSubgradient | MLlib/loss_func.py:321-345 | for delta >= 0 and any two predictions X, X', sum(loss(X')) >= sum(loss(X)) + derivative(X) . (X' - X) |

## Left out

- `LogarithmicError`, `CosineSimilarity`, `Log_cosh` and `MeanSquaredLogLoss`: they are built on log, cosh, tanh, square roots and an external sigmoid, none of which can be stated exactly over the reals.
- The `Tensor` class and the autograd graph executor: outside this file. Only a Tensor's data and its two flags are kept, and the per-call context object. The Tensor's back-reference to its producing node is dropped.
- The flags of the Tensor that `backward` builds: taken to be the constructor's defaults (`requires_grad` false, `is_leaf` true), because the constructor is not part of this model.
- The type check `type(x).__name__ == 'Tensor'`: modelled as a tag that says whether an argument is a Tensor. Argument types are not compared by name, and the "Expected Tensors" error records only whether each argument was a Tensor: the type names that the message prints (`type(x).__name__`, such as `ndarray` or `list`) are not kept.
- `unbroadcast` (`MLlib/utils/misc_utils`): its body is not part of this model. Only the equal-shape case is covered, where it changes nothing.
- Broadcasting: `forward` requires the prediction and the target to have the same shape, which makes `derivative.shape[0]` in `backward` the same as the `batch_size` of `forward`.
- MeanSquaredError.Backward: `grad_output` must be a 0-d tensor, the seed that the executor passes for a scalar loss. A broadcasting grad_output is not modelled.
- An empty batch, `target.data.shape[0] == 0`: the division by zero there gives NaN in numpy, so `forward` requires a nonzero leading length. The classical losses likewise require at least one row of X.
- Floating point: rounding, NaN and infinities are not modelled. All arithmetic is over exact reals.
- Huber.Loss and Huber.Derivative: they take X and Y as one-dimensional arrays of equal length. Other shapes and broadcasting between X and Y are not modelled.
- The classical `loss`/`derivative` methods: X is an M x N matrix given as a sequence of rows, and W and Y are one-dimensional. The `.T` transposes are identities on these one-dimensional results.
