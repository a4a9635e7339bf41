/** The minimal part of the library's Tensor and autograd collaborators that
    the Mean Squared Error graph node reads and writes: a tensor's data and
    its two flags, the distinction between a Tensor argument and any other
    value, and the per-call context object that carries the cached residual
    from `forward` to `backward`. */
module Autograd {
  import opened Arrays

  datatype Option<T> = None | Some(value: T)

  /** A differentiable value: its array and its two graph flags. The
      back-reference to the producing node is not modelled. */
  datatype Tensor = Tensor(data: NdArray, requiresGrad: bool, isLeaf: bool)

  /** The flags `Tensor(array)` takes when none are passed: a gradient
      returned by `backward` is a plain leaf that does not track gradients. */
  const DefaultRequiresGrad := false
  const DefaultIsLeaf := true

  /** An argument of a graph node: a Tensor, or anything else (a raw array,
      a list, a number), which the node must refuse. */
  datatype Value = TensorValue(tensor: Tensor) | RawValue(array: NdArray)

  /** What the type check sees of an argument, and what the error reports. */
  datatype Kind = TensorKind | OtherKind

  function KindOf(v: Value): (k: Kind)
    ensures k == TensorKind <==> v.TensorValue?
  {
    match v
    case TensorValue(_) => TensorKind
    case RawValue(_) => OtherKind
  }

  /** The context record of one graph-node invocation. Its only slot used
      here is `derivative_core`, absent until a tracking `forward` stores
      the residual in it. */
  class Context {
    var derivativeCore: Option<NdArray>

    /** What a tracking `forward` leaves in the slot: a well-formed array
        with at least one sample on its leading axis. */
    predicate Valid()
      reads this
    {
      derivativeCore.Some? ==> HasSamples(derivativeCore.value)
    }

    constructor ()
      ensures Valid() && derivativeCore == None
    {
      derivativeCore := None;
    }
  }
}
