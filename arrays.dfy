/** The part of numpy that the loss functions rely on, over exact reals:
    n-dimensional arrays (a shape and the elements in row-major order), the
    elementwise operations on them, and the reductions the losses use (sums,
    dot products, matrix-vector and vector-matrix products). */
module Arrays {

  /** An n-dimensional array: its shape and its elements in row-major (C)
      order. A 0-dimensional array (a numpy scalar) has shape [] and holds
      exactly one element. */
  datatype NdArray = NdArray(shape: seq<nat>, flat: seq<real>)

  /** The number of elements an array of this shape holds. */
  function Size(shape: seq<nat>): nat
  {
    if shape == [] then 1 else shape[0] * Size(shape[1..])
  }

  /** Every numpy array holds as many elements as its shape says. */
  predicate WellFormed(a: NdArray)
  {
    |a.flat| == Size(a.shape)
  }

  /** `a.shape[0]` exists and is nonzero: the array has a leading (sample)
      axis with at least one sample on it. */
  predicate HasSamples(a: NdArray)
  {
    WellFormed(a) && |a.shape| > 0 && a.shape[0] > 0
  }

  function Scalar(x: real): (a: NdArray)
    ensures WellFormed(a) && a.shape == [] && a.flat == [x]
  {
    NdArray([], [x])
  }

  /** A one-dimensional array. */
  function Vector(v: seq<real>): (a: NdArray)
    ensures WellFormed(a) && a.shape == [|v|] && a.flat == v
  {
    NdArray([|v|], v)
  }

  function Abs(x: real): (r: real)
    ensures r >= 0.0 && (r == x || r == -x)
  {
    if x < 0.0 then -x else x
  }

  /** np.sign: -1, 0 or 1. */
  function Sign(x: real): (s: real)
    ensures s == -1.0 || s == 0.0 || s == 1.0
    ensures s * x == Abs(x)
    ensures s == 0.0 <==> x == 0.0
  {
    if x > 0.0 then 1.0 else if x < 0.0 then -1.0 else 0.0
  }

  // ---------------------------------------------------------------------
  // Elementwise operations on sequences of reals

  function Sub(u: seq<real>, v: seq<real>): (w: seq<real>)
    requires |u| == |v|
    ensures |w| == |u| && forall i :: 0 <= i < |u| ==> w[i] == u[i] - v[i]
  {
    seq(|u|, i requires 0 <= i < |u| => u[i] - v[i])
  }

  function Add(u: seq<real>, v: seq<real>): (w: seq<real>)
    requires |u| == |v|
    ensures |w| == |u| && forall i :: 0 <= i < |u| ==> w[i] == u[i] + v[i]
  {
    seq(|u|, i requires 0 <= i < |u| => u[i] + v[i])
  }

  function Scale(c: real, v: seq<real>): (w: seq<real>)
    ensures |w| == |v| && forall i :: 0 <= i < |v| ==> w[i] == c * v[i]
  {
    seq(|v|, i requires 0 <= i < |v| => c * v[i])
  }

  function Zeros(n: nat): (w: seq<real>)
    ensures |w| == n && forall i :: 0 <= i < n ==> w[i] == 0.0
  {
    seq(n, i => 0.0)
  }

  /** The sequence without its element at index i. */
  function Without<T>(s: seq<T>, i: nat): (r: seq<T>)
    requires i < |s|
    ensures |r| == |s| - 1
    ensures forall k :: 0 <= k < i ==> r[k] == s[k]
    ensures forall k :: i <= k < |r| ==> r[k] == s[k + 1]
  {
    s[..i] + s[i + 1..]
  }

  /** `a - b` on two arrays of the same shape; the result keeps that shape. */
  function Minus(a: NdArray, b: NdArray): (r: NdArray)
    requires WellFormed(a) && WellFormed(b) && a.shape == b.shape
    ensures WellFormed(r) && r.shape == a.shape
    ensures r.flat == Sub(a.flat, b.flat)
  {
    NdArray(a.shape, Sub(a.flat, b.flat))
  }

  // ---------------------------------------------------------------------
  // Reductions

  /** np.sum(v). */
  function Sum(v: seq<real>): real
  {
    if v == [] then 0.0 else v[0] + Sum(v[1..])
  }

  /** np.sum(np.power(v, 2)). */
  function SumSquares(v: seq<real>): real
  {
    if v == [] then 0.0 else v[0] * v[0] + SumSquares(v[1..])
  }

  /** np.sum(np.absolute(v)). */
  function SumAbs(v: seq<real>): (r: real)
    ensures r >= 0.0
  {
    if v == [] then 0.0 else Abs(v[0]) + SumAbs(v[1..])
  }

  /** np.dot of two vectors of the same length. */
  function Dot(u: seq<real>, v: seq<real>): real
    requires |u| == |v|
  {
    if u == [] then 0.0 else u[0] * v[0] + Dot(u[1..], v[1..])
  }

  /** Every row of the matrix has n columns. */
  predicate RowsHaveLength(X: seq<seq<real>>, n: nat)
  {
    forall i :: 0 <= i < |X| ==> |X[i]| == n
  }

  /** np.dot(X, w) for an M x N matrix X and a vector w of length N. */
  function MatVec(X: seq<seq<real>>, w: seq<real>): (r: seq<real>)
    requires RowsHaveLength(X, |w|)
    ensures |r| == |X| && forall i :: 0 <= i < |X| ==> r[i] == Dot(X[i], w)
  {
    seq(|X|, i requires 0 <= i < |X| => Dot(X[i], w))
  }

  /** Column j of a matrix. */
  function Column(X: seq<seq<real>>, n: nat, j: nat): (c: seq<real>)
    requires RowsHaveLength(X, n) && j < n
    ensures |c| == |X| && forall i :: 0 <= i < |X| ==> c[i] == X[i][j]
  {
    seq(|X|, i requires 0 <= i < |X| => X[i][j])
  }

  /** np.dot(s, X) for a vector s of length M and an M x N matrix X: the
      vector of length N whose entry j is the sum over i of s[i] * X[i][j]. */
  function VecMat(s: seq<real>, X: seq<seq<real>>, n: nat): (r: seq<real>)
    requires |s| == |X| && RowsHaveLength(X, n)
    ensures |r| == n && forall j :: 0 <= j < n ==> r[j] == Dot(s, Column(X, n, j))
  {
    seq(n, j requires 0 <= j < n => Dot(s, Column(X, n, j)))
  }

  /** The shapes the classical losses expect from their callers: a design
      matrix X with M >= 1 rows of N columns, weights W of length N and
      targets Y of length M. */
  predicate LinearModelShapes(X: seq<seq<real>>, Y: seq<real>, W: seq<real>)
  {
    |X| > 0 && |Y| == |X| && RowsHaveLength(X, |W|)
  }

  /** np.dot(X, W).T - Y: one residual per sample. */
  function LinearResidual(X: seq<seq<real>>, Y: seq<real>, W: seq<real>): (r: seq<real>)
    requires LinearModelShapes(X, Y, W)
    ensures |r| == |X| && forall i :: 0 <= i < |X| ==> r[i] == Dot(X[i], W) - Y[i]
  {
    Sub(MatVec(X, W), Y)
  }

  // ---------------------------------------------------------------------
  // Algebra of the reductions

  lemma {:induction false} SumAbsZero(v: seq<real>)
    ensures SumAbs(v) == 0.0 <==> forall i :: 0 <= i < |v| ==> v[i] == 0.0
  {
    if v != [] {
      SumAbsZero(v[1..]);
      assert forall i :: 1 <= i < |v| ==> v[1..][i - 1] == v[i];
    }
  }

  /** Squaring a sum: |r + e|^2 == |r|^2 + 2 r.e + |e|^2. */
  lemma {:induction false} SumSquaresOfAdd(r: seq<real>, e: seq<real>)
    requires |r| == |e|
    ensures SumSquares(Add(r, e)) == SumSquares(r) + 2.0 * Dot(r, e) + SumSquares(e)
  {
    if r != [] {
      assert Add(r, e)[1..] == Add(r[1..], e[1..]);
      SumSquaresOfAdd(r[1..], e[1..]);
      assert (r[0] + e[0]) * (r[0] + e[0]) == r[0] * r[0] + 2.0 * (r[0] * e[0]) + e[0] * e[0];
    }
  }

  /** Moving one element by h: the sum of squares changes by 2 h v[k] + h^2. */
  lemma {:induction false} SumSquaresBump(v: seq<real>, k: nat, h: real)
    requires k < |v|
    ensures SumSquares(v[k := v[k] + h]) == SumSquares(v) + 2.0 * h * v[k] + h * h
  {
    var w := v[k := v[k] + h];
    if k == 0 {
      assert w[1..] == v[1..];
      assert (v[0] + h) * (v[0] + h) == v[0] * v[0] + 2.0 * h * v[0] + h * h;
    } else {
      assert w[1..] == v[1..][k - 1 := v[k] + h];
      SumSquaresBump(v[1..], k - 1, h);
    }
  }

  lemma {:induction false} NonnegativeTimes(a: real, b: real)
    requires a >= 0.0 && b >= 0.0
    ensures a * b >= 0.0
  {
  }

  lemma {:induction false} SquareNonnegative(x: real)
    ensures x * x >= 0.0
  {
    if x < 0.0 {
      assert x * x == (-x) * (-x);
      NonnegativeTimes(-x, -x);
    } else {
      NonnegativeTimes(x, x);
    }
  }

  lemma {:induction false} SumSquaresNonnegative(v: seq<real>)
    ensures SumSquares(v) >= 0.0
  {
    if v != [] {
      SquareNonnegative(v[0]);
      SumSquaresNonnegative(v[1..]);
    }
  }

  lemma {:induction false} DotAddLeft(a: seq<real>, b: seq<real>, d: seq<real>)
    requires |a| == |b| == |d|
    ensures Dot(Add(a, b), d) == Dot(a, d) + Dot(b, d)
  {
    if a != [] {
      assert Add(a, b)[1..] == Add(a[1..], b[1..]);
      DotAddLeft(a[1..], b[1..], d[1..]);
      assert (a[0] + b[0]) * d[0] == a[0] * d[0] + b[0] * d[0];
    }
  }

  lemma {:induction false} DotAddRight(d: seq<real>, a: seq<real>, b: seq<real>)
    requires |a| == |b| == |d|
    ensures Dot(d, Add(a, b)) == Dot(d, a) + Dot(d, b)
  {
    if a != [] {
      assert Add(a, b)[1..] == Add(a[1..], b[1..]);
      DotAddRight(d[1..], a[1..], b[1..]);
      assert d[0] * (a[0] + b[0]) == d[0] * a[0] + d[0] * b[0];
    }
  }

  lemma {:induction false} DotScaleLeft(c: real, a: seq<real>, d: seq<real>)
    requires |a| == |d|
    ensures Dot(Scale(c, a), d) == c * Dot(a, d)
  {
    if a != [] {
      assert forall i :: 0 <= i < |a| - 1 ==> Scale(c, a)[1..][i] == Scale(c, a[1..])[i];
      assert Scale(c, a)[1..] == Scale(c, a[1..]);
      DotScaleLeft(c, a[1..], d[1..]);
      assert c * a[0] * d[0] + c * Dot(a[1..], d[1..]) == c * (a[0] * d[0] + Dot(a[1..], d[1..]));
    }
  }

  lemma {:induction false} DotZerosLeft(d: seq<real>)
    ensures Dot(Zeros(|d|), d) == 0.0
  {
    if d != [] {
      assert Zeros(|d|)[1..] == Zeros(|d[1..]|);
      DotZerosLeft(d[1..]);
    }
  }

  /** A zero entry of s contributes nothing to a dot product. */
  lemma {:induction false} DotDropZero(s: seq<real>, c: seq<real>, i: nat)
    requires |s| == |c| && i < |s| && s[i] == 0.0
    ensures Dot(s, c) == Dot(Without(s, i), Without(c, i))
  {
    WithoutTail(s, i);
    WithoutTail(c, i);
    if i > 0 {
      DotDropZero(s[1..], c[1..], i - 1);
    }
  }

  /** Without either drops the head (i == 0) or keeps it and recurses. */
  lemma {:induction false} WithoutTail<T>(s: seq<T>, i: nat)
    requires i < |s|
    ensures i == 0 ==> Without(s, i) == s[1..]
    ensures i > 0 ==> Without(s, i)[0] == s[0] && Without(s, i)[1..] == Without(s[1..], i - 1)
  {
    if i > 0 {
      assert s[..i] == [s[0]] + s[1..][..i - 1];
      assert s[i + 1..] == s[1..][i..];
    }
  }

  /** np.dot is linear in the weights: X(w + d) == Xw + Xd. */
  lemma {:induction false} MatVecAdd(X: seq<seq<real>>, w: seq<real>, d: seq<real>)
    requires |w| == |d| && RowsHaveLength(X, |w|)
    ensures MatVec(X, Add(w, d)) == Add(MatVec(X, w), MatVec(X, d))
  {
    forall i | 0 <= i < |X|
      ensures MatVec(X, Add(w, d))[i] == Add(MatVec(X, w), MatVec(X, d))[i]
    {
      DotAddRight(X[i], w, d);
    }
  }

  /** Moving the weights by d moves every residual by the matching entry of X d. */
  lemma {:induction false} LinearResidualShift(X: seq<seq<real>>, Y: seq<real>, W: seq<real>, d: seq<real>)
    requires LinearModelShapes(X, Y, W) && |d| == |W|
    ensures LinearModelShapes(X, Y, Add(W, d))
    ensures LinearResidual(X, Y, Add(W, d)) == Add(LinearResidual(X, Y, W), MatVec(X, d))
  {
    MatVecAdd(X, W, d);
  }

  /** (c s) X == c (s X). */
  lemma {:induction false} VecMatScale(c: real, s: seq<real>, X: seq<seq<real>>, n: nat)
    requires |s| == |X| && RowsHaveLength(X, n)
    ensures VecMat(Scale(c, s), X, n) == Scale(c, VecMat(s, X, n))
  {
    forall j | 0 <= j < n
      ensures VecMat(Scale(c, s), X, n)[j] == Scale(c, VecMat(s, X, n))[j]
    {
      DotScaleLeft(c, s, Column(X, n, j));
    }
  }

  /** The adjoint identity (s X) . d == s . (X d), which moves a weight
      direction d through the design matrix. */
  lemma {:induction false} DotVecMat(s: seq<real>, X: seq<seq<real>>, d: seq<real>)
    requires |s| == |X| && RowsHaveLength(X, |d|)
    ensures Dot(VecMat(s, X, |d|), d) == Dot(s, MatVec(X, d))
  {
    var n := |d|;
    if X == [] {
      assert VecMat(s, X, n) == Zeros(n);
      DotZerosLeft(d);
    } else {
      VecMatCons(s, X, n);
      DotAddLeft(Scale(s[0], X[0]), VecMat(s[1..], X[1..], n), d);
      DotVecMatHead(s, X, d);
      DotVecMat(s[1..], X[1..], d);
      MatVecCons(X, d);
    }
  }

  /** s X is the first row scaled by s[0] plus the rest of s times the rest
      of X. */
  lemma {:induction false} VecMatCons(s: seq<real>, X: seq<seq<real>>, n: nat)
    requires |s| == |X| > 0 && RowsHaveLength(X, n)
    ensures VecMat(s, X, n) == Add(Scale(s[0], X[0]), VecMat(s[1..], X[1..], n))
  {
    forall j | 0 <= j < n
      ensures VecMat(s, X, n)[j] == Add(Scale(s[0], X[0]), VecMat(s[1..], X[1..], n))[j]
    {
      assert Column(X, n, j)[1..] == Column(X[1..], n, j);
    }
  }

  /** The first row's share of (s X) . d. */
  lemma {:induction false} DotVecMatHead(s: seq<real>, X: seq<seq<real>>, d: seq<real>)
    requires |s| == |X| > 0 && RowsHaveLength(X, |d|)
    ensures Dot(Scale(s[0], X[0]), d) == s[0] * MatVec(X, d)[0]
  {
    DotScaleLeft(s[0], X[0], d);
  }

  /** X d is the first row's product with d followed by the rest's. */
  lemma {:induction false} MatVecCons(X: seq<seq<real>>, d: seq<real>)
    requires |X| > 0 && RowsHaveLength(X, |d|)
    ensures MatVec(X, d)[1..] == MatVec(X[1..], d)
  {
  }

  /** Dropping a sample whose coefficient is zero leaves s X unchanged. */
  lemma {:induction false} VecMatDropZero(s: seq<real>, X: seq<seq<real>>, n: nat, i: nat)
    requires |s| == |X| && RowsHaveLength(X, n) && i < |s| && s[i] == 0.0
    ensures RowsHaveLength(Without(X, i), n)
    ensures VecMat(s, X, n) == VecMat(Without(s, i), Without(X, i), n)
  {
    forall j | 0 <= j < n
      ensures VecMat(s, X, n)[j] == VecMat(Without(s, i), Without(X, i), n)[j]
    {
      assert Column(Without(X, i), n, j) == Without(Column(X, n, j), i);
      DotDropZero(s, Column(X, n, j), i);
    }
  }
}
