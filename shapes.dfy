/** Shapes of tensors, as far as the decompositions need them: what ONNX Unsqueeze does to a shape
    and numpy's `atleast_1d/2d/3d`, which `hstack`, `vstack` and `dstack` apply before concatenating. */
module Shapes {

  /** The shape Unsqueeze produces from `shape` with `axes` (positions of the result): result
      dimension p is 1 when p is one of the axes and otherwise the next unused input dimension. */
  function Unsqueezed(shape: seq<nat>, axes: seq<int>): seq<nat> {
    Fill(shape, set a | a in axes, 0, |shape| + |axes|)
  }

  function Fill(shape: seq<nat>, axes: set<int>, p: int, remaining: nat): seq<nat>
    decreases remaining
  {
    if remaining == 0 then []
    else if p in axes then [1] + Fill(shape, axes, p + 1, remaining - 1)
    else if shape == [] then []
    else [shape[0]] + Fill(shape[1..], axes, p + 1, remaining - 1)
  }

  lemma {:induction false} FillNoAxes(shape: seq<nat>, axes: set<int>, p: int)
    requires forall a :: a in axes ==> a < p
    ensures Fill(shape, axes, p, |shape|) == shape
    decreases |shape|
  {
    if shape != [] {
      FillNoAxes(shape[1..], axes, p + 1);
    }
  }

  /** One step of Fill at a position that is not an axis: the next input dimension is copied. */
  lemma FillCopies(shape: seq<nat>, axes: set<int>, p: int, remaining: nat)
    requires remaining > 0 && p !in axes && shape != []
    ensures Fill(shape, axes, p, remaining) == [shape[0]] + Fill(shape[1..], axes, p + 1, remaining - 1)
  {
  }

  /** Fill started at its only axis: a 1, then the input unchanged. */
  lemma FillAtAxis(shape: seq<nat>, a: int)
    ensures Fill(shape, {a}, a, |shape| + 1) == shape[..0] + [1] + shape[0..]
  {
    assert Fill(shape, {a}, a, |shape| + 1) == [1] + Fill(shape, {a}, a + 1, |shape|);
    FillNoAxes(shape, {a}, a + 1);
    assert shape[..0] + [1] + shape[0..] == [1] + shape;
  }

  lemma ConsInsert(shape: seq<nat>, k: nat)
    requires 1 <= k <= |shape|
    ensures [shape[0]] + (shape[1..][..k - 1] + [1] + shape[1..][k - 1..]) == shape[..k] + [1] + shape[k..]
  {
    assert shape[..k] == [shape[0]] + shape[1..][..k - 1];
    assert shape[k..] == shape[1..][k - 1..];
  }

  lemma {:induction false} FillOneAxis(shape: seq<nat>, a: int, p: int)
    requires p <= a <= p + |shape|
    ensures Fill(shape, {a}, p, |shape| + 1) == shape[..a - p] + [1] + shape[a - p..]
    decreases |shape|
  {
    if a == p {
      FillAtAxis(shape, a);
    } else {
      FillCopies(shape, {a}, p, |shape| + 1);
      FillOneAxis(shape[1..], a, p + 1);
      ConsInsert(shape, a - p);
    }
  }

  /** Unsqueeze with one axis a, 0 <= a <= rank, inserts a dimension of extent 1 before input
      dimension a. */
  lemma InsertOneAxis(shape: seq<nat>, a: int)
    requires 0 <= a <= |shape|
    ensures Unsqueezed(shape, [a]) == shape[..a] + [1] + shape[a..]
  {
    assert (set x | x in [a]) == {a};
    FillOneAxis(shape, a, 0);
  }

  /** numpy's `atleast_2d`: a scalar becomes (1, 1), a vector (N,) becomes (1, N). */
  function AtLeast2d(shape: seq<nat>): seq<nat> {
    if |shape| == 0 then [1, 1] else if |shape| == 1 then [1] + shape else shape
  }

  /** numpy's `atleast_3d`: a scalar becomes (1, 1, 1), a vector (N,) becomes (1, N, 1), a matrix
      (M, N) becomes (M, N, 1). */
  function AtLeast3d(shape: seq<nat>): seq<nat> {
    if |shape| == 0 then [1, 1, 1]
    else if |shape| == 1 then [1] + shape + [1]
    else if |shape| == 2 then shape + [1]
    else shape
  }
}
