/** Array shapes in the window update of the forecast loop. The update appends
    the prediction to the window along the time axis, which joins two arrays the
    way concatenation does: they must have the same rank and agree on every
    axis but the joining one. */
module ArrayShapes {
  import opened Wrappers

  type Shape = seq<nat>

  /** Shape of joining arrays of shapes `a` and `b` along `axis`, `None`
      when the join raises. */
  function Concatenate(a: Shape, b: Shape, axis: nat): Option<Shape> {
    if |a| == |b| && axis < |a| && forall d :: 0 <= d < |a| && d != axis ==> a[d] == b[d]
    then Some(a[axis := a[axis] + b[axis]])
    else None
  }

  /** Wrapping an array in a one-element list adds a leading axis of extent 1. */
  function Nest(s: Shape): Shape {
    [1] + s
  }

  /** The model input: one sample, `w` time steps, one feature. */
  function WindowShape(w: nat): Shape {
    [1, w, 1]
  }

  /** `X_input[:, 1:, :]`: the time axis loses one step (none left to lose when empty). */
  function DropOldest(s: Shape): Shape
    requires |s| == 3
  {
    [s[0], if s[1] == 0 then 0 else s[1] - 1, s[2]]
  }

  /** What the network's predict returns for one sample: one row, one output unit. */
  const PredictShape: Shape := [1, 1]

  /** As written, the prediction is wrapped in two lists, which gives an array
      of rank 4 against the window's rank 3, so the join raises at the first
      step of the loop, whatever the window length. */
  lemma AppendAsWrittenRaises(w: nat)
    ensures |Nest(Nest(PredictShape))| == 4
    ensures Concatenate(DropOldest(WindowShape(w)), Nest(Nest(PredictShape)), 1) == None
  {
  }

  /** Wrapped in one list, the prediction has shape (1, 1, 1) and the join
      gives back the window's shape (1, w, 1), so every step keeps it. */
  lemma AppendCorrectedKeepsShape(w: nat)
    requires w >= 1
    ensures Concatenate(DropOldest(WindowShape(w)), Nest(PredictShape), 1) == Some(WindowShape(w))
  {
    var dropped, value := DropOldest(WindowShape(w)), Nest(PredictShape);
    assert dropped == [1, w - 1, 1] && value == [1, 1, 1];
    assert forall d :: 0 <= d < 3 && d != 1 ==> dropped[d] == value[d];
    assert dropped[1 := w] == WindowShape(w);
  }
}
