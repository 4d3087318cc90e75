/** The sliding-window transform that turns a series into supervised training
    pairs for a one-step-ahead sequence model: every window of `w` consecutive
    elements, paired with the element that follows it. The elements are never
    inspected, so the transform is generic in their type. */
module Windowing {

  /** How many windows of length `w` a series of length `n` has: max(0, n - w). */
  function WindowCount(n: nat, w: nat): nat {
    if n > w then n - w else 0
  }

  /** Reference definition of the windows, by recursion on the series:
      the first window, then the windows of the series without its head. */
  function Windows<T>(data: seq<T>, w: nat): (r: seq<seq<T>>)
    ensures |r| == WindowCount(|data|, w)
    ensures forall k :: 0 <= k < |r| ==> |r[k]| == w
    decreases |data|
  {
    if |data| <= w then [] else [data[..w]] + Windows(data[1..], w)
  }

  /** Reference definition of the labels: the element after the first window,
      then the labels of the series without its head. */
  function Labels<T>(data: seq<T>, w: nat): (r: seq<T>)
    ensures |r| == WindowCount(|data|, w)
    decreases |data|
  {
    if |data| <= w then [] else [data[w]] + Labels(data[1..], w)
  }

  /** Window `i` is the slice of the series that starts at `i` and has length `w`. */
  lemma {:induction false} WindowAt<T>(data: seq<T>, w: nat, i: nat)
    requires i < WindowCount(|data|, w)
    ensures |Windows(data, w)[i]| == w
    ensures Windows(data, w)[i] == data[i..i + w]
  {
    if i > 0 {
      WindowAt(data[1..], w, i - 1);
      assert data[1..][i - 1..i - 1 + w] == data[i..i + w];
    }
  }

  /** Label `i` is the element `w` places after the start of window `i`. */
  lemma {:induction false} LabelAt<T>(data: seq<T>, w: nat, i: nat)
    requires i < WindowCount(|data|, w)
    ensures Labels(data, w)[i] == data[i + w]
  {
    if i > 0 {
      LabelAt(data[1..], w, i - 1);
    }
  }

  /** A series no longer than the window yields no windows and no labels. */
  lemma ShortSeriesIsEmpty<T>(data: seq<T>, w: nat)
    requires |data| <= w
    ensures Windows(data, w) == [] && Labels(data, w) == []
  {
  }

  /** Label `i` is the element right after window `i`: together they are the
      slice of length `w + 1` starting at `i`. */
  lemma LabelFollowsWindow<T>(data: seq<T>, w: nat, i: nat)
    requires i < WindowCount(|data|, w)
    ensures Windows(data, w)[i] + [Labels(data, w)[i]] == data[i..i + w + 1]
  {
    WindowAt(data, w, i);
    LabelAt(data, w, i);
  }

  /** Windows come in increasing order of their start: window `i + 1` is
      window `i` without its oldest element, followed by label `i`. (With an
      empty window there is no oldest element to drop.) */
  lemma NextWindow<T>(data: seq<T>, w: nat, i: nat)
    requires w >= 1
    requires i + 1 < WindowCount(|data|, w)
    ensures Windows(data, w)[i + 1] == Windows(data, w)[i][1..] + [Labels(data, w)[i]]
  {
    WindowAt(data, w, i);
    WindowAt(data, w, i + 1);
    LabelAt(data, w, i);
    SliceShift(data, i, w);
  }

  /** Sliding a slice one place to the right drops its first element and
      takes in the one after its end. */
  lemma SliceShift<T>(s: seq<T>, i: nat, w: nat)
    requires 1 <= w && i + w < |s|
    ensures s[i..i + w][1..] + [s[i + w]] == s[i + 1..i + 1 + w]
  {
  }

  /** The windows are exactly the sequences of the right count whose entries
      are the slices of the series, and the labels likewise. */
  lemma Characterization<T>(data: seq<T>, w: nat, ws: seq<seq<T>>, ls: seq<T>)
    ensures ws == Windows(data, w) <==>
              |ws| == WindowCount(|data|, w) &&
              forall i :: 0 <= i < |ws| ==> ws[i] == data[i..i + w]
    ensures ls == Labels(data, w) <==>
              |ls| == WindowCount(|data|, w) &&
              forall i :: 0 <= i < |ls| ==> ls[i] == data[i + w]
  {
    forall i | 0 <= i < WindowCount(|data|, w)
      ensures Windows(data, w)[i] == data[i..i + w]
      ensures Labels(data, w)[i] == data[i + w]
    {
      WindowAt(data, w, i);
      LabelAt(data, w, i);
    }
  }

  /** `create_sequences`: one left-to-right pass over the series, appending a
      window and its label per start index. A window length at least the
      series length gives an empty range and so empty outputs. */
  method CreateSequences<T>(data: seq<T>, seqLength: nat) returns (sequences: seq<seq<T>>, labels: seq<T>)
    ensures |sequences| == |labels| == WindowCount(|data|, seqLength)
    ensures forall i :: 0 <= i < |sequences| ==>
              |sequences[i]| == seqLength && sequences[i] == data[i..i + seqLength]
    ensures forall i :: 0 <= i < |labels| ==> labels[i] == data[i + seqLength]
    ensures sequences == Windows(data, seqLength) && labels == Labels(data, seqLength)
  {
    sequences, labels := [], [];
    // range(len(data) - seq_length): a negative bound is an empty range
    var bound: int := |data| - seqLength;
    var i := 0;
    while i < bound
      invariant 0 <= i <= WindowCount(|data|, seqLength)
      invariant |sequences| == |labels| == i
      invariant forall k :: 0 <= k < i ==> sequences[k] == data[k..k + seqLength]
      invariant forall k :: 0 <= k < i ==> labels[k] == data[k + seqLength]
    {
      sequences := sequences + [data[i..i + seqLength]];
      labels := labels + [data[i + seqLength]];
      i := i + 1;
    }
    Characterization(data, seqLength, sequences, labels);
  }
}
