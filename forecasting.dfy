/** The rolling multi-step forecast of the LSTM walkthrough: the last
    `seqLength` observations form the input window; each step asks the trained
    model for the next value, records it, and slides the window one place so
    that the prediction becomes its newest element. The trained network is an
    arbitrary function from a window to a value. */
module Forecasting {
  import opened Wrappers

  /** Number of forecast steps: `range(10)`. */
  const Horizon: nat := 10

  /** Python's `data[-n:]`: the last `n` elements, the whole series when `n`
      exceeds its length, and also the whole series when `n` is 0, since
      `-0` is `0`. */
  function SliceFromEnd<T>(data: seq<T>, n: nat): (r: seq<T>)
    ensures |r| == if 0 < n <= |data| then n else |data|
    ensures r == data[|data| - |r|..]
  {
    if n == 0 || n >= |data| then data else data[|data| - n..]
  }

  /** The model input `scaled_data[-seq_length:].reshape((1, seq_length, 1))`.
      The reshape raises unless the slice holds exactly `seqLength` rows,
      which is `None` here. */
  function InitialWindow<T>(data: seq<T>, seqLength: nat): (r: Option<seq<T>>)
    ensures r.Some? <==> seqLength <= |data| && (seqLength > 0 || |data| == 0)
    ensures r.Some? ==> |r.value| == seqLength && r.value == data[|data| - seqLength..]
  {
    var rows := SliceFromEnd(data, seqLength);
    if |rows| == seqLength then Some(rows) else None
  }

  /** One slide of the window: `X_input[:, 1:, :]` with the prediction
      appended along the time axis (an empty window has nothing to drop). */
  function Step<T>(window: seq<T>, next: T): (r: seq<T>)
    ensures |r| == if |window| == 0 then 1 else |window|
    ensures r[|r| - 1] == next
    ensures forall k :: 0 <= k < |r| - 1 ==> r[k] == window[k + 1]
  {
    (if |window| == 0 then [] else window[1..]) + [next]
  }

  /** The input window after `n` steps, step by step. A non-empty window
      keeps its length through every step; an empty one holds just the
      newest prediction after the first step. */
  function WindowAfter<T>(window: seq<T>, n: nat, predict: seq<T> -> T): (r: seq<T>)
    ensures |r| == if n == 0 || |window| >= 1 then |window| else 1
  {
    if n == 0 then window
    else
      var prev := WindowAfter(window, n - 1, predict);
      Step(prev, predict(prev))
  }

  /** The forecast list after `n` steps: one prediction per step, each made
      on the window as it stood before that step. */
  function Predictions<T>(window: seq<T>, n: nat, predict: seq<T> -> T): (r: seq<T>)
    ensures |r| == n
  {
    if n == 0 then []
    else Predictions(window, n - 1, predict) + [predict(WindowAfter(window, n - 1, predict))]
  }

  /** The first `k` predictions of a longer run are the predictions of a run of `k` steps. */
  lemma {:induction false} PredictionsPrefix<T>(window: seq<T>, n: nat, k: nat, predict: seq<T> -> T)
    requires k <= n
    ensures Predictions(window, n, predict)[..k] == Predictions(window, k, predict)
  {
    if k < n {
      PredictionsPrefix(window, n - 1, k, predict);
      assert Predictions(window, n, predict)[..n - 1] == Predictions(window, n - 1, predict);
    }
  }

  /** Prediction `k` is the model applied to the window after `k` steps. */
  lemma PredictionAt<T>(window: seq<T>, n: nat, k: nat, predict: seq<T> -> T)
    requires k < n
    ensures Predictions(window, n, predict)[k] == predict(WindowAfter(window, k, predict))
  {
    PredictionsPrefix(window, n, k + 1, predict);
    assert Predictions(window, n, predict)[k] == Predictions(window, n, predict)[..k + 1][k];
  }

  /** After `n` steps a non-empty window holds the latest `|window|` values of
      the history followed by the forecast: the oldest `n` have slid out. */
  lemma {:induction false} WindowIsLatestHistory<T>(window: seq<T>, n: nat, predict: seq<T> -> T)
    requires |window| >= 1
    ensures WindowAfter(window, n, predict) == (window + Predictions(window, n, predict))[n..]
  {
    if n > 0 {
      WindowIsLatestHistory(window, n - 1, predict);
      var prev := WindowAfter(window, n - 1, predict);
      var p := predict(prev);
      var before := window + Predictions(window, n - 1, predict);
      assert prev == before[n - 1..];
      assert window + Predictions(window, n, predict) == before + [p];
      assert before[n - 1..][1..] + [p] == (before + [p])[n..];
    }
  }

  /** The forecast loop: `steps` rounds of predict, record, slide; the
      script runs 10 (`Horizon`). */
  method RollingForecast<T>(initial: seq<T>, steps: nat, predict: seq<T> -> T)
    returns (forecast: seq<T>, window: seq<T>)
    ensures forecast == Predictions(initial, steps, predict)
    ensures window == WindowAfter(initial, steps, predict)
    ensures |forecast| == steps
    ensures steps >= 1 ==> |window| >= 1 && window[|window| - 1] == forecast[steps - 1]
    ensures |initial| >= 1 ==> |window| == |initial| && window == (initial + forecast)[steps..]
    ensures |initial| >= 1 ==> forall k :: 0 <= k < steps ==>
              forecast[k] == predict((initial + forecast[..k])[k..])
  {
    forecast, window := [], initial;
    var i := 0;
    while i < steps
      invariant i <= steps
      invariant forecast == Predictions(initial, i, predict)
      invariant window == WindowAfter(initial, i, predict)
    {
      var next := predict(window);
      forecast := forecast + [next];
      window := Step(window, next);
      i := i + 1;
    }
    if |initial| >= 1 {
      WindowIsLatestHistory(initial, steps, predict);
      forall k | 0 <= k < steps
        ensures forecast[k] == predict((initial + forecast[..k])[k..])
      {
        PredictionAt(initial, steps, k, predict);
        PredictionsPrefix(initial, steps, k, predict);
        WindowIsLatestHistory(initial, k, predict);
      }
    }
  }

  /** The forecasting stage with the window update corrected as `Step`
      does: build the input window from the end of the scaled series, then
      forecast `Horizon` steps. `None` when the reshape of the initial window
      raises. (The script's own update raises at the first step; see
      `ArrayShapes.AppendAsWrittenRaises`.) */
  method LstmForecast<T>(scaledData: seq<T>, seqLength: nat, predict: seq<T> -> T)
    returns (r: Option<seq<T>>)
    ensures r.Some? <==> seqLength <= |scaledData| && (seqLength > 0 || |scaledData| == 0)
    ensures r.Some? ==> |r.value| == Horizon
    ensures r.Some? ==> r.value == Predictions(scaledData[|scaledData| - seqLength..], Horizon, predict)
  {
    var start := InitialWindow(scaledData, seqLength);
    if start.None? {
      return None;
    }
    var forecast, _ := RollingForecast(start.value, Horizon, predict);
    r := Some(forecast);
  }
}
