# Sliding windows and rolling forecast of the time-series walkthrough

The time-series script of QuickScripts fits several forecasting models to a
synthetic daily series. Nearly all of it is calls into numeric, statistical,
plotting and neural-network libraries. Two pieces are its own logic, and this
project models them:

- `create_sequences` turns a series into training pairs for the LSTM. Each
  pair is a window of `seq_length` consecutive observations and the
  observation right after it (module `Windowing`).
- The forecast loop starts from the last `seq_length` observations. It is
  meant to predict ten values one after the other, and after each prediction
  to drop the oldest element of the window and append the new value (module
  `Forecasting`). As written, the window update raises at the first step
  (see Findings); the model runs the corrected update.

The elements are never inspected, so both pieces are generic in the element
type `T`. The scaled rows the script passes in never appear as numbers.
The trained network's `predict` is a parameter `predict: seq<T> -> T`: any
function from a window to a value. A series and its windows are Dafny `seq`
values, so a method cannot modify its input series.

Each loop is a `method` with a `while` loop and invariants. It is proved equal
to a recursive specification function (`Windows`/`Labels`,
`Predictions`/`WindowAfter`). The lemmas then give that function closed forms:
per-index contents, counts, order, and the window as a suffix of history plus
forecast.

Module `ArrayShapes` models the array shapes in the window update at line 128.
It exists for the finding below.

Behaviour kept from the code:

- `range(len(data) - seq_length)` with a negative bound is an empty loop. So a
  window length at least the series length gives two empty outputs, not an
  error.
- A window length of 0 is accepted by `create_sequences`. The windows are then
  empty and the labels are the whole series.
- `scaled_data[-seq_length:]` is the whole series when `seq_length` is 0 (since
  `-0` is `0`) or exceeds the length. The reshape to `(1, seq_length, 1)` then
  raises unless the slice has exactly `seq_length` rows. `InitialWindow` returns
  `None` in that case.

## Model

| member | source | states |
|---|---|---|
| `Windowing.CreateSequences` | TimeSeries/timeSeries.py:93-99 | both outputs have length max(0, len(data) - seq_length); window i is data[i .. i+seq_length) and has length seq_length; label i is data[i + seq_length]; the outputs equal the reference `Windows`/`Labels` |
| `Windowing.Windows` | TimeSeries/timeSeries.py:96-97 | the reference windows number max(0, len(data) - seq_length), and every window has length seq_length |
| `Windowing.Labels` | TimeSeries/timeSeries.py:96-98 | there are exactly as many labels as windows |
| `Windowing.WindowAt` | TimeSeries/timeSeries.py:97 | window i is the slice data[i .. i+w) and has length w |
| `Windowing.LabelAt` | TimeSeries/timeSeries.py:98 | label i is data[i + w] |
| `Windowing.ShortSeriesIsEmpty` | TimeSeries/timeSeries.py:96 | when w >= len(data), windows and labels are both empty |
| `Windowing.LabelFollowsWindow` | TimeSeries/timeSeries.py:97-98 | window i followed by label i is the slice data[i .. i+w+1): the label is the element right after its window |
| `Windowing.NextWindow` | TimeSeries/timeSeries.py:96-98 | windows come in increasing start order: window i+1 is window i without its first element, with label i appended |
| `Windowing.Characterization` | TimeSeries/timeSeries.py:96-98 | a sequence equals the windows (labels) if and only if it has the window count as its length and its entry i is data[i .. i+w) (data[i+w]) |
| `Forecasting.SliceFromEnd` | TimeSeries/timeSeries.py:123 | `scaled_data[-seq_length:]` is a suffix of the series: of length seq_length when 0 < seq_length <= len(data), and the whole series otherwise (seq_length 0, since -0 is 0, or longer than the series) |
| `Forecasting.InitialWindow` | TimeSeries/timeSeries.py:123 | the sliced and reshaped input exists exactly when seq_length <= len(data) and (seq_length > 0 or the series is empty); it is then the last seq_length observations |
| `Forecasting.Step` | TimeSeries/timeSeries.py:128 | one slide keeps a non-empty window's length; its last element is the new prediction; the others are the old window shifted left by one |
| `Forecasting.Predictions` | TimeSeries/timeSeries.py:125-127 | after n steps the forecast list has exactly n entries |
| `Forecasting.WindowAfter` | TimeSeries/timeSeries.py:124-128 | the window `X_input` after n rebindings: a non-empty window keeps its length through any number of steps; an empty one holds one element after the first step |
| `Forecasting.PredictionsPrefix` | TimeSeries/timeSeries.py:125-127 | the first k entries of a longer forecast are the forecast of k steps: the list only grows by appending |
| `Forecasting.PredictionAt` | TimeSeries/timeSeries.py:126-127 | forecast entry k is the model applied to the window after k steps |
| `Forecasting.WindowIsLatestHistory` | TimeSeries/timeSeries.py:124-128 | after n steps a non-empty window is (initial window + forecast) with its first n elements dropped |
| `Forecasting.RollingForecast` | TimeSeries/timeSeries.py:124-128 | the loop's forecast has one entry per step; the final window keeps the initial length, ends with the last prediction, and is the latest part of window + forecast; each prediction k is the model applied to the last len(window) values of the history so far |
| `Forecasting.LstmForecast` | TimeSeries/timeSeries.py:123-128 | with the window update corrected, the forecasting stage returns a result exactly when the initial reshape does not raise; it then yields exactly 10 predictions, made from the last seq_length observations |
| `ArrayShapes.AppendAsWrittenRaises` | TimeSeries/timeSeries.py:126-128 | the prediction wrapped as `[[next_value]]` has rank 4; joining it to the rank-3 window along axis 1 raises, for every window length |
| `ArrayShapes.AppendCorrectedKeepsShape` | TimeSeries/timeSeries.py:128 | with the prediction wrapped once, its shape is (1, 1, 1); the join gives back the window shape (1, w, 1) |

## Left out

- Everything else in the script is left out: synthetic data generation, plots, the ARIMA and Prophet fits, the moving averages, the decomposition and the stationarity test. All of it is library code, and random generation and plotting are nondeterministic or I/O.
- The other scripts (numpy, pandas and matplotlib demos, `summary.py`, `overview.py`) are left out. They only call library routines.
- Training and running the LSTM are left out. They are foreign calls, and `predict` is an abstract parameter.
- `MinMaxScaler` scaling and its inverse are left out. They are floating-point work in a library, and the elements are generic.
- The `np.array` conversion of the outputs and the 3-D reshape of `X` are left out. A window is a plain sequence of elements. The reshape of the initial window counts only for when it raises: the model keeps that condition.
- A negative `seq_length` is left out. It depends on Python's negative-slice semantics, so the window length is a `nat`.
- `Forecasting.RollingForecast` takes the corrected window update described under Findings. With the update as written, the loop raises at its first step.
- `Forecasting.Step` models the corrected update `np.append(X_input[:, 1:, :], [next_value], axis=1)`, not the line as written, which raises.
- `Forecasting.LstmForecast` models the forecasting stage with that corrected update. As written, the script makes one prediction and then raises, so it never returns ten values.
- The shape helpers `ArrayShapes.Concatenate`, `ArrayShapes.Nest` and `ArrayShapes.DropOldest`, and the count `Windowing.WindowCount`, carry no contract of their own: their definitions are the plain shape and count rules, and the lemmas in the table state what follows from them.

## Findings

| source | as written | input that shows it | evidently intended | confidence | as-written member | corrected member |
|---|---|---|---|---|---|---|
| TimeSeries/timeSeries.py:126-128 | `np.append(X_input[:, 1:, :], [[next_value]], axis=1)`, where `next_value` is the `(1, 1)` array that `predict` returns | any run: at the first step `X_input[:, 1:, :]` has shape `(1, 9, 1)` and `[[next_value]]` has shape `(1, 1, 1, 1)`; appending along an axis needs equal ranks, so the call raises | append the prediction as a `(1, 1, 1)` array, e.g. `[next_value]`, so the window keeps shape `(1, seq_length, 1)` and the loop runs 10 steps | medium; not executed | `ArrayShapes.AppendAsWrittenRaises` | `ArrayShapes.AppendCorrectedKeepsShape`, with `Forecasting.Step` and `Forecasting.RollingForecast` |
