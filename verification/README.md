# Lane-line tracker

A Dafny model of the `Line` class of a lane-finding pipeline (`Line.py`). One
`Line` object follows one lane boundary (left or right) across the frames of a
video. Every frame the pipeline fits a quadratic `x = a*y^2 + b*y + c` to the
boundary's pixels and hands the three coefficients to `append_fit`. The object
keeps the most recent `n` fits in a bounded deque (`collections.deque(maxlen=n)`),
dropping the oldest once the deque is full. It stores the coefficient-wise mean
of the retained fits in `best_fit` and returns it; `get_best_fit` reads that
value back. The other fields of the object (`detected`, `recent_xfitted`, `bestx`,
`radius_of_curvature`, `line_base_pos`, `diffs`, `allx`, `ally`) are storage that
the surrounding pipeline reads and writes; the class only initialises them.

The model is the module `LaneLine` in `line.dfy`:

- `Fit` is a sequence of exactly three `real` coefficients.
- `FitArray` is the value of `best_fit`, which has two array shapes in the code.
  The constructor stores `[np.array([0,0,0])]`, a one-row stack (`Rows([Zero])`).
  After an append it holds the flat vector that the mean over axis 0 returns
  (`Vector(coeffs)`).
- `Push` is `deque.append` on a deque with `maxlen` `n`. `Window(all, n)` is the
  reference definition: the last `min(|all|, n)` fits of `all`, oldest first.
- `ColumnSum` and `Mean` are the exact coefficient-wise sum and arithmetic mean
  that `np.mean(..., axis=0)` computes.
- The class `Line` has the source's fields. The deque is a `seq<Fit>` field
  (`currentFit`) that `AppendFit` reassigns, and `maxLen` is the deque's
  capacity. The ghost field `appended` records every fit ever appended.
  `Valid()` ties the fields together: `currentFit` is `Window(appended, maxLen)`.
  `bestFit` is the zero stack before the first append and the mean of
  `currentFit` after it.
- `RepeatedReads` is a client method that relies only on the contracts. It
  shows that reading the best fit twice gives the value `AppendFit` returned.
  `EvictionExample` and `PerCoefficientExample` work through concrete histories.

Two details of the code differ from what a reader of the class's comments might
expect, and the model follows the code. First, the initial best fit is not a bare
zero vector: it is a list that wraps one zero array. Second, the constructor
does not reject a capacity of 0: `deque(maxlen=0)` is accepted and retains
nothing. The model requires a positive capacity instead (see "Left out").

## Model

| member | source | states |
|---|---|---|
| `LaneLine.Line.constructor` | Line.py:10-31 | the history is empty, the capacity is `n`, `best_fit` is the one-row stack holding `[0,0,0]`, `diffs` is `[0,0,0]`, `detected` is false, the list field is empty and the optional fields are unset; the object invariant holds |
| `LaneLine.Line.AppendFit` | Line.py:33-37 | keeps the invariant, so the history is always the last `min(k, n)` fits appended, in order. Below capacity the fit is appended to the history; at capacity the oldest fit is dropped first. The returned value is the coefficient-wise mean of the new history, and exactly that value is stored in `best_fit`. After the first append the result is the appended fit itself. The caller-owned fields are unchanged. |
| `LaneLine.Line.GetBestFit` | Line.py:39-40 | returns the stored `best_fit` and changes nothing (no `modifies`), so repeated reads agree. Under the invariant that value is the zero stack before any append and otherwise the mean of the last `min(k, n)` fits. |
| `LaneLine.Push` | Line.py:34 | appending to the bounded deque gives a deque of length `min(old length + 1, n)`, so it never exceeds the capacity |
| `LaneLine.PushFifo` | Line.py:20 | after a push the new fit is last. Before it stand the newest fits of the old deque in their old order; the oldest fit is dropped exactly when the deque was full. |
| `LaneLine.PushWindow` | Line.py:20 | pushing onto the last `min(k, n)` fits of a history gives the last `min(k+1, n)` fits of the history extended by the new fit (FIFO eviction agrees with the reference window) |
| `LaneLine.PushColumnSum` | Line.py:34-35 | per coefficient, the sum over the deque after a push is the old sum plus the new coefficient, less the evicted fit's coefficient when the deque was full |
| `LaneLine.Mean` | Line.py:35 | for a non-empty history of `k` fits, coefficient `i` of the result times `k` equals `ColumnSum(fits, i)`, the sum of coefficient `i` over all fits: the result is the exact arithmetic mean of each column |
| `LaneLine.ColumnSumFront` | Line.py:35 | the coefficient sum over a history splits at its oldest fit as well as at its newest |
| `LaneLine.MeanPerCoefficient` | Line.py:35 | coefficient `i` of the mean depends only on coefficient `i` of the stored fits: each coefficient is averaged independently |
| `LaneLine.MeanWithinBounds` | Line.py:35 | if coefficient `i` of every stored fit lies in `[lo, hi]`, so does coefficient `i` of the best fit (smoothing never leaves the range of its inputs) |
| `LaneLine.MeanOfConstant` | Line.py:35 | the mean of a history in which every entry is the same fit is that fit |
| `LaneLine.MeanOfSingle` | Line.py:34-35 | the mean of a one-entry history is that entry (a tracker's first append returns the appended fit) |
| `LaneLine.EvictionExample` | Line.py:33-37 | with capacity 3 and fits whose first coefficients are 1, 2, 3, 4, the window drops the first fit and the best fit is `[3, 0, 0]` |
| `LaneLine.PerCoefficientExample` | Line.py:35 | pushing `[1, 10, 100]` and then `[3, 20, 200]` into an empty deque of capacity 2 gives the best fit `[2, 15, 150]` |

## Left out

- Capacity `n <= 0` and `maxlen=None`: `deque(maxlen=0)` retains nothing, and the mean of an empty deque is NaN; a negative `maxlen` raises `ValueError`. `LaneLine.Line.constructor` requires `0 < n` instead of modelling NaN or the exception.
- Floating point: coefficients are `real` and the mean is exact division. numpy's float rounding and dtype promotion are not modelled, including the integer dtype of the initial `[np.array([0,0,0])]`.
- Malformed fits: a fit that is not a three-element numeric vector has no defined behaviour in the code. The `Fit` type only admits three-element sequences.
- Aliasing: the deque stores references to the caller's numpy arrays, and both `append_fit` and `get_best_fit` return the stored `best_fit` array object itself. The model keeps values, so later in-place changes made by the caller through such a reference are not captured; in the code, `get_best_fit` agrees with what `append_fit` returned (as `RepeatedReads` shows) only while the caller does not mutate that returned array.
- Caller-owned fields (`detected`, `recent_xfitted`, `bestx`, `radius_of_curvature`, `line_base_pos`, `diffs`, `allx`, `ally`): they are plain storage with their initial values. Their updates happen in pipeline code that is not part of this model.
- The imports of `cv2`, `matplotlib`, `pickle` and `numpy` (Line.py:1-6) serve image I/O and plotting, which the class does not use; only `np.mean` and `np.array` matter, modelled as above.
