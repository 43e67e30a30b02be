/** Batch slicing in `_get_anomaly_score_losses`: the frame is cut into
    `batch_size`-row slices, each slice is scored, and the per-slice losses
    are concatenated. Python's floor division and modulo are written out. */
module Batching {
  import opened Wrappers

  /** Python `a // b` (rounds toward negative infinity). */
  function FloorDiv(a: int, b: int): (q: int)
    requires b != 0
    ensures b > 0 ==> q * b <= a < q * b + b
    ensures b < 0 ==> q * b + b < a <= q * b
  {
    if b > 0 then a / b else (-a) / (-b)
  }

  /** Python `a % b` (takes the sign of the divisor). */
  function PyMod(a: int, b: int): (m: int)
    requires b != 0
    ensures a == FloorDiv(a, b) * b + m
    ensures b > 0 ==> 0 <= m < b
    ensures b < 0 ==> b < m <= 0
  {
    a - FloorDiv(a, b) * b
  }

  /** `n_batches`: `n // bs`, plus one when `n % bs > 0`. */
  function NumBatches(n: nat, bs: int): int
    requires bs != 0
  {
    FloorDiv(n, bs) + (if PyMod(n, bs) > 0 then 1 else 0)
  }

  /** A positive batch size gives the ceiling of n / bs batches, which cover
      every row and leave no batch empty; a negative one gives no batch. */
  lemma NumBatchesIsCeiling(n: nat, bs: int)
    requires bs != 0
    ensures bs > 0 && n > 0 ==> NumBatches(n, bs) >= 1 && (NumBatches(n, bs) - 1) * bs < n <= NumBatches(n, bs) * bs
    ensures n == 0 ==> NumBatches(n, bs) == 0
    ensures bs < 0 ==> NumBatches(n, bs) <= 0
  {
    if bs > 0 && n > 0 {
      var q := FloorDiv(n, bs);
      if PyMod(n, bs) > 0 {
        assert q * bs < n;
      } else {
        assert n == q * bs;
      }
    }
  }

  /** Row `lo` up to but not including `hi` clipped to the frame, like `df.iloc[lo:hi]`. */
  function ILoc<T>(rows: seq<T>, lo: nat, hi: nat): (s: seq<T>)
    ensures |s| <= |rows|
  {
    if lo >= |rows| then [] else rows[lo..if hi < |rows| then (if hi < lo then lo else hi) else |rows|]
  }

  lemma MulMonotone(a: int, b: int, c: int)
    requires a <= b && c > 0
    ensures a * c <= b * c
  {
    assert b * c - a * c == (b - a) * c;
  }

  /** Batch `i` of a positive batch size is the contiguous run of rows from
      `i * bs`: never empty, exactly `bs` rows long except possibly the last. */
  lemma BatchSlice<T>(rows: seq<T>, bs: int, i: nat)
    requires bs > 0 && i < NumBatches(|rows|, bs)
    ensures i * bs < |rows|
    ensures ILoc(rows, i * bs, (i + 1) * bs) == rows[i * bs .. if (i + 1) * bs < |rows| then (i + 1) * bs else |rows|]
    ensures |ILoc(rows, i * bs, (i + 1) * bs)| > 0
    ensures i + 1 < NumBatches(|rows|, bs) ==> |ILoc(rows, i * bs, (i + 1) * bs)| == bs
  {
    NumBatchesIsCeiling(|rows|, bs);
    var nb := NumBatches(|rows|, bs);
    MulMonotone(i, nb - 1, bs);
    if i + 1 < nb {
      MulMonotone(i + 1, nb - 1, bs);
    }
    assert (i + 1) * bs == i * bs + bs;
  }

  /** Scores every row of `rows` by `score`, `batchSize` rows at a time; the
      per-batch results are concatenated as `torch.cat(..., dim=0)` does.
      `prep` is the error `prepare_df` raises on the frame, if any (see
      `Features.PrepareDf`): it depends only on the frame's columns and the
      registries, so every slice raises it and the first slice stops the
      loop. `catCount` is the number of categorical features: the
      per-feature cce columns of each batch are joined with `torch.cat`,
      which fails on an empty list, as does the final `torch.cat` when there
      was no batch. */
  method AnomalyScoreLosses<T, U>(rows: seq<T>, batchSize: int, prep: Option<PyError>, catCount: nat, score: T -> U)
    returns (r: Result<seq<U>>)
    ensures batchSize == 0 ==> r == Err(ZeroDivisionError)
    ensures batchSize != 0 ==> (r.Ok? <==> |rows| > 0 && batchSize > 0 && prep.None? && catCount > 0)
    ensures batchSize > 0 && |rows| > 0 && prep.Some? ==> r == Err(prep.value)
    ensures batchSize != 0 && r.Err? && prep.None? ==> r.error == RuntimeError
    ensures r.Ok? ==> |r.value| == |rows| && forall i :: 0 <= i < |rows| ==> r.value[i] == score(rows[i])
  {
    if batchSize == 0 {
      return Err(ZeroDivisionError);
    }
    var nBatches := FloorDiv(|rows|, batchSize);
    if PyMod(|rows|, batchSize) > 0 {
      nBatches := nBatches + 1;
    }
    NumBatchesIsCeiling(|rows|, batchSize);
    if nBatches <= 0 {
      return Err(RuntimeError);
    }
    var out: seq<U> := [];
    var i := 0;
    while i < nBatches
      invariant 0 <= i <= nBatches
      invariant i > 0 ==> prep.None? && catCount > 0
      invariant |out| == if i * batchSize < |rows| then i * batchSize else |rows|
      invariant forall k :: 0 <= k < |out| ==> out[k] == score(rows[k])
    {
      var start := i * batchSize;
      var stop := (i + 1) * batchSize;
      var slice := ILoc(rows, start, stop);
      if prep.Some? {
        return Err(prep.value);
      }
      if catCount == 0 {
        return Err(RuntimeError);
      }
      var losses := seq(|slice|, k requires 0 <= k < |slice| => score(slice[k]));
      out := out + losses;
      i := i + 1;
    }
    assert nBatches * batchSize >= |rows|;
    return Ok(out);
  }
}
