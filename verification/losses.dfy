/** Loss composition of one batch (`_compute_loss_from_targets`,
    `_do_backward`): the per-unit loss list the logger receives and whose
    mean is reported, and the scalar that is back-propagated. Elementwise
    losses are abstract reals. */
module Losses {

  /** A torch scalar: a real, or the NaN that `mean()` of an empty tensor gives. */
  datatype Scalar = Real(v: real) | NaN {
    function Plus(o: Scalar): (r: Scalar)
      ensures r.Real? <==> Real? && o.Real?
    {
      if Real? && o.Real? then Real(v + o.v) else NaN
    }
  }

  function Sum(xs: seq<real>): real {
    if xs == [] then 0.0 else Sum(xs[..|xs| - 1]) + xs[|xs| - 1]
  }

  /** `np.array(xs).mean()`. */
  function Mean(xs: seq<real>): (m: Scalar)
    ensures m.Real? <==> |xs| > 0
    ensures m.Real? ==> m.v * (|xs| as real) == Sum(xs)
  {
    if xs == [] then NaN else Real(Sum(xs) / |xs| as real)
  }

  lemma {:induction false} SumConcat(a: seq<real>, b: seq<real>)
    ensures Sum(a + b) == Sum(a) + Sum(b)
    decreases |b|
  {
    if b != [] {
      assert (a + b)[..|a + b| - 1] == a + b[..|b| - 1];
      SumConcat(a, b[..|b| - 1]);
    } else {
      assert a + b == a;
    }
  }

  /** Rows of a batch-by-columns loss matrix, all `cols` wide. */
  predicate Rect(m: seq<seq<real>>, cols: nat) {
    forall i :: 0 <= i < |m| ==> |m[i]| == cols
  }

  function Column(m: seq<seq<real>>, cols: nat, j: nat): (c: seq<real>)
    requires Rect(m, cols) && j < cols
    ensures |c| == |m| && forall i :: 0 <= i < |m| ==> c[i] == m[i][j]
  {
    seq(|m|, i requires 0 <= i < |m| => m[i][j])
  }

  /** The column sums of a matrix, one per column. */
  function ColumnSums(m: seq<seq<real>>, cols: nat): (s: seq<real>)
    requires Rect(m, cols)
    ensures |s| == cols && forall j :: 0 <= j < cols ==> s[j] == Sum(Column(m, cols, j))
  {
    seq(cols, j requires 0 <= j < cols => Sum(Column(m, cols, j)))
  }

  /** `loss.mean(dim=0)`: the mean of each column over the rows of the batch. */
  function ColumnMeans(m: seq<seq<real>>, cols: nat): (s: seq<real>)
    requires Rect(m, cols) && |m| > 0
    ensures |s| == cols && forall j :: 0 <= j < cols ==> s[j] == Sum(Column(m, cols, j)) / |m| as real
  {
    seq(cols, j requires 0 <= j < cols => Sum(Column(m, cols, j)) / |m| as real)
  }

  /** All cells, row after row. */
  function Flatten(m: seq<seq<real>>): seq<real> {
    if m == [] then [] else Flatten(m[..|m| - 1]) + m[|m| - 1]
  }

  lemma {:induction false} FlattenLength(m: seq<seq<real>>, cols: nat)
    requires Rect(m, cols)
    ensures |Flatten(m)| == |m| * cols
  {
    if m != [] {
      var n := |m| - 1;
      FlattenLength(m[..n], cols);
      assert |Flatten(m)| == n * cols + cols;
      assert n * cols + cols == (n + 1) * cols;
    }
  }

  /** `loss.mean()`: the mean over every cell of the batch. */
  function MeanAll(m: seq<seq<real>>): Scalar {
    Mean(Flatten(m))
  }

  lemma {:induction false} SumPointwise(a: seq<real>, b: seq<real>, c: seq<real>)
    requires |a| == |b| == |c|
    requires forall j :: 0 <= j < |c| ==> c[j] == a[j] + b[j]
    ensures Sum(c) == Sum(a) + Sum(b)
  {
    if c != [] {
      var n := |c| - 1;
      SumPointwise(a[..n], b[..n], c[..n]);
    }
  }

  lemma {:induction false} SumScaled(a: seq<real>, b: seq<real>, k: real)
    requires k != 0.0
    requires |a| == |b| && forall j :: 0 <= j < |b| ==> b[j] == a[j] / k
    ensures Sum(b) == Sum(a) / k
  {
    if b != [] {
      var n := |b| - 1;
      SumScaled(a[..n], b[..n], k);
    }
  }

  /** Summing a matrix column by column gives the sum of all its cells. */
  lemma {:induction false} SumByColumns(m: seq<seq<real>>, cols: nat)
    requires Rect(m, cols)
    ensures Sum(ColumnSums(m, cols)) == Sum(Flatten(m))
  {
    if m == [] {
      assert forall j :: 0 <= j < cols ==> Column(m, cols, j) == [];
      var z := ColumnSums(m, cols);
      SumPointwise(z, z, z);
    } else {
      var n := |m| - 1;
      var init := m[..n];
      SumByColumns(init, cols);
      SumConcat(Flatten(init), m[n]);
      forall j | 0 <= j < cols
        ensures ColumnSums(m, cols)[j] == ColumnSums(init, cols)[j] + m[n][j]
      {
        assert Column(m, cols, j)[..n] == Column(init, cols, j);
      }
      SumPointwise(ColumnSums(init, cols), m[n], ColumnSums(m, cols));
    }
  }

  /** The mean over every cell equals the mean of the column means: the
      numeric (binary) term of the back-propagated loss is the mean of the
      numeric (binary) entries of the reported loss list. */
  lemma MeanAllIsMeanOfColumnMeans(m: seq<seq<real>>, cols: nat)
    requires Rect(m, cols) && |m| > 0 && cols > 0
    ensures MeanAll(m) == Mean(ColumnMeans(m, cols))
  {
    SumOfColumnMeans(m, cols);
    FlattenLength(m, cols);
    CastProduct(|m|, cols);
    MeanOfMeans(Sum(Flatten(m)), Sum(ColumnMeans(m, cols)), |m| as real, cols as real, |Flatten(m)| as real);
  }

  /** The column means add up to the total over the cells divided by the rows. */
  lemma SumOfColumnMeans(m: seq<seq<real>>, cols: nat)
    requires Rect(m, cols) && |m| > 0
    ensures Sum(ColumnMeans(m, cols)) == Sum(Flatten(m)) / |m| as real
  {
    SumByColumns(m, cols);
    SumScaled(ColumnSums(m, cols), ColumnMeans(m, cols), |m| as real);
  }

  /** The arithmetic core: dividing a total by rows and then by columns
      divides it by the number of cells. */
  lemma MeanOfMeans(total: real, sumMeans: real, rows: real, c: real, cells: real)
    requires rows > 0.0 && c > 0.0
    requires sumMeans == total / rows && cells == rows * c
    ensures total / cells == sumMeans / c
  {
    DivideTwice(total, rows, c);
  }

  lemma CastProduct(a: nat, b: nat)
    ensures (a * b) as real == (a as real) * (b as real)
  {
  }

  lemma DivideTwice(t: real, r: real, c: real)
    requires r > 0.0 && c > 0.0
    ensures (t / r) / c == t / (r * c)
  {
  }

  /** The losses of one batch: `mse` and `bce` are rows-by-columns matrices
      of elementwise losses, `cce` holds one per-row loss vector for each
      categorical feature. */
  datatype BatchLoss = BatchLoss(numCols: nat, binCols: nat, mse: seq<seq<real>>, bce: seq<seq<real>>, cce: seq<seq<real>>) {
    predicate WellFormed() {
      && |mse| > 0
      && |bce| == |mse|
      && Rect(mse, numCols)
      && Rect(bce, binCols)
      && forall c :: 0 <= c < |cce| ==> |cce[c]| == |mse|
    }

    function Rows(): nat { |mse| }
  }

  /** The mean loss of each categorical feature over the batch. */
  function CategoricalMeans(b: BatchLoss): (s: seq<real>)
    requires b.WellFormed()
    ensures |s| == |b.cce|
    ensures forall c :: 0 <= c < |b.cce| ==> s[c] == Sum(b.cce[c]) / b.Rows() as real
  {
    seq(|b.cce|, c requires 0 <= c < |b.cce| => Sum(b.cce[c]) / b.Rows() as real)
  }

  /** The per-unit list: numeric column means, binary column means, categorical means. */
  function UnitLosses(b: BatchLoss): seq<real>
    requires b.WellFormed()
  {
    ColumnMeans(b.mse, b.numCols) + ColumnMeans(b.bce, b.binCols) + CategoricalMeans(b)
  }

  /** The scalar `_do_backward` differentiates: mse + bce + each cce. */
  function OptimisedLoss(b: BatchLoss): Scalar
    requires b.WellFormed()
  {
    MeanAll(b.mse).Plus(MeanAll(b.bce)).Plus(Real(Sum(CategoricalMeans(b))))
  }

  /** `_compute_loss_from_targets`: grows the per-unit list type by type and
      reports its mean; also returns the three per-type terms. */
  method ComputeLossFromTargets(b: BatchLoss) returns (mse: Scalar, bce: Scalar, cce: seq<real>, netLoss: Scalar, units: seq<real>)
    requires b.WellFormed()
    ensures units == UnitLosses(b)
    ensures netLoss == Mean(units)
    ensures mse == MeanAll(b.mse) && bce == MeanAll(b.bce) && cce == CategoricalMeans(b)
  {
    units := [];
    units := units + ColumnMeans(b.mse, b.numCols);
    mse := MeanAll(b.mse);
    units := units + ColumnMeans(b.bce, b.binCols);
    bce := MeanAll(b.bce);
    cce := [];
    for c := 0 to |b.cce|
      invariant cce == CategoricalMeans(b)[..c]
      invariant units == ColumnMeans(b.mse, b.numCols) + ColumnMeans(b.bce, b.binCols) + cce
    {
      var loss := Sum(b.cce[c]) / b.Rows() as real;
      cce := cce + [loss];
      units := units + [loss];
    }
    netLoss := Mean(units);
  }

  /** Layout of the per-unit list: numeric column means first, then binary
      column means, then one mean per categorical feature. */
  lemma UnitLossLayout(b: BatchLoss)
    requires b.WellFormed()
    ensures |UnitLosses(b)| == b.numCols + b.binCols + |b.cce|
    ensures forall j :: 0 <= j < b.numCols ==>
      UnitLosses(b)[j] == Sum(Column(b.mse, b.numCols, j)) / b.Rows() as real
    ensures forall j :: 0 <= j < b.binCols ==>
      UnitLosses(b)[b.numCols + j] == Sum(Column(b.bce, b.binCols, j)) / b.Rows() as real
    ensures forall c :: 0 <= c < |b.cce| ==>
      UnitLosses(b)[b.numCols + b.binCols + c] == Sum(b.cce[c]) / b.Rows() as real
  {
  }

  /** `_do_backward`: `loss_fn = mse + bce`, then `loss_fn += ls` for each categorical loss. */
  method DoBackward(mse: Scalar, bce: Scalar, cce: seq<real>) returns (lossFn: Scalar)
    ensures lossFn.Real? <==> mse.Real? && bce.Real?
    ensures lossFn == mse.Plus(bce).Plus(Real(Sum(cce)))
  {
    lossFn := mse.Plus(bce);
    for i := 0 to |cce|
      invariant lossFn == mse.Plus(bce).Plus(Real(Sum(cce[..i])))
    {
      assert cce[..i + 1][..i] == cce[..i];
      lossFn := lossFn.Plus(Real(cce[i]));
    }
    assert cce[..|cce|] == cce;
  }

  /** The reported loss weighs every unit equally, while the back-propagated
      scalar is the mean of the numeric units plus the mean of the binary
      units plus the sum of the categorical units; it is NaN when a batch has
      no numeric or no binary column, and the reported loss is NaN only when
      there is no feature at all. */
  lemma ReportedAndOptimisedLoss(b: BatchLoss)
    requires b.WellFormed()
    ensures Mean(UnitLosses(b)).Real? <==> b.numCols + b.binCols + |b.cce| > 0
    ensures OptimisedLoss(b).Real? <==> b.numCols > 0 && b.binCols > 0
    ensures b.numCols > 0 && b.binCols > 0 ==>
      OptimisedLoss(b) == Real(Mean(ColumnMeans(b.mse, b.numCols)).v + Mean(ColumnMeans(b.bce, b.binCols)).v + Sum(CategoricalMeans(b)))
  {
    FlattenLength(b.mse, b.numCols);
    FlattenLength(b.bce, b.binCols);
    if b.numCols > 0 && b.binCols > 0 {
      MeanAllIsMeanOfColumnMeans(b.mse, b.numCols);
      MeanAllIsMeanOfColumnMeans(b.bce, b.binCols);
    }
  }

  /** A batch of one row: units [0.1, 0.3] numeric, [0.2] binary, [0.4] categorical. */
  function ExampleBatch(): BatchLoss {
    BatchLoss(2, 1, [[0.1, 0.3]], [[0.2]], [[0.4]])
  }

  lemma SumSnoc(xs: seq<real>, x: real)
    ensures Sum(xs + [x]) == Sum(xs) + x
  {
    assert (xs + [x])[..|xs|] == xs;
  }

  lemma SumSingle(x: real)
    ensures Sum([x]) == x
  {
    assert [x][..0] == [];
  }

  /** A batch of one row: each column mean is that row's own loss. */
  lemma OneRowMeans(row: seq<real>)
    ensures Rect([row], |row|)
    ensures ColumnMeans([row], |row|) == row
  {
    forall j | 0 <= j < |row|
      ensures ColumnMeans([row], |row|)[j] == row[j]
    {
      assert Column([row], |row|, j) == [row[j]];
      SumSingle(row[j]);
    }
  }

  lemma ExampleUnits()
    ensures ExampleBatch().WellFormed()
    ensures UnitLosses(ExampleBatch()) == [0.1, 0.3, 0.2, 0.4]
  {
    var b := ExampleBatch();
    OneRowMeans([0.1, 0.3]);
    OneRowMeans([0.2]);
    SumSingle(0.4);
    assert CategoricalMeans(b) == [0.4];
  }

  lemma ExampleSums()
    ensures Sum([0.1, 0.3]) == 0.4
    ensures Sum([0.1, 0.3, 0.2, 0.4]) == 1.0
  {
    SumSingle(0.1);
    SumSnoc([0.1], 0.3);
    assert [0.1] + [0.3] == [0.1, 0.3];
    SumSnoc([0.1, 0.3], 0.2);
    assert [0.1, 0.3] + [0.2] == [0.1, 0.3, 0.2];
    SumSnoc([0.1, 0.3, 0.2], 0.4);
    assert [0.1, 0.3, 0.2] + [0.4] == [0.1, 0.3, 0.2, 0.4];
  }

  /** On the example batch the reported loss is the plain mean of the units,
      0.25, while the back-propagated one is 0.2 + 0.2 + 0.4 = 0.8. */
  lemma LossCompositionExample()
    ensures ExampleBatch().WellFormed()
    ensures UnitLosses(ExampleBatch()) == [0.1, 0.3, 0.2, 0.4]
    ensures Mean(UnitLosses(ExampleBatch())) == Real(0.25)
    ensures OptimisedLoss(ExampleBatch()) == Real(0.8)
  {
    var b := ExampleBatch();
    ExampleUnits();
    ExampleSums();
    assert Flatten(b.mse) == [0.1, 0.3] by {
      assert b.mse[..0] == [];
      assert Flatten([]) == [];
    }
    assert Flatten(b.bce) == [0.2] by {
      assert b.bce[..0] == [];
      assert Flatten([]) == [];
    }
    SumSingle(0.2);
    SumSingle(0.4);
    assert CategoricalMeans(b) == [0.4];
  }
}
