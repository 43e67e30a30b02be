/** The small lookup tables and argument checks of the engine: scaler
    names, the loss-scaler tag of the results table, optimizer names, the
    distributed-training ignore list, the results-table column names and the
    argument checks of `fit`. */
module Config {
  import opened Wrappers

  /** A scaler name as passed by the caller: a string, or Python's `None`. */
  datatype ScalerName = Named(s: string) | NoneName

  /** The scaler classes the name table selects between (scalers.py is not part of this model). */
  datatype ScalerKind = StandardScaler | GaussRankScaler | ModifiedScaler | NullScaler

  /** `_get_scaler`: `scalers[name]`, a KeyError for a name outside the table. */
  function GetScaler(name: ScalerName): (r: Result<ScalerKind>)
    ensures r.Err? <==> name.Named? && name.s !in {"standard", "gauss_rank", "modified", "none"}
    ensures r.Err? ==> r.error == KeyError
    ensures r == Ok(NullScaler) <==> name == NoneName || name == Named("none")
    ensures r == Ok(StandardScaler) <==> name == Named("standard")
    ensures r == Ok(GaussRankScaler) <==> name == Named("gauss_rank")
    ensures r == Ok(ModifiedScaler) <==> name == Named("modified")
  {
    match name
    case NoneName => Ok(NullScaler)
    case Named(s) =>
      if s == "standard" then Ok(StandardScaler)
      else if s == "gauss_rank" then Ok(GaussRankScaler)
      else if s == "modified" then Ok(ModifiedScaler)
      else if s == "none" then Ok(NullScaler)
      else Err(KeyError)
  }

  const Suffix: string := "_scaled"

  /** The `z_loss_scaler_type` column value: "z" for the standard scaler,
      "modz" for the modified one, otherwise `f'{loss_scaler}_scaled'`
      (Python formats `None` as "None"). */
  function ScaledLossTag(name: ScalerName): (tag: string)
    ensures name == Named("standard") ==> tag == "z"
    ensures name == Named("modified") ==> tag == "modz"
    ensures name.Named? && name.s != "standard" && name.s != "modified" ==> tag == name.s + Suffix
    ensures name == NoneName ==> tag == "None" + Suffix
  {
    match name
    case NoneName => "None" + Suffix
    case Named(s) =>
      if s == "standard" then "z"
      else if s == "modified" then "modz"
      else s + Suffix
  }

  lemma SuffixCancels(a: string, b: string)
    requires a + Suffix == b + Suffix
    ensures a == b
  {
    assert |a| == |b|;
    assert a == (a + Suffix)[..|a|];
    assert b == (b + Suffix)[..|b|];
  }

  /** Two scaler names give the same tag only when they are `None` and the
      string "None": the tag names the loss scaler unambiguously otherwise. */
  lemma ScaledLossTagInjective(a: ScalerName, b: ScalerName)
    requires a != b
    requires !(a == NoneName && b == Named("None")) && !(a == Named("None") && b == NoneName)
    ensures ScaledLossTag(a) != ScaledLossTag(b)
  {
    var pa := if a.NoneName? then "None" else a.s;
    var pb := if b.NoneName? then "None" else b.s;
    if ScaledLossTag(a) == pa + Suffix && ScaledLossTag(b) == pb + Suffix && pa + Suffix == pb + Suffix {
      SuffixCancels(pa, pb);
    }
  }

  /** Loss scalers of different kinds are always reported under different tags. */
  lemma ScaledLossTagSeparatesKinds(a: ScalerName, b: ScalerName)
    requires GetScaler(a).Ok? && GetScaler(b).Ok?
    requires GetScaler(a).value != GetScaler(b).value
    ensures ScaledLossTag(a) != ScaledLossTag(b)
  {
    ScaledLossTagInjective(a, b);
  }

  datatype OptimizerKind = Adam | Sgd

  /** `_build_optimizer`'s name check: only "adam" and "sgd" are supported. */
  function OptimizerFor(name: string): (r: Result<OptimizerKind>)
    ensures r.Ok? <==> name == "adam" || name == "sgd"
    ensures r.Err? ==> r.error == ValueError
    ensures r == Ok(Adam) <==> name == "adam"
    ensures r == Ok(Sgd) <==> name == "sgd"
  {
    if name == "adam" then Ok(Adam)
    else if name == "sgd" then Ok(Sgd)
    else Err(ValueError)
  }

  const NumericOutputWeight: string := "numeric_output.weight"
  const BinaryOutputWeight: string := "binary_output.weight"

  /** `_ddp_params_and_buffers_to_ignore`: the output layer of a feature type
      with no columns is excluded from distributed synchronisation, the
      numeric layer listed before the binary one. */
  function DdpIgnoreList(numericCount: nat, binaryCount: nat): (r: seq<string>)
    ensures NumericOutputWeight in r <==> numericCount == 0
    ensures BinaryOutputWeight in r <==> binaryCount == 0
    ensures forall i, j :: 0 <= i < j < |r| ==> r[i] != r[j]
    ensures forall w :: w in r ==> w == NumericOutputWeight || w == BinaryOutputWeight
    ensures numericCount == 0 && binaryCount == 0 ==> r == [NumericOutputWeight, BinaryOutputWeight]
  {
    (if numericCount == 0 then [NumericOutputWeight] else [])
    + (if binaryCount == 0 then [BinaryOutputWeight] else [])
  }

  /** What `fit` is given as `train_data`. */
  datatype TrainData = DataFrameData | DataLoaderData | DatasetData | OtherData

  /** The argument checks at the top of `fit`, in their order, and the
      normalised (rank, world_size): centralised training runs as rank 0 of 1. */
  function CheckFitArgs(train: TrainData, distributed: bool, rank: Option<int>, worldSize: Option<int>,
                        runValidation: bool, useValForLossStats: bool, hasValData: bool): (r: Result<(int, int)>)
    ensures r.Ok? <==>
      && !train.OtherData?
      && (distributed ==> rank.Some? && worldSize.Some?)
      && (!distributed ==> rank.None? && worldSize.None?)
      && (runValidation ==> hasValData)
      && (useValForLossStats ==> hasValData)
    ensures r.Err? ==> r.error == (if train.OtherData? then TypeError else ValueError)
    ensures r.Ok? && !distributed ==> r.value == (0, 1)
    ensures r.Ok? && distributed ==> r.value == (rank.value, worldSize.value)
  {
    if train.OtherData? then Err(TypeError)
    else if distributed && (rank.None? || worldSize.None?) then Err(ValueError)
    else if !distributed && (rank.Some? || worldSize.Some?) then Err(ValueError)
    else if runValidation && !hasValData then Err(ValueError)
    else if useValForLossStats && !hasValData then Err(ValueError)
    else if distributed then Ok((rank.value, worldSize.value))
    else Ok((0, 1))
  }

  /** The four result columns written for one feature, in writing order. */
  function FeatureColumns(ft: string): seq<string> {
    [ft, ft + "_pred", ft + "_loss", ft + "_z_loss"]
  }

  const AggregateColumns: seq<string> := ["max_abs_z", "mean_abs_z", "z_loss_scaler_type"]

  /** The column assignments of `get_results`, in order: four per feature
      (numeric, then binary, then categorical features), then the aggregates. */
  function ResultColumnWrites(fts: seq<string>): (ws: seq<string>)
    ensures |ws| == 4 * |fts| + 3
  {
    if fts == [] then AggregateColumns
    else FeatureColumns(fts[0]) + ResultColumnWrites(fts[1..])
  }

  /** Feature `i` owns result columns 4i .. 4i+3 and the aggregates come last. */
  lemma {:induction false} ResultColumnLayout(fts: seq<string>, i: nat)
    requires i < |fts|
    ensures ResultColumnWrites(fts)[4 * i .. 4 * i + 4] == FeatureColumns(fts[i])
    ensures ResultColumnWrites(fts)[4 * |fts|..] == AggregateColumns
  {
    var ws := ResultColumnWrites(fts);
    var rest := ResultColumnWrites(fts[1..]);
    assert ws == FeatureColumns(fts[0]) + rest;
    if i > 0 {
      ResultColumnLayout(fts[1..], i - 1);
      assert ws[4 * i .. 4 * i + 4] == rest[4 * (i - 1) .. 4 * (i - 1) + 4];
      assert ws[4 * |fts|..] == rest[4 * |fts[1..]|..];
    } else if |fts| > 1 {
      ResultColumnLayout(fts[1..], 0);
      assert ws[4 * |fts|..] == rest[4 * |fts[1..]|..];
    } else {
      assert rest == AggregateColumns;
    }
  }

  /** `pdf[c] = ...` for each c in turn: a new name is appended, an existing one is overwritten in place. */
  function AssignColumns(cols: seq<string>, writes: seq<string>): (r: seq<string>)
    ensures forall c :: c in r <==> c in cols || c in writes
    decreases |writes|
  {
    if writes == [] then cols
    else AssignColumns(if writes[0] in cols then cols else cols + [writes[0]], writes[1..])
  }

  /** When the written names are pairwise distinct, the table holds exactly
      one column per write, in writing order. */
  lemma {:induction false} AssignDistinctColumns(cols: seq<string>, writes: seq<string>)
    requires forall i, j :: 0 <= i < j < |writes| ==> writes[i] != writes[j]
    requires forall w :: w in writes ==> w !in cols
    ensures AssignColumns(cols, writes) == cols + writes
    decreases |writes|
  {
    if writes != [] {
      assert writes[0] !in cols;
      var cols' := cols + [writes[0]];
      assert forall w :: w in writes[1..] ==> w !in cols' by {
        forall w | w in writes[1..] ensures w !in cols' {
          var k :| 0 <= k < |writes[1..]| && writes[1..][k] == w;
          assert writes[k + 1] == w;
        }
      }
      AssignDistinctColumns(cols', writes[1..]);
      assert cols' + writes[1..] == cols + writes;
    }
  }
}
