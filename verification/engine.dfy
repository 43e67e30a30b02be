/** The `AutoEncoder` object: its feature registries, filled in place by
    `_init_cats`, `_init_numeric` and `_init_binary`; `_build_model`; and
    `fit`, which checks its arguments, builds once and runs the epoch loop. */
module Engine {
  import opened Wrappers
  import opened OrderedDicts
  import opened Frames
  import opened Config
  import opened Features
  import opened EarlyStopping

  /** One entry of `preset_numerical_scaler_params`: its optional
      "scaler_type" and its "mean" (the scaler attributes and "std" are not
      part of this model). */
  datatype PresetNumeric = PresetNumeric(scalerType: Option<ScalerName>, mean: Value)

  /** The `scaler` argument: one scaler name for every numeric column, a
      per-column dict, or anything else (which leaves `scalers` unbound). */
  datatype ScalerSetting = OneScaler(name: string) | PerColumn(names: map<string, ScalerName>) | NoSetting

  /** Where numeric features come from. */
  datatype NumericOrigin = FromPreset(params: ODict<string, PresetNumeric>) | FromFrame(df: Frame)

  /** Python truthiness of the preset dict: `None` and `{}` are falsy. */
  predicate Truthy(preset: Option<ODict<string, PresetNumeric>>) {
    preset.Some? && |preset.value.keys| > 0
  }

  /** The branch `_init_numeric` takes as written: it tests the preset for
      truthiness, so an empty preset without a frame reaches
      `df.select_dtypes` on `None`. */
  function NumericSourceAsWritten(df: Option<Frame>, preset: Option<ODict<string, PresetNumeric>>): (r: Result<NumericOrigin>)
    ensures r.Err? <==> df.None? && !Truthy(preset)
    ensures r.Err? ==> r.error == (if preset.None? then ValueError else AttributeError)
    ensures r.Ok? ==> (r.value.FromPreset? <==> Truthy(preset))
  {
    if df.None? && preset.None? then Err(ValueError)
    else if Truthy(preset) then Ok(FromPreset(preset.value))
    else if df.None? then Err(AttributeError)
    else Ok(FromFrame(df.value))
  }

  /** An empty preset and no frame: the guard lets the call through and it
      then fails on the missing frame. */
  lemma EmptyPresetWithoutFrameFails()
    ensures NumericSourceAsWritten(None, Some(Empty())) == Err(AttributeError)
  {
  }

  /** The branch as intended: a supplied preset, even an empty one, is used
      when there is no frame, so only the missing-both case fails. */
  function NumericSource(df: Option<Frame>, preset: Option<ODict<string, PresetNumeric>>): (r: Result<NumericOrigin>)
    ensures r.Err? <==> df.None? && preset.None?
    ensures r.Err? ==> r.error == ValueError
    ensures r.Ok? ==> (r.value.FromPreset? <==> preset.Some? && (Truthy(preset) || df.None?))
  {
    if preset.Some? && (Truthy(preset) || df.None?) then Ok(FromPreset(preset.value))
    else if df.Some? then Ok(FromFrame(df.value))
    else Err(ValueError)
  }

  /** The intended branch agrees with the written one wherever the written
      one does not fail. */
  lemma NumericSourceAgrees(df: Option<Frame>, preset: Option<ODict<string, PresetNumeric>>)
    ensures NumericSourceAsWritten(df, preset).Ok? ==> NumericSource(df, preset) == NumericSourceAsWritten(df, preset)
    ensures NumericSourceAsWritten(df, preset).Err? && NumericSource(df, preset).Ok? ==>
      df.None? && preset == Some(ODict([], preset.value.vals))
  {
  }

  /** The numeric feature names, in the order `_init_numeric` registers them. */
  function NumericNames(src: NumericOrigin): seq<string> {
    match src
    case FromPreset(p) => p.keys
    case FromFrame(d) => SelectDtypes(d.columns, NumericDtypes)
  }

  /** The scaler of one column from the `scaler` argument; "gauss_rank" when a dict leaves it out. */
  function FrameScaler(setting: ScalerSetting, ft: string): (r: Result<ScalerKind>)
    ensures setting.NoSetting? ==> r == Err(UnboundLocalError)
    ensures setting.OneScaler? ==> r == GetScaler(Named(setting.name))
    ensures setting.PerColumn? && ft in setting.names ==> r == GetScaler(setting.names[ft])
    ensures setting.PerColumn? && ft !in setting.names ==> r == Ok(GaussRankScaler)
    ensures r.Err? ==> r.error == KeyError || (r.error == UnboundLocalError && setting.NoSetting?)
  {
    match setting
    case OneScaler(s) => GetScaler(Named(s))
    case PerColumn(m) => GetScaler(if ft in m then m[ft] else Named("gauss_rank"))
    case NoSetting => Err(UnboundLocalError)
  }

  /** The cells of a column the engine selected by dtype (so it exists). */
  function ColumnValues(df: Frame, ft: string): seq<Value> {
    match Lookup(df, ft)
    case Ok(vs) => vs
    case Err(_) => []
  }

  /** The numeric feature `_init_numeric` registers for `ft`: from a preset,
      its mean and the scaler its "scaler_type" names ("gauss_rank" when
      absent); from a frame, the column mean and the scaler `scaler` names.
      `_init_numeric` only ever asks a preset for its own features, so the
      KeyError for a feature the preset lacks is no source path: it only
      makes this function total. */
  function NumericEntry(src: NumericOrigin, setting: ScalerSetting, ft: string): (r: Result<NumericFeature>)
    ensures r.Err? ==> r.error == KeyError || r.error == UnboundLocalError
    ensures src.FromPreset? && ft !in src.params.vals ==> r == Err(KeyError)
    ensures src.FromPreset? && ft in src.params.vals ==>
      var stype := if src.params.vals[ft].scalerType.Some? then src.params.vals[ft].scalerType.value else Named("gauss_rank");
      && (r.Ok? <==> GetScaler(stype).Ok?)
      && (r.Ok? ==> r.value.mean == src.params.vals[ft].mean && r.value.scaler == GetScaler(stype).value)
    ensures src.FromFrame? ==>
      && (r.Ok? <==> FrameScaler(setting, ft).Ok?)
      && (r.Ok? ==> r.value.mean == ColumnMean(ColumnValues(src.df, ft)) && r.value.scaler == FrameScaler(setting, ft).value)
  {
    match src
    case FromPreset(p) =>
      if ft !in p.vals then Err(KeyError)
      else
        var kind :- GetScaler(if p.vals[ft].scalerType.Some? then p.vals[ft].scalerType.value else Named("gauss_rank"));
        Ok(NumericFeature(p.vals[ft].mean, kind))
    case FromFrame(d) =>
      var kind :- FrameScaler(setting, ft);
      Ok(NumericFeature(ColumnMean(ColumnValues(d, ft)), kind))
  }

  /** A numeric feature fitted on a frame fills missing cells with a value
      inside any bounds of the column's numbers. */
  lemma FrameEntryMeanWithin(d: Frame, setting: ScalerSetting, ft: string, lo: real, hi: real)
    requires NumericEntry(FromFrame(d), setting, ft).Ok?
    requires PresentWithin(ColumnValues(d, ft), lo, hi) && PresentCount(ColumnValues(d, ft)) > 0
    ensures NumericEntry(FromFrame(d), setting, ft).value.mean.Num?
    ensures lo <= NumericEntry(FromFrame(d), setting, ft).value.mean.x <= hi
  {
    ColumnMeanWithin(ColumnValues(d, ft), lo, hi);
  }

  /** The first name whose entry fails, or `|names|`. */
  function FirstFailure(names: seq<string>, src: NumericOrigin, setting: ScalerSetting): (j: nat)
    ensures j <= |names|
    ensures forall i :: 0 <= i < j ==> NumericEntry(src, setting, names[i]).Ok?
    ensures j < |names| ==> NumericEntry(src, setting, names[j]).Err?
  {
    if names == [] then 0
    else if NumericEntry(src, setting, names[0]).Err? then 0
    else 1 + FirstFailure(names[1..], src, setting)
  }

  /** A prefix of successes ended by a failure or by the end of the names is the first failure. */
  lemma {:induction false} FirstFailureAt(names: seq<string>, src: NumericOrigin, setting: ScalerSetting, i: nat)
    requires i <= |names|
    requires forall t :: 0 <= t < i ==> NumericEntry(src, setting, names[t]).Ok?
    requires i < |names| ==> NumericEntry(src, setting, names[i]).Err?
    ensures FirstFailure(names, src, setting) == i
  {
    if i > 0 {
      FirstFailureAt(names[1..], src, setting, i - 1);
    }
  }

  function NumericEntries(names: seq<string>, src: NumericOrigin, setting: ScalerSetting): map<string, NumericFeature> {
    map ft | ft in names && NumericEntry(src, setting, ft).Ok? :: NumericEntry(src, setting, ft).value
  }

  /** Every name before the first failure has an entry. */
  lemma NumericPrefixEntries(names: seq<string>, src: NumericOrigin, setting: ScalerSetting)
    ensures forall k :: k in names[..FirstFailure(names, src, setting)] ==> k in NumericEntries(names, src, setting)
  {
    var j := FirstFailure(names, src, setting);
    forall k | k in names[..j]
      ensures k in NumericEntries(names, src, setting)
    {
      var t :| 0 <= t < j && names[..j][t] == k;
      assert names[t] == k;
    }
  }

  /** The numeric registry after `_init_numeric` has read `src`: the entries
      before the first failing one, assigned in order. */
  function NumericRegistry(d: ODict<string, NumericFeature>, src: NumericOrigin, setting: ScalerSetting): ODict<string, NumericFeature> {
    var names := NumericNames(src);
    NumericPrefixEntries(names, src, setting);
    d.PutAll(names[..FirstFailure(names, src, setting)], NumericEntries(names, src, setting))
  }

  /** The categorical feature `_init_cats` registers for an object column. */
  function CatEntries(names: seq<string>, df: Frame, minCats: int): map<string, CatFeature> {
    map ft | ft in names :: CatFeature(RetainedCats(ColumnValues(df, ft), minCats))
  }

  /** The entry `_init_binary` registers for each listed column. */
  function FreshEntries(names: seq<string>): map<string, BinaryFeature> {
    map ft | ft in names :: FreshBinary
  }

  /** The categorical registry after `_init_cats` has fitted the object columns of `df`. */
  function FittedCats(d: ODict<string, CatFeature>, df: Frame, minCats: int): ODict<string, CatFeature> {
    var objects := SelectDtypes(df.columns, {ObjectDtype});
    d.PutAll(objects, CatEntries(objects, df, minCats))
  }

  /** The binary registry after `_init_binary` with the feature list `binaries`. */
  function RegisteredBinaries(d: ODict<string, BinaryFeature>, binaries: seq<string>): ODict<string, BinaryFeature> {
    RelabelAll(d).PutAll(binaries, FreshEntries(binaries))
  }

  /** `feature[cat] = bool(i)` for each position i of `cats`: a listed value
      ends up labelled by whether its last position is not the first. */
  function PositionLabels(cats: seq<bool>, m: map<bool, bool>): map<bool, bool> {
    if cats == [] then m
    else PositionLabels(cats[..|cats| - 1], m)[cats[|cats| - 1] := |cats| - 1 != 0]
  }

  /** Relabelling keeps every label and adds one for each listed value. */
  lemma {:induction false} PositionLabelsKeys(cats: seq<bool>, m: map<bool, bool>)
    ensures PositionLabels(cats, m).Keys == m.Keys + set b | b in cats
  {
    if cats != [] {
      var n := |cats| - 1;
      PositionLabelsKeys(cats[..n], m);
      assert (set b | b in cats) == (set b | b in cats[..n]) + {cats[n]};
    }
  }

  /** A listed value is labelled by whether its last position is not the
      first; an unlisted one keeps its label. */
  lemma {:induction false} PositionLabelsLast(cats: seq<bool>, m: map<bool, bool>, i: nat)
    requires i < |cats| && cats[i] !in cats[i + 1..]
    ensures cats[i] in PositionLabels(cats, m) && PositionLabels(cats, m)[cats[i]] == (i != 0)
  {
    var n := |cats| - 1;
    if i < n {
      assert cats[i + 1..] == cats[..n][i + 1..] + [cats[n]];
      PositionLabelsLast(cats[..n], m, i);
    }
  }

  /** `for i, cat in enumerate(feature['cats']): feature[cat] = bool(i)`. */
  method RelabelByPosition(f: BinaryFeature) returns (g: BinaryFeature)
    ensures g == Relabel(f)
  {
    var labels := f.labelOf;
    for c := 0 to |f.cats|
      invariant labels == PositionLabels(f.cats[..c], f.labelOf)
    {
      assert f.cats[..c + 1][..c] == f.cats[..c];
      labels := labels[f.cats[c] := c != 0];
    }
    assert f.cats[..|f.cats|] == f.cats;
    g := BinaryFeature(f.cats, labels);
  }

  function Relabel(f: BinaryFeature): BinaryFeature {
    BinaryFeature(f.cats, PositionLabels(f.cats, f.labelOf))
  }

  /** The first loop of `_init_binary` over the features already registered. */
  function RelabelAll(d: ODict<string, BinaryFeature>): (r: ODict<string, BinaryFeature>)
    ensures r.keys == d.keys
    ensures d.Valid() ==> r.Valid()
  {
    ODict(d.keys, map k | k in d.vals :: Relabel(d.vals[k]))
  }

  /** `for ft, feature in self.binary_fts.items(): ...`: relabels every
      registered feature by position, one after another, keeping the order. */
  method RelabelEach(d: ODict<string, BinaryFeature>) returns (r: ODict<string, BinaryFeature>)
    requires d.Valid()
    ensures r == RelabelAll(d)
  {
    var vals := d.vals;
    for i := 0 to |d.keys|
      invariant vals.Keys == d.vals.Keys
      invariant forall t :: 0 <= t < i ==> vals[d.keys[t]] == Relabel(d.vals[d.keys[t]])
      invariant forall t :: i <= t < |d.keys| ==> vals[d.keys[t]] == d.vals[d.keys[t]]
    {
      var g := RelabelByPosition(vals[d.keys[i]]);
      vals := vals[d.keys[i] := g];
    }
    forall k | k in d.vals
      ensures vals[k] == Relabel(d.vals[k])
    {
      var t :| 0 <= t < |d.keys| && d.keys[t] == k;
    }
    r := ODict(d.keys, vals);
  }

  /** Relabelling a binary feature as `_init_binary` builds it swaps its
      labels: a feature registered by an earlier call and not listed again
      maps True to False. */
  lemma RelabelInvertsFreshBinary()
    ensures Relabel(FreshBinary).labelOf == map[true := false, false := true]
    ensures !BinaryGet(Relabel(FreshBinary), Flag(true)) && BinaryGet(Relabel(FreshBinary), Flag(false))
  {
    var cats := FreshBinary.cats;
    PositionLabelsLast(cats, FreshBinary.labelOf, 0);
    PositionLabelsLast(cats, FreshBinary.labelOf, 1);
  }

  /** On an engine with no binary feature yet, `_init_binary` registers
      the listed columns in list order, so with a list free of repeats the
      registry's keys are the list itself, and the logger's
      `num_names + bin_names + categorical names` follows the order of the
      per-unit loss list. */
  lemma FreshBinaryKeysFollowList(binaries: seq<string>)
    requires NoDup(binaries)
    ensures RegisteredBinaries(Empty(), binaries).keys == binaries
  {
    RelabelAll(Empty<string, BinaryFeature>()).PutAllKeysInOrder(binaries, FreshEntries(binaries));
  }

  /** The binary feature list `_init_binary` settles on: `bin_names` when
      set, otherwise the bool columns of the frame. */
  function BinaryList(binNames: Option<seq<string>>, df: Option<Frame>): seq<string>
    requires binNames.Some? || df.Some?
  {
    if binNames.Some? then binNames.value else SelectDtypes(df.value.columns, {BoolDtype})
  }

  /** The check `_init_features` makes first: a frame, or all three presets. */
  predicate FeaturesSupplied(df: Option<Frame>, hasPresetCats: bool, hasBinNames: bool,
                             presetNumeric: Option<ODict<string, PresetNumeric>>)
  {
    df.Some? || (hasPresetCats && hasBinNames && presetNumeric.Some?)
  }

  /** The error `_init_features` raises, if any: the missing-presets check,
      then `_init_numeric`'s choice of source, then its first failing entry.
      Once the check has passed, `_init_cats` and `_init_binary` cannot fail. */
  function InitFeaturesError(df: Option<Frame>, hasPresetCats: bool, hasBinNames: bool,
                             presetNumeric: Option<ODict<string, PresetNumeric>>, setting: ScalerSetting): Option<PyError>
  {
    if !FeaturesSupplied(df, hasPresetCats, hasBinNames, presetNumeric) then Some(ValueError)
    else match NumericSourceAsWritten(df, presetNumeric)
      case Err(e) => Some(e)
      case Ok(src) =>
        var names := NumericNames(src);
        var j := FirstFailure(names, src, setting);
        if j < |names| then Some(NumericEntry(src, setting, names[j]).error) else None
  }

  /** `_init_features` raises ValueError exactly when there is no frame and a
      preset is missing; every other failure has another kind. */
  lemma InitFeaturesValueError(df: Option<Frame>, hasPresetCats: bool, hasBinNames: bool,
                               presetNumeric: Option<ODict<string, PresetNumeric>>, setting: ScalerSetting)
    ensures InitFeaturesError(df, hasPresetCats, hasBinNames, presetNumeric, setting) == Some(ValueError) <==>
      df.None? && (!hasPresetCats || !hasBinNames || presetNumeric.None?)
  {
  }

  /** All three presets, but an empty numeric one, and no frame: the engine
      cannot be built, although the presets are complete. */
  lemma EmptyNumericPresetBlocksBuild(setting: ScalerSetting)
    ensures InitFeaturesError(None, true, true, Some(Empty()), setting) == Some(AttributeError)
  {
    EmptyPresetWithoutFrameFails();
  }

  /** The numeric registry `_init_numeric` leaves: unchanged when no source
      can be chosen, otherwise the entries up to the first failing one. */
  function InitNumericRegistry(d: ODict<string, NumericFeature>, df: Option<Frame>,
                               presetNumeric: Option<ODict<string, PresetNumeric>>, setting: ScalerSetting): ODict<string, NumericFeature>
  {
    match NumericSourceAsWritten(df, presetNumeric)
    case Err(_) => d
    case Ok(src) => NumericRegistry(d, src, setting)
  }

  /** The registries `_init_features` leaves once its check has passed,
      whether it then succeeds or not: the categories are adopted or fitted,
      the numeric step may stop at a failing feature, and the binary step
      runs only when the numeric one succeeded. */
  function InitRegistries(reg: Registry, df: Option<Frame>, presetCats: Option<ODict<string, CatFeature>>,
                          binNames: Option<seq<string>>, presetNumeric: Option<ODict<string, PresetNumeric>>,
                          setting: ScalerSetting, minCats: int): Registry
    requires FeaturesSupplied(df, presetCats.Some?, binNames.Some?, presetNumeric)
  {
    Registry(
      InitNumericRegistry(reg.numeric, df, presetNumeric, setting),
      if InitFeaturesError(df, presetCats.Some?, binNames.Some?, presetNumeric, setting).None?
      then RegisteredBinaries(reg.binary, BinaryList(binNames, df))
      else reg.binary,
      if presetCats.Some? then presetCats.value else FittedCats(reg.categorical, df.value, minCats))
  }

  /** Feature initialisation keeps the registries well-formed, whether it succeeds or not. */
  lemma InitRegistriesValid(reg: Registry, df: Option<Frame>, presetCats: Option<ODict<string, CatFeature>>,
                            binNames: Option<seq<string>>, presetNumeric: Option<ODict<string, PresetNumeric>>,
                            setting: ScalerSetting, minCats: int)
    requires reg.Valid() && (presetCats.Some? ==> presetCats.value.Valid())
    requires FeaturesSupplied(df, presetCats.Some?, binNames.Some?, presetNumeric)
    ensures InitRegistries(reg, df, presetCats, binNames, presetNumeric, setting, minCats).Valid()
  {
    var source := NumericSourceAsWritten(df, presetNumeric);
    if source.Ok? {
      var names := NumericNames(source.value);
      NumericPrefixEntries(names, source.value, setting);
      reg.numeric.PutAllValid(names[..FirstFailure(names, source.value, setting)], NumericEntries(names, source.value, setting));
    }
    if InitFeaturesError(df, presetCats.Some?, binNames.Some?, presetNumeric, setting).None? {
      var binaries := BinaryList(binNames, df);
      RelabelAll(reg.binary).PutAllValid(binaries, FreshEntries(binaries));
    }
    if presetCats.None? {
      var objects := SelectDtypes(df.value.columns, {ObjectDtype});
      reg.categorical.PutAllValid(objects, CatEntries(objects, df.value, minCats));
    }
  }

  /** The error `_build_model` raises, if any: feature initialisation, then
      the missing rank of distributed training, then the optimizer name. */
  function BuildError(initErr: Option<PyError>, distributed: bool, rank: Option<int>, optimizer: string): (e: Option<PyError>)
    ensures initErr.Some? ==> e == initErr
    ensures distributed && rank.None? ==> e.Some?
    ensures OptimizerFor(optimizer).Err? ==> e.Some?
    ensures e.Some? && initErr.None? ==> e == Some(ValueError)
    ensures e.None? <==> initErr.None? && !(distributed && rank.None?) && OptimizerFor(optimizer).Ok?
  {
    if initErr.Some? then initErr
    else if distributed && rank.None? then Some(ValueError)
    else if OptimizerFor(optimizer).Err? then Some(ValueError)
    else None
  }

  /** The loop of `_init_cats`: each object column of `df`, in order, is
      assigned its retained categories. */
  method FitCats(d: ODict<string, CatFeature>, df: Frame, minCats: int) returns (fitted: ODict<string, CatFeature>)
    requires d.Valid()
    ensures fitted.Valid()
    ensures fitted == FittedCats(d, df, minCats)
  {
    var objects := SelectDtypes(df.columns, {ObjectDtype});
    var entries := CatEntries(objects, df, minCats);
    fitted := d;
    for i := 0 to |objects|
      invariant fitted == d.PutAll(objects[..i], entries)
    {
      d.PutAllSnoc(objects, entries, i);
      fitted := fitted.Put(objects[i], entries[objects[i]]);
    }
    assert objects[..|objects|] == objects;
    d.PutAllValid(objects, entries);
  }

  /** The loop of `_init_numeric`: the features of `src` are assigned in
      order until one fails; `stopped` is the index of that one, or the
      number of features when none fails. */
  method RegisterNumeric(d: ODict<string, NumericFeature>, src: NumericOrigin, setting: ScalerSetting)
    returns (registered: ODict<string, NumericFeature>, stopped: nat)
    requires d.Valid()
    ensures registered.Valid()
    ensures stopped == FirstFailure(NumericNames(src), src, setting)
    ensures registered == NumericRegistry(d, src, setting)
  {
    var names := NumericNames(src);
    ghost var entries := NumericEntries(names, src, setting);
    registered, stopped := d, 0;
    while stopped < |names| && NumericEntry(src, setting, names[stopped]).Ok?
      invariant stopped <= |names|
      invariant forall t :: 0 <= t < stopped ==> NumericEntry(src, setting, names[t]).Ok? && names[t] in entries
      invariant registered == d.PutAll(names[..stopped], entries)
    {
      var ft := names[stopped];
      var entry := NumericEntry(src, setting, ft);
      assert entries[ft] == entry.value;
      d.PutAllSnoc(names, entries, stopped);
      registered := registered.Put(ft, entry.value);
      stopped := stopped + 1;
    }
    FirstFailureAt(names, src, setting, stopped);
    d.PutAllValid(names[..stopped], entries);
  }

  class AutoEncoder {
    var numericFts: ODict<string, NumericFeature>
    var binaryFts: ODict<string, BinaryFeature>
    var categoricalFts: ODict<string, CatFeature>
    /** `num_names`: the numeric feature names once `_init_numeric` completes. */
    var numNames: seq<string>
    /** `bin_names`: `binary_feature_list`, or the detected bool columns. */
    var binNames: Option<seq<string>>
    /** `optim`: `None` until `_build_model` has built the optimizer. */
    var optim: Option<OptimizerKind>
    /** `_ddp_params_and_buffers_to_ignore` of the wrapped module. */
    var ddpIgnore: seq<string>
    /** The feature list the logger is built with. */
    var loggerFts: seq<string>

    const minCats: int
    const scaler: ScalerSetting
    const presetCats: Option<ODict<string, CatFeature>>
    const presetNumeric: Option<ODict<string, PresetNumeric>>
    const distributed: bool
    const optimizer: string
    const patience: int
    const batchSize: int
    const lossScalerName: ScalerName
    const lossScaler: ScalerKind

    /** The registries are well-formed ordered dicts. */
    predicate Valid()
      reads this`numericFts, this`binaryFts, this`categoricalFts
    {
      numericFts.Valid() && binaryFts.Valid() && categoricalFts.Valid()
    }

    /** The preset dicts the engine may adopt are well-formed ordered dicts. */
    predicate PresetsValid() {
      && (presetCats.Some? ==> presetCats.value.Valid())
      && (presetNumeric.Some? ==> presetNumeric.value.Valid())
    }

    /** The registries as `prepare_df` reads them. */
    function Registered(): (r: Registry)
      reads this`numericFts, this`binaryFts, this`categoricalFts
      ensures Valid() ==> r.Valid()
    {
      Registry(numericFts, binaryFts, categoricalFts)
    }

    constructor (minCats: int, scaler: ScalerSetting, presetCats: Option<ODict<string, CatFeature>>,
                 presetNumeric: Option<ODict<string, PresetNumeric>>, binaryFeatureList: Option<seq<string>>,
                 distributed: bool, optimizer: string, patience: int, batchSize: int,
                 lossScalerName: ScalerName, lossScaler: ScalerKind)
      requires presetCats.Some? ==> presetCats.value.Valid()
      requires presetNumeric.Some? ==> presetNumeric.value.Valid()
      ensures Valid() && PresetsValid()
      ensures numericFts.keys == [] && binaryFts.keys == [] && categoricalFts.keys == []
      ensures numNames == [] && binNames == binaryFeatureList && optim.None? && ddpIgnore == [] && loggerFts == []
      ensures this.minCats == minCats && this.scaler == scaler && this.presetCats == presetCats
      ensures this.presetNumeric == presetNumeric && this.distributed == distributed
      ensures this.optimizer == optimizer && this.patience == patience && this.batchSize == batchSize
      ensures this.lossScalerName == lossScalerName && this.lossScaler == lossScaler
    {
      numericFts, binaryFts, categoricalFts := Empty(), Empty(), Empty();
      numNames, binNames, optim := [], binaryFeatureList, None;
      ddpIgnore, loggerFts := [], [];
      this.minCats, this.scaler, this.presetCats, this.presetNumeric := minCats, scaler, presetCats, presetNumeric;
      this.distributed, this.optimizer, this.patience, this.batchSize := distributed, optimizer, patience, batchSize;
      this.lossScalerName, this.lossScaler := lossScalerName, lossScaler;
    }

    /** `AutoEncoder(...)`: the loss scaler is looked up eagerly, so an
        unknown `loss_scaler` name fails construction with a KeyError. */
    static method New(minCats: int, scaler: ScalerSetting, presetCats: Option<ODict<string, CatFeature>>,
                      presetNumeric: Option<ODict<string, PresetNumeric>>, binaryFeatureList: Option<seq<string>>,
                      distributed: bool, optimizer: string, patience: int, batchSize: int, lossScalerName: ScalerName)
      returns (r: Result<AutoEncoder>)
      requires presetCats.Some? ==> presetCats.value.Valid()
      requires presetNumeric.Some? ==> presetNumeric.value.Valid()
      ensures r.Ok? <==> GetScaler(lossScalerName).Ok?
      ensures r.Err? ==> r.error == KeyError
      ensures r.Ok? ==> fresh(r.value) && r.value.Valid() && r.value.PresetsValid() && r.value.optim.None?
      ensures r.Ok? ==> r.value.lossScaler == GetScaler(lossScalerName).value && r.value.binNames == binaryFeatureList
    {
      var kind := GetScaler(lossScalerName);
      if kind.Err? {
        return Err(KeyError);
      }
      var ae := new AutoEncoder(minCats, scaler, presetCats, presetNumeric, binaryFeatureList,
                                distributed, optimizer, patience, batchSize, lossScalerName, kind.value);
      return Ok(ae);
    }

    /** `_init_cats`: registers every object column with the categories seen
        at least `min_cats` times. */
    method InitCats(df: Frame)
      requires Valid()
      modifies this`categoricalFts
      ensures Valid()
      ensures categoricalFts == FittedCats(old(categoricalFts), df, minCats)
    {
      categoricalFts := FitCats(categoricalFts, df, minCats);
    }

    /** The categorical step of `_init_features`: the preset categories are
        adopted as they are, otherwise the object columns of `df` are fitted. */
    method InitCategorical(df: Option<Frame>)
      requires Valid() && PresetsValid() && (presetCats.None? ==> df.Some?)
      modifies this`categoricalFts
      ensures Valid()
      ensures categoricalFts == if presetCats.Some? then presetCats.value else FittedCats(old(categoricalFts), df.value, minCats)
    {
      if presetCats.Some? {
        categoricalFts := presetCats.value;
      } else {
        InitCats(df.value);
      }
    }

    /** `_init_numeric`: picks the preset or the frame as written (see
        `NumericSourceAsWritten`), registers each numeric feature in order
        and, when all succeed, sets `num_names` to the registry's keys; a
        scaler name outside the table stops it with the earlier features
        registered. */
    method InitNumeric(df: Option<Frame>) returns (err: Option<PyError>)
      requires Valid()
      modifies this`numericFts, this`numNames
      ensures Valid()
      ensures numericFts == InitNumericRegistry(old(numericFts), df, presetNumeric, scaler)
      ensures NumericSourceAsWritten(df, presetNumeric).Err? ==>
        && err == Some(NumericSourceAsWritten(df, presetNumeric).error)
        && numericFts == old(numericFts) && numNames == old(numNames)
      ensures NumericSourceAsWritten(df, presetNumeric).Ok? ==>
        var src := NumericSourceAsWritten(df, presetNumeric).value;
        var names := NumericNames(src);
        var j := FirstFailure(names, src, scaler);
        && numericFts == NumericRegistry(old(numericFts), src, scaler)
        && (err.None? <==> j == |names|)
        && (err.None? ==> numNames == numericFts.keys)
        && (err.Some? ==> err == Some(NumericEntry(src, scaler, names[j]).error) && numNames == old(numNames))
    {
      var source := NumericSourceAsWritten(df, presetNumeric);
      if source.Err? {
        return Some(source.error);
      }
      var src := source.value;
      var names := NumericNames(src);
      var stopped;
      numericFts, stopped := RegisterNumeric(numericFts, src, scaler);
      if stopped < |names| {
        return Some(NumericEntry(src, scaler, names[stopped]).error);
      }
      numNames := numericFts.keys;
      err := None;
    }

    /** The first loop of `_init_binary`: every registered binary feature
        has its labels reassigned by position, in place. */
    method RelabelRegistered()
      requires Valid()
      modifies this`binaryFts
      ensures Valid()
      ensures binaryFts == RelabelAll(old(binaryFts))
    {
      binaryFts := RelabelEach(binaryFts);
    }

    /** `_init_binary`: relabels the features already registered by
        position, then registers every listed binary column afresh
        (`cats = [True, False]`, each label mapped to itself). */
    method InitBinary(df: Option<Frame>) returns (err: Option<PyError>)
      requires Valid()
      modifies this`binaryFts, this`binNames
      ensures Valid()
      ensures df.None? && old(binNames).None? ==>
        err == Some(ValueError) && binaryFts == old(binaryFts) && binNames == old(binNames)
      ensures !(df.None? && old(binNames).None?) ==>
        var binaries := BinaryList(old(binNames), df);
        && err.None?
        && binNames == Some(binaries)
        && binaryFts == RegisteredBinaries(old(binaryFts), binaries)
    {
      if df.None? && binNames.None? {
        return Some(ValueError);
      }
      var binaries := if binNames.Some? then binNames.value else SelectDtypes(df.value.columns, {BoolDtype});
      binNames := Some(binaries);
      RelabelRegistered();
      ghost var relabelled := binaryFts;
      ghost var freshEntries := FreshEntries(binaries);
      for i := 0 to |binaries|
        invariant binNames == Some(binaries)
        invariant binaryFts == relabelled.PutAll(binaries[..i], freshEntries)
      {
        relabelled.PutAllSnoc(binaries, freshEntries, i);
        binaryFts := binaryFts.Put(binaries[i], FreshBinary);
      }
      assert binaries[..|binaries|] == binaries;
      relabelled.PutAllValid(binaries, freshEntries);
      err := None;
    }

    /** `_init_features`: without a frame all three presets are required;
        preset categories are adopted as they are, otherwise the object
        columns are fitted; then numeric, then binary features. */
    method InitFeatures(df: Option<Frame>) returns (err: Option<PyError>)
      requires Valid() && PresetsValid()
      modifies this`categoricalFts, this`numericFts, this`numNames, this`binaryFts, this`binNames
      ensures Valid()
      ensures !FeaturesSupplied(df, presetCats.Some?, old(binNames).Some?, presetNumeric) ==>
        err == Some(ValueError) && unchanged(this)
      ensures FeaturesSupplied(df, presetCats.Some?, old(binNames).Some?, presetNumeric) ==>
        && err != Some(ValueError)
        && Registered() == InitRegistries(old(Registered()), df, presetCats, old(binNames), presetNumeric, scaler, minCats)
      ensures err == InitFeaturesError(df, presetCats.Some?, old(binNames).Some?, presetNumeric, scaler)
      ensures err.None? ==> numNames == numericFts.keys && binNames == Some(BinaryList(old(binNames), df))
      ensures err.Some? ==> numNames == old(numNames) && binNames == old(binNames)
    {
      if !FeaturesSupplied(df, presetCats.Some?, binNames.Some?, presetNumeric) {
        return Some(ValueError);
      }
      InitFeaturesValueError(df, presetCats.Some?, binNames.Some?, presetNumeric, scaler);
      InitCategorical(df);
      err := InitNumericThenBinary(df);
    }

    /** The numeric then the binary step of `_init_features`, once its check has passed. */
    method InitNumericThenBinary(df: Option<Frame>) returns (err: Option<PyError>)
      requires Valid() && FeaturesSupplied(df, presetCats.Some?, binNames.Some?, presetNumeric)
      modifies this`numericFts, this`numNames, this`binaryFts, this`binNames
      ensures Valid()
      ensures err == InitFeaturesError(df, presetCats.Some?, old(binNames).Some?, presetNumeric, scaler)
      ensures numericFts == InitNumericRegistry(old(numericFts), df, presetNumeric, scaler)
      ensures err.None? ==>
        && binaryFts == RegisteredBinaries(old(binaryFts), BinaryList(old(binNames), df))
        && numNames == numericFts.keys
        && binNames == Some(BinaryList(old(binNames), df))
      ensures err.Some? ==> binaryFts == old(binaryFts) && numNames == old(numNames) && binNames == old(binNames)
    {
      err := InitNumeric(df);
      if err.Some? {
        return;
      }
      err := InitBinary(df);
    }

    /** `_build_model`: initialises the features, lists the unused output
        layers for distributed synchronisation (a missing rank is a
        ValueError there), builds the optimizer and the logger's feature list. */
    method BuildModel(df: Option<Frame>, rank: Option<int>) returns (err: Option<PyError>)
      requires Valid() && PresetsValid()
      modifies this`categoricalFts, this`numericFts, this`numNames, this`binaryFts, this`binNames
      modifies this`ddpIgnore, this`optim, this`loggerFts
      ensures Valid()
      ensures err == BuildError(InitFeaturesError(df, presetCats.Some?, old(binNames).Some?, presetNumeric, scaler),
                                distributed, rank, optimizer)
      ensures !FeaturesSupplied(df, presetCats.Some?, old(binNames).Some?, presetNumeric) ==> unchanged(this)
      ensures FeaturesSupplied(df, presetCats.Some?, old(binNames).Some?, presetNumeric) ==>
        Registered() == InitRegistries(old(Registered()), df, presetCats, old(binNames), presetNumeric, scaler, minCats)
      ensures InitFeaturesError(df, presetCats.Some?, old(binNames).Some?, presetNumeric, scaler).Some? ==>
        && numNames == old(numNames) && binNames == old(binNames)
        && optim == old(optim) && ddpIgnore == old(ddpIgnore) && loggerFts == old(loggerFts)
      ensures InitFeaturesError(df, presetCats.Some?, old(binNames).Some?, presetNumeric, scaler).None? ==>
        && numNames == numericFts.keys
        && binNames == Some(BinaryList(old(binNames), df))
        && ddpIgnore == (if distributed && rank.Some? then DdpIgnoreList(numericFts.Size(), binaryFts.Size()) else old(ddpIgnore))
        && optim == (if err.None? then Some(OptimizerFor(optimizer).value) else old(optim))
        && loggerFts == (if err.None? then numNames + binNames.value + categoricalFts.keys else old(loggerFts))
    {
      ghost var initErr := InitFeaturesError(df, presetCats.Some?, binNames.Some?, presetNumeric, scaler);
      err := InitFeatures(df);
      if err.Some? {
        return;
      }
      assert initErr.None?;
      ghost var reg := Registered();
      err := BuildTraining(rank);
      assert Registered() == reg;
    }

    /** The rest of `_build_model` once the features are known: the
        distributed-training step, the optimizer, then the logger. */
    method BuildTraining(rank: Option<int>) returns (err: Option<PyError>)
      requires Valid() && numNames == numericFts.keys && binNames.Some?
      modifies this`ddpIgnore, this`optim, this`loggerFts
      ensures Valid()
      ensures err == BuildError(None, distributed, rank, optimizer)
      ensures ddpIgnore == if distributed && rank.Some? then DdpIgnoreList(numericFts.Size(), binaryFts.Size()) else old(ddpIgnore)
      ensures optim == if err.None? then Some(OptimizerFor(optimizer).value) else old(optim)
      ensures err.None? ==> loggerFts == numNames + binNames.value + categoricalFts.keys
      ensures err.Some? ==> loggerFts == old(loggerFts)
    {
      err := PrepareDistributed(rank);
      if err.Some? {
        return;
      }
      err := BuildOptimizer();
      if err.Some? {
        return;
      }
      BuildLogger();
    }

    /** The distributed-training step of `_build_model`: a missing rank is a
        ValueError; otherwise the output layers of feature types without
        columns are excluded from synchronisation. Centralised training
        changes nothing. */
    method PrepareDistributed(rank: Option<int>) returns (err: Option<PyError>)
      requires Valid()
      modifies this`ddpIgnore
      ensures Valid()
      ensures err.Some? <==> distributed && rank.None?
      ensures err.Some? ==> err == Some(ValueError)
      ensures ddpIgnore == if distributed && rank.Some? then DdpIgnoreList(numericFts.Size(), binaryFts.Size()) else old(ddpIgnore)
    {
      err := None;
      if distributed {
        if rank.None? {
          return Some(ValueError);
        }
        ddpIgnore := DdpIgnoreList(numericFts.Size(), binaryFts.Size());
      }
    }

    /** `_build_optimizer`: Adam or SGD by name, a ValueError for any other name. */
    method BuildOptimizer() returns (err: Option<PyError>)
      requires Valid()
      modifies this`optim
      ensures Valid()
      ensures err.None? <==> OptimizerFor(optimizer).Ok?
      ensures err.Some? ==> err == Some(ValueError) && optim == old(optim)
      ensures err.None? ==> optim == Some(OptimizerFor(optimizer).value)
    {
      var kind := OptimizerFor(optimizer);
      if kind.Err? {
        return Some(kind.error);
      }
      optim := Some(kind.value);
      err := None;
    }

    /** `_build_logger`: the feature list is `num_names + bin_names` followed by the categorical names. */
    method BuildLogger()
      requires Valid() && binNames.Some?
      modifies this`loggerFts
      ensures Valid()
      ensures loggerFts == numNames + binNames.value + categoricalFts.keys
    {
      loggerFts := numNames + binNames.value + categoricalFts.keys;
    }

    /** `fit`: the argument checks, then `_build_model` only when no
        optimizer exists yet, then the epoch loop. `trainDf` is the frame
        when `train_data` is a DataFrame; `valLosses` and `leaderFlags` are
        what validation and the main process produce in each epoch. */
    method Fit(train: TrainData, epochs: int, hasValData: bool, runValidation: bool, useValForLossStats: bool,
               rank: Option<int>, worldSize: Option<int>, trainDf: Option<Frame>,
               valLosses: seq<real>, leaderFlags: seq<bool>)
      returns (r: Result<(nat, bool, StatsSource)>)
      requires Valid() && PresetsValid()
      requires train.DataFrameData? <==> trainDf.Some?
      requires epochs <= |valLosses| && epochs <= |leaderFlags|
      modifies this
      ensures Valid()
      ensures var check := CheckFitArgs(train, distributed, rank, worldSize, runValidation, useValForLossStats, hasValData);
        check.Err? ==> r == Err(check.error) && unchanged(this)
      ensures old(optim).Some? ==> unchanged(this)
      ensures r.Ok? ==> optim.Some?
      ensures var check := CheckFitArgs(train, distributed, rank, worldSize, runValidation, useValForLossStats, hasValData);
        check.Ok? && old(optim).None? ==>
          var initErr := InitFeaturesError(trainDf, presetCats.Some?, old(binNames).Some?, presetNumeric, scaler);
          var buildErr := BuildError(initErr, distributed, Some(check.value.0), optimizer);
          && (r.Err? <==> buildErr.Some?)
          && (r.Err? ==> r.error == buildErr.value)
          && (!FeaturesSupplied(trainDf, presetCats.Some?, old(binNames).Some?, presetNumeric) ==> unchanged(this))
          && (FeaturesSupplied(trainDf, presetCats.Some?, old(binNames).Some?, presetNumeric) ==>
                Registered() == InitRegistries(old(Registered()), trainDf, presetCats, old(binNames), presetNumeric, scaler, minCats))
          && numNames == (if initErr.None? then numericFts.keys else old(numNames))
          && binNames == (if initErr.None? then Some(BinaryList(old(binNames), trainDf)) else old(binNames))
          && ddpIgnore == (if initErr.None? && distributed then DdpIgnoreList(numericFts.Size(), binaryFts.Size()) else old(ddpIgnore))
          && optim == (if r.Ok? then Some(OptimizerFor(optimizer).value) else old(optim))
          && loggerFts == (if r.Ok? then numNames + binNames.value + categoricalFts.keys else old(loggerFts))
      ensures var check := CheckFitArgs(train, distributed, rank, worldSize, runValidation, useValForLossStats, hasValData);
        check.Ok? && old(optim).Some? ==> r.Ok?
      ensures r.Ok? ==>
        var check := CheckFitArgs(train, distributed, rank, worldSize, runValidation, useValForLossStats, hasValData);
        var flags := SyncedFlags(epochs, patience, runValidation && hasValData, check.value.0, distributed, valLosses, leaderFlags);
        && check.Ok?
        && r.value.0 == EpochsRun(flags)
        && (r.value.1 <==> FirstTrue(flags) < |flags|)
        && r.value.2 == (if check.value.0 != 0 then NoStats else if useValForLossStats then FromValidation else FromTraining)
    {
      var check := CheckFitArgs(train, distributed, rank, worldSize, runValidation, useValForLossStats, hasValData);
      if check.Err? {
        return Err(check.error);
      }
      var (rk, _) := check.value;
      if optim.None? {
        var err := BuildModel(trainDf, Some(rk));
        if err.Some? {
          return Err(err.value);
        }
      }
      var epochsRun, stopped, stats := FitData(epochs, patience, runValidation, hasValData, useValForLossStats,
                                              rk, distributed, valLosses, leaderFlags);
      return Ok((epochsRun, stopped, stats));
    }
  }
}
