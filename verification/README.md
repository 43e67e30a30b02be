# dfencoder AutoEncoder: a Dafny model

This project models the bookkeeping core of the denoising autoencoder
engine `AutoEncoder` in `morpheus/models/dfencoder/autoencoder.py`, and
proves properties of that model. The modelled parts are:

- the three feature registries (numeric, binary, categorical). They are
  insertion-ordered dicts that `_init_cats`, `_init_numeric` and
  `_init_binary` fill in place;
- `prepare_df`, which encodes a frame against the registries;
- the one-hot buffer of `_ohe`;
- the decoding of binary and categorical outputs in `_decode_outputs_to_df`;
- how `_compute_loss_from_targets` and `_do_backward` combine per-unit
  losses;
- batch slicing in `_get_anomaly_score_losses`;
- the argument checks of `fit`, `_build_model`, the optimizer name check,
  and the logger's feature list;
- the early-stopping epoch loop of `_fit_data`;
- the results-table column layout and loss-scaler tag of `get_results`.

Modules:

- `Wrappers`: `Option`, `Result` and the Python exception kinds.
- `OrderedDicts`: Python dict assignment semantics. A new key is appended.
  Re-assigning a key keeps its position.
- `Frames`: the columns, dtypes and cells of a DataFrame. This covers
  `select_dtypes`, `Series.mean` with NaN skipped, and `fillna`.
- `Config`: the scaler table, the optimizer names, the distributed ignore
  list, the checks of `fit`, and the result columns.
- `Features`: category retention, the binary label map, `prepare_df` and
  `_ohe`.
- `Decoding`: the arg-max and round-half-even decode.
- `Losses`: per-unit means, the reported loss and the back-propagated
  scalar.
- `Batching`: Python floor division and modulo, and `df.iloc` slices.
- `EarlyStopping`: `_fit_data`'s counter, its stop flag and its
  distributed agreement.
- `Engine`: the class `AutoEncoder`. Its fields are the registries,
  `num_names`, `bin_names`, `optim`, the DDP ignore list and the logger's
  feature list. Its methods change those fields in place.

Two behaviours of the code are easy to misread:

- Early stopping counts only strict rises of the validation loss. The
  comparison at `autoencoder.py:805` is a strict `>`, so a tie takes the
  `else` branch at line 814 and resets the counter, as a fall does.
- A value never seen in fitting is encoded to the `_other` slot. With at
  least one retained category, that slot's logit is excluded from the
  arg-max. So `_other` reconstructed exactly decodes to the first retained
  category, not to `_other`.

## Model

| member | source | states |
|---|---|---|
| OrderedDicts.ODict.Get | morpheus/models/dfencoder/autoencoder.py:381 | `d.get(k)` is present exactly for a mapped key, and it is that key's value |
| OrderedDicts.ODict.Put | morpheus/models/dfencoder/autoencoder.py:324 | `d[k] = v` keeps the key order when the key is present and appends it otherwise; the key reads back as `v`; every other key is unchanged; well-formedness is kept |
| OrderedDicts.ODict.PutAllValid | morpheus/models/dfencoder/autoencoder.py:268-276 | a run of assignments keeps the dict well-formed |
| OrderedDicts.ODict.PutAllGet | morpheus/models/dfencoder/autoencoder.py:282-287 | after a run of assignments, each assigned key holds its new value and every other key its old value |
| OrderedDicts.ODict.PutAllKeys | morpheus/models/dfencoder/autoencoder.py:319-324 | after a run of assignments, the keys are the old keys plus the assigned ones, and the old keys keep their order as a prefix |
| OrderedDicts.ODict.PutAllKeysInOrder | morpheus/models/dfencoder/autoencoder.py:319-324 | assigning distinct keys to an empty dict lists them in assignment order |
| OrderedDicts.Empty | morpheus/models/dfencoder/autoencoder.py:145-147 | a fresh registry is well-formed and has no keys |
| Frames.Lookup | morpheus/models/dfencoder/autoencoder.py:374 | `df[name]` succeeds exactly when a column has that name, and returns that column's cells; otherwise it is a KeyError |
| Frames.SelectDtypesMembers | morpheus/models/dfencoder/autoencoder.py:261 | `select_dtypes` lists exactly the names of the columns whose dtype is included |
| Frames.ColumnMean | morpheus/models/dfencoder/autoencoder.py:271 | the mean is NaN exactly when no number is present; otherwise it times the count of numbers equals their sum |
| Frames.ColumnMeanWithin | morpheus/models/dfencoder/autoencoder.py:271 | the column mean (the numeric fill value) lies within any bounds of the numbers present |
| Config.GetScaler | morpheus/models/dfencoder/autoencoder.py:217-225 | each of the five table keys gives its scaler; `None` and "none" give the null scaler; any other name is a KeyError |
| Config.ScaledLossTag | morpheus/models/dfencoder/autoencoder.py:1315-1323 | the tag is "z" for standard, "modz" for modified, and otherwise the name (or "None") followed by "_scaled" |
| Config.ScaledLossTagInjective | morpheus/models/dfencoder/autoencoder.py:1315-1323 | different loss-scaler names give different tags, except `None` against the string "None" |
| Config.ScaledLossTagSeparatesKinds | morpheus/models/dfencoder/autoencoder.py:1315-1323 | loss scalers of different classes are never reported under the same tag |
| Config.OptimizerFor | morpheus/models/dfencoder/autoencoder.py:436-456 | "adam" gives Adam, "sgd" gives SGD, and any other name is a ValueError |
| Config.DdpIgnoreList | morpheus/models/dfencoder/autoencoder.py:418-424 | the numeric (binary) output weight is ignored exactly when there is no numeric (binary) feature; the list has no repeats and the numeric weight comes first |
| Config.CheckFitArgs | morpheus/models/dfencoder/autoencoder.py:680-708 | `fit`'s arguments pass exactly when the five checks hold; a bad `train_data` is a TypeError and the other failures are ValueErrors; centralised training runs as rank 0 of world size 1 |
| Config.ResultColumnWrites | morpheus/models/dfencoder/autoencoder.py:1294-1313 | there are four column writes per feature plus three aggregates |
| Config.ResultColumnLayout | morpheus/models/dfencoder/autoencoder.py:1294-1313 | feature i writes columns 4i to 4i+3 (value, `_pred`, `_loss`, `_z_loss`), and the aggregates come last |
| Config.AssignColumns | morpheus/models/dfencoder/autoencoder.py:1294-1323 | the table ends up with exactly the old columns and the written ones |
| Config.AssignDistinctColumns | morpheus/models/dfencoder/autoencoder.py:1294-1323 | distinct new names give one column per write, in writing order |
| Features.InsertByCount | morpheus/models/dfencoder/autoencoder.py:284-285 | inserting a new value into a count-ordered list without repeats keeps it count-ordered and without repeats, and adds exactly that value |
| Features.RetainFrom | morpheus/models/dfencoder/autoencoder.py:284-285 | over a prefix of the column: the retained values are distinct, count-ordered, and exactly the non-missing values seen at least `min_cats` times |
| Features.RetainedCats | morpheus/models/dfencoder/autoencoder.py:284-285 | the categories of a column are distinct, ordered most frequent first, and exactly the non-missing values that occur at least `min_cats` times |
| Features.BoolKey | morpheus/models/dfencoder/autoencoder.py:381 | a cell matches the dict key True exactly when it is True or 1.0, and matches False exactly when it is False or 0.0 |
| Features.CatsKeyLeaksIntoBinaryColumn | morpheus/models/dfencoder/autoencoder.py:319-324 | as written, the string "cats" in a binary column looks up the category list, not a label |
| Features.BinaryGet | morpheus/models/dfencoder/autoencoder.py:379-381 | a cell becomes True only when it matches a mapped label, and then it becomes that label's value |
| Features.FreshBinaryMapsToTruth | morpheus/models/dfencoder/autoencoder.py:379-381 | with the map `_init_binary` builds, a cell becomes True exactly when it equals True; the written lookup differs from the intended one exactly on "cats" |
| Features.CatCode | morpheus/models/dfencoder/autoencoder.py:385-386 | a cell's code is the position of its first occurrence among the categories, or `len(cats)` (`_other`) exactly when it is not a category |
| Features.PrepareNumeric | morpheus/models/dfencoder/autoencoder.py:372-377 | each numeric column in registry order, with missing cells filled by the feature's mean; a KeyError exactly when a column is absent |
| Features.MapBinary | morpheus/models/dfencoder/autoencoder.py:381 | each cell of a binary column goes through the intended label lookup `BinaryGet`, so every result is a truth value (see Findings for the written lookup) |
| Features.PrepareBinary | morpheus/models/dfencoder/autoencoder.py:379-381 | each binary column in registry order, mapped cell by cell through the intended label lookup; a KeyError exactly when a column is absent |
| Features.PrepareCategorical | morpheus/models/dfencoder/autoencoder.py:383-387 | each categorical column in registry order as codes; it fails exactly when a column is absent (KeyError) or the category list is unusable (ValueError) |
| Features.PrepareDf | morpheus/models/dfencoder/autoencoder.py:358-389 | `prepare_df` succeeds exactly when the numeric, binary and categorical encodings all succeed, and then its parts are those three encodings; on failure its error is the first failing part's (a KeyError for a missing numeric or binary column, else the categorical error) |
| Features.PreparedCategoricalCodes | morpheus/models/dfencoder/autoencoder.py:383-387 | every categorical cell encodes to its category, or to `_other` exactly when it is not a retained category (unseen and missing values included) |
| Features.PreparedCodesFitOneHot | morpheus/models/dfencoder/autoencoder.py:909-914 | every code `prepare_df` produces lies within the `len(cats) + 1` one-hot classes |
| Features.OneHotRow | morpheus/models/dfencoder/autoencoder.py:76-101 | a one-hot row has length `dim`, a 1 at the code and 0 elsewhere |
| Features.OneHot | morpheus/models/dfencoder/autoencoder.py:76-101 | the buffer is `len(codes) x dim`; the scatter succeeds exactly when every code is in range, and then row i is the one-hot row of `codes[i]` |
| Decoding.ArgMax | morpheus/models/dfencoder/autoencoder.py:1193-1196 | the arg-max is the first position of a largest entry |
| Decoding.RoundedBit | morpheus/models/dfencoder/autoencoder.py:1180 | a rounded binary output is True exactly when it lies more than one half from zero |
| Decoding.DecodeBinaryAsWrittenNegates | morpheus/models/dfencoder/autoencoder.py:1181-1184 | as written, the decode map negates the rounded bit, so a binary cell encoded and reconstructed exactly comes back negated |
| Decoding.LabelFor | morpheus/models/dfencoder/autoencoder.py:1183 | the label found is a category whose encoding is the bit; when none is found, no category encodes to the bit |
| Decoding.DecodeBinaryInvertsLabelMap | morpheus/models/dfencoder/autoencoder.py:1181-1184 | the intended decode inverts any one-to-one label map: an encoded label reconstructed exactly decodes to itself |
| Decoding.BinaryRoundTrip | morpheus/models/dfencoder/autoencoder.py:1178-1184 | a binary cell through `prepare_df`, exact reconstruction and the intended decode returns its truth value |
| Decoding.DecodeCategoricalCode | morpheus/models/dfencoder/autoencoder.py:1191-1196 | with retained categories, the code is the first largest logit excluding the last (`_other`) one; without any, the first largest of all logits; an empty range is an IndexError, which the categorical head's `len(cats) + 1` logits rule out |
| Decoding.DecodeNeverOther | morpheus/models/dfencoder/autoencoder.py:1186-1199 | a column with retained categories always decodes to a best-scoring retained category, never to `_other` |
| Decoding.DecodeNoCategoryIsOther | morpheus/models/dfencoder/autoencoder.py:1194-1199 | a column with no retained category decodes to `_other` |
| Decoding.DecodeOneHotCode | morpheus/models/dfencoder/autoencoder.py:1191-1196 | an exact one-hot reconstruction of a retained category's code arg-maxes to that code |
| Decoding.DecodeOneHotCategory | morpheus/models/dfencoder/autoencoder.py:1191-1199 | an exact one-hot reconstruction of the code of a retained category decodes to that category |
| Decoding.CategoricalRoundTrip | morpheus/models/dfencoder/autoencoder.py:1186-1199 | a retained category, encoded and reconstructed exactly as one-hot, decodes to itself |
| Decoding.UnseenDecodesToFirstCategory | morpheus/models/dfencoder/autoencoder.py:1186-1199 | an unseen value encodes to `_other`, and `_other` reconstructed exactly decodes to the first retained category |
| Losses.Mean | morpheus/models/dfencoder/autoencoder.py:622 | the mean is defined exactly for a nonempty list (NaN otherwise), and it times the length equals the sum |
| Losses.SumConcat | morpheus/models/dfencoder/autoencoder.py:599-613 | the sum of a concatenated loss list is the sum of the sums of its parts |
| Losses.ColumnMeans | morpheus/models/dfencoder/autoencoder.py:601 | `mean(dim=0)`: one entry per column, the column's sum over the row count |
| Losses.FlattenLength | morpheus/models/dfencoder/autoencoder.py:602 | a rows-by-columns matrix has rows times columns elements |
| Losses.SumByColumns | morpheus/models/dfencoder/autoencoder.py:600-602 | summing by columns and then adding gives the total of every element |
| Losses.MeanAllIsMeanOfColumnMeans | morpheus/models/dfencoder/autoencoder.py:600-602 | the mean over all elements equals the mean of the per-column means |
| Losses.ComputeLossFromTargets | morpheus/models/dfencoder/autoencoder.py:599-623 | the per-unit list is grown numeric, then binary, then categorical; the net loss is its mean; the three per-type terms are the element means and the categorical means |
| Losses.UnitLossLayout | morpheus/models/dfencoder/autoencoder.py:599-613 | the per-unit list has one entry per numeric column, per binary column and per categorical feature, at those offsets |
| Losses.DoBackward | morpheus/models/dfencoder/autoencoder.py:625-630 | the back-propagated scalar is mse + bce + each categorical loss; it is NaN exactly when mse or bce is |
| Losses.ReportedAndOptimisedLoss | morpheus/models/dfencoder/autoencoder.py:599-630 | the reported loss is NaN only with no features at all; the optimised scalar is NaN when numeric or binary features are absent, and otherwise is the two type means plus the sum of the categorical means |
| Losses.LossCompositionExample | morpheus/models/dfencoder/autoencoder.py:599-630 | on a one-row batch the reported loss is 0.25 while the back-propagated scalar is 0.8: the two weigh units differently |
| Batching.FloorDiv | morpheus/models/dfencoder/autoencoder.py:1213 | Python `//` rounds toward negative infinity for either sign of the divisor |
| Batching.PyMod | morpheus/models/dfencoder/autoencoder.py:1214 | Python `%` pairs with `//` and takes the divisor's sign |
| Batching.NumBatchesIsCeiling | morpheus/models/dfencoder/autoencoder.py:1213-1215 | a positive batch size gives the ceiling of rows over batch size; no rows give no batch; a negative size gives none |
| Batching.BatchSlice | morpheus/models/dfencoder/autoencoder.py:1219-1223 | every batch starts inside the frame and is nonempty; all batches but the last hold exactly `batch_size` rows |
| Batching.AnomalyScoreLosses | morpheus/models/dfencoder/autoencoder.py:1206-1249 | a zero batch size is a ZeroDivisionError; with rows and a positive batch size, an error of `prepare_df` on the frame is raised by the first slice; otherwise it succeeds exactly with rows, a positive batch size and a categorical feature (else `torch.cat` fails with a RuntimeError); on success every row is scored once, in order |
| EarlyStopping.EsRunTracksRises | morpheus/models/dfencoder/autoencoder.py:804-816 | with early stopping enabled, the counter is the length of the current run of strict rises (so the first epoch, compared with infinity, never counts), and the remembered loss is the last one |
| EarlyStopping.EsRunStopsIff | morpheus/models/dfencoder/autoencoder.py:804-816 | the stop flag is raised exactly when some prefix ends with at least `patience` strict rises in a row (at least one rise for a negative patience) |
| EarlyStopping.FalsyPatienceNeverStops | morpheus/models/dfencoder/autoencoder.py:804 | patience 0 or None leaves the early-stopping state untouched |
| EarlyStopping.NegativePatienceStopsAtFirstRise | morpheus/models/dfencoder/autoencoder.py:805-811 | a negative patience stops exactly when some epoch's loss rises |
| EarlyStopping.ConstantLossesNeverStop | morpheus/models/dfencoder/autoencoder.py:805-814 | equal losses never stop training: a tie resets the counter |
| EarlyStopping.RisingRunLength | morpheus/models/dfencoder/autoencoder.py:805-806 | under strictly rising losses, the run at epoch k is k - 1 rises long |
| EarlyStopping.FirstTrue | morpheus/models/dfencoder/autoencoder.py:831-833 | the first raised flag, with none raised before it |
| EarlyStopping.LocalFlags | morpheus/models/dfencoder/autoencoder.py:799-816 | one stop flag per epoch on the main process |
| EarlyStopping.RisingLossesStopAfterPatience | morpheus/models/dfencoder/autoencoder.py:778-833 | strictly rising validation losses stop training after exactly `patience + 1` epochs, not earlier |
| EarlyStopping.AllEpochsRunWithoutEarlyStopping | morpheus/models/dfencoder/autoencoder.py:799-833 | with a falsy patience or validation off, the main process (and centralised training) runs every one of the epochs |
| EarlyStopping.SyncedFlags | morpheus/models/dfencoder/autoencoder.py:820-829 | one synchronised flag per epoch of `range(epochs)` (none for a negative count) |
| EarlyStopping.FitData | morpheus/models/dfencoder/autoencoder.py:758-846 | the loop runs until the first epoch whose synchronised flag is raised (that epoch included), or through every epoch; non-main ranks follow the main process's flag; only rank 0 gathers loss statistics, from the validation set or the training set |
| Engine.NumericSourceAsWritten | morpheus/models/dfencoder/autoencoder.py:242-261 | as written: a ValueError with neither frame nor preset; a nonempty preset is used; an empty preset without a frame reaches the frame branch and fails with AttributeError |
| Engine.EmptyPresetWithoutFrameFails | morpheus/models/dfencoder/autoencoder.py:242-261 | an empty preset and no frame pass the guard and then fail |
| Engine.NumericSource | morpheus/models/dfencoder/autoencoder.py:242-261 | as intended: only the missing-both case fails; a supplied preset is used when it is nonempty or there is no frame |
| Engine.NumericSourceAgrees | morpheus/models/dfencoder/autoencoder.py:242-261 | the intended choice agrees with the written one wherever the written one succeeds, and differs only for an empty preset without a frame |
| Engine.FrameScaler | morpheus/models/dfencoder/autoencoder.py:263-269 | no `scaler` setting is an UnboundLocalError; a single name gives that name's scaler; a per-column dict gives the scaler named for the column, or the gauss-rank scaler for a column it does not list; an unknown name is a KeyError |
| Engine.NumericEntry | morpheus/models/dfencoder/autoencoder.py:245-276 | a preset feature uses its scaler type (gauss-rank by default) and its mean; a frame column uses the `scaler` setting's scaler and the column mean; otherwise only a KeyError or an UnboundLocalError (the KeyError for a feature absent from the preset only makes the function total: the source iterates the preset's own features) |
| Engine.FrameEntryMeanWithin | morpheus/models/dfencoder/autoencoder.py:271 | the mean registered for a frame column with numbers present is a number within any bounds of those numbers |
| Engine.FirstFailure | morpheus/models/dfencoder/autoencoder.py:247-276 | every numeric entry before the first failing one succeeds, and that one fails |
| Engine.PositionLabelsKeys | morpheus/models/dfencoder/autoencoder.py:315-318 | relabelling keeps every label and adds one for each listed category |
| Engine.PositionLabelsLast | morpheus/models/dfencoder/autoencoder.py:315-318 | a category's label is whether its last position in `cats` is not the first |
| Engine.RelabelByPosition | morpheus/models/dfencoder/autoencoder.py:317-318 | the loop over `enumerate(cats)` produces the position labelling |
| Engine.RelabelAll | morpheus/models/dfencoder/autoencoder.py:315-318 | relabelling every feature keeps the key order and well-formedness |
| Engine.RelabelEach | morpheus/models/dfencoder/autoencoder.py:315-318 | the in-order loop over registered features relabels each of them by position |
| Engine.RelabelInvertsFreshBinary | morpheus/models/dfencoder/autoencoder.py:315-324 | relabelling a feature built by `_init_binary` swaps its labels, so a feature from an earlier call that is not listed again maps True to False |
| Engine.FreshBinaryKeysFollowList | morpheus/models/dfencoder/autoencoder.py:319-324 | on a fresh engine, distinct binary columns are registered in list order, so the registry order is the `bin_names` order the logger uses |
| Engine.InitFeaturesValueError | morpheus/models/dfencoder/autoencoder.py:341-349 | `_init_features` raises its own ValueError exactly when there is no frame and one of `preset_cats`, `bin_names` or the numeric preset is missing |
| Engine.EmptyNumericPresetBlocksBuild | morpheus/models/dfencoder/autoencoder.py:242-261 | with every preset supplied, an empty numeric preset and no frame, feature initialisation fails with AttributeError |
| Engine.InitRegistriesValid | morpheus/models/dfencoder/autoencoder.py:326-356 | the registries `_init_features` leaves once its presence check has passed, whether it then succeeds or fails, are well-formed ordered dicts |
| Engine.BuildError | morpheus/models/dfencoder/autoencoder.py:391-434 | `_build_model` raises feature initialisation's error first; otherwise a ValueError, and it succeeds exactly when there is no such error, distributed mode has a rank and the optimizer name is known |
| Engine.FitCats | morpheus/models/dfencoder/autoencoder.py:280-287 | the loop of `_init_cats` assigns each object column its retained categories, in order |
| Engine.RegisterNumeric | morpheus/models/dfencoder/autoencoder.py:247-276 | the loop of `_init_numeric` assigns the numeric features in order up to the first failing one, and stops at that one |
| Engine.AutoEncoder.constructor | morpheus/models/dfencoder/autoencoder.py:107-215 | empty registries, no optimizer, `bin_names` from `binary_feature_list`, and the configuration stored |
| Engine.AutoEncoder.New | morpheus/models/dfencoder/autoencoder.py:213-215 | construction succeeds exactly when the loss scaler name is in the table; otherwise it is a KeyError |
| Engine.AutoEncoder.Registered | morpheus/models/dfencoder/autoencoder.py:145-147 | the three registries as one value; well-formed registries give a well-formed value |
| Engine.AutoEncoder.InitCats | morpheus/models/dfencoder/autoencoder.py:280-287 | the categorical registry becomes the old one with each object column assigned, in order, its retained categories |
| Engine.AutoEncoder.InitCategorical | morpheus/models/dfencoder/autoencoder.py:350-354 | preset categories are adopted as they are; otherwise the object columns of the frame are fitted |
| Engine.AutoEncoder.InitNumeric | morpheus/models/dfencoder/autoencoder.py:227-278 | as written: a ValueError with neither frame nor preset, and an AttributeError for an empty preset without a frame, with nothing changed; otherwise the numeric features are registered in order up to the first failing one, whose error is returned; `num_names` becomes the registry's keys exactly when all succeed |
| Engine.AutoEncoder.RelabelRegistered | morpheus/models/dfencoder/autoencoder.py:315-318 | every registered binary feature is relabelled by position, with the order kept |
| Engine.AutoEncoder.InitBinary | morpheus/models/dfencoder/autoencoder.py:289-324 | a ValueError with neither frame nor `bin_names`, leaving the state unchanged; otherwise `bin_names` is fixed, the old features are relabelled, and each listed column is registered afresh |
| Engine.AutoEncoder.InitFeatures | morpheus/models/dfencoder/autoencoder.py:326-356 | without a frame all three presets are required (a ValueError with nothing changed); otherwise the error is the numeric step's; whether it succeeds or not, the categorical registry is the fitted or preset categories and the numeric registry holds what the numeric step registered before any failure; on success the binary list is registered afresh and `num_names`, `bin_names` are set, on failure the binary registry, `num_names` and `bin_names` are unchanged |
| Engine.AutoEncoder.InitNumericThenBinary | morpheus/models/dfencoder/autoencoder.py:355-356 | the numeric then the binary step: the error is the numeric step's and the numeric registry is what that step leaves, success or not; on success the binary registry and `num_names`, `bin_names` are those `_init_features` produces, on failure all three are unchanged |
| Engine.AutoEncoder.BuildModel | morpheus/models/dfencoder/autoencoder.py:391-434 | the error is feature initialisation's, else a ValueError for a missing rank in distributed mode, else one for an unknown optimizer; with no presets and no frame nothing changes; otherwise the registries are those `_init_features` leaves, success or not; when feature initialisation fails the names, optimizer, logger list and DDP ignore list are unchanged; when it succeeds the names are set, the DDP ignore list matches the empty feature types in distributed mode with a rank, and the optimizer and logger list (numeric, binary then categorical names) are set exactly when the build succeeds |
| Engine.AutoEncoder.BuildTraining | morpheus/models/dfencoder/autoencoder.py:413-432 | the distributed step, the optimizer, then the logger: a ValueError for a missing rank in distributed mode or an unknown optimizer; the DDP ignore list is set whenever a rank is given in distributed mode, even when the optimizer then fails; the optimizer and logger list are set on success and unchanged on failure |
| Engine.AutoEncoder.PrepareDistributed | morpheus/models/dfencoder/autoencoder.py:414-426 | a ValueError exactly when distributed without a rank; otherwise in distributed mode the ignore list is set; centralised training changes nothing |
| Engine.AutoEncoder.BuildOptimizer | morpheus/models/dfencoder/autoencoder.py:436-456 | the optimizer is set exactly when the name is supported; otherwise a ValueError with the optimizer unchanged |
| Engine.AutoEncoder.BuildLogger | morpheus/models/dfencoder/autoencoder.py:458-461 | the logger's features are `num_names + bin_names + categorical names` |
| Engine.AutoEncoder.Fit | morpheus/models/dfencoder/autoencoder.py:637-721 | failed argument checks raise their error with nothing changed; without an optimizer the model is built, and `fit` fails exactly when the build does, with its error, leaving the registries, names, DDP ignore list, optimizer and logger list as the build leaves them on success or failure; with an optimizer nothing is changed; the epoch loop's outcome is that of `_fit_data` with the normalised rank |

## Left out

- Tensor arithmetic is abstracted away: the MSE, BCE and CCE loss functions, the network layers, embeddings and the forward pass. Losses and outputs are abstract reals.
- `scalers.py` is not part of this model, nor are scaler fitting and transforms. The numeric column is modelled before `transform`, and the preset `scaler_attr_dict` and the `std` entries are not modelled.
- Swap noise, `compute_targets`, `build_input_tensor`, `_encode_input`, the learning-rate decay and the optimizer hyperparameters are left out.
- The logger classes and logging calls are left out, except for the feature list handed to the logger.
- Distributed training reduces to one process's view: the main process's shared flag is an input (`all_gather_object` and the DDP wrapper are not modelled).
- Batching.AnomalyScoreLosses: the error of `prepare_df` is a parameter standing for `Features.PrepareDf`'s error on the frame, not computed from it here; `compute_targets`, `build_input_tensor` and the forward pass of each slice are a total `score` and assumed to succeed.
- `get_anomaly_score`'s per-row combination is left out: `_scale_losses`, the `max_abs_z` and `mean_abs_z` values, the baseline performance computation and `_populate_loss_stats_from_dataset`'s statistics.
- Engine.AutoEncoder.Fit: dataset wrapping (`DatasetFromDataframe`) and the training batches themselves are not modelled; each epoch's validation loss is an input.
- Preset numeric parameters are assumed to carry a well-formed "mean" and "scaler_type". A missing "mean" or "std" key in a preset (a KeyError) is not modelled.
- Dict keys are compared by value equality. Python's hash-equality coalescing is modelled only for the binary label lookup (1, 1.0 and True).
- Features.RetainedCats: `value_counts` breaks ties between equally frequent values in an order pandas does not promise. The model fixes the order of first appearance and proves only the count order.
- Validation losses are reals: NaN losses and their comparisons are not modelled.
- Features.MapBinary: maps each cell through the intended lookup `BinaryGet`, not the written `feature.get(x, False)` at line 381; the two differ only on the string "cats" (see Findings, `Features.FreshBinaryMapsToTruth`).
- Features.PrepareBinary: runs the corrected lookup through `Features.MapBinary`, so a "cats" cell becomes False where the code as written yields the category list.
- Engine.AutoEncoder.InitFeatures: adopting `preset_cats` copies the dict's value. The aliasing between the engine and the caller's dict is not modelled.
- The remaining public methods are not modelled: `get_anomaly_score`, `get_deep_stack_features`, `get_variable_importance`, `get_representation` and the dataset-based validation helpers. They reduce to the tensor code above.

## Findings

| source | as written | input that shows it | evidently intended | confidence | as-written member | corrected member |
|---|---|---|---|---|---|---|
| morpheus/models/dfencoder/autoencoder.py:1183 | the decode map is `{False: cats[0], True: cats[1]}`, but `_init_binary` sets `cats = [True, False]` | a binary cell True, encoded to 1 and reconstructed exactly, decodes to False | decoding inverts the label map `prepare_df` applies | not executed | Decoding.DecodeBinaryAsWrittenNegates | Decoding.BinaryRoundTrip |
| morpheus/models/dfencoder/autoencoder.py:245 | the preset is tested for truthiness after a guard that tests it against `None` | `preset_numerical_scaler_params = {}` and `df = None`: the guard passes, then `None.select_dtypes` raises AttributeError | a supplied preset is used when there is no frame | not executed | Engine.EmptyPresetWithoutFrameFails | Engine.NumericSourceAgrees |
| morpheus/models/dfencoder/autoencoder.py:321 | the label map and the `'cats'` list share one dict, so `feature.get(x, False)` can return the list | the string "cats" in a binary column becomes `[True, False]` instead of a label | every cell that is not True maps to False | not executed | Features.CatsKeyLeaksIntoBinaryColumn | Features.FreshBinaryMapsToTruth |
