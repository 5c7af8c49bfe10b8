# Target-encoding model, its MOJO writer, and XGBoost score keepers

This project models three pieces of H2O in Dafny.

- **`TargetEncoderMojoWriter`** writes a trained target-encoding model as a MOJO artifact. It writes:
  - the scalar info keys `with_blending`, then `inflection_point` and `smoothing` only when blending is on, then `priorMean`;
  - a text file with one `column = 0|1` line per missing-value presence flag;
  - a text file holding the encoding map: for each column a `[column]` header, then one `catId = num denom` line per category.

  Before the map is written, a model trained with a fold column has each per-fold encoding frame replaced in place by its regrouping by category alone. A failed regrouping surfaces as `IllegalStateException`.
- **`TargetEncoderModel`** and its output:
  - The presence map holds 1 for a column iff the encoding frame's domain is larger than the training frame's.
  - The summary table holds `(name, name + "_te")` for every column except the response.
  - `transform` and `score` fill in null blending parameters and a null leakage strategy before handing work to the encoder.
  - `score0` and `makeMetricBuilder` always throw.
  - `remove` deletes the data of every encoding frame.
- **`XGBoostOutput`**: `scoreKeepers` takes the validation history when validation metrics exist and the training history otherwise, and keeps its non-empty keepers in order. `getNTrees` reports the number of trees.

Modules:
- `Common`: Java nulls, exceptions, parse results, and `Enumerates`, which states that a sequence is one iteration order of a hash map's keys.
- `Decimal`: `Integer.toString` and its inverse.
- `EncodingFrames`: the encoding frames and the frame operations that the modelled code calls but whose bodies are not part of this model.
- `TargetEncoding`: `TargetEncoderModel.java`.
- `TargetEncodingMojo`: `TargetEncoderMojoWriter.java`, plus a reader for every section the writer produces, used as the writer's inverse.
- `XGBoost`: `XGBoostOutput.java`.

Java hash maps iterate in an unspecified order. Each writer loop therefore picks its next key with `:|` and returns the order it used as a ghost value. The file layouts are stated for that order, and the read-back lemmas hold for every order.

## Model

| member | source | states |
|---|---|---|
| `TargetEncodingMojo.TargetEncoderMojoWriter.constructor` | h2o-extensions/target-encoder/src/main/java/ai/h2o/targetencoding/TargetEncoderMojoWriter.java:18-20 | The writer holds the given model and starts with no info keys, no files and no file open. |
| `TargetEncodingMojo.TargetEncoderMojoWriter.MojoVersion` | h2o-extensions/target-encoder/src/main/java/ai/h2o/targetencoding/TargetEncoderMojoWriter.java:22-25 | The artifact layout version is the constant `1.00`. |
| `TargetEncodingMojo.TargetEncoderMojoWriter.WriteModelData` | h2o-extensions/target-encoder/src/main/java/ai/h2o/targetencoding/TargetEncoderMojoWriter.java:27-31 | Succeeds iff blending parameters are set whenever blending is on, and regrouping succeeds (no fold column, or every frame of the map as it was before the call regroups). Null blending parameters while blending is on fail with a null dereference: only `with_blending` is written, no file, and the map is untouched. Otherwise the info keys and the presence file come first. A regrouping failure then stops with `IllegalStateException`, the presence file as the only new file and each frame untouched or regrouped. On success the frames are the regroupings of the frames before the call, and the encoding-map file of the converted map follows as the second and last new file. The presence map, prior mean and summary table are unchanged. |
| `TargetEncodingMojo.TargetEncoderMojoWriter.WriteExtraInfo` | h2o-extensions/target-encoder/src/main/java/ai/h2o/targetencoding/TargetEncoderMojoWriter.java:33-36 | Writes nothing: the info, the files and the writing state are unchanged. |
| `TargetEncodingMojo.TargetEncoderMojoWriter.WriteTargetEncodingInfo` | h2o-extensions/target-encoder/src/main/java/ai/h2o/targetencoding/TargetEncoderMojoWriter.java:41-57 | Succeeds iff blending is off or its parameters are set. On success the new info keys are exactly `InfoEntries`, and exactly one new file exists: the presence file, with one `column = flag` line per entry of the presence map in its iteration order. On failure only `with_blending` was written and no file was written. |
| `TargetEncodingMojo.TargetEncoderMojoWriter.WriteEntryLines` | h2o-extensions/target-encoder/src/main/java/ai/h2o/targetencoding/TargetEncoderMojoWriter.java:53-55 | Visits every key of the map exactly once and appends one `key = value` line per key, in the visiting order, to the open file. |
| `TargetEncodingMojo.TargetEncoderMojoWriter.WriteTargetEncodingMap` | h2o-extensions/target-encoder/src/main/java/ai/h2o/targetencoding/TargetEncoderMojoWriter.java:62-80 | Succeeds iff there is no fold column or every frame of the map as it was before the call regroups. A failed regrouping fails with `IllegalStateException`, writes nothing, and leaves each frame either untouched or already regrouped. On success each frame is the regrouping of its value before the call (untouched without a fold column), and exactly one new file exists: the encoding-map file of the converted map, in a complete visiting order. The key set, presence map, prior mean and summary table are unchanged. |
| `TargetEncodingMojo.TargetEncoderMojoWriter.WriteColumnBlocks` | h2o-extensions/target-encoder/src/main/java/ai/h2o/targetencoding/TargetEncoderMojoWriter.java:71-78 | Visits every column once and, within it, every category once. Appends a `[column]` header followed by that column's category lines, block after block. |
| `TargetEncodingMojo.TargetEncoderMojoWriter.IfNeededRegroupEncodingMapsByFoldColumn` | h2o-extensions/target-encoder/src/main/java/ai/h2o/targetencoding/TargetEncoderMojoWriter.java:85-99 | Without a fold column the map is untouched and the call succeeds. With one, it succeeds iff every frame can be regrouped by that column, and then each value is its regrouping. A failure is `IllegalStateException` with the source's message, and each frame is either untouched or already regrouped. The key set, presence map, prior mean and summary table are always unchanged. |
| `TargetEncodingMojo.InfoLayout` | h2o-extensions/target-encoder/src/main/java/ai/h2o/targetencoding/TargetEncoderMojoWriter.java:44-49 | `with_blending` is first and `priorMean` is last with the prior mean as its value. `inflection_point` then `smoothing` sit between them iff blending is on, giving 4 keys versus 2. |
| `TargetEncodingMojo.ReadInfoEntries` | h2o-extensions/target-encoder/src/main/java/ai/h2o/targetencoding/TargetEncoderMojoWriter.java:44-49 | Reading the info keys back gives the blending flag, the blending parameters exactly when blending is on, and the prior mean. |
| `TargetEncodingMojo.PresenceLineRoundTrip` | h2o-extensions/target-encoder/src/main/java/ai/h2o/targetencoding/TargetEncoderMojoWriter.java:54 | A written `column = flag` line parses back to that column and flag, for every column name and every integer. |
| `TargetEncodingMojo.ReadPresenceFile` | h2o-extensions/target-encoder/src/main/java/ai/h2o/targetencoding/TargetEncoderMojoWriter.java:51-56 | Whatever the iteration order, the presence file reads back as exactly the presence map. |
| `TargetEncodingMojo.PresenceFileLength` | h2o-extensions/target-encoder/src/main/java/ai/h2o/targetencoding/TargetEncoderMojoWriter.java:51-56 | The presence file has exactly one line per entry of the presence map. |
| `TargetEncodingMojo.KeyValueLinesAt` | h2o-extensions/target-encoder/src/main/java/ai/h2o/targetencoding/TargetEncoderMojoWriter.java:53-55 | Line `i` is the `key = value` line of the `i`-th key visited. |
| `TargetEncodingMojo.StatTextRoundTrip` | h2o-extensions/target-encoder/src/main/java/ai/h2o/targetencoding/TargetEncoderMojoWriter.java:76 | The text `num denom` parses back to the same two integers, negative ones included. |
| `TargetEncodingMojo.CategoryLineRoundTrip` | h2o-extensions/target-encoder/src/main/java/ai/h2o/targetencoding/TargetEncoderMojoWriter.java:76 | A written `catId = num denom` line parses back to its category and statistics. |
| `TargetEncodingMojo.CategoryLineIsNotHeader` | h2o-extensions/target-encoder/src/main/java/ai/h2o/targetencoding/TargetEncoderMojoWriter.java:72-76 | No category line can be mistaken for a `[column]` header. |
| `TargetEncodingMojo.ReadMapLines` | h2o-extensions/target-encoder/src/main/java/ai/h2o/targetencoding/TargetEncoderMojoWriter.java:70-79 | Suppose the category lines read back and never look like headers. Then the header-and-lines layout, in any complete visiting order, reads back as the whole map. |
| `TargetEncodingMojo.ReadEncodingMapFile` | h2o-extensions/target-encoder/src/main/java/ai/h2o/targetencoding/TargetEncoderMojoWriter.java:70-79 | Whatever the visiting order, the encoding-map file reads back as exactly the map it was written from. |
| `TargetEncodingMojo.MapLineCount` | h2o-extensions/target-encoder/src/main/java/ai/h2o/targetencoding/TargetEncoderMojoWriter.java:70-79 | The file has one header per visited column plus one line per visited category. |
| `TargetEncodingMojo.EncodingMapFileSize` | h2o-extensions/target-encoder/src/main/java/ai/h2o/targetencoding/TargetEncoderMojoWriter.java:70-79 | For a complete visit, the line count is the number of columns plus the total number of categories, and each block has as many lines as its column has categories. |
| `TargetEncodingMojo.ReadBackPosteriorMean` | h2o-extensions/target-encoder/src/test/java/ai/h2o/targetencoding/TEMojoIntegrationTest.java:219-223 | For every written category with a non-zero denominator, a reader of the file recovers the posterior mean `num / denom`. |
| `TargetEncodingMojo.WrittenStatisticsIgnoreFolds` | h2o-extensions/target-encoder/src/main/java/ai/h2o/targetencoding/TargetEncoderMojoWriter.java:89-94 | After regrouping by a fold column, each column's written categories are those of its fold rows. Each category's statistics are its sums over all folds. |
| `TargetEncoding.TargetEncoderOutput.constructor` | h2o-extensions/target-encoder/src/main/java/ai/h2o/targetencoding/TargetEncoderModel.java:67-75 | Stores the map, the parameters and the prior mean. The summary and presence map it builds are as the two rows below state. |
| `TargetEncoding.TargetEncoderOutput.CreateMissingValuesPresenceMap` | h2o-extensions/target-encoder/src/main/java/ai/h2o/targetencoding/TargetEncoderModel.java:77-87 | The presence map has exactly the encoding map's keys. A value is 1 iff the training cardinality is below the encoding frame's, and 0 iff not. |
| `TargetEncoding.PresenceFlag` | h2o-extensions/target-encoder/src/main/java/ai/h2o/targetencoding/TargetEncoderModel.java:83 | The flag is 1 iff the training cardinality is strictly less than the encoding cardinality, and 0 iff it is not. |
| `TargetEncoding.TargetEncoderOutput.ConstructSummary` | h2o-extensions/target-encoder/src/main/java/ai/h2o/targetencoding/TargetEncoderModel.java:89-102 | One row per column name. The response column's row is unset, and every other row `i` is `(names[i], names[i] + "_te")`. |
| `TargetEncoding.DefaultParameters` | h2o-extensions/target-encoder/src/main/java/ai/h2o/targetencoding/TargetEncoderModel.java:33-36 | Fresh parameters have blending off, the default blending parameters and the `None` leakage strategy. |
| `TargetEncoding.ResolveBlendingParams` | h2o-extensions/target-encoder/src/main/java/ai/h2o/targetencoding/TargetEncoderModel.java:122 | Uses the explicit parameters if given, else the model's, else `DEFAULT_BLENDING_PARAMS`. |
| `TargetEncoding.TargetEncoderModel.TransformWithNoise` | h2o-extensions/target-encoder/src/main/java/ai/h2o/targetencoding/TargetEncoderModel.java:120-127 | The encoder receives the given data, strategy code, noise level, blending flag and seed. It also gets the model's response column, fold column and frames, and blending parameters resolved by the null fallback. |
| `TargetEncoding.TargetEncoderModel.Transform` | h2o-extensions/target-encoder/src/main/java/ai/h2o/targetencoding/TargetEncoderModel.java:139-145 | The same as the noisy overload, but no noise level is passed. |
| `TargetEncoding.TargetEncoderModel.constructor` | h2o-extensions/target-encoder/src/main/java/ai/h2o/targetencoding/TargetEncoderModel.java:23-26 | The model holds the given parameters and output. |
| `TargetEncoding.TargetEncoderModel.Score` | h2o-extensions/target-encoder/src/main/java/ai/h2o/targetencoding/TargetEncoderModel.java:153-160 | A null leakage strategy becomes `None`, and null blending parameters become the defaults. The model's blending flag and seed are passed through, and so is the destination key's name, null included. |
| `TargetEncoding.TransformAgreesWithScore` | h2o-extensions/target-encoder/src/main/java/ai/h2o/targetencoding/TargetEncoderModel.java:139-160 | Without explicit parameters, `transform` blends as `score` does. Both send the same response column, fold column and frames. |
| `TargetEncoding.TargetEncoderModel.Score0` | h2o-extensions/target-encoder/src/main/java/ai/h2o/targetencoding/TargetEncoderModel.java:147-150 | Always fails with `UnsupportedOperationException`. |
| `TargetEncoding.TargetEncoderModel.MakeMetricBuilder` | h2o-extensions/target-encoder/src/main/java/ai/h2o/targetencoding/TargetEncoderModel.java:28-31 | Always fails with the unimplemented error. |
| `TargetEncoding.TargetEncoderModel.RemoveImpl` | h2o-extensions/target-encoder/src/main/java/ai/h2o/targetencoding/TargetEncoderModel.java:168-172 | Every frame keeps its column and shape but holds no data, so its byte size is 0. Nothing else in the output changes. |
| `EncodingFrames.GroupingIgnoringFoldColumn` | h2o-extensions/target-encoder/src/main/java/ai/h2o/targetencoding/TargetEncoderMojoWriter.java:92 | Succeeds iff the frame is split by the named fold column. The result is grouped by category alone: same cardinality, the same categories, and each category's statistics summed over its folds. |
| `EncodingFrames.SumByCategoryIgnoresFolds` | h2o-extensions/target-encoder/src/main/java/ai/h2o/targetencoding/TargetEncoderMojoWriter.java:92 | Rows that differ only in their fold ids group to the same map. |
| `EncodingFrames.CategoryTotalAppend` | h2o-extensions/target-encoder/src/main/java/ai/h2o/targetencoding/TargetEncoderMojoWriter.java:92 | A category's total over two row ranges is the sum of its totals over each. |
| `EncodingFrames.ConvertEncodingMapFromFrameToMap` | h2o-extensions/target-encoder/src/main/java/ai/h2o/targetencoding/TargetEncoderMojoWriter.java:69 | Keeps the column set, and turns each grouped frame into its category map. |
| `EncodingFrames.Deleted` | h2o-extensions/target-encoder/src/main/java/ai/h2o/targetencoding/TargetEncoderModel.java:170 | A deleted frame holds no data and keeps its cardinality and kind. |
| `Decimal.ParseIntToString` | h2o-extensions/target-encoder/src/main/java/ai/h2o/targetencoding/TargetEncoderMojoWriter.java:76 | The decimal text of any `int`, negative ones included, parses back to that `int`. |
| `Decimal.IntToStringHasNoSpace` | h2o-extensions/target-encoder/src/main/java/ai/h2o/targetencoding/TargetEncoderMojoWriter.java:76 | The text of an `int` has no space, so one space can separate the numerator from the denominator. |
| `XGBoost.XGBoostOutput.constructor` | h2o-extensions/xgboost/src/main/java/hex/tree/xgboost/XGBoostOutput.java:11-15 | Each history is a new array, distinct from the other, holding exactly one keeper built from NaN, so neither history has a scored keeper yet. |
| `XGBoost.Filled` | h2o-extensions/xgboost/src/main/java/hex/tree/xgboost/XGBoostOutput.java:13-14 | A keeper built from one value is empty iff that value is NaN. |
| `XGBoost.XGBoostOutput.ScoreKeepers` | h2o-extensions/xgboost/src/main/java/hex/tree/xgboost/XGBoostOutput.java:26-33 | Returns the non-empty keepers of the validation history iff validation metrics are present, and of the training history otherwise. |
| `XGBoost.ScoreKeepersSelection` | h2o-extensions/xgboost/src/main/java/hex/tree/xgboost/XGBoostOutput.java:28-32 | The result holds only non-empty keepers of the history and misses none of them. It is an order-preserving subsequence of the history, no longer than the history, with one keeper per non-empty position, so equal keepers are all kept. |
| `XGBoost.NonEmptyKeepsOnlyScored` | h2o-extensions/xgboost/src/main/java/hex/tree/xgboost/XGBoostOutput.java:29-31 | Every kept keeper is non-empty and comes from the history. |
| `XGBoost.NonEmptyCountsScored` | h2o-extensions/xgboost/src/main/java/hex/tree/xgboost/XGBoostOutput.java:29-31 | The filter keeps as many keepers as the history has non-empty positions. |
| `XGBoost.NonEmptyMissesNone` | h2o-extensions/xgboost/src/main/java/hex/tree/xgboost/XGBoostOutput.java:29-31 | Every non-empty keeper of the history is kept. |
| `XGBoost.NonEmptyIsSubsequence` | h2o-extensions/xgboost/src/main/java/hex/tree/xgboost/XGBoostOutput.java:29-32 | The kept keepers are a subsequence of the history, in its order. |
| `XGBoost.SubsequenceLength` | h2o-extensions/xgboost/src/main/java/hex/tree/xgboost/XGBoostOutput.java:32 | A subsequence is no longer than the sequence it is taken from. |
| `XGBoost.NonEmptyIdempotent` | h2o-extensions/xgboost/src/main/java/hex/tree/xgboost/XGBoostOutput.java:29-31 | Filtering an already filtered history changes nothing. |
| `XGBoost.XGBoostOutput.GetNTrees` | h2o-extensions/xgboost/src/main/java/hex/tree/xgboost/XGBoostOutput.java:41-44 | Returns the number of trees and changes nothing. |

## Left out

- The distributed frame store, `Frame`, `Vec` and `Scope` are left out. An encoding frame is a value: either rows with a category, a fold id and `(num, denom)`, or a map from category to `(num, denom)`. A cardinality stands for `vec(column).cardinality()`.
- `TargetEncoder.groupingIgnoringFoldColumn`, `TargetEncoderFrameHelper.convertEncodingMapFromFrameToMap` and `encodingMapCleanUp` are not part of this model. They are given as functions over those values:
  - grouping sums per category over folds, and fails on a frame without the fold column;
  - conversion of a frame that still has folds keeps the last row per category;
  - cleanup deletes each frame's data.
- `TargetEncoding.TargetEncoderOutput.CreateMissingValuesPresenceMap` requires every encoded column to exist in the training frame. Java would throw a null dereference for a missing one, and that path is not modelled.
- `IfNeededRegroupEncodingMapsByFoldColumn`: the `delete()` of each replaced frame is not modelled. Frames are values here, and the old value is no longer referenced once it is replaced.
- `ModelMojoWriter` is not part of this model. The model assumes `writelnkv` writes `key = value` on one line and `writekv` records a typed pair. The zip container, byte encoding and the floating-point text of `writekv` values are left out.
- `TargetEncoder.applyTargetEncoding` is left out, along with blending (`computeLambda`), noise and the leakage strategies. `transform` and `score` are modelled by the arguments they pass to it.
- `DataLeakageHandlingStrategy.fromVal` is not part of this model. `transform` passes the byte code on unconverted.
- `Key.make` is not part of this model. `score` hands on the destination key's name, which may be null, instead of the key made from it.
- `Stat` numerators and denominators and the category ids are unbounded integers. In Java they are 32-bit `int`s, and the per-fold sums of `GroupingIgnoringFoldColumn` would wrap around past 2^31 - 1. The writer itself does no arithmetic on them.
- `TargetEncoding.DefaultBlendingParams` is (20, 10), the value of `TargetEncoder.DEFAULT_BLENDING_PARAMS`. `TargetEncoder.java` is not part of this model, so the value is taken as given.
- `TargetEncoding.TargetEncoderModel.constructor` leaves out the `TargetEncoder` it stores, because `applyTargetEncoding` is left out.
- `TargetEncoding.TargetEncoderModel.RemoveImpl` leaves out `super.remove_impl`, the generic model cleanup.
- `XGBoost.XGBoostOutput.ScoreKeepers` returns a sequence rather than a fresh Java array; the array copy made by `toArray` is not modelled.
- `ScoreKeeper` is not part of this model. A keeper is a sequence of metric values, and `isEmpty` means every value is NaN.
- `Model.Output`'s own constructor is left out. The XGBoost output starts with zero trees and no validation metrics.
- `_training_time_ms` is left out because it reads the wall clock. The other XGBoost output fields (variable importances, native parameters, column offsets) are never read by the modelled methods.
- The reader functions (`ReadPresence`, `ReadEncodingMap`, `ReadInfo`) are not the artifact reader's Java code. They are independent inverses, used to state what each written section means.
- The REST schema `TargetEncoderV3` and the tests are left out. One test is cited above as evidence for a property.
