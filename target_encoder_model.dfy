/**
 * A trained target-encoding model (`TargetEncoderModel`): its parameters, its output (the
 * per-column encoding frames, the missing-value presence flags, the prior mean and the summary
 * table), the null fallbacks it applies before handing work to the encoder, and its cleanup.
 */
module TargetEncoding {
  import opened Common
  import opened EncodingFrames

  /** Suffix of an encoded column's name (`TargetEncoder.ENCODED_COLUMN_POSTFIX`). */
  const EncodedColumnPostfix := "_te"

  /** Blending's inflection point `k` and smoothing `f`. */
  datatype BlendingParams = BlendingParams(k: real, f: real)

  /** `TargetEncoder.DEFAULT_BLENDING_PARAMS`; `TargetEncoder.java` is not part of this model, so the value is taken as given. */
  const DefaultBlendingParams := BlendingParams(20.0, 10.0)

  datatype DataLeakageHandlingStrategy = LeaveOneOut | KFold | None

  /** The part of the training frame the model reads: the cardinality of each column's domain. */
  datatype TrainingFrame = TrainingFrame(cardinality: map<string, int>)

  /** `TargetEncoderParameters`, with the fields of `Model.Parameters` that the model reads. */
  datatype TargetEncoderParameters = TargetEncoderParameters(
    blending: bool,
    blendingParameters: Nullable<BlendingParams>,
    dataLeakageHandling: Nullable<DataLeakageHandlingStrategy>,
    responseColumn: string,
    foldColumn: Nullable<string>,
    seed: int,
    train: TrainingFrame)

  /** The parameters as `new TargetEncoderParameters()` leaves them, given the inherited fields. */
  function DefaultParameters(responseColumn: string, foldColumn: Nullable<string>, seed: int, train: TrainingFrame): (p: TargetEncoderParameters)
    ensures !p.blending
    ensures p.blendingParameters == NonNull(DefaultBlendingParams)
    ensures p.dataLeakageHandling == NonNull(DataLeakageHandlingStrategy.None)
  {
    TargetEncoderParameters(false, NonNull(DefaultBlendingParams), NonNull(DataLeakageHandlingStrategy.None), responseColumn, foldColumn, seed, train)
  }

  /** A summary-table row: original column name and encoded column name. */
  datatype SummaryRow = SummaryRow(originalName: string, encodedName: string)

  /** The 0/1 flag `createMissingValuesPresenceMap` stores for one column. */
  function PresenceFlag(trainCardinality: int, encodingCardinality: int): (flag: int)
    ensures flag == 1 <==> trainCardinality < encodingCardinality
    ensures flag == 0 <==> trainCardinality >= encodingCardinality
  {
    if trainCardinality < encodingCardinality then 1 else 0
  }

  /** Every flag of a presence map is 0 or 1. */
  ghost predicate FlagsAreBits(presence: map<string, int>) {
    forall c | c in presence :: presence[c] == 0 || presence[c] == 1
  }

  /** `TargetEncoderOutput`. */
  class TargetEncoderOutput {
    /** Column name -> encoding frame; the MOJO writer and `remove` replace its values in place. */
    var targetEncodingMap: map<string, EncodingFrame>
    const parms: TargetEncoderParameters
    var columnNameToMissingValPresence: map<string, int>
    var priorMean: real
    /** One row per training column; a row is `Null` where the table was never set. */
    var modelSummary: seq<Nullable<SummaryRow>>
    /** `_names` of `Model.Output`: the training frame's column names. */
    const names: seq<string>
    /** `responseName()` of `Model.Output`. */
    const responseName: Nullable<string>

    constructor (parms: TargetEncoderParameters, names: seq<string>, responseName: Nullable<string>,
                 teMap: map<string, EncodingFrame>, priorMean: real)
      requires teMap.Keys <= parms.train.cardinality.Keys
      ensures this.parms == parms && this.names == names && this.responseName == responseName
      ensures targetEncodingMap == teMap && this.priorMean == priorMean
      ensures |modelSummary| == |names|
      ensures forall i | 0 <= i < |names| ::
        modelSummary[i] == if NonNull(names[i]) == responseName then Null
                           else NonNull(SummaryRow(names[i], names[i] + EncodedColumnPostfix))
      ensures columnNameToMissingValPresence.Keys == teMap.Keys
      ensures forall c | c in teMap ::
        columnNameToMissingValPresence[c] == PresenceFlag(parms.train.cardinality[c], teMap[c].cardinality)
    {
      this.targetEncodingMap := teMap;
      this.parms := parms;
      this.names := names;
      this.responseName := responseName;
      this.priorMean := priorMean;
      this.columnNameToMissingValPresence := map[];
      this.modelSummary := [];
      new;
      var summary := ConstructSummary();
      modelSummary := summary;
      var presence := CreateMissingValuesPresenceMap();
      columnNameToMissingValPresence := presence;
    }

    /**
     * One flag per encoded column: 1 when the encoding frame's domain for the column is larger
     * than the training frame's (the encoder added a category for missing values), 0 otherwise.
     */
    method CreateMissingValuesPresenceMap() returns (presence: map<string, int>)
      requires targetEncodingMap.Keys <= parms.train.cardinality.Keys
      ensures presence.Keys == targetEncodingMap.Keys
      ensures forall c | c in presence ::
        (presence[c] == 1 <==> parms.train.cardinality[c] < targetEncodingMap[c].cardinality) &&
        (presence[c] == 0 <==> parms.train.cardinality[c] >= targetEncodingMap[c].cardinality)
      ensures FlagsAreBits(presence)
    {
      presence := map[];
      var remaining := targetEncodingMap.Keys;
      while remaining != {}
        invariant remaining <= targetEncodingMap.Keys
        invariant presence.Keys == targetEncodingMap.Keys - remaining
        invariant forall c | c in presence ::
          presence[c] == PresenceFlag(parms.train.cardinality[c], targetEncodingMap[c].cardinality)
        decreases remaining
      {
        var teColumn :| teColumn in remaining;
        var frameWithEncodings := targetEncodingMap[teColumn];
        presence := presence[teColumn := PresenceFlag(parms.train.cardinality[teColumn], frameWithEncodings.cardinality)];
        remaining := remaining - {teColumn};
      }
    }

    /**
     * The summary table: row i names column i and its encoded column `name + "_te"`; the
     * response column's row is skipped and stays unset.
     */
    method ConstructSummary() returns (summary: seq<Nullable<SummaryRow>>)
      ensures |summary| == |names|
      ensures forall i | 0 <= i < |names| && NonNull(names[i]) == responseName :: summary[i] == Null
      ensures forall i | 0 <= i < |names| && NonNull(names[i]) != responseName ::
        summary[i] == NonNull(SummaryRow(names[i], names[i] + EncodedColumnPostfix))
    {
      var table := new Nullable<SummaryRow>[|names|](_ => Null);
      for i := 0 to |names|
        invariant forall j | 0 <= j < i && NonNull(names[j]) == responseName :: table[j] == Null
        invariant forall j | 0 <= j < i && NonNull(names[j]) != responseName ::
          table[j] == NonNull(SummaryRow(names[j], names[j] + EncodedColumnPostfix))
        invariant forall j | i <= j < |names| :: table[j] == Null
      {
        var originalColName := names[i];
        if NonNull(originalColName) == responseName {
          continue;
        }
        table[i] := NonNull(SummaryRow(originalColName, originalColName + EncodedColumnPostfix));
      }
      summary := table[..];
    }
  }

  /** The frame a caller asks the model to encode. */
  datatype FrameRef = FrameRef(key: string)

  /** How the leakage strategy reaches the encoder: a byte code from `transform`, a value from `score`. */
  datatype StrategyArg = StrategyCode(code: int) | StrategyValue(strategy: DataLeakageHandlingStrategy)

  /**
   * The arguments the model passes to `TargetEncoder.applyTargetEncoding`, whose body is not
   * part of this model. `noiseLevel` is `Null` for the overloads that take no noise level, and
   * `destination` is `Null` for those that take no result key.
   */
  datatype EncodingRequest = EncodingRequest(
    data: FrameRef,
    responseColumn: string,
    encodingMap: map<string, EncodingFrame>,
    strategy: StrategyArg,
    foldColumn: Nullable<string>,
    withBlending: bool,
    noiseLevel: Nullable<real>,
    imputeNAs: bool,
    blendingParams: BlendingParams,
    seed: int,
    destination: Nullable<string>)

  /** Blending parameters to use: the explicit ones, else the model's, else the defaults. */
  function ResolveBlendingParams(explicit: Nullable<BlendingParams>, model: Nullable<BlendingParams>): (p: BlendingParams)
    ensures explicit.NonNull? ==> p == explicit.value
    ensures explicit.Null? && model.NonNull? ==> p == model.value
    ensures explicit.Null? && model.Null? ==> p == DefaultBlendingParams
  {
    if explicit.NonNull? then explicit.value
    else if model.NonNull? then model.value
    else DefaultBlendingParams
  }

  /** `TargetEncoderModel`. */
  class TargetEncoderModel {
    const parms: TargetEncoderParameters
    const output: TargetEncoderOutput

    constructor (parms: TargetEncoderParameters, output: TargetEncoderOutput)
      ensures this.parms == parms && this.output == output
    {
      this.parms := parms;
      this.output := output;
    }

    /** `transform` with a noise level. */
    function TransformWithNoise(data: FrameRef, strategy: int, noiseLevel: real, useBlending: bool,
                                blendingParams: Nullable<BlendingParams>, seed: int): (r: EncodingRequest)
      reads output
      ensures blendingParams.NonNull? ==> r.blendingParams == blendingParams.value
      ensures blendingParams.Null? && parms.blendingParameters.NonNull? ==> r.blendingParams == parms.blendingParameters.value
      ensures blendingParams.Null? && parms.blendingParameters.Null? ==> r.blendingParams == DefaultBlendingParams
      ensures r.data == data && r.strategy == StrategyCode(strategy) && r.noiseLevel == NonNull(noiseLevel)
      ensures r.withBlending == useBlending && r.seed == seed && r.destination.Null? && !r.imputeNAs
      ensures r.responseColumn == parms.responseColumn && r.foldColumn == parms.foldColumn
      ensures r.encodingMap == output.targetEncodingMap
    {
      EncodingRequest(data, parms.responseColumn, output.targetEncodingMap, StrategyCode(strategy),
                      parms.foldColumn, useBlending, NonNull(noiseLevel), false,
                      ResolveBlendingParams(blendingParams, parms.blendingParameters), seed, Null)
    }

    /** `transform` without a noise level: the encoder applies its own default noise. */
    function Transform(data: FrameRef, strategy: int, useBlending: bool,
                       blendingParams: Nullable<BlendingParams>, seed: int): (r: EncodingRequest)
      reads output
      ensures blendingParams.NonNull? ==> r.blendingParams == blendingParams.value
      ensures blendingParams.Null? && parms.blendingParameters.NonNull? ==> r.blendingParams == parms.blendingParameters.value
      ensures blendingParams.Null? && parms.blendingParameters.Null? ==> r.blendingParams == DefaultBlendingParams
      ensures r.data == data && r.strategy == StrategyCode(strategy) && r.noiseLevel.Null?
      ensures r.withBlending == useBlending && r.seed == seed && r.destination.Null? && !r.imputeNAs
      ensures r.responseColumn == parms.responseColumn && r.foldColumn == parms.foldColumn
      ensures r.encodingMap == output.targetEncodingMap
    {
      EncodingRequest(data, parms.responseColumn, output.targetEncodingMap, StrategyCode(strategy),
                      parms.foldColumn, useBlending, Null, false,
                      ResolveBlendingParams(blendingParams, parms.blendingParameters), seed, Null)
    }

    /**
     * `score`: encodes with the model's own settings, falling back to `None` and the default
     * blending. The destination key's name may be null (the one-argument `score(fr)` passes none);
     * it is handed on as it is, and the key `Key.make` builds from it is not modelled.
     */
    function Score(fr: FrameRef, destinationKey: Nullable<string>): (r: EncodingRequest)
      reads output
      ensures parms.blendingParameters.NonNull? ==> r.blendingParams == parms.blendingParameters.value
      ensures parms.blendingParameters.Null? ==> r.blendingParams == DefaultBlendingParams
      ensures parms.dataLeakageHandling.NonNull? ==> r.strategy == StrategyValue(parms.dataLeakageHandling.value)
      ensures parms.dataLeakageHandling.Null? ==> r.strategy == StrategyValue(DataLeakageHandlingStrategy.None)
      ensures r.data == fr && r.withBlending == parms.blending && r.seed == parms.seed && r.noiseLevel.Null?
      ensures r.destination == destinationKey && !r.imputeNAs
      ensures r.responseColumn == parms.responseColumn && r.foldColumn == parms.foldColumn
      ensures r.encodingMap == output.targetEncodingMap
    {
      var strategy := if parms.dataLeakageHandling.NonNull? then parms.dataLeakageHandling.value else DataLeakageHandlingStrategy.None;
      EncodingRequest(fr, parms.responseColumn, output.targetEncodingMap, StrategyValue(strategy),
                      parms.foldColumn, parms.blending, Null, false,
                      ResolveBlendingParams(Null, parms.blendingParameters), parms.seed, destinationKey)
    }

    /** `score0`: row-wise scoring is not supported. */
    function Score0(data: seq<real>, preds: seq<real>): (r: Result<seq<real>>)
      ensures r.Failure? && r.error.UnsupportedOperation?
    {
      Failure(UnsupportedOperation("TargetEncoderModel doesn't support scoring. Use `transform()` instead."))
    }

    /** `makeMetricBuilder`: a target encoder has no model metrics. */
    function MakeMetricBuilder(domain: seq<string>): (r: Result<()>)
      ensures r.Failure? && r.error.Unimplemented?
    {
      Failure(Unimplemented("No Model Metrics for TargetEncoder."))
    }

    /** `remove_impl`: deletes the data of every encoding frame; the map keeps its columns. */
    method RemoveImpl()
      modifies output
      ensures output.targetEncodingMap.Keys == old(output.targetEncodingMap.Keys)
      ensures forall c | c in output.targetEncodingMap ::
        output.targetEncodingMap[c] == Deleted(old(output.targetEncodingMap[c]))
      ensures forall c | c in output.targetEncodingMap :: ByteSize(output.targetEncodingMap[c]) == 0
      ensures output.columnNameToMissingValPresence == old(output.columnNameToMissingValPresence)
      ensures output.priorMean == old(output.priorMean) && output.modelSummary == old(output.modelSummary)
    {
      var frames := output.targetEncodingMap;
      output.targetEncodingMap := map c | c in frames :: Deleted(frames[c]);
    }
  }

  /**
   * With no blending parameters passed, `transform` blends as `score` does, and both hand the
   * encoder the model's own response column, fold column and encoding frames.
   */
  lemma TransformAgreesWithScore(model: TargetEncoderModel, data: FrameRef, strategy: int, useBlending: bool,
                                 seed: int, destinationKey: Nullable<string>)
    ensures var t, s := model.Transform(data, strategy, useBlending, Null, seed), model.Score(data, destinationKey);
      && t.blendingParams == s.blendingParams
      && t.responseColumn == s.responseColumn && t.foldColumn == s.foldColumn && t.encodingMap == s.encodingMap
  {
  }
}
