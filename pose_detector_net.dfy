/** The classifier wrapper of `src/PoseDetectorNet/index.js`. `load()` returns
    an object whose closure holds the training tensors and the normalisation
    bounds; here that object is the class `PoseDetector`, and the closure
    variables are its fields. The TF.js model is opaque: the wrapper's calls on
    it (`compile`, `fit`, `predict`) are recorded in order, their effects are not
    modelled. */
module PoseDetectorNet {
  import opened Wrappers
  import opened Tensors

  /** The `datasets` object: `{inputs, labels}`, one row per example. */
  datatype Datasets = Datasets(inputs: seq<Row>, labels: seq<Row>)

  /** The properties of a `trainningParameter` object; `None` is a property
      the object lacks, which reads as `undefined`. */
  datatype TrainParams = TrainParams(batchSize: Option<nat>, epochs: Option<nat>)

  /** The second argument of `train`: left out or `undefined` (so the default
      applies), `null`, or an object. */
  datatype TrainArgument = Omitted | NullArgument | Passed(params: TrainParams)

  /** The parameters `train` uses when the caller passes none. */
  const DefaultTrainParams := TrainParams(Some(32), Some(50))

  /** Why a `train` call is rejected: destructuring a `null` parameter object,
      or an exception from the tensor conversion. */
  datatype TrainError = ParameterIsNull | ConversionFailed(error: ConvertError)

  /** The exception the conversion of a malformed dataset raises: the input
      tensor is built, and checked, first. */
  function ShapeError(data: Datasets): ConvertError {
    if RowsHaveWidth(data.inputs, InputWidth) then LabelShapeMismatch else InputShapeMismatch
  }

  /** A call the wrapper makes on the TF.js model. */
  datatype EngineCall =
    | Compile
    | Fit(inputs: Scaled, labels: Scaled, batchSize: Option<nat>, epochs: Option<nat>)
    | Predict(inputs: Scaled)

  /** What one `estimatePoses` call does: nothing, a prediction de-normalised
      with the given label bounds, or an exception from the tensor conversion.
      `estimatePoses` itself returns `undefined`: `Predicted` describes the
      tensor it prints and then disposes, not a value its caller receives. */
  datatype Estimate =
    | Skipped
    | Predicted(inputs: Scaled, labelMin: Scalar, labelMax: Scalar)
    | Threw(error: ConvertError)

  /** Both tensors of `data` have the shapes `tf.tensor2d` is asked for. */
  predicate WellShaped(data: Datasets) {
    RowsHaveWidth(data.inputs, InputWidth) && RowsHaveWidth(data.labels, LabelWidth)
  }

  /** `convertToTensor(data, normalizationData)` of this file. It does not pad:
      an input row of another width than 63, or a label row of another width
      than 2, is taken to make `tf.tensor2d` throw (TF.js's shape-consistency
      check on), the input tensor being built first.
      The shuffle is called on the `datasets` object, which has no `length`,
      so it leaves the rows as they are. */
  method ConvertToTensor(data: Datasets, normalizationData: Option<NormalizationData>)
    returns (r: Result<(TensorPair, NormalizationData), ConvertError>)
    ensures !RowsHaveWidth(data.inputs, InputWidth) ==> r == Failure(InputShapeMismatch)
    ensures RowsHaveWidth(data.inputs, InputWidth) && !RowsHaveWidth(data.labels, LabelWidth) ==>
      r == Failure(LabelShapeMismatch)
    ensures r.Success? <==> WellShaped(data)
    ensures r.Success? ==> r.value.0 == ScaleWith(data.inputs, data.labels, r.value.1)
    ensures r.Success? && normalizationData.Some? ==> r.value.1 == normalizationData.value
    ensures r.Success? && normalizationData.None? ==>
      && IsMaxOf(r.value.1.inputMax, data.inputs) && IsMinOf(r.value.1.inputMin, data.inputs)
      && IsMaxOf(r.value.1.labelMax, data.labels) && IsMinOf(r.value.1.labelMin, data.labels)
    ensures r.Success? && normalizationData.None? ==> r.value.1 == GlobalBounds(data.inputs, data.labels)
  {
    if !RowsHaveWidth(data.inputs, InputWidth) {
      return Failure(InputShapeMismatch);
    }
    if !RowsHaveWidth(data.labels, LabelWidth) {
      return Failure(LabelShapeMismatch);
    }
    var bounds := SelectBounds(data.inputs, data.labels, normalizationData);
    r := Success((ScaleWith(data.inputs, data.labels, bounds), bounds));
  }

  /** The object `load()` returns, with the closure variables as fields. */
  class PoseDetector {
    var trainningData: Option<TensorPair>
    var normalizationData: Option<NormalizationData>
    /** The calls made so far on the model built by `createModel()`. */
    var calls: seq<EngineCall>

    /** The two closure variables are set together, and the stored bounds are
        the global bounds of the stored training tensors, with which those
        tensors were normalised. */
    ghost predicate Valid()
      reads this
    {
      && (trainningData.Some? <==> normalizationData.Some?)
      && (trainningData.Some? ==>
            var inputs, labels := trainningData.value.inputs.rows, trainningData.value.labels.rows;
            && WellShaped(Datasets(inputs, labels))
            && normalizationData.value == GlobalBounds(inputs, labels)
            && trainningData.value == ScaleWith(inputs, labels, normalizationData.value))
    }

    /** The wrapper has bounds, so `estimatePoses` does its work. */
    predicate Trained()
      reads this
    {
      normalizationData.Some?
    }

    /** `load()`: both closure variables start `undefined`. */
    constructor Load()
      ensures Valid() && !Trained()
      ensures trainningData == None && normalizationData == None && calls == []
    {
      trainningData := None;
      normalizationData := None;
      calls := [];
    }

    /** `setTrainningDatasets(datasets)`: converts without stored bounds and, when
        that does not throw, overwrites both closure variables in one assignment. */
    method SetTrainningDatasets(datasets: Datasets)
      returns (r: Result<(TensorPair, NormalizationData), ConvertError>)
      requires Valid()
      modifies this
      ensures Valid()
      ensures calls == old(calls)
      ensures r.Success? <==> WellShaped(datasets)
      ensures r.Success? ==>
        && r.value.1 == GlobalBounds(datasets.inputs, datasets.labels)
        && r.value.0 == ScaleWith(datasets.inputs, datasets.labels, r.value.1)
        && trainningData == Some(r.value.0) && normalizationData == Some(r.value.1)
      ensures r.Failure? ==> r.error == ShapeError(datasets)
      ensures r.Failure? ==> trainningData == old(trainningData) && normalizationData == old(normalizationData)
    {
      r := ConvertToTensor(datasets, None);
      if r.Success? {
        trainningData, normalizationData := Some(r.value.0), Some(r.value.1);
      }
    }

    /** `train(datasets, trainningParameter)`: compiles the model, destructures
        the parameter object (the default applies only when it is left out or
        `undefined`, and `null` throws), recomputes the bounds from `datasets`
        through `setTrainningDatasets` (never from the stored ones), and fits on
        the tensors it returns with the parameters as passed. */
    method Train(datasets: Datasets, trainningParameter: TrainArgument)
      returns (r: Result<EngineCall, TrainError>)
      requires Valid()
      modifies this
      ensures Valid()
      ensures r.Success? <==> !trainningParameter.NullArgument? && WellShaped(datasets)
      ensures r.Failure? ==>
        && calls == old(calls) + [Compile]
        && trainningData == old(trainningData) && normalizationData == old(normalizationData)
      ensures trainningParameter.NullArgument? ==> r == Failure(ParameterIsNull)
      ensures !trainningParameter.NullArgument? && !WellShaped(datasets) ==>
        r == Failure(ConversionFailed(ShapeError(datasets)))
      ensures r.Success? ==>
        var params := if trainningParameter.Passed? then trainningParameter.params else DefaultTrainParams;
        var bounds := GlobalBounds(datasets.inputs, datasets.labels);
        var tensors := ScaleWith(datasets.inputs, datasets.labels, bounds);
        && normalizationData == Some(bounds)
        && trainningData == Some(tensors)
        && r.value == Fit(tensors.inputs, tensors.labels, params.batchSize, params.epochs)
        && calls == old(calls) + [Compile, r.value]
    {
      calls := calls + [Compile];
      if trainningParameter.NullArgument? {
        return Failure(ParameterIsNull);
      }
      var params := if trainningParameter.Passed? then trainningParameter.params else DefaultTrainParams;
      var converted := SetTrainningDatasets(datasets);
      if converted.Failure? {
        return Failure(ConversionFailed(converted.error));
      }
      var tensors := converted.value.0;
      var fit := Fit(tensors.inputs, tensors.labels, params.batchSize, params.epochs);
      calls := calls + [fit];
      r := Success(fit);
    }

    /** `estimatePoses(dataset)`: nothing happens until bounds exist; then the
        dataset is converted with the stored bounds, the model predicts, and the
        prediction is de-normalised with the stored label bounds. The closure
        variables are never written. */
    method EstimatePoses(dataset: Datasets) returns (e: Estimate)
      requires Valid()
      modifies this`calls
      ensures Valid()
      ensures trainningData == old(trainningData) && normalizationData == old(normalizationData)
      ensures !Trained() ==> e == Skipped && calls == old(calls)
      ensures Trained() && !WellShaped(dataset) ==> e == Threw(ShapeError(dataset)) && calls == old(calls)
      ensures Trained() && WellShaped(dataset) ==>
        var b := normalizationData.value;
        && e == Predicted(Scaled(dataset.inputs, b.inputMin, b.inputMax), b.labelMin, b.labelMax)
        && calls == old(calls) + [Predict(e.inputs)]
    {
      if normalizationData.None? {
        return Skipped;
      }
      var b := normalizationData.value;
      var converted := ConvertToTensor(dataset, normalizationData);
      if converted.Failure? {
        return Threw(converted.error);
      }
      var inputs := converted.value.0.inputs;
      calls := calls + [Predict(inputs)];
      e := Predicted(inputs, b.labelMin, b.labelMax);
    }
  }

  /** A client of the wrapper: before any training `estimatePoses` does nothing;
      after two trainings, live data is scored with the bounds of the second
      dataset, whether or not the first training threw. */
  method RetrainReplacesBounds(first: Datasets, second: Datasets, live: Datasets)
    returns (before: Estimate, after: Estimate)
    requires WellShaped(second) && WellShaped(live)
    ensures before == Skipped
    ensures var b := GlobalBounds(second.inputs, second.labels);
      after == Predicted(Scaled(live.inputs, b.inputMin, b.inputMax), b.labelMin, b.labelMax)
  {
    var detector := new PoseDetector.Load();
    before := detector.EstimatePoses(live);
    var _ := detector.Train(first, Omitted);
    var _ := detector.Train(second, Passed(TrainParams(Some(8), Some(50))));
    after := detector.EstimatePoses(live);
  }
}
