# Hand-pose classifier: data preparation and classifier wrapper

This project models, in Dafny, the logic of the HandPoseDetection repository
that lies around its TensorFlow.js calls:

- `src/script.js`: the cleaning of the fetched car records in `getData` (map
  each record to `mpg`, `cylinders`, `weight`, `horsepower`, then drop any with
  a `null` or `undefined` field); the `pad_array` helper, which forces every
  input row to 63 values; and `convertToTensor`, which shuffles its samples in
  place unless bounds are supplied, builds the input and label tensors, and
  either reuses the supplied bounds or computes them.
- `src/PoseDetectorNet/index.js`: the object that `load()` returns, whose
  closure holds `trainningData` and `normalizationData`. `setTrainningDatasets`
  overwrites both, `train` always recomputes them through it, and
  `estimatePoses` does nothing until bounds exist and then scores with the
  stored bounds without changing them.

Modules:

- `Wrappers` (`wrappers.dfy`): `Option` and `Result`.
- `Tensors` (`tensors.dfy`): tensors as sequences of rows, the widths 63 and 2,
  the reductions `tensor.max()` / `tensor.min()`, and the bound selection that
  both `convertToTensor` routines share.
- `Script` (`script.dfy`): `src/script.js`.
- `PoseDetectorNet` (`pose_detector_net.dfy`): `src/PoseDetectorNet/index.js`.
  The closure returned by `load()` is the class `PoseDetector`, with the two
  closure variables as fields.

Conventions of the model:

- Numbers are reals and only compared. The min-max scaling
  `(t - min) / (max - min)` is kept symbolic: a `Scaled` tensor holds its rows
  and the two bounds it is scaled with.
- The bounds are one scalar per tensor, the extreme over all of its values.
  They are not per feature.
- An exception thrown by `tf.tensor2d` is a `Failure`. The model assumes that
  `tf.tensor2d` rejects any row whose width differs from the declared one (63
  for inputs, 2 for labels), as TF.js does with its shape-consistency check
  on. When
  `convertToTensor` throws inside `setTrainningDatasets`, the destructuring
  assignment does not happen and both closure variables keep their values.
- A reduction over a tensor with no value yields the scalar `NaN`. The source
  does not reject an empty dataset, so training on one succeeds and stores
  `NaN` bounds.
- The calls the wrapper makes on the TF.js model (`compile`, `fit`, `predict`)
  are recorded in order in the field `calls`. Their effect on the model's
  weights is not modelled.
- In `src/PoseDetectorNet/index.js` the shuffle is applied to the `datasets`
  object, not to an array. That object has no `length`, so the shuffle loop
  never runs and the rows keep their order. The model's `ConvertToTensor`
  there therefore does not reorder anything.

## Model

| member | source | states |
|---|---|---|
| `Script.PadArray` | src/script.js:53-55 | the result has exactly `len` elements; each position below both `len` and the length of `arr` holds the element of `arr` there; every position from the length of `arr` up to `len - 1` holds `fill` |
| `Script.PadArrayCases` | src/script.js:54 | a row at least `len` long is truncated to its first `len` elements; a shorter one is extended with copies of `fill` up to `len` |
| `Script.PadArrayIdempotent` | src/script.js:53-55 | padding a padded row again changes nothing |
| `Script.CleanCars` | src/script.js:10-16 | the cleaned list is no longer than the input; every kept car has all four fields non-nullish; every record whose projection is complete is kept; every kept car is the projection of some input record |
| `Script.CleanData` | src/script.js:9-16 | a `null` element anywhere in the decoded array makes the `map` throw, and nothing else does; otherwise the result is the cleaning of the records |
| `Script.CleanCarsAppend` | src/script.js:10-16 | cleaning goes record by record and keeps input order: cleaning `a + b` gives the cleaning of `a` followed by that of `b` |
| `Script.CleanCarsDropsExactlyNullish` | src/script.js:10-16 | a record is dropped exactly when `Miles_per_Gallon`, `Cylinders`, `Weight_in_lbs` or `Horsepower` is `null` or `undefined`; otherwise it is kept with the four properties renamed |
| `Script.InputRows` | src/script.js:58 | one input row per sample, every row exactly 63 values |
| `Script.LabelRows` | src/script.js:59 | one label row per sample |
| `Script.SameSamplesSameRows` | src/script.js:50-59 | two sample lists holding the same samples give input and label tensors holding the same rows |
| `Script.ShuffleKeepsBounds` | src/script.js:50-81 | computing the bounds after a shuffle gives the same bounds as before it |
| `Script.Shuffle` | src/script.js:50-51 | the shuffled array is a permutation of the original |
| `Script.ConvertToTensor` | src/script.js:44-98 | supplied bounds leave the samples in order and are returned unchanged; otherwise the samples are permuted and the bounds are the global extremes of the unshuffled data; the call fails exactly when a label row is not 2 wide; every input row of the result has 63 values; the tensors are scaled with the returned bounds |
| `Tensors.TensorMax` | src/script.js:77-79 | the greatest value over the whole tensor, attained in some row, or `NaN` when the tensor has no value |
| `Tensors.TensorMin` | src/script.js:78-80 | the least value over the whole tensor, attained in some row, or `NaN` when the tensor has no value |
| `Tensors.GlobalBoundsEnclose` | src/PoseDetectorNet/index.js:44-47 | freshly computed bounds satisfy inputMin <= x <= inputMax for every input value and labelMin <= y <= labelMax for every label value |
| `Tensors.MaxOfIsUnique` | src/script.js:77-79 | the maximum of a tensor depends only on which rows it holds, not on their order |
| `Tensors.MinOfIsUnique` | src/script.js:78-80 | the minimum of a tensor depends only on which rows it holds, not on their order |
| `Tensors.GlobalBoundsIgnoreOrder` | src/script.js:50-81 | tensors with the same rows, in any order, get the same bounds |
| `Tensors.SelectBounds` | src/script.js:66-81 | supplied bounds are returned field for field; without them each bound is the extreme of its whole tensor |
| `PoseDetectorNet.ConvertToTensor` | src/PoseDetectorNet/index.js:20-66 | an input row not 63 wide throws first, then a label row not 2 wide; it succeeds exactly when both shapes hold; supplied bounds are reused unchanged, otherwise the bounds are the global extremes; the tensors are the dataset's rows scaled with the returned bounds |
| `PoseDetectorNet.PoseDetector.Load` | src/PoseDetectorNet/index.js:69-72 | a new wrapper holds neither training data nor bounds and has made no call on the model |
| `PoseDetectorNet.PoseDetector.SetTrainningDatasets` | src/PoseDetectorNet/index.js:75-77 | on success both closure variables are overwritten together with the converted tensors and bounds freshly computed from the argument; on a malformed dataset it throws the conversion's exception, the input shape being checked first, and neither variable changes; the wrapper invariant is kept |
| `PoseDetectorNet.PoseDetector.Train` | src/PoseDetectorNet/index.js:79-95 | compile is always called first; a `null` parameter object throws; the default batchSize 32 and epochs 50 apply only when the argument is left out or `undefined`, otherwise fit gets the properties as passed, a missing one as `undefined`; a malformed dataset throws the conversion's exception, the input shape being checked first; on success the stored bounds are recomputed from this dataset, never reused; on an exception the stored data and bounds are unchanged |
| `PoseDetectorNet.PoseDetector.EstimatePoses` | src/PoseDetectorNet/index.js:97-114 | without bounds it does nothing; with bounds it scales the input with the stored input bounds, calls predict once and de-normalises with the stored label bounds (a tensor that is printed, not returned); on a malformed dataset it throws the conversion's exception, the input shape being checked first; it never changes the training data or the bounds |
| `PoseDetectorNet.RetrainReplacesBounds` | src/PoseDetectorNet/index.js:68-116 | before any training an estimate is skipped; after a first training, which may throw, and a second one on a well-shaped dataset, live data is scored with the bounds of the second |

## Left out

- `src/App.js` entirely: React rendering, the `setInterval` polling loop, the webcam checks, the external hand detector and the canvas drawing.
- `createModel`, `compile`, `fit`, `predict`, `tidy` and `print` are TF.js calls. The wrapper's calls on its model are recorded as `EngineCall`s, but their effect is not modelled. Failures inside `fit` are not modelled either, such as input and label tensors with different numbers of rows.
- The min-max scaling and the de-normalisation arithmetic are floating-point divisions, which give NaN or Infinity when max equals min. The model keeps them symbolic (`Scaled`, and the label bounds carried by `Predicted`).
- Script.Shuffle: states only that the result is a permutation. The random index of each swap is an unconstrained choice, so which permutation comes out is not stated.
- PoseDetectorNet.ConvertToTensor: the shuffle is called only when no bounds are supplied, but it has no effect on the `datasets` object. The model therefore has no shuffle step there, and that call itself is not represented.
- `fetch` and the JSON decoding in `getData`, the tfvis charts and callbacks, `run`, `trainModel`, `testModel` and the `DOMContentLoaded` hook of `src/script.js`. Both `run` (src/script.js:150, 174) and `testModel` pass car records, which have no `inputs` field, to `convertToTensor`, so `pad_array` would receive `undefined`. The modelled cleaning therefore never feeds the modelled `convertToTensor` in the source; each is modelled on its own.
- `trainningParameter` properties that are not non-negative integers (strings, negative or fractional numbers, `null`) are not modelled; a property is either a count or absent.
- Non-numeric or missing `inputs`/`labels` in a sample, and NaN or Infinity among the data values. Samples hold real numbers only.
- `tf.tensor2d`'s shape check is modelled as "every row has the declared width", which holds with TF.js's shape-consistency check on. With the check off, only the first row's width is compared; a later row of another width is not rejected, and that case is not modelled. The check's messages are not modelled either.
- Asynchrony: `train` returns a promise. The model runs it to completion, and a rejected promise is a `Failure`.
