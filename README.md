# EfficientDet losses and model object, in Dafny

This project models two files of an EfficientDet object detector.

- **`loss_functions.py`** (module `LossFunctions`, `losses.dfy`):
  - the element-wise focal loss and Huber loss, with their reduction policy (`'mean'`, `'sum'`, anything else returns the unreduced tensor);
  - the two Keras loss wrappers used for training. These read the anchor state from the last column of the targets: −1 is ignored, 0 is negative, 1 is positive. They keep some anchors with `tf.where` and `tf.gather_nd`. They hand the kept rows to a library loss that reduces by SUM. They divide by `max(1, #positive anchors)`; the Huber wrapper also multiplies that divisor by 4 and the result by 50.
- **`efficientdet.py`** (module `EfficientDetModel`, `efficientdet.dfy`):
  - the constructor's argument checks, which run in order;
  - the hyper-parameters a checkpoint overrides;
  - the backbone configuration;
  - loading a checkpoint with training mode switched on temporarily;
  - rebuilding a custom class head;
  - the `score_threshold` property, which forwards to the detection filter;
  - the training flags and output kind of `call`;
  - the argument handling of `from_pretrained`.

Which Dafny members model which source function:

- `focal_loss` (`loss_functions.py:7-30`) is `FocalLoss`, built from `FocalTerm` per element, `FocalElementwise` per tensor and `Reduce`.
- `huber_loss` (`loss_functions.py:32-51`) is `HuberLoss`, built from `HuberTerm` per coordinate, `HuberTerms`, `HuberPerAnchor` and `Reduce`.
- `EfficientDetFocalLoss.call` (`loss_functions.py:62-79`) is `EfficientDetFocalLoss.Call`.
- `EfficientDetHuberLoss.call` (`loss_functions.py:89-106`) is `EfficientDetHuberLoss.Call`.
- `EfficientDet.__init__` (`efficientdet.py:22-92`) is `CheckArguments` for the checks and overrides, and `EfficientDet.Create` with the constructor `EfficientDet.FromPlan` for building the object.
- The `score_threshold` property (`efficientdet.py:94-100`) is `EfficientDet.ScoreThreshold` and `EfficientDet.SetScoreThreshold`.
- `EfficientDet.call` (`efficientdet.py:102-124`) is `EfficientDet.Call`.
- `from_pretrained` (`efficientdet.py:127-144`) is `ResolveCheckpointAsWritten` and `PretrainedHeadAsWritten` as written, and `FromPretrained` with `ResolveCheckpoint` and `PretrainedHead` as intended.

How the model represents things:

- **Tensors** are flattened. A batch of anchors is a `seq<Row>` in row-major order, and a row holds one anchor's last axis.
- **`tf.where(mask)`** is `Where`: the positions where the mask holds, in increasing order.
- **`tf.gather_nd`** is `GatherNd`.
- **Floating point** is `real`.
- **`sigmoid`, `log` and `pow`** are uninterpreted. They are fields of a `Numerics` record. The properties that need them take their behaviour as a hypothesis, for example "log is non-positive on (0, 1]".
- **Library losses** are function arguments: `tfa.losses.SigmoidFocalCrossEntropy` and `tf.losses.Huber`, each configured and reducing by SUM.

The model class `EfficientDet` keeps these fields: the compound coefficient, the backbone's weights and trainability, the class count, the class head, the training mode, the detection filter, and a log of weight loads. A class head is described by the configuration it is built from. The log of weight loads records where each load came from, the training mode during the load, and whether mismatches were skipped.

The source has several defects. The model follows what the code evidently means:

- unterminated string literals at `efficientdet.py:31` and `:35`;
- a missing `)` at `loss_functions.py:94`;
- `super().__init()` at `loss_functions.py:84`.

Other modelling choices:

- `weights is 'imagenet'` at `efficientdet.py:34` is an identity test; it is modelled as string equality.
- `bidirectional` is never used: neither the constructor argument nor the value line 52 reads from the checkpoint is passed to anything at lines 56-66 (line 66 passes no such flag to `BiFPN`). The plan records the value so that the override at line 52 can be stated.
- The message at line 50 advises leaving `num_classes` as None, but a None class count always raises at lines 69-70, whatever the weights. The model keeps both checks in their source order, so `CheckArgumentsErrors` and `DefaultArgsRejected` state that None is rejected.
- Line 88 repeats the restore of line 87; the model restores once.

## Model

| member | source | states |
|---|---|---|
| LossFunctions.Reduce | loss_functions.py:25-30 | 'sum' is the sum; 'mean' is the sum over the count, and NaN on an empty tensor; any other string returns the values unreduced, and only then |
| LossFunctions.ReduceNonNegative | loss_functions.py:25-30 | non-negative element losses reduce to a non-negative scalar or tensor under every policy |
| LossFunctions.ClipProbability | loss_functions.py:12-13 | the clipped probability lies in [1e-6, 1 − 1e-6]; values inside are kept and values outside go to the nearer bound |
| LossFunctions.AlphaT | loss_functions.py:17-18 | the weight is α where the target equals 1 and 1 − α elsewhere; it stays in [0, 1] when α does |
| LossFunctions.Pt | loss_functions.py:21 | p_t is p where the target equals 1 and 1 − p elsewhere; it stays in [ε, 1 − ε] for a clipped p |
| LossFunctions.FocalElementwise | loss_functions.py:9-22 | the unreduced focal loss has one value per element |
| LossFunctions.FocalLogArgumentInRange | loss_functions.py:12-22 | every argument of `log` lies in [ε, 1 − ε] on both branches, so the log is always defined |
| LossFunctions.FocalLossNonNegative | loss_functions.py:7-30 | with α in [0, 1], a log non-positive on (0, 1] and a non-negative power, every element and every reduction is non-negative |
| LossFunctions.Sigmoids | loss_functions.py:9-10 | element-wise sigmoid, one value per input |
| LossFunctions.FocalLossFromLogits | loss_functions.py:9-10 | `from_logits=True` on logits gives the same loss as their sigmoids passed as probabilities |
| LossFunctions.FocalLossSingleAnchorExample | loss_functions.py:7-28 | target [1, 0] and probabilities [0.9, 0.1] sum to −0.1^1.5 · log 0.9 (the weights α and 1 − α add to 1) |
| LossFunctions.QuadraticPositive | loss_functions.py:39 | the squared branch 0.5·e² is positive for every non-zero error |
| LossFunctions.HuberTermNonNegative | loss_functions.py:36-42 | for δ > 0 the Huber value is non-negative, and zero exactly when the error is zero |
| LossFunctions.HuberTermContinuous | loss_functions.py:37-42 | both branches equal δ²/2 at abs(e) = δ, so the loss is continuous there |
| LossFunctions.HuberTermAtMostQuadratic | loss_functions.py:39-42 | the Huber value never exceeds the squared loss 0.5·e² |
| LossFunctions.HuberTerms | loss_functions.py:36-42 | each coordinate's value is the Huber value of target − prediction |
| LossFunctions.HuberPerAnchor | loss_functions.py:43 | the mean over the last axis gives one value per anchor |
| LossFunctions.HuberLossNonNegative | loss_functions.py:32-51 | for δ > 0 every per-anchor value and every reduction is non-negative |
| LossFunctions.HuberLossZeroOnExactPrediction | loss_functions.py:32-49 | identical targets and predictions give a 'sum' loss of exactly 0 |
| LossFunctions.Labels | loss_functions.py:64-65 | the labels followed by the state give back the target row |
| LossFunctions.LabelsOf | loss_functions.py:65 | one label row per anchor, each its row without the last column |
| LossFunctions.NotIgnoredMask | loss_functions.py:67 | the mask holds exactly where the state is not −1 |
| LossFunctions.PositiveMask | loss_functions.py:68 | the mask holds exactly where the state is 1 |
| LossFunctions.Where | loss_functions.py:67-68 | the positions returned are in range and masked, strictly increasing, and include every masked position |
| LossFunctions.GatherNd | loss_functions.py:75-76 | the k-th gathered row is the row at the k-th index |
| LossFunctions.Normalizer | loss_functions.py:71-73 | the normaliser is never below 1, so the division at lines 79 and 106 is always defined |
| LossFunctions.WhereCount | loss_functions.py:71 | the number of positions returned is the number of true mask entries |
| LossFunctions.NormalizerIsPositiveCount | loss_functions.py:71-73 | the normaliser is the positive count when some anchor is positive, and 1 when none is |
| LossFunctions.WhereNone | loss_functions.py:67-68 | a mask that holds nowhere selects nothing |
| LossFunctions.WhereSingle | loss_functions.py:94 | a mask that holds at one position selects that position alone |
| LossFunctions.GatheredLabels | loss_functions.py:65-75 | each gathered label row, followed by its anchor's state, is that anchor's target row |
| LossFunctions.EfficientDetFocalLoss.KeptAnchors | loss_functions.py:67 | the focal wrapper keeps, in order and once each, exactly the anchors whose state is not −1 |
| LossFunctions.DefaultFocalLoss | loss_functions.py:55 | the default wrapper has α = 0.25 and γ = 1.5 |
| LossFunctions.EfficientDetHuberLoss.KeptAnchors | loss_functions.py:94 | the Huber wrapper keeps, in order and once each, exactly the anchors whose state is 1 |
| LossFunctions.DefaultHuberLoss | loss_functions.py:83 | the default wrapper has δ = 1 |
| LossFunctions.FocalCallGathers | loss_functions.py:62-76 | the library gets one label row (state dropped) and one prediction row per non-ignored anchor, in original order |
| LossFunctions.FocalCallSpec | loss_functions.py:70-79 | the focal wrapper's result is the library's summed loss of the gathered rows divided by max(1, #positives) |
| LossFunctions.HuberCallGathers | loss_functions.py:89-103 | the library gets the label rows (each a positive target without its state 1) and predictions of the positive anchors only, in order |
| LossFunctions.HuberCallSpec | loss_functions.py:96-106 | the Huber wrapper's result is 50 times the library's summed loss of the gathered rows divided by 4·max(1, #positives) |
| LossFunctions.WrappersTreatStatesDifferently | loss_functions.py:67-68 | state 0 is kept by the focal wrapper and dropped by the Huber wrapper; −1 is dropped by both; 1 is kept by both |
| LossFunctions.FocalCallNonNegative | loss_functions.py:79 | a library loss that is non-negative on the gathered rows gives a non-negative focal result |
| LossFunctions.HuberCallNonNegative | loss_functions.py:106 | a library loss that is non-negative on the gathered rows gives a non-negative Huber result |
| LossFunctions.AllIgnoredAnchors | loss_functions.py:62-106 | when every anchor is ignored, both wrappers return the library's loss of empty tensors (Huber: times 50/4), whatever the predictions |
| LossFunctions.HuberCallWithFileHuber | loss_functions.py:32-51 | with `FileHuber` as the library loss and δ > 0 the Huber wrapper is non-negative |
| LossFunctions.HuberGatheredSameShape | loss_functions.py:89-103 | when every positive anchor's labels and prediction have the same non-zero width, so do the rows the Huber wrapper gathers |
| LossFunctions.FileHuberAgreesWithHuberLoss | loss_functions.py:32-51 | `FileHuber` is `huber_loss` with reduction 'sum' on every pair of rows of matching, non-zero widths |
| LossFunctions.HuberCallWithHuberLossValue | loss_functions.py:89-106 | on well-shaped positives, with a library loss that is `huber_loss` ('sum') on well-shaped rows, the wrapper's result is 50 times `huber_loss` of the gathered rows divided by 4·max(1, #positives) |
| LossFunctions.HuberCallWithHuberLossNonNegative | loss_functions.py:89-106 | on well-shaped positives, with a library loss that is `huber_loss` ('sum') on well-shaped rows and δ > 0, the Huber wrapper is non-negative because `huber_loss` is |
| LossFunctions.HuberCallTenAnchorsExample | loss_functions.py:89-106 | ten anchors, one positive with target [0.1, 0.1, 0.2, 0.2] and prediction 0: the result is 50 · 0.0125 / 4 |
| EfficientDetModel.CheckpointLookupSucceeds | efficientdet.py:16-19 | every accepted weights name that loads a checkpoint has a remote path, so the lookup at line 42 cannot fail |
| EfficientDetModel.DefaultArgs | efficientdet.py:22 | the constructor's default arguments |
| EfficientDetModel.CheckArgumentsSucceeds | efficientdet.py:25-70 | construction succeeds exactly when all of these hold: the class count is given; the weights are known; a custom head comes with a checkpoint; and a checkpoint without a custom head has the requested class count |
| EfficientDetModel.CheckArgumentsErrors | efficientdet.py:26-70 | each of the errors at lines 26, 29, 34, 49 and 69 is raised exactly when its check fails and every earlier check passed; the class-count mismatch of line 49 only for a checkpoint without a custom head |
| EfficientDetModel.CheckArgumentsPlan | efficientdet.py:40-63 | on success: the requested class count is used; a checkpoint overrides D and `bidirectional` and is loaded from its path, and without one D and `bidirectional` are the arguments'; the backbone gets ImageNet weights for 'imagenet' and none otherwise, and is trainable unless frozen; a custom head implies a checkpoint; the training mode and score threshold are the arguments' |
| EfficientDetModel.CheckArgumentsIgnoreUnusedParams | efficientdet.py:40-53 | without a checkpoint the result does not depend on `hp.json` |
| EfficientDetModel.DefaultArgsRejected | efficientdet.py:69-70 | the constructor called with every default raises "You have to specify the number of classes" |
| EfficientDetModel.NewClassHead | efficientdet.py:73 | the constructor's head is built with the class-head depth, the class count and the prefix `class_head/` |
| EfficientDetModel.FilterDetections.constructor | efficientdet.py:79 | the filter starts with the given score threshold |
| EfficientDetModel.EfficientDet.FromPlan | efficientdet.py:56-92 | the built model satisfies the plan. A checkpoint is loaded exactly once, with training mode on, and training mode is restored after. The head keeps checkpoint weights unless a custom head is requested, in which case it is rebuilt |
| EfficientDetModel.EfficientDet.LoadWeights | efficientdet.py:86 | a load is appended to the log with the current training mode and marks the head's weights as loaded, leaving every other field unchanged and the model consistent |
| EfficientDetModel.EfficientDet.Create | efficientdet.py:22-92 | raises exactly the first failing check's error, or returns a fresh, consistent model built from the checked plan; a returned model and its detection filter are freshly allocated, and the model has the requested class count, training mode and score threshold |
| EfficientDetModel.EfficientDet.SetScoreThreshold | efficientdet.py:94-100 | after the setter the `score_threshold` property reads the new value; only the filter changes and the model stays consistent |
| EfficientDetModel.EfficientDet.Call | efficientdet.py:102-124 | sub-modules run in training mode only when asked and in training mode. Training mode returns boxes and scores; otherwise the detections are filtered at the current threshold |
| EfficientDetModel.EfficientDet.ReplaceClassHead | efficientdet.py:139-142 | with a class count the model takes it and a freshly built head for it; without one nothing changes |
| EfficientDetModel.ImageNetFailsLookupAsWritten | efficientdet.py:130-135 | as written, 'imagenet' passes the availability check and then fails the path lookup with a KeyError |
| EfficientDetModel.ResolveCheckpoint | efficientdet.py:130-135 | a checkpoint resolves exactly when it is a known name (to its remote path) or a directory (to itself); otherwise it is reported as not available |
| EfficientDetModel.ResolveCheckpointAgreesAsWritten | efficientdet.py:130-135 | the intended resolution agrees with the written one on every path except 'imagenet' |
| EfficientDetModel.PretrainedHeadDiffersAsWritten | efficientdet.py:142 | as written, the replacement head has a different depth and prefix from the constructor's head (line 92) |
| EfficientDetModel.PretrainedHead | efficientdet.py:92 | the intended replacement head is the constructor's custom head for that class count |
| EfficientDetModel.FromPretrained | efficientdet.py:127-144 | returns the resolved checkpoint or its error. On success with a class count, the loaded model gets that count and a fresh head, and its D, backbone weights, trainability, training mode, load log and filter keep their values. Otherwise the model is unchanged |

## Left out

- Floating point: `float32` rounding, NaN and infinity are not modelled. Values are `real`, and the mean of an empty tensor is the explicit `NotANumber` result.
- `sigmoid`, `log` and `pow` are uninterpreted functions. Facts about the focal loss that need them are stated under hypotheses about their behaviour.
- `tf.cast` is an identity on `real`.
- The tensor shapes `[batch, anchors, ...]` are flattened in row-major order. That is the order `tf.where` and `tf.gather_nd` use, so the gathered rows are the same.
- The library losses `tfa.losses.SigmoidFocalCrossEntropy` and `tf.losses.Huber` are function arguments. They are code outside these files. `FileHuber` is one instance built from this file's own `huber_loss` with reduction 'sum'. It equals `huber_loss` only on rows of matching, non-zero widths (`FileHuberAgreesWithHuberLoss`), and returns 0 on other rows.
- LossFunctions.HuberCallWithFileHuber: its non-negativity also covers gathered rows whose widths differ or are zero. There `FileHuber` returns its fallback 0, while `huber_loss` would broadcast or give NaN. For the value of `huber_loss` itself the model only promises `HuberCallWithHuberLossValue`, and for its non-negativity `HuberCallWithHuberLossNonNegative`; both assume well-shaped positive anchors.
- Default arguments are not modelled as defaults. `FocalLoss` takes γ, α, `from_logits` and the reduction explicitly (defaults 1.5, 0.25, False and 'sum' at `loss_functions.py:7`). `HuberLoss` takes δ and the reduction explicitly (defaults 1.0 and 'sum' at `loss_functions.py:32`). `EfficientDet.Call` takes `training` explicitly (default True at `efficientdet.py:102`). The wrappers' defaults are `DefaultFocalLoss` and `DefaultHuberLoss`, and the constructor's are `DefaultArgs`.
- Keras' `Loss.__call__` machinery around `call` (sample weights, its own reduction of the returned scalar) is not modelled.
- LossFunctions.HuberLoss: the precondition `SameShape` excludes tensors with different anchor counts, rows of different widths, and rows of width 0. `huber_loss` would broadcast the first two and give NaN for the third (`reduce_mean` over an empty last axis). `FocalLoss`'s requirement `|yTrue| == |yPred|` likewise leaves out the tensors of different sizes that `focal_loss` would broadcast.
- The backbone, BiFPN neck, box head and class head are layers of tensor transforms. Only the configuration a class head is built from is modelled.
- The compound-scaling table (`config.EfficientDetCompudScaling`) is not part of this model. D is recorded and the head depths are named symbolically.
- `FilterDetections` (box decoding, thresholding, non-max suppression) is not part of this model. Only its score threshold is modelled.
- I/O is left out:
  - downloading a checkpoint (`download_folder`) and reading `hp.json` (it becomes the parameter `hp`);
  - `Path.is_dir` (the parameter `isDir`);
  - `build` and `load_weights` (a record in the load log);
  - `utils.checkpoint.load` (the loaded model is a parameter of `FromPretrained`);
  - the `print` at line 140.
- The keyword arguments `from_pretrained` forwards to `load` are not modelled.
- `weights` is an optional string. Python callers could pass values of other types, and those are not modelled.
- EfficientDetModel.EfficientDet.Call: only the training flag and the kind of output are modelled. The tensors are not computed.
- EfficientDetModel.FromPretrained: uses the corrected checkpoint resolution and the corrected replacement head. The code as written is modelled by `ResolveCheckpointAsWritten` and `PretrainedHeadAsWritten` (see Findings).

## Findings

| source | as written | input that shows it | evidently intended | confidence | as-written member | corrected member |
|---|---|---|---|---|---|---|
| efficientdet.py:130-135 | any name in `_AVAILABLE_WEIGHTS` passes the check and is then looked up in `_WEIGHTS_PATHS`, which has no 'imagenet' entry | `from_pretrained('imagenet')` raises `KeyError: 'imagenet'` | only names with a full-model checkpoint are accepted; anything else that is not a directory is reported as "not available" | not executed; high | EfficientDetModel.ImageNetFailsLookupAsWritten | EfficientDetModel.ResolveCheckpoint |
| efficientdet.py:142 | the replacement head is built with `config.D` as its depth and no `class_head/` prefix | `from_pretrained(path, num_classes=n)` for any n | the same head the constructor builds at line 92: depth `config.Dclass`, prefix `class_head/` | not executed; medium | EfficientDetModel.PretrainedHeadDiffersAsWritten | EfficientDetModel.PretrainedHead |
