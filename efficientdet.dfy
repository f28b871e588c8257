/**
 * The EfficientDet model object: the argument checks and checkpoint overrides
 * of its constructor, the score-threshold property it forwards to the
 * detection filter, the training flags of a forward pass, and the checkpoint
 * resolution of `from_pretrained`.
 *
 * The network layers themselves (backbone, BiFPN neck, heads, detection
 * filter) are not modelled; a head is described by the configuration it is
 * built from. Downloading a checkpoint, reading its `hp.json`, testing
 * whether a path is a directory and loading weights are I/O: their results
 * are parameters, and a weight load is recorded in the model's load log.
 */
module EfficientDetModel {

  datatype Option<T> = None | Some(value: T)

  datatype Result<T, E> = Ok(value: T) | Err(error: E)

  // ---------------------------------------------------------------------------
  // Pretrained weights
  // ---------------------------------------------------------------------------

  const ImageNet: string := "imagenet"
  const D0Voc: string := "D0-VOC"

  /** The weights the constructor accepts: none, ImageNet for the backbone, or a full checkpoint. */
  const AvailableWeights: set<Option<string>> := {None, Some(ImageNet), Some(D0Voc)}

  /** The remote location of every full-model checkpoint. */
  const WeightsPaths: map<string, string> := map[D0Voc := "gs://ml-generic-purpose-tf-models/D0-VOC"]

  /** The weights name everything is loaded from: any weights other than none and ImageNet. */
  predicate LoadsCheckpoint(weights: Option<string>)
  {
    weights.Some? && weights.value != ImageNet
  }

  /** Every accepted weights name that loads a checkpoint has a remote path: the lookup never fails. */
  lemma CheckpointLookupSucceeds(weights: Option<string>)
    requires weights in AvailableWeights && LoadsCheckpoint(weights)
    ensures weights.value in WeightsPaths
    ensures WeightsPaths[weights.value] == "gs://ml-generic-purpose-tf-models/D0-VOC"
  {
    assert weights == Some(D0Voc);
  }

  // ---------------------------------------------------------------------------
  // Constructor arguments and their checks
  // ---------------------------------------------------------------------------

  /** The keyword arguments of the constructor. */
  datatype Args = Args(
    numClasses: Option<int>,
    d: int,
    bidirectional: bool,
    freezeBackbone: bool,
    scoreThreshold: real,
    weights: Option<string>,
    customHeadClassifier: bool,
    trainingMode: bool)

  /** Every argument left at its default value. */
  function DefaultArgs(): (a: Args)
    ensures a.numClasses == None && a.d == 0 && a.bidirectional && !a.freezeBackbone
    ensures a.scoreThreshold == 0.1 && a.weights == Some(ImageNet)
    ensures !a.customHeadClassifier && !a.trainingMode
  {
    Args(None, 0, true, false, 0.1, Some(ImageNet), false, false)
  }

  /** The hyper-parameters stored beside a checkpoint (`hp.json`). */
  datatype CheckpointParams = CheckpointParams(nClasses: int, bidirectional: bool, efficientdet: int)

  /** The `ValueError`s the constructor raises, one per check. */
  datatype ConfigError =
    | CustomHeadNeedsNumClasses
    | WeightsNotAvailable(weights: Option<string>)
    | CustomHeadFromScratch
    | NumClassesMismatch(checkpoint: string)
    | NumClassesMissing

  /**
   * What the constructor builds once its checks pass: the compound-scaling
   * coefficient, the backbone's weights and trainability, the checkpoint to
   * load (if any) and whether the class head is rebuilt after loading.
   * `bidirectional` is resolved but nothing reads it afterwards.
   */
  datatype Plan = Plan(
    numClasses: int,
    d: int,
    bidirectional: bool,
    backboneWeights: Option<string>,
    backboneTrainable: bool,
    checkpoint: Option<string>,
    customHead: bool,
    scoreThreshold: real,
    trainingMode: bool)

  /**
   * The checks of the constructor in their order, the hyper-parameter
   * overrides from the checkpoint, and the backbone configuration.
   * `hp` is the content of the checkpoint's `hp.json`; it is read only when a
   * checkpoint is loaded.
   */
  function CheckArguments(a: Args, hp: CheckpointParams): Result<Plan, ConfigError>
  {
    if a.customHeadClassifier && a.numClasses.None? then
      Err(CustomHeadNeedsNumClasses)
    else if a.weights !in AvailableWeights then
      Err(WeightsNotAvailable(a.weights))
    else if (a.weights == Some(ImageNet) || a.weights.None?) && a.customHeadClassifier then
      Err(CustomHeadFromScratch)
    else
      var loads := LoadsCheckpoint(a.weights);
      if loads && a.numClasses.Some? && !a.customHeadClassifier && a.numClasses.value != hp.nClasses then
        Err(NumClassesMismatch(a.weights.value))
      else
        var bidirectional := if loads then hp.bidirectional else a.bidirectional;
        var d := if loads then hp.efficientdet else a.d;
        var backboneWeights := if a.weights == Some(ImageNet) then Some(ImageNet) else None;
        if a.numClasses.None? then
          Err(NumClassesMissing)
        else
          var checkpoint := if loads then Some(WeightsPaths[a.weights.value]) else None;
          Ok(Plan(a.numClasses.value, d, bidirectional, backboneWeights, !a.freezeBackbone,
                  checkpoint, a.customHeadClassifier, a.scoreThreshold, a.trainingMode))
  }

  /**
   * The constructor succeeds exactly when the class count is given, the
   * weights are known, a custom head comes with a checkpoint, and a
   * checkpoint loaded with its own head agrees with the requested class count.
   */
  lemma CheckArgumentsSucceeds(a: Args, hp: CheckpointParams)
    ensures CheckArguments(a, hp).Ok? <==>
              && a.numClasses.Some?
              && a.weights in AvailableWeights
              && (a.customHeadClassifier ==> LoadsCheckpoint(a.weights))
              && (LoadsCheckpoint(a.weights) && !a.customHeadClassifier ==> a.numClasses.value == hp.nClasses)
  {
  }

  /** Each error is raised exactly when its check fails and every earlier check passed. */
  lemma CheckArgumentsErrors(a: Args, hp: CheckpointParams)
    ensures CheckArguments(a, hp) == Err(CustomHeadNeedsNumClasses) <==>
              a.customHeadClassifier && a.numClasses.None?
    ensures CheckArguments(a, hp) == Err(WeightsNotAvailable(a.weights)) <==>
              !(a.customHeadClassifier && a.numClasses.None?) && a.weights !in AvailableWeights
    ensures CheckArguments(a, hp) == Err(CustomHeadFromScratch) <==>
              a.numClasses.Some? && a.weights in AvailableWeights && a.customHeadClassifier
              && !LoadsCheckpoint(a.weights)
    ensures CheckArguments(a, hp) == Err(NumClassesMismatch(D0Voc)) <==>
              a.weights == Some(D0Voc) && a.numClasses.Some? && !a.customHeadClassifier
              && a.numClasses.value != hp.nClasses
    ensures CheckArguments(a, hp) == Err(NumClassesMissing) <==>
              a.numClasses.None? && !a.customHeadClassifier && a.weights in AvailableWeights
  {
  }

  /**
   * On success the plan takes the requested class count; a checkpoint
   * overrides D and `bidirectional` and is loaded from its remote path; the
   * backbone gets ImageNet weights when those were asked for and none
   * otherwise, and is trainable unless frozen; the training mode and the score
   * threshold are the arguments'.
   */
  lemma CheckArgumentsPlan(a: Args, hp: CheckpointParams)
    requires CheckArguments(a, hp).Ok?
    ensures var p := CheckArguments(a, hp).value;
            && a.numClasses == Some(p.numClasses)
            && (LoadsCheckpoint(a.weights) ==>
                  && p.d == hp.efficientdet && p.bidirectional == hp.bidirectional
                  && p.checkpoint == Some(WeightsPaths[a.weights.value]))
            && (!LoadsCheckpoint(a.weights) ==>
                  p.d == a.d && p.bidirectional == a.bidirectional && p.checkpoint == None)
            && p.backboneWeights == (if a.weights == Some(ImageNet) then Some(ImageNet) else None)
            && (p.backboneWeights.Some? ==> p.checkpoint.None?)
            && p.backboneTrainable == !a.freezeBackbone
            && p.customHead == a.customHeadClassifier
            && (p.customHead ==> p.checkpoint.Some?)
            && p.trainingMode == a.trainingMode
            && p.scoreThreshold == a.scoreThreshold
  {
  }

  /** Without a checkpoint the checkpoint's hyper-parameters play no part. */
  lemma CheckArgumentsIgnoreUnusedParams(a: Args, hp1: CheckpointParams, hp2: CheckpointParams)
    requires !LoadsCheckpoint(a.weights)
    ensures CheckArguments(a, hp1) == CheckArguments(a, hp2)
  {
  }

  /** The constructor called with every default raises: the class count has no usable default. */
  lemma DefaultArgsRejected(hp: CheckpointParams)
    ensures CheckArguments(DefaultArgs(), hp) == Err(NumClassesMissing)
  {
  }

  // ---------------------------------------------------------------------------
  // The model object
  // ---------------------------------------------------------------------------

  /** Which configured depth a classification head is built with. */
  datatype HeadDepth = ClassHeadDepth | CompoundCoefficient

  /**
   * A classification head, by the configuration it is built from; `pretrained`
   * says whether its weights were overwritten by a checkpoint load since it
   * was built.
   */
  datatype ClassHead = ClassHead(depth: HeadDepth, numClasses: int, prefix: string, pretrained: bool)

  /** A head as the constructor builds it. */
  function NewClassHead(numClasses: int): (h: ClassHead)
    ensures h.depth == ClassHeadDepth && h.numClasses == numClasses && h.prefix == "class_head/"
    ensures !h.pretrained
  {
    ClassHead(ClassHeadDepth, numClasses, "class_head/", false)
  }

  /** One weight load: the checkpoint it came from, the training mode during the load, and whether mismatches were skipped. */
  datatype WeightLoad = WeightLoad(checkpoint: string, trainingMode: bool, skipMismatch: bool)

  /** The detection filter of inference mode; only its score threshold is modelled. */
  class FilterDetections {
    var scoreThreshold: real

    constructor (scoreThreshold: real)
      ensures this.scoreThreshold == scoreThreshold
    {
      this.scoreThreshold := scoreThreshold;
    }
  }

  /** What a forward pass returns: the raw heads' boxes and scores, or the filtered detections. */
  datatype Output = BoxesAndScores | Detections(scoreThreshold: real)

  /** The training flag passed to every sub-module, and the output of the pass. */
  datatype Forward = Forward(subModulesTraining: bool, output: Output)

  class EfficientDet {
    var d: int
    var backboneWeights: Option<string>
    var backboneTrainable: bool
    var numClasses: int
    var classHead: ClassHead
    var trainingMode: bool
    var filterDetections: FilterDetections
    var loads: seq<WeightLoad>

    /** The stored class count is the one the class head is built for. */
    predicate Valid()
      reads this
    {
      classHead.numClasses == numClasses
    }

    /** The state the constructor leaves behind for a plan. */
    predicate BuiltFrom(p: Plan)
      reads this, filterDetections
    {
      && d == p.d
      && backboneWeights == p.backboneWeights
      && backboneTrainable == p.backboneTrainable
      && numClasses == p.numClasses
      && trainingMode == p.trainingMode
      && filterDetections.scoreThreshold == p.scoreThreshold
      && (p.checkpoint.None? ==> loads == [] && classHead == NewClassHead(p.numClasses))
      && (p.checkpoint.Some? ==>
            && loads == [WeightLoad(p.checkpoint.value, true, p.customHead)]
            && classHead == NewClassHead(p.numClasses).(pretrained := !p.customHead))
    }

    /**
     * Builds the model for a checked plan. A checkpoint is loaded with the
     * training mode switched on, which is restored afterwards; a custom head
     * is then rebuilt so that it keeps none of the checkpoint's weights.
     */
    constructor FromPlan(p: Plan)
      ensures Valid() && BuiltFrom(p) && fresh(filterDetections)
    {
      d := p.d;
      backboneWeights := p.backboneWeights;
      backboneTrainable := p.backboneTrainable;
      numClasses := p.numClasses;
      classHead := NewClassHead(p.numClasses);
      trainingMode := p.trainingMode;
      filterDetections := new FilterDetections(p.scoreThreshold);
      loads := [];
      new;
      if p.checkpoint.Some? {
        var tmp := trainingMode;
        trainingMode := true;
        LoadWeights(p.checkpoint.value, p.customHead);
        trainingMode := tmp;
        if p.customHead {
          classHead := NewClassHead(p.numClasses);
        }
      }
    }

    /** `load_weights`: records the load and marks the head's weights as coming from the checkpoint. */
    method LoadWeights(checkpoint: string, skipMismatch: bool)
      requires Valid()
      modifies this
      ensures Valid()
      ensures loads == old(loads) + [WeightLoad(checkpoint, old(trainingMode), skipMismatch)]
      ensures classHead == old(classHead).(pretrained := true)
      ensures d == old(d) && backboneWeights == old(backboneWeights)
      ensures backboneTrainable == old(backboneTrainable) && numClasses == old(numClasses)
      ensures trainingMode == old(trainingMode) && filterDetections == old(filterDetections)
    {
      loads := loads + [WeightLoad(checkpoint, trainingMode, skipMismatch)];
      classHead := classHead.(pretrained := true);
    }

    /** Checks the arguments and builds the model, or raises the first failing check's error. */
    static method Create(a: Args, hp: CheckpointParams) returns (r: Result<EfficientDet, ConfigError>)
      ensures CheckArguments(a, hp).Err? ==> r == Err(CheckArguments(a, hp).error)
      ensures CheckArguments(a, hp).Ok? ==>
                r.Ok? && fresh(r.value) && fresh(r.value.filterDetections) && r.value.Valid() && r.value.BuiltFrom(CheckArguments(a, hp).value)
      ensures r.Ok? ==>
                && CheckArguments(a, hp).Ok?
                && r.value.trainingMode == a.trainingMode
                && r.value.ScoreThreshold() == a.scoreThreshold
                && a.numClasses == Some(r.value.numClasses)
    {
      var checked := CheckArguments(a, hp);
      if checked.Err? {
        return Err(checked.error);
      }
      var model := new EfficientDet.FromPlan(checked.value);
      CheckArgumentsPlan(a, hp);
      return Ok(model);
    }

    /** The `score_threshold` property: the detection filter's threshold. */
    function ScoreThreshold(): real
      reads this, filterDetections
    {
      filterDetections.scoreThreshold
    }

    /** The `score_threshold` setter: writes through to the detection filter and changes nothing else. */
    method SetScoreThreshold(value: real)
      requires Valid()
      modifies filterDetections
      ensures Valid()
      ensures ScoreThreshold() == value
      ensures filterDetections == old(filterDetections)
    {
      filterDetections.scoreThreshold := value;
    }

    /**
     * The flags of `call`: sub-modules train only when asked to and the model
     * is in training mode; training mode returns the raw boxes and scores,
     * inference mode the detections filtered at the current threshold.
     */
    function Call(training: bool): (f: Forward)
      reads this, filterDetections
      ensures f.subModulesTraining ==> training
      ensures !trainingMode ==> !f.subModulesTraining
      ensures training && trainingMode ==> f.subModulesTraining
      ensures f.output.BoxesAndScores? <==> trainingMode
      ensures f.output.Detections? ==> f.output.scoreThreshold == ScoreThreshold()
    {
      var subModulesTraining := training && trainingMode;
      if trainingMode then
        Forward(subModulesTraining, BoxesAndScores)
      else
        Forward(subModulesTraining, Detections(filterDetections.scoreThreshold))
    }

    /**
     * The class-head replacement of `from_pretrained`: with a class count the
     * loaded model gets that count and a freshly built head for it.
     */
    method ReplaceClassHead(n: Option<int>)
      modifies this
      ensures n.None? ==> numClasses == old(numClasses) && classHead == old(classHead)
      ensures n.Some? ==> numClasses == n.value && classHead == PretrainedHead(n.value)
      ensures Valid() <==> (n.Some? || old(Valid()))
      ensures d == old(d) && backboneWeights == old(backboneWeights)
      ensures backboneTrainable == old(backboneTrainable) && trainingMode == old(trainingMode)
      ensures filterDetections == old(filterDetections) && loads == old(loads)
    {
      if n.Some? {
        numClasses := n.value;
        classHead := PretrainedHead(n.value);
      }
    }
  }

  // ---------------------------------------------------------------------------
  // from_pretrained
  // ---------------------------------------------------------------------------

  /** The errors of `from_pretrained`'s argument handling. */
  datatype PretrainedError = CheckpointNotAvailable(path: string) | KeyError(key: string)

  /** The weight names `str(checkpoint_path) in _AVAILABLE_WEIGHTS` accepts (`str(None)` is not one). */
  predicate IsAvailableName(path: string)
  {
    Some(path) in AvailableWeights
  }

  /**
   * The checkpoint resolution as written: a path that is neither a directory
   * nor an available name is rejected, and an available name is looked up in
   * the remote paths, which has no entry for ImageNet.
   */
  function ResolveCheckpointAsWritten(path: string, isDir: bool): Result<string, PretrainedError>
  {
    if !isDir && !IsAvailableName(path) then
      Err(CheckpointNotAvailable(path))
    else if IsAvailableName(path) then
      if path in WeightsPaths then Ok(WeightsPaths[path]) else Err(KeyError(path))
    else
      Ok(path)
  }

  /** `from_pretrained("imagenet")` passes the availability check and then fails the lookup. */
  lemma ImageNetFailsLookupAsWritten(isDir: bool)
    ensures IsAvailableName(ImageNet)
    ensures ResolveCheckpointAsWritten(ImageNet, isDir) == Err(KeyError(ImageNet))
  {
  }

  /**
   * The intended resolution: a known checkpoint name goes to its remote path,
   * a directory is loaded as it is, and anything else is reported as not
   * available.
   */
  function ResolveCheckpoint(path: string, isDir: bool): (r: Result<string, PretrainedError>)
    ensures r.Ok? <==> path in WeightsPaths || isDir
    ensures r.Ok? && path in WeightsPaths ==> r.value == WeightsPaths[path]
    ensures r.Ok? && path !in WeightsPaths ==> r.value == path
    ensures r.Err? ==> r.error == CheckpointNotAvailable(path)
  {
    if path in WeightsPaths then Ok(WeightsPaths[path])
    else if isDir then Ok(path)
    else Err(CheckpointNotAvailable(path))
  }

  /** The intended resolution agrees with the written one on every path except the ImageNet name. */
  lemma ResolveCheckpointAgreesAsWritten(path: string, isDir: bool)
    requires path != ImageNet
    ensures ResolveCheckpoint(path, isDir) == ResolveCheckpointAsWritten(path, isDir)
  {
    if IsAvailableName(path) {
      assert path == D0Voc;
    }
  }

  /** The head `from_pretrained` builds as written: the compound coefficient as depth and no name prefix. */
  function PretrainedHeadAsWritten(n: int): ClassHead
  {
    ClassHead(CompoundCoefficient, n, "", false)
  }

  /** As written, the replacement head is not configured like the constructor's head for the same class count. */
  lemma PretrainedHeadDiffersAsWritten(n: int)
    ensures PretrainedHeadAsWritten(n).depth != NewClassHead(n).depth
    ensures PretrainedHeadAsWritten(n).prefix != NewClassHead(n).prefix
  {
  }

  /** The intended replacement head: built exactly as the constructor builds a custom head. */
  function PretrainedHead(n: int): (h: ClassHead)
    ensures h == NewClassHead(n)
    ensures h.numClasses == n && !h.pretrained
  {
    ClassHead(ClassHeadDepth, n, "class_head/", false)
  }

  /**
   * `from_pretrained`: resolves the checkpoint and, when it resolves, replaces
   * the loaded model's class head if a class count is given. Loading the
   * checkpoint is I/O: `loaded` is the model `load` returns for the resolved path.
   */
  method FromPretrained(path: string, isDir: bool, n: Option<int>, loaded: EfficientDet)
    returns (r: Result<string, PretrainedError>)
    modifies loaded
    ensures r == ResolveCheckpoint(path, isDir)
    ensures r.Err? || n.None? ==> unchanged(loaded)
    ensures r.Ok? && n.Some? ==> loaded.numClasses == n.value && loaded.classHead == PretrainedHead(n.value)
    ensures r.Ok? && n.Some? ==> loaded.Valid() && !loaded.classHead.pretrained
    ensures loaded.loads == old(loaded.loads) && loaded.filterDetections == old(loaded.filterDetections)
    ensures loaded.d == old(loaded.d) && loaded.backboneWeights == old(loaded.backboneWeights)
    ensures loaded.backboneTrainable == old(loaded.backboneTrainable) && loaded.trainingMode == old(loaded.trainingMode)
  {
    r := ResolveCheckpoint(path, isDir);
    if r.Ok? && n.Some? {
      loaded.ReplaceClassHead(n);
    }
  }
}
