/**
 * `TrainingFacadeStep` (`training_step.py`): a training stage that builds
 * its own SageMaker `TrainingStep`. Image settings come from a per-model
 * table unless given, the container settings from a default unless given,
 * and the training channels from the input `Param`s keyed by name.
 */
module Training {
  import opened PyBuiltins
  import opened Sdk
  import opened Facade

  datatype ImageArgs = ImageArgs(version: string, pyVersion: string, instanceType: string)

  datatype ContainerArgs = ContainerArgs(instanceCount: int)

  datatype ModelArgs = ModelArgs(name: string, hyperParams: HyperParams)

  /** The only entry of `ImageArgsPerModel`. */
  const XgboostImageArgs: ImageArgs := ImageArgs("1.0-1", "py3", "ml.m5.xlarge")

  const DefaultContainerArgs: ContainerArgs := ContainerArgs(1)

  /** `ImageArgsPerModel[name].value`: only `xgboost` is registered; any other name raises `KeyError`. */
  function ImageArgsPerModel(name: string): (r: Result<ImageArgs>)
    ensures r.Ok? <==> name == "xgboost"
    ensures r.Ok? ==> r.value == XgboostImageArgs
    ensures r.Err? ==> r.error == KeyError(name)
  {
    if name == "xgboost" then Ok(XgboostImageArgs) else Err(KeyError(name))
  }

  /** The registered image runs on the package's default instance type. */
  lemma XgboostUsesDefaultInstanceType()
    ensures ImageArgsPerModel("xgboost").value.instanceType == DefaultInstanceType
  {
  }

  /**
   * What `__init__` leaves in `self.image_args`: the table entry for the
   * model when no image args are given (raising `KeyError` for an unknown
   * model), and NOTHING when they are given, since the supplied value is
   * never stored.
   */
  function InitImageArgs(modelName: string, imageArgs: Option<ImageArgs>): (r: Result<Attr<ImageArgs>>)
    ensures imageArgs.Some? ==> r == Ok(Missing)
    ensures imageArgs.None? ==> (r.Ok? <==> modelName == "xgboost")
    ensures imageArgs.None? && r.Ok? ==> r.value == Assigned(XgboostImageArgs)
    ensures r.Err? ==> r.error == KeyError(modelName)
  {
    match imageArgs
    case Some(_) => Ok(Missing)
    case None =>
      match ImageArgsPerModel(modelName)
      case Ok(entry) => Ok(Assigned(entry))
      case Err(e) => Err(e)
  }

  /** What `__init__` leaves in `self.container_args`: the default when none is given, nothing otherwise. */
  function InitContainerArgs(containerArgs: Option<ContainerArgs>): (r: Attr<ContainerArgs>)
    ensures containerArgs.None? <==> r.Assigned?
    ensures r.Assigned? ==> r.value.instanceCount == 1
  {
    if containerArgs.None? then Assigned(DefaultContainerArgs) else Missing
  }

  /** The names a list of `Param`s is keyed by. */
  function Names(inputs: seq<Param>): set<Option<string>> {
    set i | 0 <= i < |inputs| :: inputs[i].name
  }

  /** The channel a `Param` becomes: its source and content type, unchanged. */
  function ChannelOf(p: Param): (c: TrainingInput)
    ensures c.s3Data == p.source && c.contentType == p.contentType
  {
    TrainingInput(p.source, p.contentType)
  }

  /**
   * `{param.name: TrainingInput(...) for param in inputs}`: one channel per
   * distinct name; a later input with the same name replaces an earlier one.
   */
  function Channels(inputs: seq<Param>): (r: ChannelMap)
    ensures r.Keys == Names(inputs)
  {
    if inputs == [] then map[]
    else
      var last := inputs[|inputs| - 1];
      var front := inputs[..|inputs| - 1];
      assert Names(inputs) == Names(front) + {last.name} by {
        forall n | n in Names(inputs) ensures n in Names(front) + {last.name} {
          var i :| 0 <= i < |inputs| && inputs[i].name == n;
          if i < |inputs| - 1 { assert front[i] == inputs[i]; }
        }
        forall n | n in Names(front) ensures n in Names(inputs) {
          var i :| 0 <= i < |front| && front[i].name == n;
          assert inputs[i] == front[i];
        }
      }
      Channels(front)[last.name := ChannelOf(last)]
  }

  /** The channel for a name is built from the LAST input carrying that name. */
  lemma {:induction false} ChannelsLastWins(inputs: seq<Param>, k: nat)
    requires k < |inputs|
    requires forall j :: k < j < |inputs| ==> inputs[j].name != inputs[k].name
    ensures inputs[k].name in Channels(inputs)
    ensures Channels(inputs)[inputs[k].name] == ChannelOf(inputs[k])
  {
    if k < |inputs| - 1 {
      var front := inputs[..|inputs| - 1];
      forall j | k < j < |front| ensures front[j].name != front[k].name {
        assert front[j] == inputs[j];
      }
      ChannelsLastWins(front, k);
    }
  }

  /** With pairwise distinct names every input gets its own channel. */
  lemma {:induction false} ChannelsOnePerInput(inputs: seq<Param>)
    requires forall i, j :: 0 <= i < j < |inputs| ==> inputs[i].name != inputs[j].name
    ensures |Channels(inputs)| == |inputs|
  {
    if inputs != [] {
      var front := inputs[..|inputs| - 1];
      var last := inputs[|inputs| - 1];
      ChannelsOnePerInput(front);
      forall i | 0 <= i < |front| ensures front[i].name != last.name {
        assert front[i] == inputs[i];
      }
      assert last.name !in Names(front);
    }
  }

  /** `models_path`: where the trained model artifacts are written. */
  function ModelsPath(baseS3Path: string): string {
    JoinPath(baseS3Path, "models")
  }

  /**
   * `get_image_args()` on the given attributes: region, framework (the
   * model name) and the three image fields. With `image_args` never
   * assigned it raises `AttributeError`.
   */
  function ImageRetrieveArgsOf(region: Option<string>, modelArgs: ModelArgs, imageArgs: Attr<ImageArgs>): (r: Result<ImageRetrieveArgs>)
    ensures r.Ok? <==> imageArgs.Assigned?
    ensures r.Err? ==> r.error == AttributeError("image_args")
    ensures r.Ok? ==> r.value.region == region && r.value.framework == modelArgs.name
    ensures r.Ok? ==> && r.value.version == imageArgs.value.version
                      && r.value.pyVersion == imageArgs.value.pyVersion
                      && r.value.instanceType == imageArgs.value.instanceType
  {
    match imageArgs
    case Missing => Err(AttributeError("image_args"))
    case Assigned(a) => Ok(ImageRetrieveArgs(region, modelArgs.name, a.version, a.pyVersion, a.instanceType))
  }

  /**
   * The body of `parse` after the four attributes are assigned, given what
   * `get_image_args()` and `get_hyper_params()` return: retrieve the image,
   * build the estimator, set the hyperparameters and fit on the channels.
   * An error from `get_image_args()` comes first, then a missing
   * `container_args`.
   */
  function Fit(className: string, inputs: seq<Param>, retrieveArgs: Result<ImageRetrieveArgs>,
               containerArgs: Attr<ContainerArgs>, hyperParams: HyperParams, baseS3Path: string, role: string,
               session: SessionRef): (r: Result<ProviderStep>)
    ensures r.Ok? <==> retrieveArgs.Ok? && containerArgs.Assigned?
    ensures retrieveArgs.Err? ==> r == Err(retrieveArgs.error)
    ensures retrieveArgs.Ok? && containerArgs.Missing? ==> r == Err(AttributeError("container_args"))
    ensures r.Ok? ==> r.value.TrainingStep? && r.value.name == StepName(className)
    ensures r.Ok? ==>
              var e := r.value.fit.estimator;
              && e.imageUri == Retrieved(retrieveArgs.value)
              && e.instanceType == retrieveArgs.value.instanceType
              && e.instanceCount == containerArgs.value.instanceCount
              && e.outputPath == ModelsPath(baseS3Path)
              && e.role == role && e.session == session
    ensures r.Ok? ==> r.value.fit.hyperParams == hyperParams && r.value.fit.channels == Channels(inputs)
  {
    match retrieveArgs
    case Err(e) => Err(e)
    case Ok(args) =>
      match containerArgs
      case Missing => Err(AttributeError("container_args"))
      case Assigned(c) =>
        var estimator := Estimator(Retrieved(args), args.instanceType, c.instanceCount,
                                   ModelsPath(baseS3Path), role, session);
        Ok(TrainingStep(StepName(className), FitArgs(estimator, hyperParams, Channels(inputs))))
  }

  class TrainingFacadeStep {
    /** `type(self).__name__` */
    const className: string
    var parsedStep: Option<ProviderStep>
    var modelsPath: Option<string>
    var role: Option<string>
    var region: Option<string>
    var session: Option<SessionRef>
    var inputs: seq<Param>
    var modelArgs: ModelArgs
    var imageArgs: Attr<ImageArgs>
    var containerArgs: Attr<ContainerArgs>
    /**
     * `self.hyper_params`, which `training_step_parser.py` reads. This
     * class never assigns it (the hyperparameters live in
     * `model_args.hyper_params`).
     */
    var hyperParams: Attr<HyperParams>

    /** The object `__init__` leaves behind, once the image and container attributes are resolved. */
    constructor (className: string, inputs: seq<Param>, modelArgs: ModelArgs,
                 imageArgs: Attr<ImageArgs>, containerArgs: Attr<ContainerArgs>)
      ensures this.className == className
      ensures parsedStep.None? && modelsPath.None? && role.None? && region.None? && session.None?
      ensures this.inputs == inputs && this.modelArgs == modelArgs
      ensures this.imageArgs == imageArgs && this.containerArgs == containerArgs
      ensures hyperParams.Missing?
    {
      this.className := className;
      parsedStep := None;
      modelsPath := None;
      role := None;
      region := None;
      session := None;
      this.inputs := inputs;
      this.modelArgs := modelArgs;
      this.imageArgs := imageArgs;
      this.containerArgs := containerArgs;
      hyperParams := Missing;
    }

    function Name(): string {
      StepName(className)
    }

    /** `get_image_args()` */
    function GetImageArgs(): (r: Result<ImageRetrieveArgs>)
      reads this
      ensures r.Ok? <==> imageArgs.Assigned?
      ensures r.Err? ==> r.error == AttributeError("image_args")
      ensures r.Ok? ==> r.value.region == region && r.value.framework == modelArgs.name
      ensures r.Ok? ==> && r.value.version == imageArgs.value.version
                        && r.value.pyVersion == imageArgs.value.pyVersion
                        && r.value.instanceType == imageArgs.value.instanceType
    {
      ImageRetrieveArgsOf(region, modelArgs, imageArgs)
    }

    /** `get_hyper_params()`: the model's hyperparameters, unchanged. */
    function GetHyperParams(): (r: HyperParams)
      reads this
      ensures r == modelArgs.hyperParams
    {
      modelArgs.hyperParams
    }

    /**
     * `parse(base_s3_path, role, region, pipeline_session)`. The models
     * path, role, region and session are recorded before anything can
     * raise; the image arguments and hyperparameters come from
     * `get_image_args()` and `get_hyper_params()`; on success `parsed_step`
     * is the step returned.
     */
    method Parse(baseS3Path: string, role: string, region: string, session: SessionRef) returns (r: Result<ProviderStep>)
      modifies this
      ensures modelsPath == Some(ModelsPath(baseS3Path))
      ensures this.role == Some(role) && this.region == Some(region) && this.session == Some(session)
      ensures r == Fit(className, inputs, ImageRetrieveArgsOf(Some(region), modelArgs, imageArgs), containerArgs,
                       modelArgs.hyperParams, baseS3Path, role, session)
      ensures r.Ok? ==> parsedStep == Some(r.value)
      ensures r.Err? ==> parsedStep == old(parsedStep)
      ensures inputs == old(inputs) && modelArgs == old(modelArgs) && hyperParams == old(hyperParams)
      ensures imageArgs == old(imageArgs) && containerArgs == old(containerArgs)
    {
      modelsPath := Some(ModelsPath(baseS3Path));
      this.role := Some(role);
      this.region := Some(region);
      this.session := Some(session);
      var retrieveArgs := GetImageArgs();
      r := Fit(className, inputs, retrieveArgs, containerArgs, GetHyperParams(), baseS3Path, role, session);
      if r.Ok? {
        parsedStep := Some(r.value);
      }
    }
  }

  /**
   * `TrainingFacadeStep(inputs, model_args, image_args=None,
   * container_args=None)`: raises `KeyError` for an unknown model when no
   * image args are given; otherwise returns a step that is not yet parsed.
   */
  method NewTrainingFacadeStep(className: string, inputs: seq<Param>, modelArgs: ModelArgs,
                               imageArgs: Option<ImageArgs>, containerArgs: Option<ContainerArgs>)
    returns (r: Result<TrainingFacadeStep>)
    ensures r.Ok? <==> imageArgs.Some? || modelArgs.name == "xgboost"
    ensures r.Err? ==> r.error == KeyError(modelArgs.name)
    ensures r.Ok? ==> fresh(r.value) && r.value.className == className && r.value.parsedStep.None?
    ensures r.Ok? ==> && r.value.modelsPath.None? && r.value.role.None?
                      && r.value.region.None? && r.value.session.None?
    ensures r.Ok? ==> r.value.inputs == inputs && r.value.modelArgs == modelArgs
    ensures r.Ok? ==> r.value.imageArgs == InitImageArgs(modelArgs.name, imageArgs).value
    ensures r.Ok? ==> r.value.containerArgs == InitContainerArgs(containerArgs)
    ensures r.Ok? ==> r.value.hyperParams.Missing?
  {
    match InitImageArgs(modelArgs.name, imageArgs)
    case Err(e) =>
      r := Err(e);
    case Ok(image) =>
      var step := new TrainingFacadeStep(className, inputs, modelArgs, image, InitContainerArgs(containerArgs));
      r := Ok(step);
  }
}
