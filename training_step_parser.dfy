/**
 * `TrainingStepParser` (`training_step_parser.py`): builds the SageMaker
 * `TrainingStep` for a `TrainingFacadeStep` from pipeline-wide settings and
 * the package defaults. It reads the step's `hyper_params` attribute, which
 * `TrainingFacadeStep` never assigns (it keeps them in
 * `model_args.hyper_params`), so on a step as constructed the parse raises
 * `AttributeError`.
 */
module TrainingParsing {
  import opened PyBuiltins
  import opened Sdk
  import opened Facade
  import opened Training

  datatype TrainingStepParser = TrainingStepParser(
    baseS3Path: string, imageUri: string, role: string, region: string, session: SessionRef)
  {
    /** `get_estimator()`: the pipeline's image, the default instance settings, output under `<base>/models`. */
    function GetEstimator(): (e: Estimator)
      ensures e.imageUri == ImageUriText(imageUri)
      ensures e.instanceType == DefaultInstanceType && e.instanceCount == DefaultInstanceCount
      ensures e.outputPath == ModelsPath(baseS3Path)
      ensures e.role == role && e.session == session
    {
      Estimator(ImageUriText(imageUri), DefaultInstanceType, DefaultInstanceCount, ModelsPath(baseS3Path), role, session)
    }

    /**
     * `parse` as a value, from the class name and the step's `hyper_params`
     * attribute and `inputs`.
     */
    function Translate(className: string, hyperParams: Attr<HyperParams>, inputs: seq<Param>): (r: Result<ProviderStep>)
      ensures r.Ok? <==> hyperParams.Assigned?
      ensures r.Err? ==> r.error == AttributeError("hyper_params")
      ensures r.Ok? ==> r.value.TrainingStep? && r.value.name == StepName(className)
      ensures r.Ok? ==> r.value.fit.estimator == GetEstimator()
      ensures r.Ok? ==> r.value.fit.hyperParams == hyperParams.value
      ensures r.Ok? ==> r.value.fit.channels == Channels(inputs)
    {
      match hyperParams
      case Missing => Err(AttributeError("hyper_params"))
      case Assigned(h) => Ok(TrainingStep(StepName(className), FitArgs(GetEstimator(), h, Channels(inputs))))
    }

    /** `parse(step)`: on success `parsed_step` is the step returned; nothing else on the step changes. */
    method Parse(step: TrainingFacadeStep) returns (r: Result<ProviderStep>)
      modifies step
      ensures r == Translate(step.className, step.hyperParams, step.inputs)
      ensures r.Ok? ==> step.parsedStep == Some(r.value)
      ensures r.Err? ==> step.parsedStep == old(step.parsedStep)
      ensures step.inputs == old(step.inputs) && step.hyperParams == old(step.hyperParams)
      ensures step.modelArgs == old(step.modelArgs) && step.modelsPath == old(step.modelsPath)
      ensures step.imageArgs == old(step.imageArgs) && step.containerArgs == old(step.containerArgs)
      ensures step.role == old(step.role) && step.region == old(step.region) && step.session == old(step.session)
    {
      r := Translate(step.className, step.hyperParams, step.inputs);
      if r.Ok? {
        step.parsedStep := Some(r.value);
      }
    }
  }

  /**
   * The two training paths agree on where models go: the parser's estimator
   * writes to the same `<base>/models` that `TrainingFacadeStep.parse`
   * records.
   */
  lemma SameModelsPath(parser: TrainingStepParser, className: string, inputs: seq<Param>, modelArgs: ModelArgs,
                       imageArgs: Attr<ImageArgs>, containerArgs: Attr<ContainerArgs>)
    requires imageArgs.Assigned? && containerArgs.Assigned?
    ensures Fit(className, inputs, ImageRetrieveArgsOf(Some(parser.region), modelArgs, imageArgs), containerArgs,
                modelArgs.hyperParams, parser.baseS3Path, parser.role, parser.session).value.fit.estimator.outputPath
            == parser.GetEstimator().outputPath
  {
  }
}
