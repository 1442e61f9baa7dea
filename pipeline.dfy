/**
 * `Pipeline` (`pipeline.py`): an append-only list of SageMaker steps. Each
 * `add_*_step` runs the matching parser on a facade step and appends the
 * step's `parsed_step`; nothing is reordered, deduplicated or checked. Two
 * module-level helpers expose a parsed step's outputs as `Param`s.
 *
 * As written, `pipeline.py` imports `ProcessingStepParser`, a name
 * `processing_step_parser.py` does not define, and passes it an `image_uri`
 * that `ProcessingParser.__init__` does not accept. This model binds
 * `add_processing_step` to `ProcessingParser` without `image_uri`.
 */
module FacadePipeline {
  import opened PyBuiltins
  import opened Sdk
  import opened Facade
  import opened Processing
  import opened ProcessingParsing
  import opened Training
  import opened TrainingParsing

  /** `get_output_value_as_param(step, name, output_name, content_type=None)`, given the step's `parsed_step`. */
  function GetOutputValueAsParam(parsedStep: Option<ProviderStep>, name: string, outputName: string,
                                 contentType: Option<string>): (r: Result<Param>)
    ensures r.Ok? <==> parsedStep.Some?
    ensures parsedStep.None? ==> r == Err(AttributeError("properties"))
    ensures r.Ok? ==> r.value.Param?
    ensures r.Ok? ==> r.value.name == Some(name) && r.value.contentType == contentType && r.value.destination.None?
    ensures r.Ok? ==> r.value.source == Some(Property(ProcessingOutputS3Uri(parsedStep.value.name, outputName)))
  {
    OutputValueAsParam(parsedStep, name, outputName, contentType)
  }

  /**
   * `get_trained_model_as_param(step, name=None)`: a `Param` named `name`,
   * or `model` when the name is falsy, whose source is the model artifacts
   * of the parsed training step.
   */
  function GetTrainedModelAsParam(parsedStep: Option<ProviderStep>, name: Option<string>): (r: Result<Param>)
    ensures r.Ok? <==> parsedStep.Some?
    ensures parsedStep.None? ==> r == Err(AttributeError("properties"))
    ensures r.Ok? && Truthy(name) ==> r.value.name == name
    ensures r.Ok? && !Truthy(name) ==> r.value.name == Some("model")
    ensures r.Ok? ==> r.value.source == Some(Property(ModelArtifactsS3Uri(parsedStep.value.name)))
    ensures r.Ok? ==> r.value.Param? && r.value.destination.None? && r.value.contentType.None?
  {
    var paramName := if Truthy(name) then name.value else "model";
    match parsedStep
    case None => Err(AttributeError("properties"))
    case Some(step) => Ok(Param(name := Some(paramName), source := Some(Property(ModelArtifactsS3Uri(step.name)))))
  }

  /**
   * `base_s3_path`: `s3://<bucket>/pipelines/<name>/<date>`, where the date
   * is the UTC ISO timestamp with its last six characters (the `+00:00`
   * offset) cut off. The clock is read by the caller.
   */
  function BaseS3Path(bucket: string, name: string, isoTimestamp: string): (r: string)
    ensures StartsWith(r, "s3://" + bucket + "/pipelines/" + name + "/")
    ensures |isoTimestamp| >= 6 ==> r + isoTimestamp[|isoTimestamp| - 6..] == "s3://" + bucket + "/pipelines/" + name + "/" + isoTimestamp
    ensures |isoTimestamp| < 6 ==> r == "s3://" + bucket + "/pipelines/" + name + "/"
  {
    var prefix := "s3://" + bucket + "/pipelines/" + name + "/";
    var date := DropLast(isoTimestamp, 6);
    assert (prefix + date)[..|prefix|] == prefix;
    prefix + date
  }

  class Pipeline {
    const name: string
    const rootPath: string
    const imageUri: string
    const bucket: string
    const role: string
    const region: string
    const session: SessionRef
    /** `LIB_PATH`, the directory the package is installed in. */
    const libPath: string
    const baseS3Path: string
    var steps: seq<ProviderStep>

    /** `__init__`, with the current UTC time passed in as its ISO text. */
    constructor (name: string, rootDir: string, imageUri: string, bucket: string, role: string, region: string,
                 session: SessionRef, libPath: string, isoTimestamp: string)
      ensures this.name == name && rootPath == rootDir && this.imageUri == imageUri && this.bucket == bucket
      ensures this.role == role && this.region == region && this.session == session && this.libPath == libPath
      ensures baseS3Path == BaseS3Path(bucket, name, isoTimestamp)
      ensures steps == []
    {
      this.name := name;
      rootPath := rootDir;
      this.imageUri := imageUri;
      this.bucket := bucket;
      this.role := role;
      this.region := region;
      this.session := session;
      this.libPath := libPath;
      baseS3Path := BaseS3Path(bucket, name, isoTimestamp);
      steps := [];
    }

    /**
     * `add_processing_step(step)`: parse the step, then append its
     * `parsed_step`. When the parse raises nothing is appended.
     */
    method AddProcessingStep(step: ProcessingFacadeStep) returns (outcome: Outcome)
      modifies this, step
      ensures var parsed := ProcessingParser(rootPath, role, session, libPath)
                              .Translate(step.className, old(step.inputs), old(step.outputs));
              && (outcome.Pass? <==> parsed.Ok?)
              && (outcome.Fail? ==> outcome.error == parsed.error && steps == old(steps))
              && (outcome.Pass? ==> step.parsedStep == Some(parsed.value) && steps == old(steps) + [parsed.value])
              && (outcome.Fail? ==> step.parsedStep == old(step.parsedStep))
      ensures step.codeDir == Some(ProcessingParsing.CodeDir) && step.inputDir == Some(ProcessingParsing.InputDir)
      ensures step.outputDir == Some(ProcessingParsing.OutputDir)
      ensures step.inputs == old(step.inputs) && step.outputs == old(step.outputs)
      ensures step.scriptPath == old(step.scriptPath)
    {
      var parser := ProcessingParser(rootPath, role, session, libPath);
      var r := parser.Parse(step);
      match r
      case Err(e) =>
        outcome := Fail(e);
      case Ok(_) =>
        steps := steps + [step.parsedStep.value];
        outcome := Pass;
    }

    /**
     * `add_training_step(step)`: parse the step with `TrainingStepParser`,
     * then append its `parsed_step`. When the parse raises nothing is
     * appended.
     */
    method AddTrainingStep(step: TrainingFacadeStep) returns (outcome: Outcome)
      modifies this, step
      ensures var parsed := TrainingStepParser(baseS3Path, imageUri, role, region, session)
                              .Translate(step.className, old(step.hyperParams), old(step.inputs));
              && (outcome.Pass? <==> parsed.Ok?)
              && (outcome.Fail? ==> outcome.error == parsed.error && steps == old(steps))
              && (outcome.Pass? ==> step.parsedStep == Some(parsed.value) && steps == old(steps) + [parsed.value])
              && (outcome.Fail? ==> step.parsedStep == old(step.parsedStep))
      ensures step.inputs == old(step.inputs) && step.hyperParams == old(step.hyperParams)
      ensures step.modelArgs == old(step.modelArgs) && step.modelsPath == old(step.modelsPath)
      ensures step.imageArgs == old(step.imageArgs) && step.containerArgs == old(step.containerArgs)
      ensures step.role == old(step.role) && step.region == old(step.region) && step.session == old(step.session)
    {
      var parser := TrainingStepParser(baseS3Path, imageUri, role, region, session);
      var r := parser.Parse(step);
      match r
      case Err(e) =>
        outcome := Fail(e);
      case Ok(_) =>
        steps := steps + [step.parsedStep.value];
        outcome := Pass;
    }
  }

  /**
   * Steps come out in the order they were added: a processing step added
   * before another keeps its place, and a training step built as the
   * constructor leaves it (no `hyper_params`) is rejected without touching
   * the list.
   */
  method AddInCallOrder(pipeline: Pipeline, first: ProcessingFacadeStep, second: ProcessingFacadeStep,
                        training: TrainingFacadeStep)
    returns (outcome: Outcome)
    requires first != second
    requires first.inputs.Some? && first.outputs.Some? && second.inputs.Some? && second.outputs.Some?
    requires training.hyperParams.Missing?
    modifies pipeline, first, second, training
    ensures outcome == Fail(AttributeError("hyper_params"))
    ensures first.parsedStep.Some? && second.parsedStep.Some?
    ensures pipeline.steps == old(pipeline.steps) + [first.parsedStep.value, second.parsedStep.value]
    ensures first.parsedStep.value.name == StepName(first.className)
    ensures second.parsedStep.value.name == StepName(second.className)
  {
    var o1 := pipeline.AddProcessingStep(first);
    var o2 := pipeline.AddProcessingStep(second);
    outcome := pipeline.AddTrainingStep(training);
  }
}
