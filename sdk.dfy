/**
 * The SageMaker SDK objects that the facade builds. The SDK's own behaviour
 * is not visible from the facade, so each constructor or call is a plain
 * record of the arguments the facade passes to it, and each `.properties`
 * expression is a symbolic reference to the step it is read from.
 */
module Sdk {
  import opened PyBuiltins

  /** An opaque `PipelineSession` handle. */
  datatype SessionRef = SessionRef(id: nat)

  /**
   * A `.properties` expression of a parsed step, resolved by the service at
   * execution time; the step is identified by its name.
   */
  datatype PropertyRef =
    | ProcessingOutputS3Uri(stepName: string, outputName: string)  // properties.ProcessingOutputConfig.Outputs[o].S3Output.S3Uri
    | ModelArtifactsS3Uri(stepName: string)                         // properties.ModelArtifacts.S3ModelArtifacts
    | ModelNameOf(stepName: string)                                 // properties.ModelName

  /**
   * What a `Param.source` (typed `object`) can hold: a path or URI, a
   * property reference, or a `sagemaker.Model` built by a batch-transform
   * parse.
   */
  datatype Source =
    | Text(text: string)
    | Property(ref: PropertyRef)
    | ModelObject(model: Model)

  /** `Model(image_uri=…, model_data=…, sagemaker_session=…, role=…)` */
  datatype Model = Model(imageUri: string, modelData: Option<Source>, session: SessionRef, role: string)

  /** `ProcessingInput(input_name=…, source=…, destination=…)` */
  datatype ProcessingInput = ProcessingInput(inputName: string, source: Option<Source>, destination: string)

  /** `ProcessingOutput(output_name=…, source=…)` */
  datatype ProcessingOutput = ProcessingOutput(outputName: string, source: string)

  /** `SKLearnProcessor(framework_version=…, instance_type=…, instance_count=…, role=…, sagemaker_session=…)` */
  datatype SklearnProcessor = SklearnProcessor(
    frameworkVersion: string, instanceType: string, instanceCount: int, role: string, session: SessionRef)

  /** The arguments captured by `processor.run(inputs=…, outputs=…, code=…)`. */
  datatype RunArgs = RunArgs(
    processor: SklearnProcessor, inputs: seq<ProcessingInput>, outputs: seq<ProcessingOutput>, code: string)

  /** `TrainingInput(s3_data=…, content_type=…)` */
  datatype TrainingInput = TrainingInput(s3Data: Option<Source>, contentType: Option<string>)

  /** A hyperparameter value passed through `set_hyperparameters`. */
  datatype HyperValue = IntValue(i: int) | RealValue(r: real) | TextValue(s: string)

  type HyperParams = map<string, HyperValue>

  /** The keyword arguments of `sagemaker.image_uris.retrieve`. */
  datatype ImageRetrieveArgs = ImageRetrieveArgs(
    region: Option<string>, framework: string, version: string, pyVersion: string, instanceType: string)

  /** An image URI given as text, or the one `image_uris.retrieve(**args)` returns. */
  datatype ImageUri = ImageUriText(uri: string) | Retrieved(args: ImageRetrieveArgs)

  /** `Estimator(image_uri=…, instance_type=…, instance_count=…, output_path=…, role=…, sagemaker_session=…)` */
  datatype Estimator = Estimator(
    imageUri: ImageUri, instanceType: string, instanceCount: int, outputPath: string,
    role: string, session: SessionRef)

  /** The training channels: `fit(inputs={name: TrainingInput, …})`, keyed by a name that may be `None`. */
  type ChannelMap = map<Option<string>, TrainingInput>

  /** The arguments captured by `set_hyperparameters(**h)` followed by `fit(inputs=…)`. */
  datatype FitArgs = FitArgs(estimator: Estimator, hyperParams: HyperParams, channels: ChannelMap)

  /** One entry of the `build_metrics` mapping (a `ModelMetrics` in practice). */
  datatype MetricsArg = ModelMetrics(statisticsUri: string, contentType: string)

  type Metrics = map<string, MetricsArg>

  /** The arguments captured by `model.register(...)`, `**metrics` included. */
  datatype RegisterArgs = RegisterArgs(
    model: Model, contentTypes: seq<string>, responseTypes: seq<string>,
    modelPackageGroupName: string, approvalStatus: string, metrics: Metrics)

  /** What a `ModelStep` wraps: `model.create(instance_type=…)` or `model.register(…)`. */
  datatype ModelStepArgs = CreateArgs(model: Model, instanceType: string) | RegisterStepArgs(register: RegisterArgs)

  /** `Transformer(model_name=…, instance_type=…, instance_count=…, output_path=…)` */
  datatype Transformer = Transformer(modelName: PropertyRef, instanceType: string, instanceCount: int, outputPath: string)

  /** The data of `TransformInput(data=…)`: a URI used verbatim, or the URI an upload returns. */
  datatype DataUri = Direct(uri: string) | Uploaded(localPath: Source, desiredS3Uri: string)

  /** A step of the SageMaker workflow, as the facade's parsers build it. */
  datatype ProviderStep =
    | ProcessingStep(name: string, run: RunArgs)
    | TrainingStep(name: string, fit: FitArgs)
    | ModelStep(name: string, args: ModelStepArgs)
    | TransformStep(name: string, transformer: Transformer, data: DataUri)
}
