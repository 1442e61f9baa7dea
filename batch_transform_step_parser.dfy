/**
 * `BatchTransformStepParser` (`batch_transform_step_parser.py`): turns a
 * batch-transform facade step into two chained SageMaker steps, a
 * `ModelStep` that creates the model and a `TransformStep` that runs it on
 * the batch data, uploading that data first unless it already is an S3 URI.
 * It reads the step's `model_data` and `batch_data` attributes, which
 * `BatchTransformFacadeStep` never assigns, so on a step as constructed
 * the parse raises `AttributeError`.
 */
module BatchTransformParsing {
  import opened PyBuiltins
  import opened Sdk
  import opened Facade
  import opened BatchTransform

  /** The two steps a parse builds and the model it builds them from. */
  datatype Translation = Translation(model: Model, modelStep: ProviderStep, transformStep: ProviderStep)

  datatype BatchTransformStepParser = BatchTransformStepParser(
    baseS3Path: string, imageUri: string, role: string, session: SessionRef)
  {
    /** Where the transform job writes its results. */
    function TransformOutputPath(): string {
      JoinPath(JoinPath(baseS3Path, "transform"), "output")
    }

    /** Where local batch data is uploaded to. */
    function TransformDataPath(): string {
      JoinPath(JoinPath(baseS3Path, "transform"), "data")
    }

    /**
     * The transform input for the batch data's source: uploaded if and only
     * if it does not start with `s3://`, otherwise used verbatim. A property
     * reference is an SDK pipeline variable, whose `startswith` answers
     * `False`, so it takes the upload branch. Any other source (`None`, a
     * `sagemaker.Model`) has no `startswith` and raises `AttributeError`.
     */
    function TransformData(source: Option<Source>): (r: Result<DataUri>)
      ensures r.Ok? <==> source.Some? && (source.value.Text? || source.value.Property?)
      ensures r.Err? ==> r.error == AttributeError("startswith")
      ensures r.Ok? ==> (r.value.Uploaded? <==> source.value.Property? || !StartsWith(source.value.text, "s3://"))
      ensures r.Ok? && r.value.Direct? ==> source.value.Text? && r.value.uri == source.value.text
      ensures r.Ok? && r.value.Uploaded? ==>
                r.value.localPath == source.value && r.value.desiredS3Uri == TransformDataPath()
    {
      match source
      case Some(Text(uri)) =>
        if StartsWith(uri, "s3://") then Ok(Direct(uri)) else Ok(Uploaded(Text(uri), TransformDataPath()))
      case Some(Property(ref)) => Ok(Uploaded(Property(ref), TransformDataPath()))
      case _ => Err(AttributeError("startswith"))
    }

    /**
     * `parse` as a value, from the class name and the step's `model_data`
     * and `batch_data` attributes, which are read in that order.
     */
    function Translate(className: string, modelData: Attr<Param>, batchData: Attr<Param>): (r: Result<Translation>)
      ensures modelData.Missing? ==> r == Err(AttributeError("model_data"))
      ensures modelData.Assigned? && batchData.Missing? ==> r == Err(AttributeError("batch_data"))
      ensures r.Ok? <==> modelData.Assigned? && batchData.Assigned? && TransformData(batchData.value.source).Ok?
      ensures modelData.Assigned? && batchData.Assigned? && TransformData(batchData.value.source).Err? ==>
                r == Err(TransformData(batchData.value.source).error)
      ensures r.Ok? ==> r.value.model == Model(imageUri, modelData.value.source, session, role)
      ensures r.Ok? ==> r.value.modelStep == ModelStep(StepName(className), CreateArgs(r.value.model, DefaultInstanceType))
      ensures r.Ok? ==>
                && r.value.transformStep.TransformStep?
                && r.value.transformStep.name == StepName(className) + "-Transform"
                && r.value.transformStep.transformer ==
                     Transformer(ModelNameOf(StepName(className)), DefaultInstanceType, DefaultInstanceCount,
                                 TransformOutputPath())
                && r.value.transformStep.data == TransformData(batchData.value.source).value
    {
      match modelData
      case Missing => Err(AttributeError("model_data"))
      case Assigned(modelParam) =>
        var model := Model(imageUri, modelParam.source, session, role);
        var name := StepName(className);
        var modelStep := ModelStep(name, CreateArgs(model, DefaultInstanceType));
        var transformer := Transformer(ModelNameOf(name), DefaultInstanceType, DefaultInstanceCount, TransformOutputPath());
        match batchData
        case Missing => Err(AttributeError("batch_data"))
        case Assigned(batchParam) =>
          match TransformData(batchParam.source)
          case Err(e) => Err(e)
          case Ok(data) =>
            Ok(Translation(model, modelStep, TransformStep(name + "-Transform", transformer, data)))
    }

    /**
     * `parse(step)`: records the model and both steps on the step and
     * returns the pair; `parsed_step` is left as it was. When the parse
     * raises, the step is unchanged.
     */
    method Parse(step: BatchTransformFacadeStep) returns (r: Result<(ProviderStep, ProviderStep)>)
      modifies step
      ensures r.Ok? <==> Translate(step.className, step.modelData, step.batchData).Ok?
      ensures r.Ok? ==>
                var t := Translate(step.className, step.modelData, step.batchData).value;
                && r.value == (t.modelStep, t.transformStep)
                && step.model == BuiltModel(t.model)
                && step.parsedModelStep == Some(t.modelStep)
                && step.parsedTransformStep == Some(t.transformStep)
      ensures r.Err? ==> r.error == Translate(step.className, step.modelData, step.batchData).error
      ensures r.Err? ==> && step.model == old(step.model)
                         && step.parsedModelStep == old(step.parsedModelStep)
                         && step.parsedTransformStep == old(step.parsedTransformStep)
      ensures step.parsedStep == old(step.parsedStep) && step.data == old(step.data)
      ensures step.modelData == old(step.modelData) && step.batchData == old(step.batchData)
    {
      var t := Translate(step.className, step.modelData, step.batchData);
      match t
      case Err(e) =>
        r := Err(e);
      case Ok(translation) =>
        step.model := BuiltModel(translation.model);
        step.parsedModelStep := Some(translation.modelStep);
        step.parsedTransformStep := Some(translation.transformStep);
        r := Ok((translation.modelStep, translation.transformStep));
    }
  }

  /** Every S3 location the parser derives from an `s3://` base stays on S3. */
  lemma {:induction false} DerivedPathsStayOnS3(parser: BatchTransformStepParser)
    requires StartsWith(parser.baseS3Path, "s3://")
    ensures StartsWith(parser.TransformOutputPath(), "s3://")
    ensures StartsWith(parser.TransformDataPath(), "s3://")
  {
    PathsExtendBase(parser.baseS3Path, "output");
    PathsExtendBase(parser.baseS3Path, "data");
  }

  lemma PathsExtendBase(base: string, leaf: string)
    requires StartsWith(base, "s3://")
    ensures StartsWith(JoinPath(JoinPath(base, "transform"), leaf), "s3://")
  {
    assert JoinPath(JoinPath(base, "transform"), leaf)[..5] == base[..5];
  }
}
