/**
 * `RegisterStepParser` (`register_step_parser.py`): turns a
 * `RegisterFacadeStep` into a SageMaker `ModelStep` wrapping
 * `model.register(...)`, with the step's single content type and response
 * type, its group and approval status, and the mapping `build_metrics`
 * returns spread in as further keyword arguments.
 */
module RegisterParsing {
  import opened PyBuiltins
  import opened Sdk
  import opened Facade
  import opened Register

  /** The keyword arguments `parse` passes to `model.register` by name. */
  const ExplicitKeywords: set<string> := {"content_types", "response_types", "model_package_group_name", "approval_status"}

  /**
   * `model.register(content_types=[…], response_types=[…], …, **metrics)`.
   * The step's `model` must be a `sagemaker.Model` (anything else, `None`
   * included, has no `register`); `**None` raises `TypeError`, and so does a
   * metrics key that repeats one of the explicit keywords.
   */
  function RegisterRequest(model: Option<Source>, contentType: string, responseType: string, groupName: string,
                           approvalStatus: string, metrics: Option<Metrics>): (r: Result<RegisterArgs>)
    ensures r.Ok? <==> && model.Some? && model.value.ModelObject?
                       && metrics.Some? && metrics.value.Keys !! ExplicitKeywords
    ensures !(model.Some? && model.value.ModelObject?) ==> r == Err(AttributeError("register"))
    ensures model.Some? && model.value.ModelObject? && metrics.None? ==> r.Err? && r.error.TypeError?
    ensures r.Ok? ==> r.value.model == model.value.model
    ensures r.Ok? ==> r.value.contentTypes == [contentType] && r.value.responseTypes == [responseType]
    ensures r.Ok? ==> r.value.modelPackageGroupName == groupName && r.value.approvalStatus == approvalStatus
    ensures r.Ok? ==> r.value.metrics == metrics.value
  {
    if !(model.Some? && model.value.ModelObject?) then Err(AttributeError("register"))
    else match metrics
      case None => Err(TypeError("argument after ** must be a mapping, not NoneType"))
      case Some(extra) =>
        if extra.Keys !! ExplicitKeywords then
          Ok(RegisterArgs(model.value.model, [contentType], [responseType], groupName, approvalStatus, extra))
        else
          Err(TypeError("got multiple values for keyword argument"))
  }

  /** A plain `RegisterFacadeStep` keeps the base `build_metrics`, so it can never be parsed. */
  lemma BaseRegisterStepFails(model: Option<Source>, contentType: string, responseType: string, groupName: string,
                              approvalStatus: string)
    ensures RegisterRequest(model, contentType, responseType, groupName, approvalStatus, None).Err?
  {
  }

  /**
   * The request `parse` builds once `build_metrics()` has run: whatever
   * that call raises propagates before `model.register` is reached.
   */
  function ParseRequest(model: Option<Source>, contentType: string, responseType: string, groupName: string,
                        approvalStatus: string, builtMetrics: Result<Option<Metrics>>): (r: Result<RegisterArgs>)
    ensures builtMetrics.Err? ==> r == Err(builtMetrics.error)
    ensures builtMetrics.Ok? ==>
              r == RegisterRequest(model, contentType, responseType, groupName, approvalStatus, builtMetrics.value)
  {
    match builtMetrics
    case Err(e) => Err(e)
    case Ok(metrics) => RegisterRequest(model, contentType, responseType, groupName, approvalStatus, metrics)
  }

  datatype RegisterStepParser = RegisterStepParser
  {
    /** `parse(step)`: on success `parsed_step` is the `ModelStep` named after the step, and is returned. */
    method Parse(step: RegisterFacadeStep) returns (r: Result<ProviderStep>)
      modifies step
      ensures var request := ParseRequest(step.model, step.contentType, step.responseType, step.groupName,
                                             step.approvalStatus, step.BuildMetrics());
              && (r.Ok? <==> request.Ok?)
              && (r.Err? ==> r.error == request.error)
              && (r.Ok? ==> r.value == ModelStep(step.Name(), RegisterStepArgs(request.value)))
      ensures r.Ok? ==> step.parsedStep == Some(r.value)
      ensures r.Err? ==> step.parsedStep == old(step.parsedStep)
      ensures step.model == old(step.model) && step.steps == old(step.steps)
      ensures step.groupName == old(step.groupName) && step.approvalStatus == old(step.approvalStatus)
      ensures step.contentType == old(step.contentType) && step.responseType == old(step.responseType)
    {
      var request := ParseRequest(step.model, step.contentType, step.responseType, step.groupName,
                                     step.approvalStatus, step.BuildMetrics());
      match request
      case Err(e) =>
        r := Err(e);
      case Ok(args) =>
        r := Ok(ModelStep(step.Name(), RegisterStepArgs(args)));
        step.parsedStep := Some(r.value);
    }
  }
}
