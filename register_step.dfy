/**
 * `RegisterFacadeStep` (`register_step.py`): registers a model in a model
 * package group. Subclasses override `build_metrics` to supply the model
 * metrics; the base class supplies none.
 */
module Register {
  import opened PyBuiltins
  import opened Sdk
  import opened Facade
  import Processing
  import Training
  import BatchTransform

  /** A facade step of any kind, as held in the `steps` mapping. */
  datatype StepRef =
    | ProcessingRef(processing: Processing.ProcessingFacadeStep)
    | TrainingRef(training: Training.TrainingFacadeStep)
    | BatchTransformRef(batchTransform: BatchTransform.BatchTransformFacadeStep)
    | RegisterRef(register: RegisterFacadeStep)

  /**
   * Which `build_metrics` the concrete class has: the base one, or an
   * override, given by what calling it does (return a mapping or `None`,
   * or raise). The outcome is fixed when the step is built; an override
   * whose result depends on other steps' state at parse time is not
   * modelled.
   */
  datatype MetricsHook = BaseBuildMetrics | OverriddenBuildMetrics(result: Result<Option<Metrics>>)

  class RegisterFacadeStep {
    /** `type(self).__name__` */
    const className: string
    const metricsHook: MetricsHook
    var parsedStep: Option<ProviderStep>
    /** `model.source` of the `Param` given to the constructor, not the `Param` itself. */
    var model: Option<Source>
    var steps: map<string, StepRef>
    var groupName: string
    var approvalStatus: string
    var contentType: string
    var responseType: string

    /** `__init__(model, steps, group_name, approval_status, content_type, response_type)` */
    constructor (className: string, metricsHook: MetricsHook, model: Param, steps: map<string, StepRef>,
                 groupName: string, approvalStatus: string, contentType: string, responseType: string)
      ensures this.className == className && this.metricsHook == metricsHook
      ensures parsedStep.None?
      ensures this.model == model.source
      ensures this.steps == steps && this.groupName == groupName && this.approvalStatus == approvalStatus
      ensures this.contentType == contentType && this.responseType == responseType
    {
      this.className := className;
      this.metricsHook := metricsHook;
      parsedStep := None;
      this.model := model.source;
      this.steps := steps;
      this.groupName := groupName;
      this.approvalStatus := approvalStatus;
      this.contentType := contentType;
      this.responseType := responseType;
    }

    function Name(): string {
      StepName(className)
    }

    /** `build_metrics()`: `None` in the base class. */
    function BuildMetrics(): (r: Result<Option<Metrics>>)
      ensures metricsHook.BaseBuildMetrics? ==> r == Ok(None)
      ensures metricsHook.OverriddenBuildMetrics? ==> r == metricsHook.result
    {
      match metricsHook
      case BaseBuildMetrics => Ok(None)
      case OverriddenBuildMetrics(result) => result
    }
  }
}
