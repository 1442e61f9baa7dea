/**
 * `BatchTransformFacadeStep` (`batch_transform_step.py`): a batch-inference
 * stage over a trained model and a batch of data, both given as `Param`s.
 */
module BatchTransform {
  import opened PyBuiltins
  import opened Sdk
  import opened Facade

  /**
   * What the step's `model` attribute holds: the `Param` given to the
   * constructor, until a parse replaces it with the `sagemaker.Model` it
   * built.
   */
  datatype ModelSlot = ModelParam(param: Param) | BuiltModel(model: Model)

  class BatchTransformFacadeStep {
    /** `type(self).__name__` */
    const className: string
    var parsedStep: Option<ProviderStep>
    var model: ModelSlot
    var data: Param
    var parsedModelStep: Option<ProviderStep>
    var parsedTransformStep: Option<ProviderStep>
    /**
     * `self.model_data` and `self.batch_data`, which
     * `batch_transform_step_parser.py` reads. This class never assigns
     * them (it stores `model` and `data`).
     */
    var modelData: Attr<Param>
    var batchData: Attr<Param>

    /** `__init__(model, data)`, after `FacadeStep.__init__` sets `parsed_step` to `None`. */
    constructor (className: string, model: Param, data: Param)
      ensures this.className == className
      ensures parsedStep.None?
      ensures this.model == ModelParam(model) && this.data == data
      ensures parsedModelStep.None? && parsedTransformStep.None?
      ensures modelData.Missing? && batchData.Missing?
    {
      this.className := className;
      parsedStep := None;
      this.model := ModelParam(model);
      this.data := data;
      parsedModelStep := None;
      parsedTransformStep := None;
      modelData := Missing;
      batchData := Missing;
    }

    function Name(): string {
      StepName(className)
    }
  }

  /** The class itself is named `BatchTransform` in the pipeline. */
  lemma BatchTransformStepName()
    ensures StepName("BatchTransformFacadeStep") == "BatchTransform"
  {
    StepNameStripsSuffix("BatchTransform");
  }
}
