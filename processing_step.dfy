/**
 * `ProcessingFacadeStep` (`processing_step.py`): a processing stage declared
 * by its input and output `Param`s. The parser fills in the mount
 * directories and `parsedStep`; the step itself only derives paths and
 * hands out its outputs as `Param`s for later steps.
 */
module Processing {
  import opened PyBuiltins
  import opened Sdk
  import opened Facade

  /**
   * `get_output_value_as_param` on a step whose `parsed_step` is given: a
   * `Param` named `name` whose source is the S3 URI of output `outputName`
   * of that step. An unparsed step (`parsed_step` is `None`) raises
   * `AttributeError` on `.properties`.
   */
  function OutputValueAsParam(parsedStep: Option<ProviderStep>, name: string, outputName: string,
                              contentType: Option<string>): (r: Result<Param>)
    ensures r.Ok? <==> parsedStep.Some?
    ensures parsedStep.None? ==> r == Err(AttributeError("properties"))
    ensures r.Ok? ==> r.value.Param? && r.value.name == Some(name) && r.value.contentType == contentType
    ensures r.Ok? ==> r.value.destination.None?
    ensures r.Ok? ==> r.value.source == Some(Property(ProcessingOutputS3Uri(parsedStep.value.name, outputName)))
  {
    match parsedStep
    case None => Err(AttributeError("properties"))
    case Some(step) =>
      Ok(Param(name := Some(name), source := Some(Property(ProcessingOutputS3Uri(step.name, outputName))),
               contentType := contentType))
  }

  /** The file a step writes when no truthy file name is given. */
  function DefaultCsvName(outputName: string): string {
    outputName + ".csv"
  }

  class ProcessingFacadeStep {
    /** `type(self).__name__`: the concrete subclass. */
    const className: string
    var scriptPath: Option<string>
    var parsedStep: Option<ProviderStep>
    var codeDir: Option<string>
    var inputDir: Option<string>
    var outputDir: Option<string>
    var inputs: Option<seq<Param>>
    var outputs: Option<seq<Param>>

    /** `__init__(inputs=None, outputs=None)`: everything else starts as `None`. */
    constructor (className: string, inputs: Option<seq<Param>>, outputs: Option<seq<Param>>)
      ensures this.className == className
      ensures scriptPath.None? && parsedStep.None?
      ensures codeDir.None? && inputDir.None? && outputDir.None?
      ensures this.inputs == inputs && this.outputs == outputs
    {
      this.className := className;
      scriptPath := None;
      parsedStep := None;
      codeDir := None;
      inputDir := None;
      outputDir := None;
      this.inputs := inputs;
      this.outputs := outputs;
    }

    function Name(): string {
      StepName(className)
    }

    /** `get_output_value_as_param(name, output_name, content_type=None)` */
    function GetOutputValueAsParam(name: string, outputName: string, contentType: Option<string>): (r: Result<Param>)
      reads this
      ensures r.Ok? <==> parsedStep.Some?
      ensures parsedStep.None? ==> r == Err(AttributeError("properties"))
      ensures r.Ok? ==> r.value.Param? && r.value.name == Some(name) && r.value.contentType == contentType
      ensures r.Ok? ==> r.value.destination.None?
      ensures r.Ok? ==> r.value.source == Some(Property(ProcessingOutputS3Uri(parsedStep.value.name, outputName)))
    {
      OutputValueAsParam(parsedStep, name, outputName, contentType)
    }

    /**
     * The path `read_input_csv(input_name, file_name)` reads. Before the
     * step is parsed `input_dir` is `None` and the f-string yields a path
     * under `None/`.
     */
    function ReadInputCsvPath(inputName: string, fileName: string): (r: string)
      reads this
      ensures StartsWith(r, Format(inputDir) + "/" + inputName + "/")
      ensures r[|Format(inputDir)| + |inputName| + 2..] == fileName
      ensures '/' !in fileName ==> LastSegment(r) == fileName
    {
      var dir := JoinPath(Format(inputDir), inputName);
      if '/' !in fileName then
        LastSegmentOfJoin(dir, fileName);
        JoinPath(dir, fileName)
      else
        JoinPath(dir, fileName)
    }

    /**
     * The path `write_output_csv(output_name, df, output_file_name=None)`
     * writes: `<output_name>.csv` unless a truthy file name is given, which
     * is used verbatim.
     */
    function WriteOutputCsvPath(outputName: string, outputFileName: Option<string>): (r: string)
      reads this
      ensures StartsWith(r, Format(outputDir) + "/" + outputName + "/")
      ensures Truthy(outputFileName) ==> r[|Format(outputDir)| + |outputName| + 2..] == outputFileName.value
      ensures !Truthy(outputFileName) ==> r[|Format(outputDir)| + |outputName| + 2..] == DefaultCsvName(outputName)
      ensures Truthy(outputFileName) && '/' !in outputFileName.value ==> LastSegment(r) == outputFileName.value
      ensures !Truthy(outputFileName) && '/' !in outputName ==> LastSegment(r) == DefaultCsvName(outputName)
    {
      var fileName := if Truthy(outputFileName) then outputFileName.value else DefaultCsvName(outputName);
      var dir := JoinPath(Format(outputDir), outputName);
      if '/' !in fileName then
        LastSegmentOfJoin(dir, fileName);
        JoinPath(dir, fileName)
      else
        JoinPath(dir, fileName)
    }
  }
}
