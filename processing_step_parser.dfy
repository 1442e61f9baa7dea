/**
 * `ProcessingParser` (`processing_step_parser.py`): turns a
 * `ProcessingFacadeStep` into a SageMaker `ProcessingStep`. It fixes the
 * three mount directories on the step, mounts the facade library and the
 * project root as two leading inputs, binds each declared input and output
 * (falling back to `input_{i}` / `output_{i}` for unnamed ones) and records
 * the resulting step on the facade step.
 */
module ProcessingParsing {
  import opened PyBuiltins
  import opened Sdk
  import opened Facade
  import opened Processing

  const CodeDir: string := "/opt/ml/processing/input/code"
  const InputDir: string := "/opt/ml/processing/input"
  const OutputDir: string := "/opt/ml/processing/output"

  /** `item.name if item.name else f'{prefix}{index}'` */
  function BindingName(prefix: string, index: nat, name: Option<string>): string {
    if Truthy(name) then name.value else prefix + NatToString(index)
  }

  /** Positional fallback names never collide with one another. */
  lemma FallbackNamesDistinct(prefix: string, i: nat, j: nat)
    requires i != j
    ensures prefix + NatToString(i) != prefix + NatToString(j)
  {
    if prefix + NatToString(i) == prefix + NatToString(j) {
      assert NatToString(i) == (prefix + NatToString(i))[|prefix|..];
      NatToStringInjective(i, j);
    }
  }

  /**
   * The bindings for the declared inputs, in declaration order. The
   * destination uses the raw name even when the fallback name was chosen,
   * so an unnamed input is mounted under `.../None`.
   */
  function DeclaredInputs(declared: seq<Param>): (r: seq<ProcessingInput>)
    ensures |r| == |declared|
    ensures forall i :: 0 <= i < |declared| ==>
              && r[i].inputName == BindingName("input_", i, declared[i].name)
              && r[i].source == declared[i].source
              && r[i].destination == JoinPath(InputDir, Format(declared[i].name))
  {
    seq(|declared|, i requires 0 <= i < |declared| =>
      ProcessingInput(BindingName("input_", i, declared[i].name), declared[i].source,
                      JoinPath(InputDir, Format(declared[i].name))))
  }

  /** The bindings for the declared outputs, in declaration order. */
  function DeclaredOutputs(declared: seq<Param>): (r: seq<ProcessingOutput>)
    ensures |r| == |declared|
    ensures forall i :: 0 <= i < |declared| ==>
              && r[i].outputName == BindingName("output_", i, declared[i].name)
              && r[i].source == JoinPath(OutputDir, Format(declared[i].name))
  {
    seq(|declared|, i requires 0 <= i < |declared| =>
      ProcessingOutput(BindingName("output_", i, declared[i].name), JoinPath(OutputDir, Format(declared[i].name))))
  }

  /** Two unnamed declared bindings never share a name. */
  lemma UnnamedInputsDistinct(declared: seq<Param>, i: nat, j: nat)
    requires i < |declared| && j < |declared| && i != j
    requires !Truthy(declared[i].name) && !Truthy(declared[j].name)
    ensures DeclaredInputs(declared)[i].inputName != DeclaredInputs(declared)[j].inputName
  {
    FallbackNamesDistinct("input_", i, j);
  }

  /** Two unnamed declared outputs never share a name. */
  lemma UnnamedOutputsDistinct(declared: seq<Param>, i: nat, j: nat)
    requires i < |declared| && j < |declared| && i != j
    requires !Truthy(declared[i].name) && !Truthy(declared[j].name)
    ensures DeclaredOutputs(declared)[i].outputName != DeclaredOutputs(declared)[j].outputName
  {
    FallbackNamesDistinct("output_", i, j);
  }

  /**
   * The generated entry-point script: `<package dir>/export/<step name>.py`.
   * Writing it (a pickled copy of the step in a template) is file I/O.
   */
  function ExportPath(libPath: string, stepName: string): string {
    JoinPath(JoinPath(libPath, "export"), stepName + ".py")
  }

  /**
   * The parser's configuration. `libPath` is `LIB_PATH`, the directory the
   * package is installed in.
   */
  datatype ProcessingParser = ProcessingParser(rootDir: string, role: string, session: SessionRef, libPath: string)
  {
    /**
     * `default_inputs(code_dir)`: the package itself as `lib` and the
     * project root as `root`, each mounted in `code_dir` under its own
     * folder name.
     */
    function DefaultInputs(codeDir: string): (r: seq<ProcessingInput>)
      ensures |r| == 2
      ensures r[0].inputName == "lib" && r[0].source == Some(Text(libPath))
      ensures r[1].inputName == "root" && r[1].source == Some(Text(rootDir))
      ensures forall i :: 0 <= i < 2 ==>
                && StartsWith(r[i].destination, codeDir + "/")
                && r[i].destination[|codeDir| + 1..] == LastSegment(r[i].source.value.text)
                && LastSegment(r[i].destination) == LastSegment(r[i].source.value.text)
    {
      LastSegmentOfJoin(codeDir, LastSegment(libPath));
      LastSegmentOfJoin(codeDir, LastSegment(rootDir));
      [ ProcessingInput("lib", Some(Text(libPath)), JoinPath(codeDir, LastSegment(libPath))),
        ProcessingInput("root", Some(Text(rootDir)), JoinPath(codeDir, LastSegment(rootDir))) ]
    }

    /** `get_processor()` */
    function Processor(): SklearnProcessor {
      SklearnProcessor("1.2-1", "ml.m5.xlarge", 1, role, session)
    }

    /** Every input binding of a parse: the two default inputs, then the declared ones. */
    function StepInputs(declared: seq<Param>): (r: seq<ProcessingInput>)
      ensures |r| == 2 + |declared|
      ensures r[0].inputName == "lib" && r[1].inputName == "root"
      ensures r[..2] == DefaultInputs(CodeDir)
      ensures r[2..] == DeclaredInputs(declared)
    {
      DefaultInputs(CodeDir) + DeclaredInputs(declared)
    }

    /**
     * `parse` as a value: the step it builds from the class name and the
     * step's `inputs` and `outputs`. Iterating an `inputs` or `outputs`
     * that is `None` raises `TypeError`.
     */
    function Translate(className: string, inputs: Option<seq<Param>>, outputs: Option<seq<Param>>): (r: Result<ProviderStep>)
      ensures r.Ok? <==> inputs.Some? && outputs.Some?
      ensures r.Err? ==> r.error.TypeError?
      ensures r.Ok? ==> r.value.ProcessingStep? && r.value.name == StepName(className)
      ensures r.Ok? ==> |r.value.run.inputs| == 2 + |inputs.value| && |r.value.run.outputs| == |outputs.value|
      ensures r.Ok? ==> r.value.run.inputs == StepInputs(inputs.value)
      ensures r.Ok? ==> r.value.run.outputs == DeclaredOutputs(outputs.value)
      ensures r.Ok? ==> r.value.run.processor == Processor()
      ensures r.Ok? ==> r.value.run.code == ExportPath(libPath, StepName(className))
    {
      match inputs
      case None => Err(TypeError("'NoneType' object is not iterable"))
      case Some(ins) =>
        match outputs
        case None => Err(TypeError("'NoneType' object is not iterable"))
        case Some(outs) =>
          var name := StepName(className);
          Ok(ProcessingStep(name, RunArgs(Processor(), StepInputs(ins), DeclaredOutputs(outs), ExportPath(libPath, name))))
    }

    /**
     * `parse(step)`: the mount directories are assigned first, so they are
     * set even when the parse then raises; on success `parsed_step` is the
     * step returned.
     */
    method Parse(step: ProcessingFacadeStep) returns (r: Result<ProviderStep>)
      modifies step
      ensures step.codeDir == Some(CodeDir) && step.inputDir == Some(InputDir) && step.outputDir == Some(OutputDir)
      ensures r == Translate(step.className, step.inputs, step.outputs)
      ensures r.Ok? ==> step.parsedStep == Some(r.value)
      ensures r.Err? ==> step.parsedStep == old(step.parsedStep)
      ensures step.inputs == old(step.inputs) && step.outputs == old(step.outputs)
      ensures step.scriptPath == old(step.scriptPath)
    {
      step.codeDir := Some(CodeDir);
      step.inputDir := Some(InputDir);
      step.outputDir := Some(OutputDir);
      r := Translate(step.className, step.inputs, step.outputs);
      if r.Ok? {
        step.parsedStep := Some(r.value);
      }
    }
  }
}
