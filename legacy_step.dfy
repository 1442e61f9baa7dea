/**
 * The older step base class (`step.py`): its own three-field `Param`, the
 * container mount directories as class constants, the step name derived
 * from a trailing `Step`, and the CSV paths a step reads and writes inside
 * the processing container.
 */
module LegacySteps {
  import opened PyBuiltins

  /** The older `Param`: name, source and destination, each defaulting to `None`. */
  datatype Param = Param(name: Option<string> := None, source: Option<string> := None, destination: Option<string> := None)

  const CodeDir: string := "/opt/ml/processing/input/code"
  const InputDir: string := "/opt/ml/processing/input"
  const OutputDir: string := "/opt/ml/processing/output"

  /** `Param()` with no arguments. */
  function EmptyParam(): (p: Param)
    ensures p.name.None? && p.source.None? && p.destination.None?
  {
    Param()
  }

  /**
   * `Step.name()`: the class name without a trailing `Step` (4 characters),
   * or the class name itself when it has no such suffix.
   */
  function StepName(className: string): (r: string)
    ensures EndsWith(className, "Step") ==> r + "Step" == className
    ensures !EndsWith(className, "Step") ==> r == className
  {
    if EndsWith(className, "Step") then DropLast(className, 4) else className
  }

  /** The base class's `inputs()`; subclasses override it. */
  function BaseInputs(): (r: seq<Param>)
    ensures |r| == 0
  {
    []
  }

  /** The base class's `outputs()`; subclasses override it. */
  function BaseOutputs(): (r: seq<Param>)
    ensures |r| == 0
  {
    []
  }

  /** `[i.source for i in inputs if i.name == input_name]` */
  function MatchingSources(inputs: seq<Param>, inputName: string): seq<Option<string>> {
    if inputs == [] then []
    else (if inputs[0].name == Some(inputName) then [inputs[0].source] else [])
         + MatchingSources(inputs[1..], inputName)
  }

  /** The position of the first input named `inputName`, if any. */
  function FirstNamed(inputs: seq<Param>, inputName: string): (k: Option<nat>)
    ensures k.Some? ==> k.value < |inputs| && inputs[k.value].name == Some(inputName)
    ensures k.Some? ==> forall j :: 0 <= j < k.value ==> inputs[j].name != Some(inputName)
    ensures k.None? ==> forall j :: 0 <= j < |inputs| ==> inputs[j].name != Some(inputName)
  {
    if inputs == [] then None
    else if inputs[0].name == Some(inputName) then Some(0)
    else match FirstNamed(inputs[1..], inputName)
      case None => None
      case Some(k) => Some(k + 1)
  }

  /** The filtered list is non-empty exactly when some input has the name, and starts with the first one's source. */
  lemma {:induction false} MatchingSourcesStartAtFirst(inputs: seq<Param>, inputName: string)
    ensures |MatchingSources(inputs, inputName)| > 0 <==> FirstNamed(inputs, inputName).Some?
    ensures FirstNamed(inputs, inputName).Some? ==>
              MatchingSources(inputs, inputName)[0] == inputs[FirstNamed(inputs, inputName).value].source
  {
    if inputs != [] && inputs[0].name != Some(inputName) {
      MatchingSourcesStartAtFirst(inputs[1..], inputName);
    }
  }

  /**
   * The path `read_input_csv(input_name)` reads, given the list `inputs()`
   * returns. It takes the FIRST input with that name and keeps the file name
   * of its source; with no such input the `[0]` raises `IndexError`, and a
   * `None` source raises `AttributeError` on `.split`.
   */
  function ReadInputCsvPath(inputs: seq<Param>, inputName: string): (r: Result<string>)
    ensures FirstNamed(inputs, inputName).None? ==> r.Err? && r.error.IndexError?
    ensures FirstNamed(inputs, inputName).Some? ==>
              var source := inputs[FirstNamed(inputs, inputName).value].source;
              var dir := JoinPath(InputDir, inputName) + "/";
              && (source.None? ==> r == Err(AttributeError("split")))
              && (source.Some? ==> r.Ok? && StartsWith(r.value, dir)
                                   && r.value[|dir|..] == LastSegment(source.value)
                                   && LastSegment(r.value) == LastSegment(source.value))
  {
    MatchingSourcesStartAtFirst(inputs, inputName);
    var sources := MatchingSources(inputs, inputName);
    if |sources| == 0 then Err(IndexError("list index out of range"))
    else match sources[0]
      case None => Err(AttributeError("split"))
      case Some(source) =>
        var fileName := LastSegment(source);
        LastSegmentOfJoin(JoinPath(InputDir, inputName), fileName);
        Ok(JoinPath(JoinPath(InputDir, inputName), fileName))
  }

  /** A step that keeps the base `inputs()` can never read an input CSV. */
  lemma BaseReadInputCsvFails(inputName: string)
    ensures ReadInputCsvPath(BaseInputs(), inputName).Err?
  {
  }

  /**
   * The path `write_output_csv(output_name, df, output_file_name)` writes:
   * inside `output_dir/<output_name>/`, the file name given when it is
   * truthy, and `<output_name>.csv` otherwise. A file name without `/` is
   * what splitting the path on `/` gives back.
   */
  function WriteOutputCsvPath(outputName: string, outputFileName: Option<string>): (r: string)
    ensures StartsWith(r, JoinPath(OutputDir, outputName) + "/")
    ensures Truthy(outputFileName) ==> r[|OutputDir| + |outputName| + 2..] == outputFileName.value
    ensures !Truthy(outputFileName) ==> r[|OutputDir| + |outputName| + 2..] == outputName + ".csv"
    ensures Truthy(outputFileName) && '/' !in outputFileName.value ==> LastSegment(r) == outputFileName.value
    ensures !Truthy(outputFileName) && '/' !in outputName ==> LastSegment(r) == outputName + ".csv"
  {
    var fileName := if Truthy(outputFileName) then outputFileName.value else outputName + ".csv";
    var dir := JoinPath(OutputDir, outputName);
    if '/' !in fileName then
      LastSegmentOfJoin(dir, fileName);
      JoinPath(dir, fileName)
    else
      JoinPath(dir, fileName)
  }
}
