/**
 * The package root: the `Param` record, its `PropertyParam` marker, the step
 * name every facade step derives from its class name, and the default
 * instance settings.
 */
module Facade {
  import opened PyBuiltins
  import opened Sdk

  /**
   * A named artifact flowing between steps. Every field defaults to `None`.
   * `PropertyParam` is the same record marked as an output whose content is
   * also published as a property file; it adds no field.
   */
  datatype Param =
    | Param(name: Option<string> := None, source: Option<Source> := None,
            destination: Option<string> := None, contentType: Option<string> := None)
    | PropertyParam(name: Option<string> := None, source: Option<Source> := None,
                    destination: Option<string> := None, contentType: Option<string> := None)

  const DefaultInstanceType: string := "ml.m5.xlarge"
  const DefaultInstanceCount: int := 1

  /** `Param()` with no arguments. */
  function EmptyParam(): (p: Param)
    ensures p.Param?
    ensures p.name.None? && p.source.None? && p.destination.None? && p.contentType.None?
  {
    Param()
  }

  /** The plain `Param` carrying the same fields as `p`: the marker is all a `PropertyParam` adds. */
  function Unmarked(p: Param): (r: Param)
    ensures r.Param?
    ensures r.name == p.name && r.source == p.source
    ensures r.destination == p.destination && r.contentType == p.contentType
    ensures p.Param? ==> r == p
  {
    Param(p.name, p.source, p.destination, p.contentType)
  }

  /**
   * `FacadeStep.name()`: the class name without a trailing `FacadeStep`
   * (10 characters), or the class name itself when it has no such suffix.
   */
  function StepName(className: string): (r: string)
    ensures EndsWith(className, "FacadeStep") ==> r + "FacadeStep" == className
    ensures !EndsWith(className, "FacadeStep") ==> r == className
  {
    if EndsWith(className, "FacadeStep") then DropLast(className, 10) else className
  }

  /** Appending `FacadeStep` to a name and deriving the step name gives the name back. */
  lemma StepNameStripsSuffix(stem: string)
    ensures StepName(stem + "FacadeStep") == stem
  {
    var c := stem + "FacadeStep";
    assert c[|c| - 10..] == "FacadeStep";
    assert StepName(c) + "FacadeStep" == c;
  }

  /** A class named exactly `FacadeStep` has the empty step name. */
  lemma BareFacadeStepName()
    ensures StepName("FacadeStep") == ""
  {
    StepNameStripsSuffix("");
  }
}
