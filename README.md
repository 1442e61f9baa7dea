# sagemaker-pipeline-facade, modelled in Dafny

The facade lets a caller describe a SageMaker pipeline as simple step
objects (processing, training, batch transform, model registration) whose
inputs and outputs are `Param` records, and translates each of them into the
SDK's own step objects. This project models that translation layer:

- `py_builtins.dfy` (`PyBuiltins`): the Python behaviour the code relies on:
  `None`, raised exceptions as `Result`, attributes never assigned (`Attr`),
  truthiness of optional strings, f-string rendering of `None` as `"None"`,
  `startswith`/`endswith`, `s.split('/')[-1]`, `str(n)` and `s[0:-k]`.
- `sdk.dfy` (`Sdk`): the SDK objects, as plain records of the arguments the
  facade passes (`ProcessingInput`, `Estimator`, `Transformer`, the four step
  kinds, ...). `.properties` expressions are symbolic references to the step
  they are read from, by step name.
- one module per source file: `Facade` (`__init__.py`), `LegacySteps`
  (`step.py`), `Processing`, `ProcessingParsing`, `Training`,
  `TrainingParsing`, `BatchTransform`, `BatchTransformParsing`, `Register`,
  `RegisterParsing` and `FacadePipeline` (`pipeline.py`).

Facade steps are classes, because the parsers update them in place
(`parsed_step`, mount directories, the recorded model). Each parser is an
immutable datatype with a `Parse` method that updates the step. The
processing, training and batch-transform parsers compute their result with
a pure `Translate` function, which carries the properties. The register
parser does the same with the module-level functions `ParseRequest` and
`RegisterRequest`. `Pipeline` is a class whose `steps` list only ever grows
at the end.

The source files come from different revisions and disagree. Every file
except `pipeline.py` is modelled as written. `pipeline.py` is reconciled in
one place, described first below:

- `pipeline.py` imports `ProcessingStepParser`, but `processing_step_parser.py`
  defines `ProcessingParser`, whose constructor has no `image_uri` parameter.
  As written the module cannot be imported. `Pipeline.AddProcessingStep`
  does not follow this: it runs `ProcessingParser` without `image_uri`, the
  only reading under which the method can run.
- `training_step_parser.py` reads `step.hyper_params`, which
  `TrainingFacadeStep` never assigns. The class has the attribute as a field
  (`hyperParams`) that its constructor leaves `Missing`, so the parser and
  `Pipeline.AddTrainingStep` raise `AttributeError` on every step built by the
  constructor (shown by `FacadePipeline.AddInCallOrder`).
- `batch_transform_step_parser.py` reads `step.model_data` and
  `step.batch_data`, while `BatchTransformFacadeStep` stores `model` and
  `data`. The two attributes are `Missing` fields of the class, and the parse
  raises `AttributeError` until a caller assigns them.
- `training_step.py` has its own `parse`, with its own image lookup and
  container defaults. It is modelled beside `TrainingStepParser`, not merged
  with it.

## Model

| member | source | states |
|---|---|---|
| `PyBuiltins.LastSegment` | sagemaker_pipeline_facade/step.py:38 | `s.split('/')[-1]` is the suffix of `s` after its last `/`: it holds no `/`, ends `s`, and is preceded by `/` unless it is all of `s` |
| `PyBuiltins.LastSegmentOfJoin` | sagemaker_pipeline_facade/processing_step_parser.py:57 | splitting `dir/entry` on `/` gives back `entry` when `entry` has no `/` |
| `PyBuiltins.NatToString` | sagemaker_pipeline_facade/processing_step_parser.py:25 | `str(i)` is a non-empty string of decimal digits, one digit exactly for `i < 10` |
| `PyBuiltins.NatToStringInjective` | sagemaker_pipeline_facade/processing_step_parser.py:25 | different indices print differently |
| `PyBuiltins.DropLast` | sagemaker_pipeline_facade/pipeline.py:50 | `s[0:-k]` drops exactly the last `k` characters, and is empty when `s` is shorter than `k` |
| `Facade.EmptyParam` | sagemaker_pipeline_facade/__init__.py:6-11 | `Param()` has name, source, destination and content type all `None` |
| `Facade.Unmarked` | sagemaker_pipeline_facade/__init__.py:14-16 | a `PropertyParam` carries exactly the fields of a `Param`; only the marker differs |
| `Facade.StepName` | sagemaker_pipeline_facade/__init__.py:24-26 | with a trailing `FacadeStep`, `name() + "FacadeStep"` is the class name; without one, `name()` is the class name |
| `Facade.StepNameStripsSuffix` | sagemaker_pipeline_facade/__init__.py:24-26 | `name()` of class `XFacadeStep` is `X` |
| `Facade.BareFacadeStepName` | sagemaker_pipeline_facade/__init__.py:26 | a class named exactly `FacadeStep` has the empty name |
| `LegacySteps.EmptyParam` | sagemaker_pipeline_facade/step.py:6-10 | the older `Param()` has name, source and destination all `None` |
| `LegacySteps.BaseInputs` | sagemaker_pipeline_facade/step.py:30-31 | the base class declares no inputs |
| `LegacySteps.BaseOutputs` | sagemaker_pipeline_facade/step.py:33-34 | the base class declares no outputs |
| `LegacySteps.StepName` | sagemaker_pipeline_facade/step.py:26-28 | with a trailing `Step`, `name() + "Step"` is the class name; without one, `name()` is the class name |
| `LegacySteps.FirstNamed` | sagemaker_pipeline_facade/step.py:37 | the first input with the given name, or none when no input has it |
| `LegacySteps.MatchingSourcesStartAtFirst` | sagemaker_pipeline_facade/step.py:37 | the filtered source list is non-empty exactly when some input has the name, and starts with the first such input's source |
| `LegacySteps.ReadInputCsvPath` | sagemaker_pipeline_facade/step.py:36-42 | no input with the name raises `IndexError`; a `None` source raises `AttributeError`; otherwise the path is exactly `input_dir/<input_name>/` followed by the file name (last `/`-segment) of the FIRST matching input's source, which splitting the path gives back |
| `LegacySteps.BaseReadInputCsvFails` | sagemaker_pipeline_facade/step.py:30-41 | with the base `inputs()`, which is empty, `read_input_csv` always fails |
| `LegacySteps.WriteOutputCsvPath` | sagemaker_pipeline_facade/step.py:44-49 | the path is exactly `output_dir/<output_name>/` followed by the file name when it is truthy, else `<output_name>.csv`; a file name without `/` is its last segment |
| `Processing.OutputValueAsParam` | sagemaker_pipeline_facade/processing_step.py:28-37 | an unparsed step raises `AttributeError`; otherwise a plain `Param` with exactly the given name and content type, no destination, and as source the S3 URI of the named output of the parsed step |
| `Processing.ProcessingFacadeStep.constructor` | sagemaker_pipeline_facade/processing_step.py:10-22 | script path, parsed step and the three directories start as `None`; inputs and outputs are stored as given, `None` included |
| `Processing.ProcessingFacadeStep.GetOutputValueAsParam` | sagemaker_pipeline_facade/processing_step.py:28-37 | an unparsed step raises `AttributeError`; otherwise a plain `Param` with the given name and content type, no destination, and as source the S3 URI of the named output of the parsed step |
| `Processing.ProcessingFacadeStep.ReadInputCsvPath` | sagemaker_pipeline_facade/processing_step.py:39-43 | the path is exactly `<input_dir>/<input_name>/` (`None/…` before parsing) followed by the given file name, which is its last segment when it has no `/` |
| `Processing.ProcessingFacadeStep.WriteOutputCsvPath` | sagemaker_pipeline_facade/processing_step.py:45-53 | the path is exactly `<output_dir>/<output_name>/` followed by the file name when it is truthy, else `<output_name>.csv`; a file name without `/` is its last segment |
| `ProcessingParsing.FallbackNamesDistinct` | sagemaker_pipeline_facade/processing_step_parser.py:25 | two different positions never get the same fallback name |
| `ProcessingParsing.DeclaredInputs` | sagemaker_pipeline_facade/processing_step_parser.py:23-30 | one binding per declared input, in order; named `item.name` if truthy, else `input_{i}` with `i` counting declared inputs; source passed through; destination `input_dir/<raw name>` even for the fallback |
| `ProcessingParsing.DeclaredOutputs` | sagemaker_pipeline_facade/processing_step_parser.py:36-42 | one binding per declared output, in order; named `item.name` if truthy, else `output_{i}`; source `output_dir/<raw name>` |
| `ProcessingParsing.UnnamedInputsDistinct` | sagemaker_pipeline_facade/processing_step_parser.py:23-30 | two unnamed declared inputs get different binding names |
| `ProcessingParsing.UnnamedOutputsDistinct` | sagemaker_pipeline_facade/processing_step_parser.py:36-42 | two unnamed declared outputs get different binding names |
| `ProcessingParsing.ProcessingParser.DefaultInputs` | sagemaker_pipeline_facade/processing_step_parser.py:52-65 | exactly two inputs, `lib` from `LIB_PATH` then `root` from the root directory; each destination is exactly `code_dir/` followed by the last `/`-segment of its source |
| `ProcessingParsing.ProcessingParser.StepInputs` | sagemaker_pipeline_facade/processing_step_parser.py:22-30 | `2 + len(step.inputs)` bindings: `lib`, `root`, then the declared inputs |
| `ProcessingParsing.ProcessingParser.Translate` | sagemaker_pipeline_facade/processing_step_parser.py:17-50 | raises `TypeError` exactly when inputs or outputs are `None`; otherwise a processing step named `step.name()` with the default-plus-declared inputs, the declared outputs, the fixed processor and the exported script path |
| `ProcessingParsing.ProcessingParser.Parse` | sagemaker_pipeline_facade/processing_step_parser.py:17-50 | the three `/opt/ml/processing/...` directories are set even if the parse then raises; on success `parsed_step` is the returned step; inputs and outputs are untouched |
| `Training.ImageArgsPerModel` | sagemaker_pipeline_facade/training_step.py:30-33 | only `xgboost` is registered, as version `1.0-1`, `py3`, `ml.m5.xlarge`; any other name raises `KeyError` |
| `Training.XgboostUsesDefaultInstanceType` | sagemaker_pipeline_facade/training_step.py:31-33 | the registered image's instance type is the package default |
| `Training.InitImageArgs` | sagemaker_pipeline_facade/training_step.py:57-58 | without image args the table entry is stored (`KeyError` for an unknown model); with them the attribute is never assigned |
| `Training.InitContainerArgs` | sagemaker_pipeline_facade/training_step.py:60-61 | without container args the default (`instance_count` 1) is stored; with them the attribute is never assigned |
| `Training.ChannelOf` | sagemaker_pipeline_facade/training_step.py:84-87 | a channel carries the `Param`'s source and content type unchanged |
| `Training.Channels` | sagemaker_pipeline_facade/training_step.py:83-89 | the channel map has one key per distinct input name, `None` included |
| `Training.ChannelsLastWins` | sagemaker_pipeline_facade/training_step.py:83-89 | on duplicate names the channel comes from the last input with that name |
| `Training.ChannelsOnePerInput` | sagemaker_pipeline_facade/training_step.py:83-89 | with distinct names there are exactly as many channels as inputs |
| `Training.ImageRetrieveArgsOf` | sagemaker_pipeline_facade/training_step.py:99-106 | region, framework = model name and the three image fields; `AttributeError` when `image_args` was never assigned |
| `Training.Fit` | sagemaker_pipeline_facade/training_step.py:69-97 | an error from `get_image_args()` comes first, then a missing `container_args`; otherwise a training step named `name()` whose estimator uses the retrieved image, its instance type, the container count, `<base>/models`, the role and session, with the given hyperparameters and the channel map |
| `Training.TrainingFacadeStep.constructor` | sagemaker_pipeline_facade/training_step.py:41-61 | parsed step, models path, role, region and session start `None`; inputs and model args stored; `hyper_params` is never assigned |
| `Training.TrainingFacadeStep.GetImageArgs` | sagemaker_pipeline_facade/training_step.py:99-106 | succeeds exactly when `image_args` was assigned (else `AttributeError`), with the step's region, the model name as framework, and the version, Python version and instance type of `image_args` |
| `Training.TrainingFacadeStep.GetHyperParams` | sagemaker_pipeline_facade/training_step.py:108-109 | the model's hyperparameters, unchanged |
| `Training.TrainingFacadeStep.Parse` | sagemaker_pipeline_facade/training_step.py:63-97 | records `<base>/models`, role, region and session before anything can raise; the result is `Fit` on `get_image_args()` (with the new region) and `get_hyper_params()`; on success `parsed_step` is the returned step, on failure it is unchanged |
| `Training.NewTrainingFacadeStep` | sagemaker_pipeline_facade/training_step.py:41-61 | construction raises `KeyError` exactly when no image args are given and the model is not `xgboost`; otherwise a fresh step with `parsed_step`, `models_path`, `role`, `region` and `session` all `None`, the resolved image and container attributes, and no `hyper_params` |
| `TrainingParsing.TrainingStepParser.GetEstimator` | sagemaker_pipeline_facade/training_step_parser.py:42-50 | the pipeline's image, `DEFAULT_INSTANCE_TYPE`, `DEFAULT_INSTANCE_COUNT`, output path `<base>/models` |
| `TrainingParsing.TrainingStepParser.Translate` | sagemaker_pipeline_facade/training_step_parser.py:21-40 | raises `AttributeError` exactly when `step.hyper_params` was never assigned; otherwise a training step named `step.name()` with that estimator, those hyperparameters and the channel map |
| `TrainingParsing.TrainingStepParser.Parse` | sagemaker_pipeline_facade/training_step_parser.py:21-40 | on success `parsed_step` is the returned step; no other attribute of the step changes |
| `TrainingParsing.SameModelsPath` | sagemaker_pipeline_facade/training_step_parser.py:47 | the parser's estimator writes to the same `<base>/models` that `TrainingFacadeStep.parse` uses |
| `BatchTransform.BatchTransformFacadeStep.constructor` | sagemaker_pipeline_facade/batch_transform_step.py:5-11 | `parsed_step`, `parsed_model_step` and `parsed_transform_step` start `None`; the model and data `Param`s are stored unchanged; `model_data` and `batch_data` are never assigned |
| `BatchTransform.BatchTransformStepName` | sagemaker_pipeline_facade/batch_transform_step.py:4 | the class's step name is `BatchTransform` |
| `BatchTransformParsing.BatchTransformStepParser.TransformData` | sagemaker_pipeline_facade/batch_transform_step_parser.py:43-49 | the data is uploaded to `<base>/transform/data` if and only if its source is a property reference or text not starting with `s3://`; `s3://` text is used verbatim; `None` or a model object raises |
| `BatchTransformParsing.BatchTransformStepParser.Translate` | sagemaker_pipeline_facade/batch_transform_step_parser.py:23-63 | raises `AttributeError` when `model_data` or then `batch_data` was never assigned; otherwise a model step named `step.name()` creating the model on the default instance type, and a transform step named `step.name() + "-Transform"` with default instance settings, output `<base>/transform/output` and the chosen data |
| `BatchTransformParsing.BatchTransformStepParser.Parse` | sagemaker_pipeline_facade/batch_transform_step_parser.py:23-63 | returns the pair and records the model and both steps on the step; `parsed_step` is untouched; on failure the step is unchanged |
| `BatchTransformParsing.DerivedPathsStayOnS3` | sagemaker_pipeline_facade/batch_transform_step_parser.py:40-48 | from an `s3://` base, the output path and the upload target are `s3://` locations |
| `Register.RegisterFacadeStep.constructor` | sagemaker_pipeline_facade/register_step.py:5-17 | `parsed_step` starts `None`; `model` holds the given `Param`'s source, not the `Param`; the other arguments are stored verbatim |
| `Register.RegisterFacadeStep.BuildMetrics` | sagemaker_pipeline_facade/register_step.py:19-20 | the base `build_metrics` returns `None` |
| `RegisterParsing.RegisterRequest` | sagemaker_pipeline_facade/register_step_parser.py:11-17 | fails unless the model is a `sagemaker.Model` and the metrics are a mapping without the explicit keywords; otherwise `content_types == [content_type]`, `response_types == [response_type]`, group and approval status unchanged, metrics spread in |
| `RegisterParsing.BaseRegisterStepFails` | sagemaker_pipeline_facade/register_step_parser.py:9-17 | with the base `build_metrics` (`None`) the request always fails |
| `RegisterParsing.ParseRequest` | sagemaker_pipeline_facade/register_step_parser.py:8-17 | an exception from `build_metrics` propagates; otherwise the request above |
| `RegisterParsing.RegisterStepParser.Parse` | sagemaker_pipeline_facade/register_step_parser.py:7-20 | on success `parsed_step` is a model step named `step.name()` wrapping the request, and is returned; the other fields are untouched |
| `FacadePipeline.GetOutputValueAsParam` | sagemaker_pipeline_facade/pipeline.py:15-26 | succeeds exactly when the step is parsed; a `Param` with the given name and content type whose source is the named output of the parsed step |
| `FacadePipeline.GetTrainedModelAsParam` | sagemaker_pipeline_facade/pipeline.py:29-33 | named `model` when the name is falsy, else the given name; source is the parsed step's model artifacts; an unparsed step raises |
| `FacadePipeline.BaseS3Path` | sagemaker_pipeline_facade/pipeline.py:50-53 | `s3://<bucket>/pipelines/<name>/` followed by the timestamp without its last six characters |
| `FacadePipeline.Pipeline.constructor` | sagemaker_pipeline_facade/pipeline.py:38-54 | the settings are stored, `base_s3_path` is derived as above, and `steps` is empty |
| `FacadePipeline.Pipeline.AddProcessingStep` | sagemaker_pipeline_facade/pipeline.py:66-73 | succeeds exactly when the parse does; then `steps` grows by exactly the step's new `parsed_step` at the end, else both `steps` and the step's `parsed_step` are unchanged; the mount directories are set either way and the step's inputs, outputs and script path stay |
| `FacadePipeline.Pipeline.AddTrainingStep` | sagemaker_pipeline_facade/pipeline.py:75-83 | succeeds exactly when `TrainingStepParser` does; then `steps` grows by exactly the step's new `parsed_step` at the end, else both `steps` and the step's `parsed_step` are unchanged; no other attribute of the step changes |
| `FacadePipeline.AddInCallOrder` | sagemaker_pipeline_facade/pipeline.py:66-83 | two processing steps added in turn appear in call order after the earlier steps; a constructed training step is rejected and leaves the list alone |

## Left out

- AddProcessingStep: `pipeline.py` imports `ProcessingStepParser`, which `processing_step_parser.py` does not define, and passes it `image_uri`, which `ProcessingParser` does not accept. The model runs `ProcessingParser` without `image_uri`, so the import failure and the unexpected keyword argument are not modelled.
- TransformData: a property-reference source is assumed to answer `startswith` with `False`, as SDK pipeline variables do. It therefore takes the upload branch. What `S3Uploader` then does with it is not modelled.
- `Pipeline.execute`: upserting and starting the workflow on the service, and printing the execution, are remote calls.
- `export_processing_step`: reading the template, pickling the step and writing the script are file I/O. Only the script's path (`<package dir>/export/<step name>.py`) is modelled.
- `S3Uploader.upload`: the upload is remote I/O. The model keeps its arguments (`Uploaded(local path, desired URI)`) in place of the URI it returns.
- pandas `read_csv`/`to_csv`: file I/O. Only the paths are modelled.
- The clock: `Pipeline.__init__` reads `datetime.now(pytz.utc)`. The ISO timestamp is a constructor parameter.
- `LIB_PATH`, the package's install directory, is a parameter (`libPath`).
- SDK behaviour: `SKLearnProcessor.run`, `Estimator`, `fit`, `set_hyperparameters`, `Model.create`, `Model.register`, `Transformer`, `image_uris.retrieve`, the step constructors and `.properties` are records of their arguments. Any checks the SDK makes are not modelled, such as unknown keyword arguments from `build_metrics`.
- Property files for `PropertyParam` outputs: the parser shown here attaches none, so `PropertyParam` is only a marker.
- `build_metrics` overrides (for example `pipelines/abalone_new/register.py`): a subclass's override is given by what it returns or raises (`MetricsHook`). That outcome is fixed when the step is built, so an override whose result depends on other steps' state at parse time is not modelled. Its body depends on SDK internals.
- `Step.__init__` (legacy `script_path = None`) and the abstract `execute` methods: nothing to model.
- `sagemaker_pipeline_facade/images.py`, the driver scripts under `pipelines/`, and the dataset and evaluation code: glue, numerics and file I/O outside the facade.
- Duck typing: every argument is modelled at the type the source declares or uses. Only `Param` fields, `inputs`/`outputs` and `Param.source` may be other values (`None`, a property reference, a `Model`). Hyperparameter floats are `real`.
- Step class names: `type(self).__name__` is a constructor argument, `className`, because the concrete subclass is not known here.
- Helpers with no contract of their own. Each result is stated where it is used:
  - `ProcessingParsing.ProcessingParser.Processor` (processing_step_parser.py:67-74): in `ProcessingParser.Translate`.
  - `BatchTransformParsing.BatchTransformStepParser.TransformOutputPath` (batch_transform_step_parser.py:40): in `DerivedPathsStayOnS3` and `BatchTransformStepParser.Translate`.
  - `BatchTransformParsing.BatchTransformStepParser.TransformDataPath` (batch_transform_step_parser.py:48): in `TransformData` and `DerivedPathsStayOnS3`.
  - `LegacySteps.MatchingSources`, the comprehension at step.py:37: in `MatchingSourcesStartAtFirst` and `LegacySteps.ReadInputCsvPath`.
  - `ProcessingParsing.BindingName`, the name rule at processing_step_parser.py:25 and :38: in `DeclaredInputs`, `DeclaredOutputs` and `FallbackNamesDistinct`.
  - `ProcessingParsing.ExportPath`, the script path at processing_step_parser.py:94: in `ProcessingParser.Translate`.
  - `Training.ModelsPath`, training_step.py:64: in `TrainingFacadeStep.Parse`, `Fit`, `GetEstimator` and `SameModelsPath`.
  - `Processing.DefaultCsvName`, processing_step.py:49: in `ProcessingFacadeStep.WriteOutputCsvPath`.
