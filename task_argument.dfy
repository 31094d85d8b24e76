/**
 * The arguments of an algorithm task (test_engine_app/processing/task_argument.py):
 * `parse` decodes the message, checks it against the task schema, copies its
 * fields, asks the algorithm registry about the algorithm, and runs the
 * error-counting checks on data, model and algorithm.
 */
module TaskArgument {
  import opened Wrappers
  import opened Enums
  import opened Tally
  import opened Arguments
  import ValidationChecks
  import PluginControl

  /** The message fields `parse` reads; an absent key is NoneField. */
  datatype TaskPayload = TaskPayload(
    id: Field,
    testDataset: Field,
    algorithmId: Field,
    algorithmArgs: Field,
    mode: Field,
    apiSchema: Field,
    apiConfig: Field,
    modelFile: Field,
    modelType: Field,
    groundTruthDataset: Field,
    groundTruth: Field)

  /** The fields of a TaskArgument, in one value. */
  datatype TaskValues = TaskValues(
    id: Field,
    data: Field,
    groundTruthDataset: Field,
    groundTruth: Field,
    apiSchema: Field,
    apiConfig: Field,
    mode: Option<ModelMode>,
    model: Field,
    modelType: Option<ModelType>,
    algorithmId: Field,
    algorithmArguments: Field,
    algorithmPluginInformation: Option<PluginControl.AlgorithmInfo>)

  /** Every field None, as `__init__` leaves them. */
  const Unset := TaskValues(NoneField, NoneField, NoneField, NoneField, NoneField, NoneField, None, NoneField, None, NoneField, NoneField, None)

  /** The message `parse` returns when the payload fails the task schema. */
  const TaskSchemaFailure: string := "Failed TestEngineTask input schema validation"

  const ApiWord: string := "api"
  const ClassificationWord: string := "classification"
  const RegressionWord: string := "regression"

  /** The mode: API exactly for the text "api"; anything else, or nothing, is UPLOAD. */
  function ModeOf(f: Field): (m: ModelMode)
    ensures m == Api <==> f == StrField(ApiWord)
  {
    if f == StrField(ApiWord) then Api else Upload
  }

  /** The model type: only the exact lower-case names are recognised. */
  function ModelTypeOf(f: Field): (t: Option<ModelType>)
    ensures t == Some(Classification) <==> f == StrField(ClassificationWord)
    ensures t == Some(Regression) <==> f == StrField(RegressionWord)
  {
    if f == StrField(ClassificationWord) then Some(Classification)
    else if f == StrField(RegressionWord) then Some(Regression)
    else None
  }

  /** The fields a schema-valid payload gives, with what the registry says about its algorithm. */
  function ParsedValues(p: TaskPayload, info: Option<PluginControl.AlgorithmInfo>): TaskValues {
    TaskValues(p.id, p.testDataset, p.groundTruthDataset, p.groundTruth, p.apiSchema, p.apiConfig,
      Some(ModeOf(p.mode)), p.modelFile, ModelTypeOf(p.modelType), p.algorithmId, p.algorithmArgs, info)
  }

  /** `_validate_ground_truth`: the dataset path check, then the ground-truth column check. */
  function GroundTruthErrors(groundTruthDataset: Field, groundTruth: Field, isFile: string -> bool): (r: seq<ArgError>)
    ensures |r| <= 2
    ensures |r| == 0 <==> UsablePath(groundTruthDataset, isFile) && UsableName(groundTruth)
  {
    PathErrors(groundTruthDataset, isFile, GroundTruthDatasetPathKinds) +
    (if !groundTruth.StrField? then [GroundTruthNotString]
     else if ValidationChecks.IsEmptyString(Some(groundTruth.s)) then [GroundTruthEmpty]
     else [])
  }

  /** A name field the checks accept: a str that is not blank. */
  predicate UsableName(f: Field) {
    f.StrField? && !ValidationChecks.IsEmptyString(Some(f.s))
  }

  /**
   * `_validate_algorithm`: one outcome out of not found, arguments rejected
   * by the algorithm's input schema, ground truth required but absent, the
   * ground-truth checks, or nothing to report.
   */
  function AlgorithmErrors(
    info: Option<PluginControl.AlgorithmInfo>,
    argumentsMatch: PluginControl.AlgorithmInfo -> bool,
    groundTruthDataset: Field,
    groundTruth: Field,
    isFile: string -> bool): (r: seq<ArgError>)
    ensures info.None? ==> r == [AlgorithmIdNotFound]
    ensures info.Some? && !argumentsMatch(info.value) ==> r == [AlgorithmArgumentsInvalid]
    ensures info.Some? && argumentsMatch(info.value) && !info.value.requireGroundTruth ==> r == []
    ensures info.Some? && argumentsMatch(info.value) && info.value.requireGroundTruth ==>
      r == if !groundTruth.Truthy() || !groundTruthDataset.Truthy() then [GroundTruthValidationFailed]
           else GroundTruthErrors(groundTruthDataset, groundTruth, isFile)
  {
    if info.None? then [AlgorithmIdNotFound]
    else if !argumentsMatch(info.value) then [AlgorithmArgumentsInvalid]
    else if !info.value.requireGroundTruth then []
    else if !groundTruth.Truthy() || !groundTruthDataset.Truthy() then [GroundTruthValidationFailed]
    else GroundTruthErrors(groundTruthDataset, groundTruth, isFile)
  }

  /**
   * The algorithm check passes exactly when the algorithm is known, its
   * arguments fit its schema, and, if it needs ground truth, both ground-truth
   * fields are usable: the truthiness pre-check adds no condition of its own.
   */
  lemma AlgorithmAccepts(
    info: Option<PluginControl.AlgorithmInfo>,
    argumentsMatch: PluginControl.AlgorithmInfo -> bool,
    groundTruthDataset: Field,
    groundTruth: Field,
    isFile: string -> bool)
    ensures |AlgorithmErrors(info, argumentsMatch, groundTruthDataset, groundTruth, isFile)| <= 2
    ensures |AlgorithmErrors(info, argumentsMatch, groundTruthDataset, groundTruth, isFile)| == 0 <==>
      info.Some? && argumentsMatch(info.value) &&
      (info.value.requireGroundTruth ==> UsablePath(groundTruthDataset, isFile) && UsableName(groundTruth))
  {
    var r := AlgorithmErrors(info, argumentsMatch, groundTruthDataset, groundTruth, isFile);
    if info.Some? && argumentsMatch(info.value) && info.value.requireGroundTruth {
      if UsablePath(groundTruthDataset, isFile) && UsableName(groundTruth) {
        NonEmptyTextIsTruthy(groundTruthDataset);
        NonEmptyTextIsTruthy(groundTruth);
        assert r == GroundTruthErrors(groundTruthDataset, groundTruth, isFile);
      } else if groundTruth.Truthy() && groundTruthDataset.Truthy() {
        assert r == GroundTruthErrors(groundTruthDataset, groundTruth, isFile);
      }
    }
  }

  /** A str that `is_empty_string` rejects is in particular not "". */
  lemma NonEmptyTextIsTruthy(f: Field)
    requires f.StrField? && !ValidationChecks.IsEmptyString(Some(f.s))
    ensures f.Truthy()
  {
    assert ValidationChecks.AllSpace([]);
  }

  /** The checks `validate` runs, in order: data, then the model check for the mode, then the algorithm. */
  function CheckResults(
    v: TaskValues,
    argumentsMatch: PluginControl.AlgorithmInfo -> bool,
    isFile: string -> bool,
    isFolder: string -> bool): (parts: seq<seq<ArgError>>)
    ensures |parts| == 3
    ensures parts[0] == PathErrors(v.data, isFile, DataPathKinds)
    ensures parts[1] == if v.mode == Some(Api) then ModelApiErrors(v.apiSchema, v.apiConfig)
                        else PathErrors(v.model, FileOrFolder(isFile, isFolder), ModelPathKinds)
    ensures parts[2] == AlgorithmErrors(v.algorithmPluginInformation, argumentsMatch, v.groundTruthDataset, v.groundTruth, isFile)
  {
    [PathErrors(v.data, isFile, DataPathKinds),
     if v.mode == Some(Api) then ModelApiErrors(v.apiSchema, v.apiConfig)
     else PathErrors(v.model, FileOrFolder(isFile, isFolder), ModelPathKinds),
     AlgorithmErrors(v.algorithmPluginInformation, argumentsMatch, v.groundTruthDataset, v.groundTruth, isFile)]
  }

  /** A task validates with no errors exactly when each of its three checks passes; at most five errors in all. */
  lemma ValidateBounds(
    v: TaskValues,
    argumentsMatch: PluginControl.AlgorithmInfo -> bool,
    isFile: string -> bool,
    isFolder: string -> bool)
    ensures var all := Flatten(CheckResults(v, argumentsMatch, isFile, isFolder));
      |all| <= 5 &&
      (|all| == 0 <==>
        UsablePath(v.data, isFile) &&
        (if v.mode == Some(Api) then v.apiSchema.DictField? && v.apiConfig.DictField?
         else UsablePath(v.model, FileOrFolder(isFile, isFolder))) &&
        |AlgorithmErrors(v.algorithmPluginInformation, argumentsMatch, v.groundTruthDataset, v.groundTruth, isFile)| == 0)
  {
    var parts := CheckResults(v, argumentsMatch, isFile, isFolder);
    AlgorithmAccepts(v.algorithmPluginInformation, argumentsMatch, v.groundTruthDataset, v.groundTruth, isFile);
    assert Flatten(parts[..1]) == parts[0] by {
      assert parts[..1][..0] == [];
    }
    assert Flatten(parts[..2]) == parts[0] + parts[1] by {
      assert parts[..2][..1] == parts[..1];
    }
    assert Flatten(parts) == parts[0] + parts[1] + parts[2] by {
      assert parts[..3] == parts;
      assert parts[..2] == parts[..3][..2];
    }
  }

  /**
   * What `parse` works from: the schema file, the decoded message, and the
   * oracles for the task schema, the algorithm registry, the algorithm's
   * input schema and the filesystem.
   */
  datatype ParseInputs = ParseInputs(
    schema: SchemaFile,
    args: ArgsInput<TaskPayload>,
    schemaAccepts: TaskPayload -> bool,
    registry: Field -> Option<PluginControl.AlgorithmInfo>,
    argumentsMatch: PluginControl.AlgorithmInfo -> bool,
    isFile: string -> bool,
    isFolder: string -> bool)

  /**
   * `parse`, as the outcome and the argument fields it leaves: an invalid
   * schema file surfaces as its RuntimeError text; a missing schema file
   * (FileNotFoundError), a message that is not JSON and JSON that is not an
   * object (AttributeError on `get`) raise; a schema failure keeps only the id; otherwise every field is
   * copied and the parse succeeds exactly when `validate` finds no error,
   * with its message.
   */
  function ParseEffect(values: TaskValues, p: ParseInputs): (r: (ParseOutcome, TaskValues))
    ensures p.schema.SchemaInvalid? ==> r == (Returned(false, SchemaErrorText(p.schema.detail)), values)
    ensures p.schema.SchemaMissing? ==> r == (Raised, values)
    ensures p.schema.SchemaOk? && (p.args.NotJson? || p.args.NotObject?) ==> r == (Raised, values)
    ensures p.schema.SchemaOk? && p.args.Decoded? && !p.schemaAccepts(p.args.payload) ==>
      r == (Returned(false, TaskSchemaFailure), values.(id := p.args.payload.id))
    ensures p.schema.SchemaOk? && p.args.Decoded? && p.schemaAccepts(p.args.payload) ==>
      r.1 == ParsedValues(p.args.payload, p.registry(p.args.payload.algorithmId)) &&
      r.0.Returned? && (r.0.ok <==> |Flatten(CheckResults(r.1, p.argumentsMatch, p.isFile, p.isFolder))| == 0) &&
      r.0.message == Join(Flatten(CheckResults(r.1, p.argumentsMatch, p.isFile, p.isFolder)), ArgText)
    ensures r.0.Returned? && r.0.ok ==> r.1.algorithmPluginInformation.Some?
  {
    if p.schema.SchemaInvalid? then (Returned(false, SchemaErrorText(p.schema.detail)), values)
    else if p.schema.SchemaMissing? || !p.args.Decoded? then (Raised, values)
    else if !p.schemaAccepts(p.args.payload) then (Returned(false, TaskSchemaFailure), values.(id := p.args.payload.id))
    else
      var v := ParsedValues(p.args.payload, p.registry(p.args.payload.algorithmId));
      var errors := Flatten(CheckResults(v, p.argumentsMatch, p.isFile, p.isFolder));
      ValidateBounds(v, p.argumentsMatch, p.isFile, p.isFolder);
      (Returned(|errors| == 0, Join(errors, ArgText)), v)
  }

  class TaskArgumentParser {
    /** The dataclass fields, held as one record. */
    var values: TaskValues
    const validationSchemaFile: string

    constructor (validationSchemaFolder: string)
      ensures values == Unset
      ensures validationSchemaFile == validationSchemaFolder + "/test_engine_task_schema.json"
    {
      values := Unset;
      validationSchemaFile := validationSchemaFolder + "/test_engine_task_schema.json";
    }

    /** `validate`: run the checks in order, adding counts and concatenating messages. */
    method Validate(argumentsMatch: PluginControl.AlgorithmInfo -> bool, isFile: string -> bool, isFolder: string -> bool)
      returns (errorCount: int, errorMessage: string)
      ensures errorCount == |Flatten(CheckResults(values, argumentsMatch, isFile, isFolder))|
      ensures errorMessage == Join(Flatten(CheckResults(values, argumentsMatch, isFile, isFolder)), ArgText)
      ensures errorCount == CountSemicolons(errorMessage)
    {
      var validationMethods := CheckResults(values, argumentsMatch, isFile, isFolder);
      errorCount, errorMessage := Accumulate(validationMethods, ArgText);
      ErrorCountIsSemicolons(Flatten(validationMethods));
    }

    /** `parse`: the outcome and the new fields are those `ParseEffect` gives. */
    method Parse(p: ParseInputs) returns (r: ParseOutcome)
      modifies this
      ensures (r, values) == ParseEffect(old(values), p)
    {
      if p.schema.SchemaInvalid? {
        return Returned(false, SchemaErrorText(p.schema.detail));
      }
      if p.schema.SchemaMissing? || !p.args.Decoded? {
        return Raised;
      }
      var argsDict := p.args.payload;
      if p.schemaAccepts(argsDict) {
        values := ParsedValues(argsDict, p.registry(argsDict.algorithmId));
        var errorCount, errorMessage := Validate(p.argumentsMatch, p.isFile, p.isFolder);
        if errorCount == 0 {
          return Returned(true, errorMessage);
        } else {
          return Returned(false, errorMessage);
        }
      } else {
        values := values.(id := argsDict.id);
        return Returned(false, TaskSchemaFailure);
      }
    }
  }
}
