/**
 * The arguments of the model-validation service
 * (test_engine_app/processing/validate_model_argument.py): `parse` decodes
 * the message, checks it against the service schema, takes the service id,
 * the model path and the mode, and runs the mode check followed by the model
 * check for that mode.
 */
module ValidateModelArgument {
  import opened Wrappers
  import opened Enums
  import opened Tally
  import opened Arguments

  /** The message fields `parse` reads; an absent key is NoneField. */
  datatype ModelPayload = ModelPayload(serviceId: Field, filePath: Field, mode: Field)

  const ModeUnsupported: string := "Model mode type unsupported. Supported model modes are API and UPLOAD."
  const ModelSchemaFailurePrefix: string := "Failed TestEngineService validateModel input schema validation for "
  const ApiWord: string := "api"
  const UploadWord: string := "upload"

  /** The mode, recognised only by the exact lower-case names of the two modes. */
  function ModeFromText(f: Field): (m: Option<ModelMode>)
    ensures m == Some(Api) <==> f == StrField(ApiWord)
    ensures m == Some(Upload) <==> f == StrField(UploadWord)
  {
    if f == StrField(ApiWord) then Some(Api)
    else if f == StrField(UploadWord) then Some(Upload)
    else None
  }

  /** `_validate_model_mode`: one error while no mode is set. */
  function ModeErrors(mode: Option<ModelMode>): (r: seq<ArgError>)
    ensures |r| == 0 <==> mode.Some?
    ensures mode.None? ==> r == [InvalidModelMode]
  {
    if mode.None? then [InvalidModelMode] else []
  }

  /** The checks `validate` runs, in order: the mode, then the API or the upload check. */
  function ModelCheckResults(
    mode: Option<ModelMode>, modelPath: Field, apiSchema: Field, apiConfig: Field,
    isFile: string -> bool, isFolder: string -> bool): (parts: seq<seq<ArgError>>)
    ensures |parts| == 2
    ensures parts[0] == ModeErrors(mode)
    ensures parts[1] == if mode == Some(Api) then ModelApiErrors(apiSchema, apiConfig)
                        else PathErrors(modelPath, FileOrFolder(isFile, isFolder), ModelPathKinds)
  {
    [ModeErrors(mode),
     if mode == Some(Api) then ModelApiErrors(apiSchema, apiConfig)
     else PathErrors(modelPath, FileOrFolder(isFile, isFolder), ModelPathKinds)]
  }

  /**
   * With a mode set and the API fields still the empty dicts `__init__`
   * leaves (nothing in `parse` sets them), validation fails only for an
   * upload whose path is unusable; an API model always passes.
   */
  lemma ParsedModelChecks(mode: ModelMode, modelPath: Field, isFile: string -> bool, isFolder: string -> bool)
    ensures var all := Flatten(ModelCheckResults(Some(mode), modelPath, DictField(0), DictField(0), isFile, isFolder));
      |all| <= 1 &&
      (|all| == 0 <==> mode == Api || UsablePath(modelPath, FileOrFolder(isFile, isFolder)))
  {
    var parts := ModelCheckResults(Some(mode), modelPath, DictField(0), DictField(0), isFile, isFolder);
    assert Flatten(parts[..1]) == parts[0] by {
      assert parts[..1][..0] == [];
    }
    assert Flatten(parts) == parts[0] + parts[1] by {
      assert parts[..2] == parts;
      assert parts[..2][..1] == parts[..1];
    }
  }

  /**
   * `parse`, as the outcome and the id, mode and model path it leaves: every
   * exception, a bad or missing schema file, a message that is not JSON or
   * JSON that is not an object alike, becomes (False, its text); a schema failure keeps the id and names it; an unknown
   * mode is refused before any check; otherwise the result is whether
   * `validate` found no error, with "" on success. `otherIdText` is what
   * `str()` gives for an id that is neither a str nor None.
   */
  function ParseEffect(
    id: Field, modelMode: Option<ModelMode>, modelPath: Field, apiSchema: Field, apiConfig: Field,
    schema: SchemaFile, args: ArgsInput<ModelPayload>, schemaAccepts: ModelPayload -> bool,
    isFile: string -> bool, isFolder: string -> bool, otherIdText: string): (r: ((bool, string), Field, Option<ModelMode>, Field))
    ensures schema.SchemaInvalid? ==> r == ((false, SchemaErrorText(schema.detail)), id, modelMode, modelPath)
    ensures schema.SchemaMissing? ==> r == ((false, schema.reason), id, modelMode, modelPath)
    ensures schema.SchemaOk? && args.NotJson? ==> r == ((false, args.decodeError), id, modelMode, modelPath)
    ensures schema.SchemaOk? && args.NotObject? ==> r == ((false, NoGetText(args.typeName)), id, modelMode, modelPath)
    ensures schema.SchemaOk? && args.Decoded? && !schemaAccepts(args.payload) ==>
      r == ((false, ModelSchemaFailurePrefix + PyStr(args.payload.serviceId, otherIdText)), args.payload.serviceId, modelMode, modelPath)
    ensures schema.SchemaOk? && args.Decoded? && schemaAccepts(args.payload) ==>
      r.1 == args.payload.serviceId && r.3 == args.payload.filePath &&
      match ModeFromText(args.payload.mode)
      case None => r.2 == modelMode && r.0 == (false, ModeUnsupported)
      case Some(m) =>
        var errors := Flatten(ModelCheckResults(Some(m), args.payload.filePath, apiSchema, apiConfig, isFile, isFolder));
        r.2 == Some(m) && r.0 == (|errors| == 0, if |errors| == 0 then "" else Join(errors, ArgText))
    ensures r.0.0 ==> r.0.1 == "" && r.2.Some?
    ensures apiSchema == DictField(0) && apiConfig == DictField(0) ==>
      (r.0.0 <==> schema.SchemaOk? && args.Decoded? && schemaAccepts(args.payload) && ModeFromText(args.payload.mode).Some? &&
                  (ModeFromText(args.payload.mode) == Some(Api) || UsablePath(args.payload.filePath, FileOrFolder(isFile, isFolder))))
  {
    if schema.SchemaInvalid? then ((false, SchemaErrorText(schema.detail)), id, modelMode, modelPath)
    else if schema.SchemaMissing? then ((false, schema.reason), id, modelMode, modelPath)
    else if args.NotJson? then ((false, args.decodeError), id, modelMode, modelPath)
    else if args.NotObject? then ((false, NoGetText(args.typeName)), id, modelMode, modelPath)
    else if !schemaAccepts(args.payload) then
      ((false, ModelSchemaFailurePrefix + PyStr(args.payload.serviceId, otherIdText)), args.payload.serviceId, modelMode, modelPath)
    else match ModeFromText(args.payload.mode)
      case None => ((false, ModeUnsupported), args.payload.serviceId, modelMode, args.payload.filePath)
      case Some(m) =>
        var errors := Flatten(ModelCheckResults(Some(m), args.payload.filePath, apiSchema, apiConfig, isFile, isFolder));
        ParsedModelChecks(m, args.payload.filePath, isFile, isFolder);
        ((|errors| == 0, if |errors| == 0 then "" else Join(errors, ArgText)), args.payload.serviceId, Some(m), args.payload.filePath)
  }

  class ModelArgumentParser {
    var id: Field
    var modelMode: Option<ModelMode>
    var modelPath: Field
    var apiSchema: Field
    var apiConfig: Field
    const validationSchemaFile: string

    constructor (validationSchemaFolder: string)
      ensures id == NoneField && modelMode == None && modelPath == NoneField
      ensures apiSchema == DictField(0) && apiConfig == DictField(0)
      ensures validationSchemaFile == validationSchemaFolder + "/test_engine_validate_model_schema.json"
    {
      id, modelMode, modelPath := NoneField, None, NoneField;
      apiSchema, apiConfig := DictField(0), DictField(0);
      validationSchemaFile := validationSchemaFolder + "/test_engine_validate_model_schema.json";
    }

    /** `validate`: the mode check and the model check, counts added and messages concatenated. */
    method Validate(isFile: string -> bool, isFolder: string -> bool) returns (errorCount: int, errorMessage: string)
      ensures errorCount == |Flatten(ModelCheckResults(modelMode, modelPath, apiSchema, apiConfig, isFile, isFolder))|
      ensures errorMessage == Join(Flatten(ModelCheckResults(modelMode, modelPath, apiSchema, apiConfig, isFile, isFolder)), ArgText)
      ensures errorCount == CountSemicolons(errorMessage)
    {
      var validationFunctions := ModelCheckResults(modelMode, modelPath, apiSchema, apiConfig, isFile, isFolder);
      errorCount, errorMessage := Accumulate(validationFunctions, ArgText);
      ErrorCountIsSemicolons(Flatten(validationFunctions));
    }

    /** `parse`: the outcome and the new id, mode and path are those `ParseEffect` gives; the API fields are left alone. */
    method Parse(
      schema: SchemaFile,
      args: ArgsInput<ModelPayload>,
      schemaAccepts: ModelPayload -> bool,
      isFile: string -> bool,
      isFolder: string -> bool,
      otherIdText: string)
      returns (r: (bool, string))
      modifies this
      ensures apiSchema == old(apiSchema) && apiConfig == old(apiConfig)
      ensures (r, id, modelMode, modelPath) ==
        ParseEffect(old(id), old(modelMode), old(modelPath), apiSchema, apiConfig, schema, args, schemaAccepts, isFile, isFolder, otherIdText)
    {
      if schema.SchemaInvalid? {
        return (false, SchemaErrorText(schema.detail));
      }
      if schema.SchemaMissing? {
        return (false, schema.reason);
      }
      if args.NotJson? {
        return (false, args.decodeError);
      }
      if args.NotObject? {
        return (false, NoGetText(args.typeName));
      }
      var argsDict := args.payload;
      if schemaAccepts(argsDict) {
        id := argsDict.serviceId;
        modelPath := argsDict.filePath;
        var m := ModeFromText(argsDict.mode);
        if m.None? {
          return (false, ModeUnsupported);
        }
        modelMode := m;
        var errorCount, errorMessage := Validate(isFile, isFolder);
        if errorCount == 0 {
          return (true, "");
        } else {
          return (false, errorMessage);
        }
      } else {
        id := argsDict.serviceId;
        return (false, ModelSchemaFailurePrefix + PyStr(id, otherIdText));
      }
    }
  }
}
