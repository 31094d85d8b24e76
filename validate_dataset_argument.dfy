/**
 * The arguments of the dataset-validation service
 * (test_engine_app/processing/validate_dataset_argument.py): `parse` decodes
 * the message, checks it against the service schema, takes the service id and
 * the data path, and runs the data-file check.
 */
module ValidateDatasetArgument {
  import opened Tally
  import opened Arguments

  /** The message fields `parse` reads; an absent key is NoneField. */
  datatype DatasetPayload = DatasetPayload(serviceId: Field, filePath: Field)

  const DatasetSchemaFailure: string := "Failed TestEngineService validateDataset input schema validation"

  /** The checks `validate` runs: the data file only. */
  function DatasetCheckResults(dataPath: Field, isFile: string -> bool): (parts: seq<seq<ArgError>>)
    ensures parts == [PathErrors(dataPath, isFile, DataPathKinds)]
  {
    [PathErrors(dataPath, isFile, DataPathKinds)]
  }

  /** A dataset validates with no error exactly when its path is a usable file; one error at most. */
  lemma DatasetChecks(dataPath: Field, isFile: string -> bool)
    ensures var all := Flatten(DatasetCheckResults(dataPath, isFile));
      |all| <= 1 && (|all| == 0 <==> UsablePath(dataPath, isFile))
  {
    var parts := DatasetCheckResults(dataPath, isFile);
    assert Flatten(parts) == parts[0] by {
      assert parts[..1] == parts;
      assert parts[..1][..0] == [];
    }
  }

  /**
   * `parse`, as the outcome and the id and data path it leaves: a bad schema
   * file becomes (False, its RuntimeError text); a missing schema file
   * (FileNotFoundError), a message that is not JSON and JSON that is not an
   * object (AttributeError on `get`) raise, since only RuntimeError is caught; a schema failure keeps the id;
   * otherwise the result is whether `validate` found no error, with its message.
   */
  function ParseEffect(id: Field, dataPath: Field, schema: SchemaFile, args: ArgsInput<DatasetPayload>,
                       schemaAccepts: DatasetPayload -> bool, isFile: string -> bool): (r: (ParseOutcome, Field, Field))
    ensures schema.SchemaInvalid? ==> r == (Returned(false, SchemaErrorText(schema.detail)), id, dataPath)
    ensures schema.SchemaMissing? ==> r == (Raised, id, dataPath)
    ensures schema.SchemaOk? && (args.NotJson? || args.NotObject?) ==> r == (Raised, id, dataPath)
    ensures schema.SchemaOk? && args.Decoded? && !schemaAccepts(args.payload) ==>
      r == (Returned(false, DatasetSchemaFailure), args.payload.serviceId, dataPath)
    ensures schema.SchemaOk? && args.Decoded? && schemaAccepts(args.payload) ==>
      var errors := Flatten(DatasetCheckResults(args.payload.filePath, isFile));
      r == (Returned(|errors| == 0, Join(errors, ArgText)), args.payload.serviceId, args.payload.filePath)
    ensures r.0.Returned? && r.0.ok <==>
      schema.SchemaOk? && args.Decoded? && schemaAccepts(args.payload) && UsablePath(args.payload.filePath, isFile)
    ensures r.0.Returned? && r.0.ok ==> r.0.message == ""
  {
    if schema.SchemaInvalid? then (Returned(false, SchemaErrorText(schema.detail)), id, dataPath)
    else if schema.SchemaMissing? || !args.Decoded? then (Raised, id, dataPath)
    else if !schemaAccepts(args.payload) then (Returned(false, DatasetSchemaFailure), args.payload.serviceId, dataPath)
    else
      var errors := Flatten(DatasetCheckResults(args.payload.filePath, isFile));
      DatasetChecks(args.payload.filePath, isFile);
      (Returned(|errors| == 0, Join(errors, ArgText)), args.payload.serviceId, args.payload.filePath)
  }

  class DatasetArgumentParser {
    var id: Field
    var dataPath: Field
    const validationSchemaFile: string

    constructor (validationSchemaFolder: string)
      ensures id == NoneField && dataPath == NoneField
      ensures validationSchemaFile == validationSchemaFolder + "/test_engine_validate_dataset_schema.json"
    {
      id, dataPath := NoneField, NoneField;
      validationSchemaFile := validationSchemaFolder + "/test_engine_validate_dataset_schema.json";
    }

    /** `validate`: the data check's count and message. */
    method Validate(isFile: string -> bool) returns (errorCount: int, errorMessage: string)
      ensures errorCount == |Flatten(DatasetCheckResults(dataPath, isFile))|
      ensures errorMessage == Join(Flatten(DatasetCheckResults(dataPath, isFile)), ArgText)
      ensures errorCount == CountSemicolons(errorMessage)
    {
      var validationFunctions := DatasetCheckResults(dataPath, isFile);
      errorCount, errorMessage := Accumulate(validationFunctions, ArgText);
      ErrorCountIsSemicolons(Flatten(validationFunctions));
    }

    /** `parse`: the outcome and the new id and data path are those `ParseEffect` gives. */
    method Parse(schema: SchemaFile, args: ArgsInput<DatasetPayload>, schemaAccepts: DatasetPayload -> bool, isFile: string -> bool)
      returns (r: ParseOutcome)
      modifies this
      ensures (r, id, dataPath) == ParseEffect(old(id), old(dataPath), schema, args, schemaAccepts, isFile)
    {
      if schema.SchemaInvalid? {
        return Returned(false, SchemaErrorText(schema.detail));
      }
      if schema.SchemaMissing? || !args.Decoded? {
        return Raised;
      }
      var argsDict := args.payload;
      if schemaAccepts(argsDict) {
        id := argsDict.serviceId;
        dataPath := argsDict.filePath;
        var errorCount, errorMessage := Validate(isFile);
        if errorCount == 0 {
          return Returned(true, errorMessage);
        } else {
          return Returned(false, errorMessage);
        }
      } else {
        id := argsDict.serviceId;
        return Returned(false, DatasetSchemaFailure);
      }
    }
  }
}
