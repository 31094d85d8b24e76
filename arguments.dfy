/**
 * What the three argument parsers of the test engine share
 * (test_engine_app/processing/task_argument.py,
 * validate_model_argument.py, validate_dataset_argument.py): payload fields
 * as Python sees them, the error kinds their checks report, the path checks
 * they repeat, and how a parse ends.
 */
module Arguments {
  import opened Wrappers
  import ValidationChecks
  import Tally

  /**
   * A value `args_dict.get(key)` can return. An absent key reads as None.
   * Only what the checks look at is kept: whether it is a str, a dict, and
   * whether it is truthy.
   */
  datatype Field = NoneField | StrField(s: string) | DictField(size: nat) | OtherField(truthy: bool)
  {
    /** Python truthiness. */
    predicate Truthy() {
      match this
      case NoneField => false
      case StrField(s) => s != ""
      case DictField(size) => size > 0
      case OtherField(t) => t
    }
  }

  /**
   * The text `args` handed to `json.loads`: not JSON (with the decoder's
   * message), JSON that is not an object (with the Python type name of the
   * decoded value), or a decoded object.
   */
  datatype ArgsInput<P> = NotJson(decodeError: string) | NotObject(typeName: string) | Decoded(payload: P)

  /**
   * The schema file `load_schema_file` reads: valid JSON, invalid with the
   * decoder's message, or missing, where `open` raises FileNotFoundError
   * (with the text of that error).
   */
  datatype SchemaFile = SchemaOk | SchemaInvalid(detail: string) | SchemaMissing(reason: string)

  /** The RuntimeError `load_schema_file` raises on invalid JSON. */
  function SchemaErrorText(detail: string): string {
    "Invalid JSON in schema: " + detail
  }

  /** The AttributeError `args_dict.get` raises when the decoded value is not an object. */
  function NoGetText(typeName: string): string {
    "'" + typeName + "' object has no attribute 'get'"
  }

  /** How `parse` ends: the pair it returns, or an exception it lets through. */
  datatype ParseOutcome = Returned(ok: bool, message: string) | Raised

  /** Every failed check of the argument validators. */
  datatype ArgError =
    | DataNotString | DataEmpty | DataNotFound
    | GroundTruthDatasetNotString | GroundTruthDatasetEmpty | GroundTruthDatasetNotFound
    | GroundTruthNotString | GroundTruthEmpty
    | ModelNotString | ModelEmpty | ModelNotFound
    | ApiSchemaNotDict | ApiConfigNotDict
    | GroundTruthValidationFailed | AlgorithmArgumentsInvalid | AlgorithmIdNotFound
    | InvalidModelMode

  function ArgText(e: ArgError): string {
    match e
    case DataNotString => "Data file is not a string"
    case DataEmpty => "Data file is empty string"
    case DataNotFound => "Data file not found"
    case GroundTruthDatasetNotString => "Ground Truth dataset file is not a string"
    case GroundTruthDatasetEmpty => "Ground Truth dataset file is empty string"
    case GroundTruthDatasetNotFound => "Ground Truth dataset file not found"
    case GroundTruthNotString => "Ground Truth is not a string"
    case GroundTruthEmpty => "Ground Truth is empty string"
    case ModelNotString => "Model file is not a string"
    case ModelEmpty => "Model file is empty string"
    case ModelNotFound => "Model file not found"
    case ApiSchemaNotDict => "Api Schema is not a dict"
    case ApiConfigNotDict => "Api Config is not a dict"
    case GroundTruthValidationFailed => "Ground truth validation failed"
    case AlgorithmArgumentsInvalid => "Algorithm arguments validation failed"
    case AlgorithmIdNotFound => "Algorithm ID is not found"
    case InvalidModelMode => "Invalid model mode"
  }

  /** No error text of the data path check holds a ';'. */
  lemma DataTextsWithoutSemicolon()
    ensures ';' !in ArgText(DataNotString)
    ensures ';' !in ArgText(DataEmpty)
    ensures ';' !in ArgText(DataNotFound)
  {
  }

  /** No error text of the ground-truth dataset path check holds a ';'. */
  lemma GroundTruthDatasetTextsWithoutSemicolon()
    ensures ';' !in ArgText(GroundTruthDatasetNotString)
    ensures ';' !in ArgText(GroundTruthDatasetEmpty)
    ensures ';' !in ArgText(GroundTruthDatasetNotFound)
  {
  }

  /** No error text of the model path check holds a ';'. */
  lemma ModelTextsWithoutSemicolon()
    ensures ';' !in ArgText(ModelNotString)
    ensures ';' !in ArgText(ModelEmpty)
    ensures ';' !in ArgText(ModelNotFound)
  {
  }

  /** No error text of the ground-truth and API checks holds a ';'. */
  lemma GroundTruthTextsWithoutSemicolon()
    ensures ';' !in ArgText(GroundTruthNotString)
    ensures ';' !in ArgText(GroundTruthEmpty)
    ensures ';' !in ArgText(ApiSchemaNotDict)
  {
  }

  /** No error text of the configuration, ground-truth validation and mode checks holds a ';'. */
  lemma ConfigTextsWithoutSemicolon()
    ensures ';' !in ArgText(ApiConfigNotDict)
    ensures ';' !in ArgText(GroundTruthValidationFailed)
    ensures ';' !in ArgText(InvalidModelMode)
  {
  }

  /** No error text of the algorithm checks holds a ';'. */
  lemma AlgorithmTextsWithoutSemicolon()
    ensures ';' !in ArgText(AlgorithmArgumentsInvalid)
    ensures ';' !in ArgText(AlgorithmIdNotFound)
  {
  }

  lemma ArgTextWithoutSemicolon(e: ArgError)
    ensures ';' !in ArgText(e)
  {
    DataTextsWithoutSemicolon();
    GroundTruthDatasetTextsWithoutSemicolon();
    ModelTextsWithoutSemicolon();
    GroundTruthTextsWithoutSemicolon();
    ConfigTextsWithoutSemicolon();
    AlgorithmTextsWithoutSemicolon();
  }

  /**
   * The error count of every argument validator is the number of ';' in its
   * error message: each failed check adds its text, which holds none, and one ';'.
   */
  lemma ErrorCountIsSemicolons(errors: seq<ArgError>)
    ensures |errors| == Tally.CountSemicolons(Tally.Join(errors, ArgText))
  {
    forall i | 0 <= i < |errors|
      ensures ';' !in ArgText(errors[i])
    {
      ArgTextWithoutSemicolon(errors[i]);
    }
    Tally.CountIsSemicolons(errors, ArgText);
  }

  /** The three errors one path check can report. */
  datatype PathErrorKinds = PathErrorKinds(notString: ArgError, empty: ArgError, notFound: ArgError)

  const DataPathKinds := PathErrorKinds(DataNotString, DataEmpty, DataNotFound)
  const GroundTruthDatasetPathKinds := PathErrorKinds(GroundTruthDatasetNotString, GroundTruthDatasetEmpty, GroundTruthDatasetNotFound)
  const ModelPathKinds := PathErrorKinds(ModelNotString, ModelEmpty, ModelNotFound)

  /** A path field the checks accept: a str that is not blank and names something that exists. */
  predicate UsablePath(f: Field, exists_: string -> bool) {
    f.StrField? && !ValidationChecks.IsEmptyString(Some(f.s)) && exists_(f.s)
  }

  /**
   * The shared path check: not a str, else blank, else missing; at most one
   * error, the first that applies.
   */
  function PathErrors(f: Field, exists_: string -> bool, kinds: PathErrorKinds): (r: seq<ArgError>)
    ensures |r| <= 1
    ensures |r| == 0 <==> UsablePath(f, exists_)
    ensures !f.StrField? ==> r == [kinds.notString]
    ensures f.StrField? && ValidationChecks.IsEmptyString(Some(f.s)) ==> r == [kinds.empty]
  {
    if !f.StrField? then [kinds.notString]
    else if ValidationChecks.IsEmptyString(Some(f.s)) then [kinds.empty]
    else if !exists_(f.s) then [kinds.notFound]
    else []
  }

  /** `_validate_model_api` (task and model-validation arguments alike): schema and config must each be a dict, checked independently. */
  function ModelApiErrors(apiSchema: Field, apiConfig: Field): (r: seq<ArgError>)
    ensures |r| == (if apiSchema.DictField? then 0 else 1) + (if apiConfig.DictField? then 0 else 1)
    ensures ApiSchemaNotDict in r <==> !apiSchema.DictField?
    ensures ApiConfigNotDict in r <==> !apiConfig.DictField?
  {
    (if !apiSchema.DictField? then [ApiSchemaNotDict] else []) +
    (if !apiConfig.DictField? then [ApiConfigNotDict] else [])
  }

  /**
   * `str()` of a field: a str is itself and None is "None"; what any other
   * value prints as is given.
   */
  function PyStr(f: Field, otherText: string): (r: string)
    ensures f.StrField? ==> r == f.s
    ensures !f.StrField? && !f.NoneField? ==> r == otherText
  {
    match f
    case StrField(s) => s
    case NoneField => "None"
    case _ => otherText
  }

  /** The existence test of the model-upload check: a file or a folder. */
  function FileOrFolder(isFile: string -> bool, isFolder: string -> bool): string -> bool {
    p => isFile(p) || isFolder(p)
  }
}
