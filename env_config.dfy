/**
 * Start-up settings of the test engine
 * (test_engine_app/config/environment_variables.py): six values with
 * defaults, replaced all together from a `.env` file only when every one of
 * them passes validation.
 */
module EnvConfig {
  import opened Wrappers
  import opened Tally
  import ValidationChecks

  /** A port variable: unset, a text `int()` accepts, or one that raises ValueError. */
  datatype PortSetting = Unset | Parsed(port: int) | Malformed

  /** The variables `load_dotenv` makes visible; None when a variable is not set. */
  datatype EnvFile = EnvFile(
    coreModulesFolder: Option<string>,
    validationSchemasFolder: Option<string>,
    consumerGroup: Option<string>,
    hostname: Option<string>,
    serverPort: PortSetting,
    apiServerPort: PortSetting)

  datatype Settings = Settings(
    coreModulesFolder: string,
    validationSchemasFolder: string,
    consumerGroup: string,
    hostname: string,
    serverPort: int,
    apiServerPort: int)

  /** The class-level defaults, relative to the resolved working directory. */
  function Defaults(cwd: string): Settings {
    Settings(cwd + "/core_modules", cwd + "/validation_schemas", "MyGroup", "localhost", 6379, 8080)
  }

  predicate PortInRange(p: int) {
    1 <= p <= 65535
  }

  /** The checks of `_validate_data`, in the order it runs them. */
  datatype EnvError = CoreModulesNotDirectory | SchemasNotDirectory | ConsumerGroupEmpty | HostnameEmpty | ServerPortOutOfRange | ApiPortOutOfRange

  function EnvText(e: EnvError): string {
    match e
    case CoreModulesNotDirectory => "Core Modules folder is not a directory"
    case SchemasNotDirectory => "Validation Schemas folder is not a directory"
    case ConsumerGroupEmpty => "Consumer Group is empty string"
    case HostnameEmpty => "Host name is empty string"
    case ServerPortOutOfRange => "Server Port outside range"
    case ApiPortOutOfRange => "API Server Port outside range"
  }

  /** The texts of the two folder checks hold no ';'. */
  lemma CoreModulesTextWithoutSemicolon()
    ensures ';' !in EnvText(CoreModulesNotDirectory)
  {
    assert EnvText(CoreModulesNotDirectory) == "Core Modules folder is not a directory";
  }

  lemma SchemasTextWithoutSemicolon()
    ensures ';' !in EnvText(SchemasNotDirectory)
  {
    assert EnvText(SchemasNotDirectory) == "Validation Schemas folder is not a directory";
  }

  /** No text of the two name checks holds a ';'. */
  lemma NameTextsWithoutSemicolon()
    ensures ';' !in EnvText(ConsumerGroupEmpty)
    ensures ';' !in EnvText(HostnameEmpty)
  {
  }

  /** No text of the two port checks holds a ';'. */
  lemma PortTextsWithoutSemicolon()
    ensures ';' !in EnvText(ServerPortOutOfRange)
    ensures ';' !in EnvText(ApiPortOutOfRange)
  {
  }

  lemma EnvTextWithoutSemicolon(e: EnvError)
    ensures ';' !in EnvText(e)
  {
    CoreModulesTextWithoutSemicolon();
    SchemasTextWithoutSemicolon();
    NameTextsWithoutSemicolon();
    PortTextsWithoutSemicolon();
  }

  /** Joined with ';', the texts of `errors` hold exactly one ';' per error. */
  lemma ErrorCountIsSemicolons(errors: seq<EnvError>)
    ensures |errors| == CountSemicolons(Join(errors, EnvText))
  {
    forall i | 0 <= i < |errors|
      ensures ';' !in EnvText(errors[i])
    {
      EnvTextWithoutSemicolon(errors[i]);
    }
    CountIsSemicolons(errors, EnvText);
  }

  /** The settings `_validate_data` accepts. */
  predicate Acceptable(s: Settings, isDir: string -> bool) {
    isDir(s.coreModulesFolder) && isDir(s.validationSchemasFolder) &&
    !ValidationChecks.IsEmptyString(Some(s.consumerGroup)) &&
    !ValidationChecks.IsEmptyString(Some(s.hostname)) &&
    PortInRange(s.serverPort) && PortInRange(s.apiServerPort)
  }

  /** The failed checks, in order. */
  function FailedChecks(s: Settings, isDir: string -> bool): (r: seq<EnvError>)
    ensures |r| == 0 <==> Acceptable(s, isDir)
  {
    (if !isDir(s.coreModulesFolder) then [CoreModulesNotDirectory] else []) +
    (if !isDir(s.validationSchemasFolder) then [SchemasNotDirectory] else []) +
    (if ValidationChecks.IsEmptyString(Some(s.consumerGroup)) then [ConsumerGroupEmpty] else []) +
    (if ValidationChecks.IsEmptyString(Some(s.hostname)) then [HostnameEmpty] else []) +
    (if s.serverPort < 1 || s.serverPort > 65535 then [ServerPortOutOfRange] else []) +
    (if s.apiServerPort < 1 || s.apiServerPort > 65535 then [ApiPortOutOfRange] else [])
  }

  /**
   * `_validate_data`: six checks in fixed order; each failure adds one to the
   * error count and its text and a ';' to the error message.
   */
  function ValidateData(s: Settings, isDir: string -> bool): (r: (int, string))
    ensures r.0 == 0 <==> Acceptable(s, isDir)
    ensures r.0 == CountSemicolons(r.1)
  {
    var failed := FailedChecks(s, isDir);
    ErrorCountIsSemicolons(failed);
    (|failed|, Join(failed, EnvText))
  }

  /** The values `__init__` reads, each falling back to its default; None when a port raises ValueError. */
  function ReadFile(env: EnvFile, cwd: string): (r: Option<Settings>)
    ensures r.None? <==> env.serverPort.Malformed? || env.apiServerPort.Malformed?
  {
    var d := Defaults(cwd);
    if env.serverPort.Malformed? || env.apiServerPort.Malformed? then None
    else
      Some(Settings(
        env.coreModulesFolder.GetOr(d.coreModulesFolder),
        env.validationSchemasFolder.GetOr(d.validationSchemasFolder),
        env.consumerGroup.GetOr(d.consumerGroup),
        env.hostname.GetOr(d.hostname),
        if env.serverPort.Parsed? then env.serverPort.port else d.serverPort,
        if env.apiServerPort.Parsed? then env.apiServerPort.port else d.apiServerPort))
  }

  /** The process-wide settings (class variables of EnvironmentVariables). */
  class EnvironmentVariables {
    var current: Settings
    const cwd: string

    constructor (workingDirectory: string)
      ensures cwd == workingDirectory && current == Defaults(workingDirectory)
    {
      cwd := workingDirectory;
      current := Defaults(workingDirectory);
    }

    /** `reset`: restore the six defaults. */
    method Reset()
      modifies this
      ensures current == Defaults(cwd)
    {
      current := Defaults(cwd);
    }

    /**
     * `__init__`: with no `.env` file, or when a port is not a number, nothing
     * changes; otherwise all six values are replaced when they all validate,
     * and none is replaced when any fails.
     */
    method Load(envFileExists: bool, env: EnvFile, isDir: string -> bool)
      modifies this
      ensures !envFileExists ==> current == old(current)
      ensures envFileExists ==>
        var read := ReadFile(env, cwd);
        current == if read.Some? && Acceptable(read.value, isDir) then read.value else old(current)
    {
      if envFileExists {
        var read := ReadFile(env, cwd);
        if read.Some? {
          var (errorCount, _) := ValidateData(read.value, isDir);
          if errorCount == 0 {
            current := read.value;
          }
        }
      }
    }
  }

  /** After a successful load every value is valid: ports in range, names non-blank. */
  lemma LoadedValuesValid(env: EnvFile, cwd: string, isDir: string -> bool)
    requires ReadFile(env, cwd).Some? && Acceptable(ReadFile(env, cwd).value, isDir)
    ensures var s := ReadFile(env, cwd).value;
      PortInRange(s.serverPort) && PortInRange(s.apiServerPort) &&
      s.consumerGroup != "None" && s.consumerGroup != "none" && !ValidationChecks.AllSpace(s.consumerGroup) &&
      s.hostname != "None" && s.hostname != "none" && !ValidationChecks.AllSpace(s.hostname)
  {
    ValidationChecks.NoneWordIsExact(ReadFile(env, cwd).value.consumerGroup);
    ValidationChecks.NoneWordIsExact(ReadFile(env, cwd).value.hostname);
  }
}
