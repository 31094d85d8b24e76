/**
 * The error list kept by every job of the test engine
 * (test_engine_core/logging/error_manager.py).
 */
module ErrorManagement {
  import opened Wrappers
  import opened ErrorRecord
  import ValidationChecks
  import JsonUtils

  /** `_get_error_category`: None stands for the RuntimeError it raises. */
  function CategoryOf(s: string): Option<ErrorCategory> {
    if s == "DAT" then Some(UnsupportedData)
    else if s == "MOD" then Some(UnsupportedModel)
    else if s == "ARG" then Some(InvalidArgument)
    else if s == "TST" then Some(TestingFault)
    else if s == "SYS" then Some(SystemError)
    else None
  }

  /** `_get_error_severity`. */
  function SeverityOf(s: string): Option<ErrorSeverity> {
    if s == "Information" then Some(Information)
    else if s == "Critical" then Some(Critical)
    else if s == "System" then Some(SystemWide)
    else if s == "Warning" then Some(Warning)
    else None
  }

  /** `_get_error_origin`. */
  function OriginOf(s: string): Option<ErrorOrigin> {
    if s == "User" then Some(UserError)
    else if s == "System" then Some(SystemErrorOrigin)
    else None
  }

  /** The short codes callers pass for each enum value. */
  function CategoryCode(c: ErrorCategory): string {
    match c
    case UnsupportedData => "DAT"
    case UnsupportedModel => "MOD"
    case InvalidArgument => "ARG"
    case TestingFault => "TST"
    case SystemError => "SYS"
  }

  function SeverityCode(s: ErrorSeverity): string {
    match s
    case Information => "Information"
    case Critical => "Critical"
    case SystemWide => "System"
    case Warning => "Warning"
  }

  function OriginCode(o: ErrorOrigin): string {
    match o
    case UserError => "User"
    case SystemErrorOrigin => "System"
  }

  /** Each lookup table accepts exactly its codes and inverts the code of every value. */
  lemma CategoryTable(s: string, c: ErrorCategory)
    ensures CategoryOf(CategoryCode(c)) == Some(c)
    ensures CategoryOf(s).Some? ==> CategoryCode(CategoryOf(s).value) == s
    ensures CategoryOf(s).None? <==> s !in {"DAT", "MOD", "ARG", "TST", "SYS"}
  {
  }

  lemma SeverityTable(s: string, v: ErrorSeverity)
    ensures SeverityOf(SeverityCode(v)) == Some(v)
    ensures SeverityOf(s).Some? ==> SeverityCode(SeverityOf(s).value) == s
    ensures SeverityOf(s).None? <==> s !in {"Information", "Critical", "System", "Warning"}
  {
  }

  lemma OriginTable(s: string, o: ErrorOrigin)
    ensures OriginOf(OriginCode(o)) == Some(o)
    ensures OriginOf(s).Some? ==> OriginCode(OriginOf(s).value) == s
    ensures OriginOf(s).None? <==> s !in {"User", "System"}
  {
  }

  /** Missing means `None` or the empty string (blank text is accepted). */
  predicate Missing(s: Option<string>) {
    s.None? || s.value == ""
  }

  /**
   * The error `add_error_to_list` would append, or None when it appends
   * nothing: a missing description, code or component, or an unknown
   * category, severity or origin.
   */
  function NewError(category: string, code: Option<string>, description: Option<string>,
                    severity: string, origin: string, component: Option<string>): (r: Option<Error>)
    ensures r.None? <==> Missing(description) || Missing(code) || Missing(component) ||
                         CategoryOf(category).None? || SeverityOf(severity).None? || OriginOf(origin).None?
    ensures r.Some? ==> r.value == Error(CategoryOf(category).value, code.value,
                                         JsonUtils.ScanForSingleQuotes(description.value),
                                         SeverityOf(severity).value, OriginOf(origin).value, component.value)
  {
    if Missing(description) || Missing(code) || Missing(component) then None
    else match (CategoryOf(category), SeverityOf(severity), OriginOf(origin))
      case (Some(c), Some(s), Some(o)) =>
        Some(Error(c, code.value, JsonUtils.ScanForSingleQuotes(description.value), s, o, component.value))
      case _ => None
  }

  /** The name kept by `create_error_manager`: the stripped argument unless it is None or blank. */
  function ErrorFileName(current: string, errorName: Option<string>): (r: string)
    ensures errorName.None? ==> r == current
    ensures errorName.Some? && ValidationChecks.AllSpace(errorName.value) ==> r == current
    ensures errorName.Some? && !ValidationChecks.AllSpace(errorName.value) ==>
              r == ValidationChecks.Strip(errorName.value) && r != ""
  {
    match errorName
    case None => current
    case Some(n) =>
      ValidationChecks.StripEmptyIffAllSpace(n);
      var stripped := ValidationChecks.Strip(n);
      if stripped == "" then current else stripped
  }

  /** A job's `error_messages` field: "" or the JSON text `get_errors_as_json_string` gives for an error list. */
  datatype ErrorMessages = NoErrorMessages | ErrorListJson(errors: seq<Error>)

  /** The error list after `add_error_to_list` with the given outcome of `NewError`. */
  function Appended(errors: seq<Error>, e: Option<Error>): (r: seq<Error>)
    ensures e.None? ==> r == errors
    ensures e.Some? ==> r == errors + [e.value]
  {
    if e.Some? then errors + [e.value] else errors
  }

  class ErrorManager {
    var name: string
    var filepath: string
    var errors: seq<Error>
    const defaultFolder: string

    constructor ()
      ensures name == "error_file" && filepath == "" && errors == [] && defaultFolder == "errors"
    {
      name := "error_file";
      filepath := "";
      errors := [];
      defaultFolder := "errors";
    }

    /**
     * `create_error_manager`. `cwd` is the working directory the path is made
     * absolute against; `folderReady` is false when creating the folder raised
     * PermissionError or FileNotFoundError.
     */
    method CreateErrorManager(errorName: Option<string>, cwd: string, folderReady: bool) returns (ok: bool)
      modifies this
      ensures ok == folderReady
      ensures errors == old(errors)
      ensures ok ==> name == ErrorFileName(old(name), errorName)
      ensures ok ==> filepath == cwd + "/" + defaultFolder + "/" + name + ".json"
      ensures !ok ==> name == old(name) && filepath == old(filepath)
    {
      if !folderReady {
        return false;
      }
      name := ErrorFileName(name, errorName);
      filepath := cwd + "/" + defaultFolder + "/" + name + ".json";
      return true;
    }

    /** `add_error_to_list`: appends at most one error, at the end. */
    method AddErrorToList(category: string, code: Option<string>, description: Option<string>,
                          severity: string, origin: string, component: Option<string>)
      modifies this
      ensures name == old(name) && filepath == old(filepath)
      ensures errors == Appended(old(errors), NewError(category, code, description, severity, origin, component))
    {
      var e := NewError(category, code, description, severity, origin, component);
      if e.Some? {
        errors := errors + [e.value];
      }
    }

    /** The list `get_errors_as_json_string` serialises, in insertion order. */
    method GetErrorsAsDicts() returns (jsonList: seq<map<string, string>>)
      ensures |jsonList| == |errors|
      ensures forall i :: 0 <= i < |errors| ==> jsonList[i] == GetDict(errors[i])
    {
      jsonList := [];
      var k := 0;
      while k < |errors|
        invariant 0 <= k <= |errors|
        invariant |jsonList| == k
        invariant forall i :: 0 <= i < k ==> jsonList[i] == GetDict(errors[i])
      {
        jsonList := jsonList + [GetDict(errors[k])];
        k := k + 1;
      }
    }
  }
}
