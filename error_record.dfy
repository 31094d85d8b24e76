/**
 * One recorded error of the test engine (test_engine_core/logging/error.py)
 * and the enumerations it refers to.
 */
module ErrorRecord {

  datatype ErrorCategory = UnsupportedData | UnsupportedModel | InvalidArgument | TestingFault | SystemError

  datatype ErrorSeverity = Information | Critical | SystemWide | Warning

  datatype ErrorOrigin = UserError | SystemErrorOrigin

  /** The enum member names, as `.name` gives them. */
  function CategoryName(c: ErrorCategory): string {
    match c
    case UnsupportedData => "UNSUPPORTED_DATA"
    case UnsupportedModel => "UNSUPPORTED_MODEL"
    case InvalidArgument => "INVALID_ARGUMENT"
    case TestingFault => "TESTING_FAULT"
    case SystemError => "SYSTEM_ERROR"
  }

  function SeverityName(s: ErrorSeverity): string {
    match s
    case Information => "INFORMATION"
    case Critical => "CRITICAL"
    case SystemWide => "SYSTEM_WIDE"
    case Warning => "WARNING"
  }

  function OriginName(o: ErrorOrigin): string {
    match o
    case UserError => "USER_ERROR"
    case SystemErrorOrigin => "SYSTEM_ERROR"
  }

  /** ASCII `str.lower()`. */
  function Lower(s: string): (r: string)
    ensures |r| == |s|
    ensures forall i :: 0 <= i < |s| ==> r[i] == (if 'A' <= s[i] <= 'Z' then (s[i] as int + 32) as char else s[i])
  {
    if s == [] then []
    else [if 'A' <= s[0] <= 'Z' then (s[0] as int + 32) as char else s[0]] + Lower(s[1..])
  }

  /** The error record: the constructor keeps its six arguments unchanged. */
  datatype Error = Error(
    category: ErrorCategory,
    code: string,
    description: string,
    severity: ErrorSeverity,
    origin: ErrorOrigin,
    component: string)

  const DictKeys: set<string> := {"category", "code", "description", "severity", "origin", "component"}

  /** `Error.get_dict()`. */
  function GetDict(e: Error): (r: map<string, string>)
    ensures r.Keys == DictKeys
    ensures r["category"] == CategoryName(e.category) && r["origin"] == OriginName(e.origin)
    ensures r["severity"] == Lower(SeverityName(e.severity))
    ensures r["code"] == e.code && r["description"] == e.description && r["component"] == e.component
  {
    map[
      "category" := CategoryName(e.category),
      "code" := e.code,
      "description" := e.description,
      "severity" := Lower(SeverityName(e.severity)),
      "origin" := OriginName(e.origin),
      "component" := e.component
    ]
  }

  /** The dictionary form loses nothing: distinct errors give distinct dictionaries. */
  lemma GetDictInjective(e1: Error, e2: Error)
    requires GetDict(e1) == GetDict(e2)
    ensures e1 == e2
  {
  }
}
