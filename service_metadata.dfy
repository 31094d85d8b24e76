/**
 * The record a validation job moves through its statuses
 * (test_engine_app/processing/service_metadata.py), and the state changes
 * both validation jobs make on it: INIT → RUNNING → DONE with result VALID
 * or INVALID, or ERROR with result NONE.
 */
module ServiceRecords {
  import opened Wrappers
  import opened Enums
  import opened ErrorRecord
  import opened ErrorManagement
  import JsonUtils

  /** One entry of a dataset's column schema: `{"name": ..., "datatype": ...}`. */
  datatype Column = Column(name: string, dataType: string)

  /** `schema`: "" until a valid dataset stores its column list. */
  datatype Schema = NoSchema | Columns(columns: seq<Column>)

  /**
   * `ServiceMetadata`. The plugin-type enums are held as their member names;
   * None is a field still unset (the result is None, not a ServiceResult,
   * until a terminal setter runs).
   */
  datatype ServiceMetadata = ServiceMetadata(
    status: ServiceStatus,
    result: Option<ServiceResult>,
    schema: Schema,
    errorMessages: ErrorMessages,
    modelFormat: Option<string>,
    dataFormat: Option<string>,
    serializerType: Option<string>,
    dataType: string)

  /** `ServiceMetadata()`. */
  const InitialServiceMetadata: ServiceMetadata := ServiceMetadata(Init, None, NoSchema, NoErrorMessages, None, None, None, "")

  /** The fields of a validation job that its status setters change. */
  datatype ServiceState = ServiceState(
    metadata: ServiceMetadata,
    /** The job logger's error list. */
    errors: seq<Error>,
    /** What the update callback was sent, oldest first. */
    updates: seq<ServiceMetadata>)

  const InitialServiceState: ServiceState := ServiceState(InitialServiceMetadata, [], [])

  const ServiceTerminatedPrefix: string := "Service Terminated: "
  const SystemWarningCode: string := "WSYSx00002"
  /** The AttributeError text when an instance comes without a serializer. */
  const NoSerializerType: string := "'NoneType' object has no attribute 'get_serializer_plugin_type'"

  /** `add_error_to_list(category, code, text, "Warning", "System", component)`: the error appended, if any. */
  function JobWarning(category: string, code: string, text: string, component: string): Option<Error> {
    NewError(category, Some(code), Some(text), "Warning", "System", Some(component))
  }

  /** A warning with a known category is recorded exactly when its text, code and component are not empty. */
  lemma JobWarningRecorded(category: string, code: string, text: string, component: string)
    requires category == "DAT" || category == "MOD" || category == "SYS"
    ensures JobWarning(category, code, text, component).Some? <==> text != "" && code != "" && component != ""
    ensures JobWarning(category, code, text, component).Some? ==>
      JobWarning(category, code, text, component).value.description == JsonUtils.ScanForSingleQuotes(text)
  {
  }

  /** Record the outcome of one `add_error_to_list`. */
  function Recorded(s: ServiceState, e: Option<Error>): ServiceState {
    s.(errors := Appended(s.errors, e))
  }

  /**
   * `_set_and_send_service_status` when sending goes through: set the status,
   * then send the metadata to the update callback if there is one. This is
   * the send of every setter that fixes the result first (`SettledSend`).
   */
  function WithServiceStatus(s: ServiceState, status: ServiceStatus, hasCallback: bool): ServiceState {
    var md := s.metadata.(status := status);
    s.(metadata := md, updates := if hasCallback then s.updates + [md] else s.updates)
  }

  /** The AttributeError text when the formatter reads `.name` of a result still unset. */
  const NoResultName: string := "'NoneType' object has no attribute 'name'"

  /**
   * Whether `_send_service_update` raises: with a callback the metadata is
   * formatted before it is sent, and the formatter reads `.name` of the
   * result, which is None until a terminal setter runs
   * (ServiceFormat.SendRaisesAgrees).
   */
  predicate SendRaises(md: ServiceMetadata, hasCallback: bool) {
    hasCallback && md.result.None?
  }

  /**
   * `_set_and_send_service_status`: set the status, then format and send the
   * metadata to the callback, if there is one. True in the second component
   * where formatting raised; then nothing was sent.
   */
  function SetAndSend(s: ServiceState, status: ServiceStatus, hasCallback: bool): (r: (ServiceState, bool))
    ensures r.1 <==> hasCallback && s.metadata.result.None?
    ensures r.0.metadata == s.metadata.(status := status) && r.0.errors == s.errors
    ensures r.1 || !hasCallback ==> r.0.updates == s.updates
    ensures !r.1 && hasCallback ==> r.0.updates == s.updates + [r.0.metadata]
  {
    var md := s.metadata.(status := status);
    if SendRaises(md, hasCallback) then (s.(metadata := md), true) else (WithServiceStatus(s, status, hasCallback), false)
  }

  /** Once the result is set, sending never raises: of the updates a job sends, only RUNNING can. */
  lemma SettledSend(s: ServiceState, status: ServiceStatus, hasCallback: bool)
    requires s.metadata.result.Some?
    ensures SetAndSend(s, status, hasCallback) == (WithServiceStatus(s, status, hasCallback), false)
  {
  }

  /** `_set_service_failure`: copy the error list, result NONE, status ERROR. */
  function ServiceFailure(s: ServiceState, hasCallback: bool): ServiceState {
    WithServiceStatus(s.(metadata := s.metadata.(errorMessages := ErrorListJson(s.errors), result := Some(NoResult))), ServiceError, hasCallback)
  }

  /** `_set_file_invalid`: copy the error list, result INVALID, status DONE. */
  function FileInvalid(s: ServiceState, hasCallback: bool): ServiceState {
    WithServiceStatus(s.(metadata := s.metadata.(errorMessages := ErrorListJson(s.errors), result := Some(Invalid))), Done, hasCallback)
  }

  /** `_set_file_valid`: clear the error messages, result VALID, status DONE. */
  function FileValid(s: ServiceState, hasCallback: bool): ServiceState {
    WithServiceStatus(s.(metadata := s.metadata.(errorMessages := NoErrorMessages, result := Some(Valid))), Done, hasCallback)
  }

  /** `_process_pending_service`: record the terminated-service warning for the id and fail. */
  function PendingServiceRun(s0: ServiceState, idText: string, component: string, hasCallback: bool): ServiceState {
    ServiceFailure(Recorded(s0, JobWarning("SYS", SystemWarningCode, ServiceTerminatedPrefix + idText, component)), hasCallback)
  }

  /**
   * A pending validation never loads anything: it records one warning naming
   * the id, ends ERROR with result NONE and the error list as its messages.
   */
  lemma PendingServiceEnds(s0: ServiceState, idText: string, component: string, hasCallback: bool)
    requires component != ""
    ensures var s := PendingServiceRun(s0, idText, component, hasCallback);
      s.metadata.status == ServiceError && s.metadata.result == Some(NoResult) &&
      |s.errors| == |s0.errors| + 1 && s.errors[..|s0.errors|] == s0.errors &&
      s.errors[|s0.errors|].description == JsonUtils.ScanForSingleQuotes(ServiceTerminatedPrefix + idText) &&
      s.metadata.errorMessages == ErrorListJson(s.errors) &&
      (hasCallback ==> s.updates == s0.updates + [s.metadata]) && (!hasCallback ==> s.updates == s0.updates)
  {
    JobWarningRecorded("SYS", SystemWarningCode, ServiceTerminatedPrefix + idText, component);
    assert (ServiceTerminatedPrefix + idText)[0] == 'S';
  }

  /**
   * The terminal setters: ERROR always comes with result NONE, DONE with
   * VALID or INVALID; only VALID clears the error messages.
   */
  lemma TerminalSetters(s: ServiceState, hasCallback: bool)
    ensures var f := ServiceFailure(s, hasCallback);
      f.metadata.status == ServiceError && f.metadata.result == Some(NoResult) && f.metadata.errorMessages == ErrorListJson(s.errors) &&
      f.errors == s.errors && f.metadata.schema == s.metadata.schema
    ensures var i := FileInvalid(s, hasCallback);
      i.metadata.status == Done && i.metadata.result == Some(Invalid) && i.metadata.errorMessages == ErrorListJson(s.errors) &&
      i.errors == s.errors && i.metadata.schema == s.metadata.schema
    ensures var v := FileValid(s, hasCallback);
      v.metadata.status == Done && v.metadata.result == Some(Valid) && v.metadata.errorMessages == NoErrorMessages &&
      v.errors == s.errors && v.metadata.schema == s.metadata.schema
  {
  }
}
