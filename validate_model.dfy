/**
 * The model validation job (test_engine_app/processing/validate_model.py):
 * parse the service message, then close a pending job, or load the model
 * and its serializer and record the model format and serializer type.
 */
module ModelValidation {
  import opened Wrappers
  import opened Enums
  import opened Arguments
  import opened OrderedDict
  import opened Plugins
  import opened ErrorRecord
  import opened ErrorManagement
  import opened ServiceRecords
  import ValidateModelArgument
  import ModelManager
  import JsonUtils

  const Component: string := "validate_model.py"
  const ModelWarningCode: string := "WMODx00002"

  /**
   * What the job meets: the plugin controller's triple for the model (the
   * serializer given by its plugin type name, None when there is none) and
   * the instance's model plugin type name.
   */
  datatype ModelWorld = ModelWorld(
    instance: Option<Handle>,
    serializerType: Option<string>,
    loadMessage: string,
    modelFormat: string)

  /** The job's changing fields: the metadata, errors and updates, and the model instance. */
  datatype ModelState = ModelState(service: ServiceState, modelInstance: Option<Handle>)

  /** A MOD warning from this job. */
  function ModelWarning(text: string): Option<Error> {
    JobWarning("MOD", ModelWarningCode, text, Component)
  }

  /** No model instance: a MOD warning with the controller's message, then DONE / INVALID. */
  function Rejected(s: ServiceState, message: string, hasCallback: bool): ServiceState {
    FileInvalid(Recorded(s, ModelWarning(message)), hasCallback)
  }

  /** `_set_service_results` then `_set_file_valid`. */
  function Accepted(s: ServiceState, modelFormat: string, serializerType: Option<string>, hasCallback: bool): ServiceState {
    var md := s.metadata.(serializerType := serializerType, modelFormat := Some(modelFormat));
    FileValid(s.(metadata := md), hasCallback)
  }

  /** The `except` branch of `_process_new_service`: a warning with the bare exception text, then failure. */
  function Raised(s: ServiceState, message: string, hasCallback: bool): ServiceState {
    ServiceFailure(Recorded(s, JobWarning("SYS", SystemWarningCode, message, Component)), hasCallback)
  }

  /**
   * `_process_new_service` as written, from the state after RUNNING was
   * sent: with an instance, the serializer's type is read unconditionally,
   * so a missing serializer raises an AttributeError.
   */
  function AfterRunningAsWritten(s: ModelState, w: ModelWorld, hasCallback: bool): (ModelState, bool, string) {
    var loaded := s.(modelInstance := w.instance);
    if w.instance.None? then (loaded.(service := Rejected(s.service, w.loadMessage, hasCallback)), true, w.loadMessage)
    else if w.serializerType.None? then (loaded.(service := Raised(s.service, NoSerializerType, hasCallback)), false, NoSerializerType)
    else (loaded.(service := Accepted(s.service, w.modelFormat, w.serializerType, hasCallback)), true, "")
  }

  /**
   * `_process_new_service` as written: RUNNING is set and sent; where sending
   * it raises (a callback, and the result still unset) the `except` branch runs.
   */
  function NewServiceRunAsWritten(s0: ModelState, w: ModelWorld, hasCallback: bool): (ModelState, bool, string) {
    var (running, raised) := SetAndSend(s0.service, ServiceRunning, hasCallback);
    if raised then (s0.(service := Raised(running, NoResultName, hasCallback)), false, NoResultName)
    else AfterRunningAsWritten(s0.(service := running), w, hasCallback)
  }

  /**
   * `_process_new_service` with the serializer type read only when there is
   * a serializer (None is recorded otherwise, as the metadata field allows),
   * and every update sent as the corrected formatter (ServiceFormat.Format)
   * sends it, which never raises.
   */
  function AfterRunning(s: ModelState, w: ModelWorld, hasCallback: bool): (ModelState, bool, string) {
    var loaded := s.(modelInstance := w.instance);
    if w.instance.None? then (loaded.(service := Rejected(s.service, w.loadMessage, hasCallback)), true, w.loadMessage)
    else (loaded.(service := Accepted(s.service, w.modelFormat, w.serializerType, hasCallback)), true, "")
  }

  function NewServiceRun(s0: ModelState, w: ModelWorld, hasCallback: bool): (ModelState, bool, string) {
    AfterRunning(s0.(service := WithServiceStatus(s0.service, ServiceRunning, hasCallback)), w, hasCallback)
  }

  /** The world an API-mode model meets: `read_model_api`'s answer (never a serializer). */
  function ApiWorld(r: LoadResult, modelFormat: string): ModelWorld {
    ModelWorld(r.instance, None, r.errorMessage, modelFormat)
  }

  /**
   * As written, no API-mode model is ever VALID: every API model the plugins
   * recognise comes without a serializer and ends ERROR with result NONE.
   */
  lemma ApiModelNeverValidAsWritten(s0: ModelState, apiSchema: Field, apiConfig: Field, modelPlugins: Dict<PluginModule>,
                                    b: PluginBehaviour, modelFormat: string, hasCallback: bool)
    ensures var r := ModelManager.ModelApiResult(apiSchema, apiConfig, modelPlugins, b);
      var md := NewServiceRunAsWritten(s0, ApiWorld(r, modelFormat), hasCallback).0.service.metadata;
      md.result != Some(Valid) &&
      (r.isSuccess ==> md.status == ServiceError && md.result == Some(NoResult))
  {
  }

  /** With the corrected run, an API-mode model is VALID exactly when a model plugin supports it. */
  lemma ApiModelValid(s0: ModelState, apiSchema: Field, apiConfig: Field, modelPlugins: Dict<PluginModule>,
                      b: PluginBehaviour, modelFormat: string, hasCallback: bool)
    ensures var r := ModelManager.ModelApiResult(apiSchema, apiConfig, modelPlugins, b);
      var md := NewServiceRun(s0, ApiWorld(r, modelFormat), hasCallback).0.service.metadata;
      md.status == Done && (md.result == Some(Valid) <==> r.isSuccess) &&
      (r.isSuccess ==> md.serializerType == None && md.modelFormat == Some(modelFormat))
  {
  }

  /**
   * A new model job always ends DONE with `is_success` true: VALID with the
   * model format and serializer type recorded and the error messages
   * cleared exactly when an instance was obtained, otherwise INVALID with
   * the controller's message recorded as a MOD warning when not empty.
   * RUNNING is always sent first.
   */
  lemma NewServiceOutcome(s0: ModelState, w: ModelWorld, hasCallback: bool)
    ensures var (s, ok, message) := NewServiceRun(s0, w, hasCallback);
      var md := s.service.metadata;
      ok && md.status == Done && s.modelInstance == w.instance &&
      (md.result == Some(Valid) <==> w.instance.Some?) &&
      (w.instance.Some? ==> message == "" && md.errorMessages == NoErrorMessages &&
                            md.serializerType == w.serializerType && md.modelFormat == Some(w.modelFormat) &&
                            s.service.errors == s0.service.errors) &&
      (w.instance.None? ==> message == w.loadMessage && md.result == Some(Invalid) &&
                            s.service.errors == Appended(s0.service.errors, ModelWarning(message)) &&
                            md.errorMessages == ErrorListJson(s.service.errors)) &&
      (hasCallback ==> |s.service.updates| == |s0.service.updates| + 2 &&
                       s.service.updates[|s0.service.updates|].status == ServiceRunning &&
                       s.service.updates[|s.service.updates| - 1] == md)
  {
  }

  /**
   * The two runs differ only where the as-written one reads a missing
   * serializer or formats RUNNING with the result unset.
   */
  lemma RunsAgreeWithSerializer(s0: ModelState, w: ModelWorld, hasCallback: bool)
    ensures NewServiceRunAsWritten(s0, w, hasCallback) == NewServiceRun(s0, w, hasCallback) <==>
            (w.instance.None? || w.serializerType.Some?) && !(hasCallback && s0.service.metadata.result.None?)
  {
    var a := NewServiceRunAsWritten(s0, w, hasCallback);
    var c := NewServiceRun(s0, w, hasCallback);
    if (w.instance.Some? && w.serializerType.None?) || (hasCallback && s0.service.metadata.result.None?) {
      assert a.1 != c.1;
    }
  }

  /** A missing instance records a MOD warning exactly when the controller's message is not empty. */
  lemma RejectedRecords(s: ServiceState, message: string, hasCallback: bool)
    ensures var r := Rejected(s, message, hasCallback);
      (message == "" ==> r.errors == s.errors) &&
      (message != "" ==> |r.errors| == |s.errors| + 1 && r.errors[..|s.errors|] == s.errors &&
                         r.errors[|s.errors|].category == UnsupportedModel &&
                         r.errors[|s.errors|].description == JsonUtils.ScanForSingleQuotes(message))
  {
    JobWarningRecorded("MOD", ModelWarningCode, message, Component);
    if message != "" {
      assert (s.errors + [ModelWarning(message).value])[..|s.errors|] == s.errors;
    }
  }

  /** The `else` branch of `process`: a failed parse is recorded as a terminated-service warning; no status is set. */
  function ParseFailure(s: ServiceState, message: string): ServiceState {
    Recorded(s, JobWarning("SYS", SystemWarningCode, ServiceTerminatedPrefix + message, Component))
  }

  class ValidateModel {
    const messageId: string
    const taskType: TaskType
    const hasUpdateCallback: bool
    const serviceArguments: ValidateModelArgument.ModelArgumentParser

    var metadata: ServiceMetadata
    var errors: seq<Error>
    var updates: seq<ServiceMetadata>
    var modelInstance: Option<Handle>

    ghost function State(): ModelState
      reads this
    {
      ModelState(ServiceState(metadata, errors, updates), modelInstance)
    }

    constructor (messageId: string, validationSchemasFolder: string, taskType: TaskType, hasUpdateCallback: bool)
      ensures State() == ModelState(InitialServiceState, None)
      ensures this.messageId == messageId && this.taskType == taskType && this.hasUpdateCallback == hasUpdateCallback
      ensures fresh(serviceArguments) && serviceArguments.id == NoneField && serviceArguments.modelMode == None
      ensures serviceArguments.apiSchema == DictField(0) && serviceArguments.apiConfig == DictField(0)
    {
      this.messageId := messageId;
      this.taskType := taskType;
      this.hasUpdateCallback := hasUpdateCallback;
      serviceArguments := new ValidateModelArgument.ModelArgumentParser(validationSchemasFolder);
      metadata := InitialServiceMetadata;
      errors := [];
      updates := [];
      modelInstance := None;
    }

    /** `get_id`. */
    function GetId(): Field
      reads this, serviceArguments
    {
      serviceArguments.id
    }

    /** `add_error_to_list` on the job's error list. */
    method AddErrorToList(category: string, code: string, text: string)
      modifies this
      ensures State() == old(State()).(service := Recorded(old(State()).service, JobWarning(category, code, text, Component)))
    {
      errors := Appended(errors, JobWarning(category, code, text, Component));
    }

    /** `_set_and_send_service_status`. */
    method SetAndSendServiceStatus(status: ServiceStatus)
      modifies this
      ensures State() == old(State()).(service := WithServiceStatus(old(State()).service, status, hasUpdateCallback))
    {
      metadata := metadata.(status := status);
      if hasUpdateCallback {
        updates := updates + [metadata];
      }
    }

    /** `_set_service_failure`. */
    method SetServiceFailure()
      modifies this
      ensures State() == old(State()).(service := ServiceFailure(old(State()).service, hasUpdateCallback))
    {
      metadata := metadata.(errorMessages := ErrorListJson(errors), result := Some(NoResult));
      SetAndSendServiceStatus(ServiceError);
    }

    /** `_set_file_invalid`. */
    method SetFileInvalid()
      modifies this
      ensures State() == old(State()).(service := FileInvalid(old(State()).service, hasUpdateCallback))
    {
      metadata := metadata.(errorMessages := ErrorListJson(errors), result := Some(Invalid));
      SetAndSendServiceStatus(Done);
    }

    /** `_set_file_valid`. */
    method SetFileValid()
      modifies this
      ensures State() == old(State()).(service := FileValid(old(State()).service, hasUpdateCallback))
    {
      metadata := metadata.(errorMessages := NoErrorMessages, result := Some(Valid));
      SetAndSendServiceStatus(Done);
    }

    /** `_process_new_service`, with the serializer type read only when there is a serializer. */
    method ProcessNewService(w: ModelWorld) returns (isSuccess: bool, errorMessages: string)
      modifies this
      ensures (State(), isSuccess, errorMessages) == NewServiceRun(old(State()), w, hasUpdateCallback)
    {
      SetAndSendServiceStatus(ServiceRunning);
      modelInstance := w.instance;
      if w.instance.None? {
        errorMessages := w.loadMessage;
        AddErrorToList("MOD", ModelWarningCode, errorMessages);
        isSuccess := true;
        SetFileInvalid();
      } else {
        metadata := metadata.(serializerType := w.serializerType, modelFormat := Some(w.modelFormat));
        isSuccess, errorMessages := true, "";
        SetFileValid();
      }
    }

    /** `_process_pending_service`. */
    method ProcessPendingService(idText: string) returns (isSuccess: bool, errorMessages: string)
      modifies this
      ensures State() == old(State()).(service := PendingServiceRun(old(State()).service, idText, Component, hasUpdateCallback))
      ensures isSuccess && errorMessages == ""
    {
      AddErrorToList("SYS", SystemWarningCode, ServiceTerminatedPrefix + idText);
      SetServiceFailure();
      return true, "";
    }

    /**
     * `process`: parse; a parsed PENDING job is closed, a parsed NEW job runs;
     * a failed parse records a terminated-service warning and sets no status,
     * so the metadata stays INIT. `otherIdText` is `str()` of a non-string id.
     */
    method Process(schema: SchemaFile, args: ArgsInput<ValidateModelArgument.ModelPayload>,
                   schemaAccepts: ValidateModelArgument.ModelPayload -> bool, isFile: string -> bool, isFolder: string -> bool,
                   w: ModelWorld, otherIdText: string) returns (r: (bool, string))
      modifies this, serviceArguments
      ensures var (parsed, id, mode, path) := ValidateModelArgument.ParseEffect(
          old(serviceArguments.id), old(serviceArguments.modelMode), old(serviceArguments.modelPath),
          old(serviceArguments.apiSchema), old(serviceArguments.apiConfig), schema, args, schemaAccepts, isFile, isFolder, otherIdText);
        serviceArguments.id == id && serviceArguments.modelMode == mode && serviceArguments.modelPath == path &&
        (!parsed.0 ==> r == parsed && State() == old(State()).(service := ParseFailure(old(State()).service, parsed.1))) &&
        (parsed.0 && taskType == Pending ==>
          r == (true, "") &&
          State() == old(State()).(service := PendingServiceRun(old(State()).service, PyStr(id, otherIdText), Component, hasUpdateCallback))) &&
        (parsed.0 && taskType == New ==>
          var run := NewServiceRun(old(State()), w, hasUpdateCallback);
          r == (run.1, run.2) && State() == run.0)
    {
      var parsed := serviceArguments.Parse(schema, args, schemaAccepts, isFile, isFolder, otherIdText);
      if parsed.0 {
        if taskType == Pending {
          var ok, message := ProcessPendingService(PyStr(serviceArguments.id, otherIdText));
          return (ok, message);
        } else {
          var ok, message := ProcessNewService(w);
          return (ok, message);
        }
      }
      AddErrorToList("SYS", SystemWarningCode, ServiceTerminatedPrefix + parsed.1);
      return parsed;
    }
  }
}
