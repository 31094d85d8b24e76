/**
 * The dataset validation job (test_engine_app/processing/validate_dataset.py):
 * parse the service message, then close a pending job, or load the dataset,
 * let it validate itself, read its columns and record the verdict.
 */
module DatasetValidation {
  import opened Wrappers
  import opened Enums
  import opened Arguments
  import opened Plugins
  import opened ErrorRecord
  import opened ErrorManagement
  import opened ServiceRecords
  import ValidateDatasetArgument
  import JsonUtils

  const Component: string := "validate_dataset.py"
  const DataWarningCode: string := "WDATx00002"
  const DatasetEmpty: string := "Dataset is empty"

  /** What `validate()` of the data instance does: returns (ok, message) or raises. */
  datatype Validation = Validated(ok: bool, message: string) | ValidationRaised(message: string)

  /**
   * What the job meets: the plugin controller's triple for the data path
   * (the serializer given by its plugin type name), what `validate()` and
   * `read_labels()` give, and the instance's data plugin type name.
   */
  datatype DatasetWorld = DatasetWorld(
    instance: Option<Handle>,
    serializerType: Option<string>,
    loadMessage: string,
    validation: Validation,
    labels: seq<(string, string)>,
    dataFormat: string)

  /** The job's changing fields: the metadata, errors and updates, the column list and the data instance. */
  datatype DatasetState = DatasetState(service: ServiceState, jsonArray: seq<Column>, dataInstance: Option<Handle>)

  /** `{"name": key, "datatype": value}` for each label, in `read_labels()` order. */
  function ColumnsOf(labels: seq<(string, string)>): (r: seq<Column>)
    ensures |r| == |labels|
    ensures forall i :: 0 <= i < |labels| ==> r[i] == Column(labels[i].0, labels[i].1)
  {
    if labels == [] then [] else [Column(labels[0].0, labels[0].1)] + ColumnsOf(labels[1..])
  }

  /** A DAT warning from this job. */
  function DataWarning(text: string): Option<Error> {
    JobWarning("DAT", DataWarningCode, text, Component)
  }

  /** The `except` branch of `_process_new_service`: a terminated-service warning, then failure. */
  function Raised(s: ServiceState, message: string, hasCallback: bool): ServiceState {
    ServiceFailure(Recorded(s, JobWarning("SYS", SystemWarningCode, ServiceTerminatedPrefix + message, Component)), hasCallback)
  }

  /** The `else` branch of `process`: a failed parse is recorded as a terminated-service warning; no status is set. */
  function ParseFailure(s: ServiceState, message: string): ServiceState {
    Recorded(s, JobWarning("SYS", SystemWarningCode, ServiceTerminatedPrefix + message, Component))
  }

  /** An invalid dataset: a DAT warning with the message, then DONE / INVALID. */
  function Rejected(s: ServiceState, message: string, hasCallback: bool): ServiceState {
    FileInvalid(Recorded(s, DataWarning(message)), hasCallback)
  }

  /** `_process_new_service`, from the state after RUNNING was sent. */
  function AfterRunning(s: DatasetState, w: DatasetWorld, hasCallback: bool): (DatasetState, bool, string) {
    var loaded := s.(dataInstance := w.instance);
    if w.instance.None? then
      (loaded.(service := Rejected(s.service, w.loadMessage, hasCallback)), true, w.loadMessage)
    else match w.validation
      case ValidationRaised(m) => (loaded.(service := Raised(s.service, m, hasCallback)), false, m)
      case Validated(ok, m) =>
        if !ok then (loaded.(service := Rejected(s.service, m, hasCallback)), true, m)
        else if w.labels == [] then (loaded.(service := Rejected(s.service, DatasetEmpty, hasCallback)), true, DatasetEmpty)
        else
          var columns := s.jsonArray + ColumnsOf(w.labels);
          var listed := loaded.(jsonArray := columns);
          if w.serializerType.None? then (listed.(service := Raised(s.service, NoSerializerType, hasCallback)), false, NoSerializerType)
          else
            var md := s.service.metadata.(schema := Columns(columns), serializerType := w.serializerType, dataFormat := Some(w.dataFormat));
            (listed.(service := FileValid(s.service.(metadata := md), hasCallback)), true, "")
  }

  /**
   * `_process_new_service`: RUNNING is set and sent; where sending it raises
   * (a callback, and the result still unset) the `except` branch runs.
   */
  function NewServiceRun(s0: DatasetState, w: DatasetWorld, hasCallback: bool): (DatasetState, bool, string) {
    var (running, raised) := SetAndSend(s0.service, ServiceRunning, hasCallback);
    if raised then (s0.(service := Raised(running, NoResultName, hasCallback)), false, NoResultName)
    else AfterRunning(s0.(service := running), w, hasCallback)
  }

  /**
   * After RUNNING was sent: DONE / VALID exactly when the instance exists,
   * validates, has columns and has a serializer; ERROR exactly when
   * validation or the serializer lookup raises; DONE / INVALID otherwise.
   * The instance is always loaded and, with a callback, one final update is sent.
   */
  lemma AfterRunningOutcome(s1: DatasetState, w: DatasetWorld, hasCallback: bool)
    requires s1.jsonArray == []
    ensures var (s, ok, message) := AfterRunning(s1, w, hasCallback);
      var md := s.service.metadata;
      var valid := w.instance.Some? && w.validation == Validated(true, w.validation.message) && w.labels != [] &&
                   w.serializerType.Some?;
      var raised := w.instance.Some? && (w.validation.ValidationRaised? ||
                    (w.validation.ok && w.labels != [] && w.serializerType.None?));
      (md.status == Done && md.result == Some(Valid) <==> valid) &&
      (valid ==> ok && message == "" && md.errorMessages == NoErrorMessages &&
                 md.schema == Columns(ColumnsOf(w.labels)) && md.serializerType == w.serializerType &&
                 md.dataFormat == Some(w.dataFormat) && s.service.errors == s1.service.errors) &&
      (md.status == ServiceError <==> raised) &&
      (raised ==> !ok && md.result == Some(NoResult) && md.errorMessages == ErrorListJson(s.service.errors)) &&
      (!valid && !raised ==> ok && md.status == Done && md.result == Some(Invalid) && md.errorMessages == ErrorListJson(s.service.errors)) &&
      s.dataInstance == w.instance &&
      (hasCallback ==> s.service.updates == s1.service.updates + [md]) &&
      (!hasCallback ==> s.service.updates == s1.service.updates)
  {
    assert [] + ColumnsOf(w.labels) == ColumnsOf(w.labels);
  }

  /**
   * A new dataset job ends DONE / VALID exactly when the instance exists,
   * validates, has columns and has a serializer; then the error messages are
   * cleared and the schema holds the columns in `read_labels()` order. A
   * missing instance, a failed validation or no columns end DONE / INVALID
   * with `is_success` true; an exception ends ERROR / NONE with `is_success`
   * false. RUNNING is always set first. With a callback and the result still
   * unset, sending RUNNING raises: nothing is loaded, one warning is recorded
   * and the job ends ERROR / NONE with only the ERROR update sent.
   */
  lemma NewServiceOutcome(s0: DatasetState, w: DatasetWorld, hasCallback: bool)
    requires s0.jsonArray == []
    ensures var (s, ok, message) := NewServiceRun(s0, w, hasCallback);
      var md := s.service.metadata;
      var early := hasCallback && s0.service.metadata.result.None?;
      var valid := !early && w.instance.Some? && w.validation == Validated(true, w.validation.message) && w.labels != [] &&
                   w.serializerType.Some?;
      var raised := early || (w.instance.Some? && (w.validation.ValidationRaised? ||
                    (w.validation.ok && w.labels != [] && w.serializerType.None?)));
      (md.status == Done && md.result == Some(Valid) <==> valid) &&
      (valid ==> ok && message == "" && md.errorMessages == NoErrorMessages &&
                 md.schema == Columns(ColumnsOf(w.labels)) && md.serializerType == w.serializerType &&
                 md.dataFormat == Some(w.dataFormat) && s.service.errors == s0.service.errors) &&
      (md.status == ServiceError <==> raised) &&
      (raised ==> !ok && md.result == Some(NoResult) && md.errorMessages == ErrorListJson(s.service.errors)) &&
      (!valid && !raised ==> ok && md.status == Done && md.result == Some(Invalid) && md.errorMessages == ErrorListJson(s.service.errors)) &&
      (early ==> message == NoResultName && s.dataInstance == s0.dataInstance && s.service.updates == s0.service.updates + [md] &&
                 s.service.errors == Appended(s0.service.errors, JobWarning("SYS", SystemWarningCode, ServiceTerminatedPrefix + NoResultName, Component))) &&
      (!early ==> s.dataInstance == w.instance) &&
      (hasCallback && !early ==> |s.service.updates| == |s0.service.updates| + 2 &&
                                 s.service.updates[|s0.service.updates|].status == ServiceRunning &&
                                 s.service.updates[|s.service.updates| - 1] == md)
  {
    var (running, early) := SetAndSend(s0.service, ServiceRunning, hasCallback);
    if !early {
      AfterRunningOutcome(s0.(service := running), w, hasCallback);
    }
  }

  /** A new job given the update callback never validates anything: its first update raises. */
  lemma CallbackJobFails(w: DatasetWorld)
    ensures var (s, ok, message) := NewServiceRun(DatasetState(InitialServiceState, [], None), w, true);
      !ok && message == NoResultName && s.service.metadata.status == ServiceError &&
      s.service.metadata.result == Some(NoResult) && |s.service.updates| == 1 && s.dataInstance == None
  {
  }

  /**
   * Every invalid outcome is `Rejected` with the message returned: the
   * controller's message for a missing instance, the validation message, or
   * "Dataset is empty".
   */
  lemma NewServiceRejections(s0: DatasetState, w: DatasetWorld, hasCallback: bool)
    ensures var (s, ok, message) := NewServiceRun(s0, w, hasCallback);
      var (running, early) := SetAndSend(s0.service, ServiceRunning, hasCallback);
      (early ==> message == NoResultName && s.service == Raised(running, message, hasCallback)) &&
      (!early && w.instance.None? ==> message == w.loadMessage && s.service == Rejected(running, message, hasCallback)) &&
      (!early && w.instance.Some? && w.validation.Validated? && !w.validation.ok ==>
        message == w.validation.message && s.service == Rejected(running, message, hasCallback)) &&
      (!early && w.instance.Some? && w.validation == Validated(true, w.validation.message) && w.labels == [] ==>
        message == DatasetEmpty && s.service == Rejected(running, message, hasCallback))
  {
  }

  /** A rejection records a DAT warning exactly when its message is not empty, and ends DONE / INVALID. */
  lemma RejectedRecords(s: ServiceState, message: string, hasCallback: bool)
    ensures var r := Rejected(s, message, hasCallback);
      r.metadata.status == Done && r.metadata.result == Some(Invalid) &&
      (message == "" ==> r.errors == s.errors) &&
      (message != "" ==> |r.errors| == |s.errors| + 1 && r.errors[..|s.errors|] == s.errors &&
                         r.errors[|s.errors|].category == UnsupportedData &&
                         r.errors[|s.errors|].description == JsonUtils.ScanForSingleQuotes(message))
  {
    JobWarningRecorded("DAT", DataWarningCode, message, Component);
    if message != "" {
      assert (s.errors + [DataWarning(message).value])[..|s.errors|] == s.errors;
    }
  }

  class ValidateDataset {
    const messageId: string
    const taskType: TaskType
    const hasUpdateCallback: bool
    const serviceArguments: ValidateDatasetArgument.DatasetArgumentParser

    var metadata: ServiceMetadata
    var errors: seq<Error>
    var updates: seq<ServiceMetadata>
    var jsonArray: seq<Column>
    var dataInstance: Option<Handle>

    ghost function State(): DatasetState
      reads this
    {
      DatasetState(ServiceState(metadata, errors, updates), jsonArray, dataInstance)
    }

    constructor (messageId: string, validationSchemasFolder: string, taskType: TaskType, hasUpdateCallback: bool)
      ensures State() == DatasetState(InitialServiceState, [], None)
      ensures this.messageId == messageId && this.taskType == taskType && this.hasUpdateCallback == hasUpdateCallback
      ensures fresh(serviceArguments) && serviceArguments.id == NoneField && serviceArguments.dataPath == NoneField
    {
      this.messageId := messageId;
      this.taskType := taskType;
      this.hasUpdateCallback := hasUpdateCallback;
      serviceArguments := new ValidateDatasetArgument.DatasetArgumentParser(validationSchemasFolder);
      metadata := InitialServiceMetadata;
      errors := [];
      updates := [];
      jsonArray := [];
      dataInstance := None;
    }

    /** `get_id`. */
    function GetId(): Field
      reads this, serviceArguments
    {
      serviceArguments.id
    }

    /** `add_error_to_list` on the job's error list. */
    method AddErrorToList(category: string, code: string, text: string)
      modifies this
      ensures State() == old(State()).(service := Recorded(old(State()).service, JobWarning(category, code, text, Component)))
    {
      errors := Appended(errors, JobWarning(category, code, text, Component));
    }

    /** `_set_and_send_service_status`; true where formatting the update raised. */
    method SetAndSendServiceStatus(status: ServiceStatus) returns (raised: bool)
      modifies this
      ensures State() == old(State()).(service := SetAndSend(old(State()).service, status, hasUpdateCallback).0)
      ensures raised == SetAndSend(old(State()).service, status, hasUpdateCallback).1
    {
      metadata := metadata.(status := status);
      raised := SendRaises(metadata, hasUpdateCallback);
      if hasUpdateCallback && !raised {
        updates := updates + [metadata];
      }
    }

    /** `_set_service_failure`. */
    method SetServiceFailure()
      modifies this
      ensures State() == old(State()).(service := ServiceFailure(old(State()).service, hasUpdateCallback))
    {
      metadata := metadata.(errorMessages := ErrorListJson(errors), result := Some(NoResult));
      var _ := SetAndSendServiceStatus(ServiceError);
    }

    /** `_set_file_invalid`. */
    method SetFileInvalid()
      modifies this
      ensures State() == old(State()).(service := FileInvalid(old(State()).service, hasUpdateCallback))
    {
      metadata := metadata.(errorMessages := ErrorListJson(errors), result := Some(Invalid));
      var _ := SetAndSendServiceStatus(Done);
    }

    /** `_set_file_valid`. */
    method SetFileValid()
      modifies this
      ensures State() == old(State()).(service := FileValid(old(State()).service, hasUpdateCallback))
    {
      metadata := metadata.(errorMessages := NoErrorMessages, result := Some(Valid));
      var _ := SetAndSendServiceStatus(Done);
    }

    /** Append one column entry per label, in order. */
    method AppendColumns(labels: seq<(string, string)>)
      modifies this
      ensures State() == old(State()).(jsonArray := old(jsonArray) + ColumnsOf(labels))
    {
      ghost var columns := ColumnsOf(labels);
      var i := 0;
      while i < |labels|
        invariant 0 <= i <= |labels|
        invariant jsonArray == old(jsonArray) + columns[..i]
        invariant metadata == old(metadata) && errors == old(errors) && updates == old(updates)
        invariant dataInstance == old(dataInstance)
      {
        assert columns[..i + 1] == columns[..i] + [Column(labels[i].0, labels[i].1)];
        jsonArray := jsonArray + [Column(labels[i].0, labels[i].1)];
        i := i + 1;
      }
      assert columns[..i] == columns;
    }

    /** `_process_new_service`. */
    method ProcessNewService(w: DatasetWorld) returns (isSuccess: bool, errorMessages: string)
      modifies this
      ensures (State(), isSuccess, errorMessages) == NewServiceRun(old(State()), w, hasUpdateCallback)
    {
      var raised := SetAndSendServiceStatus(ServiceRunning);
      if raised {
        errorMessages := NoResultName;
        AddErrorToList("SYS", SystemWarningCode, ServiceTerminatedPrefix + errorMessages);
        isSuccess := false;
        SetServiceFailure();
        return;
      }
      dataInstance := w.instance;
      if w.instance.None? {
        errorMessages := w.loadMessage;
        AddErrorToList("DAT", DataWarningCode, errorMessages);
        isSuccess := true;
        SetFileInvalid();
        return;
      }
      match w.validation {
        case ValidationRaised(m) =>
          errorMessages := m;
          AddErrorToList("SYS", SystemWarningCode, ServiceTerminatedPrefix + errorMessages);
          isSuccess := false;
          SetServiceFailure();
        case Validated(isDataValid, validationErrorMessage) =>
          if !isDataValid {
            errorMessages := validationErrorMessage;
            AddErrorToList("DAT", DataWarningCode, errorMessages);
            isSuccess := true;
            SetFileInvalid();
          } else if w.labels == [] {
            errorMessages := DatasetEmpty;
            AddErrorToList("DAT", DataWarningCode, errorMessages);
            isSuccess := true;
            SetFileInvalid();
          } else {
            AppendColumns(w.labels);
            if w.serializerType.None? {
              errorMessages := NoSerializerType;
              AddErrorToList("SYS", SystemWarningCode, ServiceTerminatedPrefix + errorMessages);
              isSuccess := false;
              SetServiceFailure();
            } else {
              metadata := metadata.(schema := Columns(jsonArray), serializerType := w.serializerType, dataFormat := Some(w.dataFormat));
              isSuccess, errorMessages := true, "";
              SetFileValid();
            }
          }
      }
    }

    /** `_process_pending_service`. */
    method ProcessPendingService(idText: string) returns (isSuccess: bool, errorMessages: string)
      modifies this
      ensures State() == old(State()).(service := PendingServiceRun(old(State()).service, idText, Component, hasUpdateCallback))
      ensures isSuccess && errorMessages == ""
    {
      AddErrorToList("SYS", SystemWarningCode, ServiceTerminatedPrefix + idText);
      SetServiceFailure();
      return true, "";
    }

    /**
     * `process`: parse; a parsed PENDING job is closed, a parsed NEW job runs;
     * a failed parse records a terminated-service warning and sets no status,
     * so the metadata stays INIT. `show` is `str()` of a non-string id.
     */
    method Process(schema: SchemaFile, args: ArgsInput<ValidateDatasetArgument.DatasetPayload>,
                   schemaAccepts: ValidateDatasetArgument.DatasetPayload -> bool, isFile: string -> bool,
                   w: DatasetWorld, show: Field -> string) returns (r: ParseOutcome)
      modifies this, serviceArguments
      ensures var (parsed, id, path) := ValidateDatasetArgument.ParseEffect(old(serviceArguments.id), old(serviceArguments.dataPath), schema, args, schemaAccepts, isFile);
        serviceArguments.id == id && serviceArguments.dataPath == path &&
        (parsed.Raised? ==> r == Raised && State() == old(State())) &&
        (parsed.Returned? && !parsed.ok ==>
          r == parsed && State() == old(State()).(service := ParseFailure(old(State()).service, parsed.message))) &&
        (parsed.Returned? && parsed.ok && taskType == Pending ==>
          r == Returned(true, "") &&
          State() == old(State()).(service := PendingServiceRun(old(State()).service, PyStr(id, show(id)), Component, hasUpdateCallback))) &&
        (parsed.Returned? && parsed.ok && taskType == New ==>
          var run := NewServiceRun(old(State()), w, hasUpdateCallback);
          r == Returned(run.1, run.2) && State() == run.0)
    {
      var parsed := serviceArguments.Parse(schema, args, schemaAccepts, isFile);
      if parsed.Raised? {
        return Raised;
      }
      if parsed.ok {
        if taskType == Pending {
          var ok, message := ProcessPendingService(PyStr(serviceArguments.id, show(serviceArguments.id)));
          return Returned(ok, message);
        } else {
          var ok, message := ProcessNewService(w);
          return Returned(ok, message);
        }
      }
      AddErrorToList("SYS", SystemWarningCode, ServiceTerminatedPrefix + parsed.message);
      return parsed;
    }
  }
}
