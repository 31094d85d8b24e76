/**
 * The response a validation job sends when it finishes
 * (test_engine_app/processing/service_formatter.py): an ERROR job reports
 * its error messages; a VALID one its serializer and data or model format;
 * any other its error messages. Enum values are sent as their lower-case
 * member names.
 */
module ServiceFormat {
  import opened Wrappers
  import opened Enums
  import opened OrderedDict
  import opened ErrorRecord
  import opened ErrorManagement
  import opened ServiceRecords
  import DatasetValidation
  import ModelValidation

  /** A response value: text, the error messages, or the column schema (sent as its `json.dumps` text). */
  datatype ServiceField = Text(s: string) | Messages(m: ErrorMessages) | ColumnsText(schema: Schema)

  type Response = Dict<ServiceField>

  const TypeKey: string := "type"
  const StatusKey: string := "status"
  const ResultKey: string := "validationResult"
  const MessagesKey: string := "errorMessages"
  const LogKey: string := "logFile"
  const SerializerKey: string := "serializedBy"
  const DataFormatKey: string := "dataFormat"
  const ColumnsKey: string := "columns"
  const ModelFormatKey: string := "modelFormat"
  const ResponseType: string := "ServiceResponse"
  /** What the corrected formatter sends for an enum field still unset. */
  const UnsetName: string := "none"

  /** `.name.lower()` of a set enum field; None where the field is unset and `.name` raises. */
  function NameOf(name: Option<string>): Option<string> {
    if name.None? then None else Some(Lower(name.value))
  }

  function ResultName(r: Option<ServiceResult>): Option<string> {
    if r.None? then None else Some(ServiceResultName(r.value))
  }

  /** The response of an ERROR job and of a job that is not VALID. */
  function ReportResponse(md: ServiceMetadata, result: string, logFile: string): Response {
    [(TypeKey, Text(ResponseType)), (StatusKey, Text(Lower(ServiceStatusName(md.status)))), (ResultKey, Text(result)),
     (MessagesKey, Messages(md.errorMessages)), (LogKey, Text(logFile))]
  }

  /** The response of a VALID job: dataset validation adds data format and columns, model validation the model format. */
  function ValidResponse(kind: ServiceType, md: ServiceMetadata, result: string, serializer: string, format: string, logFile: string): Response {
    var head := [(TypeKey, Text(ResponseType)), (StatusKey, Text(Lower(ServiceStatusName(md.status)))), (ResultKey, Text(result)),
                 (SerializerKey, Text(serializer))];
    if kind == ValidateDatasetService then
      head + [(DataFormatKey, Text(format)), (ColumnsKey, ColumnsText(md.schema)), (LogKey, Text(logFile))]
    else
      head + [(ModelFormatKey, Text(format)), (LogKey, Text(logFile))]
  }

  /** The format field the response of `kind` carries. */
  function FormatOf(kind: ServiceType, md: ServiceMetadata): Option<string> {
    if kind == ValidateDatasetService then md.dataFormat else md.modelFormat
  }

  /**
   * `format_dataset_validation_response` and `format_model_validation_response`
   * as written: None where reading `.name` of an unset field raises an
   * AttributeError.
   */
  function FormatAsWritten(kind: ServiceType, md: ServiceMetadata, logFile: string): Option<Response> {
    var result := ResultName(md.result);
    if md.status == ServiceError || md.result != Some(Valid) then
      if result.None? then None else Some(ReportResponse(md, Lower(result.value), logFile))
    else
      var serializer := NameOf(md.serializerType);
      var format := NameOf(FormatOf(kind, md));
      if serializer.None? || format.None? then None
      else Some(ValidResponse(kind, md, Lower(result.value), serializer.value, format.value, logFile))
  }

  /** An unset field sent as "none", the name of the `NONE` member. */
  function NameOrUnset(name: Option<string>): (r: string)
    ensures name.Some? ==> r == Lower(name.value)
    ensures name.None? ==> r == UnsetName
  {
    if name.None? then UnsetName else Lower(name.value)
  }

  /** The formatters with every unset enum field sent as "none": a response for every metadata. */
  function Format(kind: ServiceType, md: ServiceMetadata, logFile: string): Response {
    var result := NameOrUnset(ResultName(md.result));
    if md.status == ServiceError || md.result != Some(Valid) then ReportResponse(md, result, logFile)
    else ValidResponse(kind, md, result, NameOrUnset(md.serializerType), NameOrUnset(FormatOf(kind, md)), logFile)
  }

  /**
   * The formatter as written raises exactly when the result is unset, or
   * when a job that is not ERROR is VALID without a serializer type or
   * without its format.
   */
  lemma FormatAsWrittenRaises(kind: ServiceType, md: ServiceMetadata, logFile: string)
    ensures FormatAsWritten(kind, md, logFile).None? <==>
      md.result.None? ||
      (md.status != ServiceError && md.result == Some(Valid) && (md.serializerType.None? || FormatOf(kind, md).None?))
  {
  }

  /**
   * Before a job is VALID, formatting its metadata for the update callback
   * raises exactly as `SendRaises` says: where the result is unset.
   */
  lemma SendRaisesAgrees(kind: ServiceType, md: ServiceMetadata, logFile: string)
    requires md.result != Some(Valid)
    ensures FormatAsWritten(kind, md, logFile).None? <==> SendRaises(md, true)
  {
    FormatAsWrittenRaises(kind, md, logFile);
  }

  /**
   * `SendRaises` misses no raise of a dataset job: every update the job
   * sends, from a record not yet VALID, can be formatted as written.
   */
  lemma DatasetUpdatesFormat(s0: DatasetValidation.DatasetState, w: DatasetValidation.DatasetWorld, hasCallback: bool, logFile: string)
    requires s0.service.metadata.result != Some(Valid)
    ensures var s := DatasetValidation.NewServiceRun(s0, w, hasCallback).0;
      |s0.service.updates| <= |s.service.updates| &&
      forall k :: |s0.service.updates| <= k < |s.service.updates| ==>
        FormatAsWritten(ValidateDatasetService, s.service.updates[k], logFile).Some?
  {
  }

  /** Where the formatter as written answers, the corrected one gives the same response. */
  lemma FormatAgrees(kind: ServiceType, md: ServiceMetadata, logFile: string)
    ensures FormatAsWritten(kind, md, logFile).Some? ==> FormatAsWritten(kind, md, logFile).value == Format(kind, md, logFile)
  {
    var result := ResultName(md.result);
    if result.Some? {
      LowerIdempotent(result.value);
    }
  }

  /** ASCII lower-casing twice is lower-casing once. */
  lemma LowerIdempotent(s: string)
    ensures Lower(Lower(s)) == Lower(s)
  {
    assert forall i :: 0 <= i < |s| ==> Lower(Lower(s))[i] == Lower(s)[i];
  }

  /**
   * The keys of a response, in order: type, status and validationResult
   * always lead and logFile always ends; errorMessages is sent exactly when
   * the job is ERROR or not VALID, serializedBy and the format otherwise, and
   * columns only for a VALID dataset.
   */
  lemma ResponseKeys(kind: ServiceType, md: ServiceMetadata, logFile: string)
    ensures var r := Format(kind, md, logFile);
      var report := md.status == ServiceError || md.result != Some(Valid);
      (report ==> Keys(r) == [TypeKey, StatusKey, ResultKey, MessagesKey, LogKey] && r[3].1 == Messages(md.errorMessages)) &&
      (!report && kind == ValidateDatasetService ==>
        Keys(r) == [TypeKey, StatusKey, ResultKey, SerializerKey, DataFormatKey, ColumnsKey, LogKey] && r[5].1 == ColumnsText(md.schema)) &&
      (!report && kind == ValidateModelService ==> Keys(r) == [TypeKey, StatusKey, ResultKey, SerializerKey, ModelFormatKey, LogKey]) &&
      r[0].1 == Text(ResponseType) && r[1].1 == Text(Lower(ServiceStatusName(md.status))) &&
      r[|r| - 1].1 == Text(logFile)
  {
    var result := NameOrUnset(ResultName(md.result));
    var r := Format(kind, md, logFile);
    if md.status == ServiceError || md.result != Some(Valid) {
      assert r == ReportResponse(md, result, logFile);
      ReportKeys(md, result, logFile);
    } else {
      var serializer, format := NameOrUnset(md.serializerType), NameOrUnset(FormatOf(kind, md));
      assert r == ValidResponse(kind, md, result, serializer, format, logFile);
      ValidKeys(kind, md, result, serializer, format, logFile);
    }
  }

  lemma ReportKeys(md: ServiceMetadata, result: string, logFile: string)
    ensures var r := ReportResponse(md, result, logFile);
      Keys(r) == [TypeKey, StatusKey, ResultKey, MessagesKey, LogKey] && r[3].1 == Messages(md.errorMessages) &&
      r[0].1 == Text(ResponseType) && r[1].1 == Text(Lower(ServiceStatusName(md.status))) && r[|r| - 1].1 == Text(logFile)
  {
    var r := ReportResponse(md, result, logFile);
    assert Keys(r)[0] == TypeKey && Keys(r)[1] == StatusKey && Keys(r)[2] == ResultKey;
    assert Keys(r)[3] == MessagesKey && Keys(r)[4] == LogKey;
  }

  lemma ValidKeys(kind: ServiceType, md: ServiceMetadata, result: string, serializer: string, format: string, logFile: string)
    ensures var r := ValidResponse(kind, md, result, serializer, format, logFile);
      (kind == ValidateDatasetService ==>
        Keys(r) == [TypeKey, StatusKey, ResultKey, SerializerKey, DataFormatKey, ColumnsKey, LogKey] && r[5].1 == ColumnsText(md.schema)) &&
      (kind == ValidateModelService ==> Keys(r) == [TypeKey, StatusKey, ResultKey, SerializerKey, ModelFormatKey, LogKey]) &&
      r[0].1 == Text(ResponseType) && r[1].1 == Text(Lower(ServiceStatusName(md.status))) && r[|r| - 1].1 == Text(logFile)
  {
    var r := ValidResponse(kind, md, result, serializer, format, logFile);
    assert Keys(r)[0] == TypeKey && Keys(r)[1] == StatusKey && Keys(r)[2] == ResultKey && Keys(r)[3] == SerializerKey;
    if kind == ValidateDatasetService {
      assert Keys(r)[4] == DataFormatKey && Keys(r)[5] == ColumnsKey && Keys(r)[6] == LogKey;
    } else {
      assert Keys(r)[4] == ModelFormatKey && Keys(r)[5] == LogKey;
    }
  }

  /** A job that never got past INIT cannot be formatted as written; the corrected response says "none". */
  lemma InitialResponse(kind: ServiceType, logFile: string)
    ensures FormatAsWritten(kind, InitialServiceMetadata, logFile).None?
    ensures Format(kind, InitialServiceMetadata, logFile) == ReportResponse(InitialServiceMetadata, UnsetName, logFile)
  {
  }

  /**
   * A job whose message fails to parse is left at INIT with no result, so
   * the response the worker formats for it raises.
   */
  lemma ParseFailureNotFormattable(message: string, logFile: string)
    ensures FormatAsWritten(ValidateDatasetService, DatasetValidation.ParseFailure(InitialServiceState, message).metadata, logFile).None?
    ensures FormatAsWritten(ValidateModelService, ModelValidation.ParseFailure(InitialServiceState, message).metadata, logFile).None?
  {
    InitialResponse(ValidateDatasetService, logFile);
    InitialResponse(ValidateModelService, logFile);
  }

  /** Every dataset job that ran, new or pending, can be formatted as written. */
  lemma FinishedDatasetJobsFormat(s0: DatasetValidation.DatasetState, w: DatasetValidation.DatasetWorld, idText: string,
                                  hasCallback: bool, logFile: string)
    ensures FormatAsWritten(ValidateDatasetService, DatasetValidation.NewServiceRun(s0, w, hasCallback).0.service.metadata, logFile).Some?
    ensures FormatAsWritten(ValidateDatasetService, PendingServiceRun(s0.service, idText, DatasetValidation.Component, hasCallback).metadata, logFile).Some?
  {
  }

  /**
   * A recognised API model ends VALID without a serializer: the formatter as
   * written raises on it, the corrected one sends "serializedBy": "none".
   */
  lemma ApiModelResponse(s0: ModelValidation.ModelState, w: ModelValidation.ModelWorld, hasCallback: bool, logFile: string)
    requires w.instance.Some? && w.serializerType.None?
    ensures var md := ModelValidation.NewServiceRun(s0, w, hasCallback).0.service.metadata;
      FormatAsWritten(ValidateModelService, md, logFile).None? &&
      Format(ValidateModelService, md, logFile)[3] == (SerializerKey, Text(UnsetName))
  {
  }
}
