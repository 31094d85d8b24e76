/**
 * The response a task sends with every update
 * (test_engine_app/processing/task_formatter.py): an ERROR task sends its
 * raw results and its error messages, any other task its results with numpy
 * values converted. The status is sent in initial case ("Success").
 */
module TaskFormat {
  import opened Enums
  import opened OrderedDict
  import opened ErrorRecord
  import opened ErrorManagement
  import JsonUtils
  import TaskProcessing

  /**
   * A response value: text, a whole number, the raw results, the results
   * sent as their `json.dumps` text, or the error messages.
   */
  datatype TaskField =
    | Text(s: string)
    | Number(n: int)
    | RawOutput(results: TaskProcessing.Results)
    | JsonOutput(value: JsonUtils.Value)
    | Messages(m: ErrorMessages)

  type Response = Dict<TaskField>

  const TypeKey: string := "type"
  const StatusKey: string := "status"
  const ElapsedKey: string := "elapsedTime"
  const StartKey: string := "startTime"
  const OutputKey: string := "output"
  const MessagesKey: string := "errorMessages"
  const LogKey: string := "logFile"
  const ProgressKey: string := "taskProgress"
  const ResponseType: string := "TaskResponse"

  /** ASCII `str.upper()` of one character. */
  function UpperChar(c: char): (r: char)
    ensures 'a' <= c <= 'z' ==> r as int == c as int - 32
    ensures !('a' <= c <= 'z') ==> r == c
  {
    if 'a' <= c <= 'z' then (c as int - 32) as char else c
  }

  /** `_get_initial_case`: lower-case, then the first character upper-cased (an empty string raises, so none is passed). */
  function InitialCase(s: string): (r: string)
    requires |s| > 0
    ensures |r| == |s|
    ensures r[0] == UpperChar(Lower(s)[0])
    ensures r[1..] == Lower(s)[1..]
  {
    var lower := Lower(s);
    [UpperChar(lower[0])] + lower[1..]
  }

  /** Initial case is a fixed point: applying it twice is applying it once. */
  lemma InitialCaseIdempotent(s: string)
    requires |s| > 0
    ensures InitialCase(InitialCase(s)) == InitialCase(s)
  {
    var r := InitialCase(s);
    var rr := InitialCase(r);
    assert Lower(r)[0] == Lower(s)[0];
    assert forall i :: 1 <= i < |s| ==> Lower(r)[i] == r[i];
    assert forall i :: 1 <= i < |s| ==> rr[i] == r[i];
  }

  /** The status as sent: the member name of the status in initial case. */
  function StatusText(s: TaskStatus): (r: string)
    ensures |r| == |TaskStatusName(s)|
  {
    InitialCase(TaskStatusName(s))
  }

  /** The statuses as sent: "Pending", "Running", "Success", "Error", "Cancelled". */
  lemma SuccessText()
    ensures StatusText(TaskSuccess) == "Success"
  {
    var l := Lower(SuccessName);
    assert l == [l[0], l[1], l[2], l[3], l[4], l[5], l[6]];
  }

  lemma PendingText()
    ensures StatusText(TaskPending) == "Pending"
  {
    var l := Lower(PendingName);
    assert l == [l[0], l[1], l[2], l[3], l[4], l[5], l[6]];
  }

  lemma RunningText()
    ensures StatusText(TaskRunning) == "Running"
  {
    var l := Lower(RunningName);
    assert l == [l[0], l[1], l[2], l[3], l[4], l[5], l[6]];
  }

  lemma ErrorText()
    ensures StatusText(TaskError) == "Error"
  {
  }

  lemma CancelledText()
    ensures StatusText(TaskCancelled) == "Cancelled"
  {
    var l := Lower(CancelledName);
    assert l == [l[0], l[1], l[2], l[3], l[4], l[5], l[6], l[7], l[8]];
  }

  /**
   * What `remove_numpy_formats` is given: the results, or the empty text the
   * metadata holds when there are none (its initial value, and the value a
   * failed or cancelled task is given).
   */
  function ResultsValue(r: TaskProcessing.Results): JsonUtils.Value {
    if r.NoResults? then JsonUtils.Str("") else r.value
  }

  /**
   * `format_response`; `elapsedTime` and `startTime` stand for the metadata's
   * clock fields (the start time as its ISO text).
   */
  function FormatResponse(md: TaskProcessing.TaskMetadata, elapsedTime: int, startTime: string, logFile: string): Response {
    var head := [(TypeKey, Text(ResponseType)), (StatusKey, Text(StatusText(md.status))),
                 (ElapsedKey, Number(elapsedTime)), (StartKey, Text(startTime))];
    if md.status == TaskError then
      head + [(OutputKey, RawOutput(md.results)), (MessagesKey, Messages(md.errorMessages)), (LogKey, Text(logFile)),
              (ProgressKey, Number(md.percentage))]
    else
      head + [(OutputKey, JsonOutput(JsonUtils.RemoveNumpyFormats(ResultsValue(md.results)))), (LogKey, Text(logFile)),
              (ProgressKey, Number(md.percentage))]
  }

  /** An ERROR task sends its raw results and its error messages, then the log file and the progress. */
  lemma ErrorResponseKeys(md: TaskProcessing.TaskMetadata, elapsedTime: int, startTime: string, logFile: string)
    requires md.status == TaskError
    ensures var r := FormatResponse(md, elapsedTime, startTime, logFile);
      |r| == 8 && r[0] == (TypeKey, Text(ResponseType)) && r[1] == (StatusKey, Text(StatusText(md.status))) &&
      r[2] == (ElapsedKey, Number(elapsedTime)) && r[3] == (StartKey, Text(startTime)) &&
      r[4] == (OutputKey, RawOutput(md.results)) && r[5] == (MessagesKey, Messages(md.errorMessages)) &&
      r[6] == (LogKey, Text(logFile)) && r[7] == (ProgressKey, Number(md.percentage))
  {
  }

  /** Any other task sends no error messages; its output is its results with numpy values converted. */
  lemma ResponseKeys(md: TaskProcessing.TaskMetadata, elapsedTime: int, startTime: string, logFile: string)
    requires md.status != TaskError
    ensures var r := FormatResponse(md, elapsedTime, startTime, logFile);
      |r| == 7 && r[0] == (TypeKey, Text(ResponseType)) && r[1] == (StatusKey, Text(StatusText(md.status))) &&
      r[2] == (ElapsedKey, Number(elapsedTime)) && r[3] == (StartKey, Text(startTime)) &&
      r[4] == (OutputKey, JsonOutput(JsonUtils.RemoveNumpyFormats(ResultsValue(md.results)))) &&
      r[5] == (LogKey, Text(logFile)) && r[6] == (ProgressKey, Number(md.percentage))
  {
    var head := [(TypeKey, Text(ResponseType)), (StatusKey, Text(StatusText(md.status))),
                 (ElapsedKey, Number(elapsedTime)), (StartKey, Text(startTime))];
    var out := JsonUtils.RemoveNumpyFormats(ResultsValue(md.results));
    var tail := [(OutputKey, JsonOutput(out)), (LogKey, Text(logFile)), (ProgressKey, Number(md.percentage))];
    assert FormatResponse(md, elapsedTime, startTime, logFile) == head + tail;
  }

  /** The output of a task that is not in ERROR holds no numpy value, so `json.dumps` can write it. */
  lemma OutputPlain(md: TaskProcessing.TaskMetadata, elapsedTime: int, startTime: string, logFile: string)
    requires md.status != TaskError
    ensures FormatResponse(md, elapsedTime, startTime, logFile)[4].1.JsonOutput?
    ensures JsonUtils.Plain(FormatResponse(md, elapsedTime, startTime, logFile)[4].1.value)
  {
    JsonUtils.RemoveNumpyFormatsPlain(ResultsValue(md.results));
  }

  /** Formatting the converted results again sends the same output: the conversion is idempotent. */
  lemma OutputStable(md: TaskProcessing.TaskMetadata, elapsedTime: int, startTime: string, logFile: string)
    requires md.status != TaskError
    ensures var out := FormatResponse(md, elapsedTime, startTime, logFile)[4].1.value;
      var again := md.(results := TaskProcessing.ResultsOf(out));
      FormatResponse(again, elapsedTime, startTime, logFile) == FormatResponse(md, elapsedTime, startTime, logFile)
  {
    JsonUtils.Idempotent(ResultsValue(md.results));
  }

  /**
   * A task with no results sends the JSON encoding of the empty text (`""`)
   * as its output unless it is in ERROR, where it sends the empty text as it is.
   */
  lemma NoResultsOutput(md: TaskProcessing.TaskMetadata, elapsedTime: int, startTime: string, logFile: string)
    requires md.results.NoResults?
    ensures md.status != TaskError ==> FormatResponse(md, elapsedTime, startTime, logFile)[4].1 == JsonOutput(JsonUtils.Str(""))
    ensures md.status == TaskError ==> FormatResponse(md, elapsedTime, startTime, logFile)[4].1 == RawOutput(TaskProcessing.NoResults)
  {
    JsonUtils.ScalarsUnchanged(JsonUtils.Str(""));
  }
}
