/**
 * One algorithm job (test_engine_app/processing/task.py): parse the task
 * message, then either close a task left pending by a stopped worker, or run
 * a new one: load data, model, ground truth and algorithm, run the algorithm
 * in a child process, check its results, and record the terminal state.
 *
 * What the plugins, the child process and its result queue do is an input
 * (`TaskWorld`); the task's own state changes are methods of `Task`, each
 * proved against a state-to-state function on `TaskState`.
 */
module TaskProcessing {
  import opened Wrappers
  import opened Enums
  import opened Arguments
  import opened Plugins
  import opened ErrorRecord
  import opened ErrorManagement
  import JsonUtils
  import ValidationChecks
  import PluginControl
  import TaskArgument

  /** `results`: "" until a success stores the checked results. */
  datatype Results = NoResults | ResultsOf(value: JsonUtils.Value)

  /** `TaskMetadata` without its clock fields. */
  datatype TaskMetadata = TaskMetadata(percentage: int, status: TaskStatus, results: Results, errorMessages: ErrorMessages)

  /** `TaskMetadata()`: 0 %, PENDING, no results, no error messages. */
  const InitialMetadata: TaskMetadata := TaskMetadata(0, TaskPending, NoResults, NoErrorMessages)

  /** The instance fields of a task. */
  datatype Instances = Instances(data: Option<Handle>, model: Option<Handle>, groundTruth: Option<Handle>, algorithm: Option<Handle>)

  const NoInstances: Instances := Instances(None, None, None, None)

  /** A call the task makes on a plugin instance or on its child process. */
  datatype PluginCall =
    | Setup(instance: Handle)
    | KeepGroundTruth(instance: Handle, column: Field)
    | RemoveGroundTruth(instance: Handle, column: Field)
    | Cleanup(instance: Handle)
    | Terminate

  /** What `setup()` of an instance returns. */
  datatype SetupResult = SetupResult(ok: bool, message: string)

  /** What the result queue holds after the child process ends: nothing, or `(True, results)` / `(False, str(exception))`. */
  datatype RunOutcome = ChannelEmpty | Generated(output: JsonUtils.Value) | GenerateFailed(message: string)

  /**
   * What the task meets while it runs: the instances the plugin controller
   * returns, what their `setup()` and `keep_ground_truth` return, whether a
   * cancel arrives while the task runs, what the child process leaves in the
   * queue, and the algorithm's output schema.
   */
  datatype TaskWorld = TaskWorld(
    data: Option<Handle>,
    dataSetup: SetupResult,
    model: Option<Handle>,
    modelSetup: SetupResult,
    groundTruth: Option<Handle>,
    groundTruthSetup: SetupResult,
    keepsGroundTruth: bool,
    algorithm: Option<Handle>,
    cancelRequested: bool,
    run: RunOutcome,
    outputSchemaAccepts: JsonUtils.Value -> bool)

  /** The fields of a `Task` that its methods change, in one value. */
  datatype TaskState = TaskState(
    metadata: TaskMetadata,
    toCancel: bool,
    processStored: bool,
    instances: Instances,
    /** The task logger's error list. */
    errors: seq<Error>,
    /** What the update callback was sent, oldest first. */
    updates: seq<TaskMetadata>,
    /** The calls made on plugin instances and the child process, oldest first. */
    calls: seq<PluginCall>)

  const InitialState: TaskState := TaskState(InitialMetadata, false, false, NoInstances, [], [], [])

  const NoDataInstance: string := "Unable to get data instance"
  const DataSetupPrefix: string := "Unable to setup data instance: "
  const NoModelInstance: string := "Unable to get model instance"
  const ModelSetupPrefix: string := "Unable to setup model instance: "
  const NoGroundTruthInstance: string := "Unable to get ground truth instance"
  const GroundTruthSetupPrefix: string := "Unable to setup ground truth instance: "
  const NoGroundTruthData: string := "Unable to get ground truth data"
  const NoAlgorithmInstance: string := "Unable to get algorithm instance"
  /** The AttributeError text when the task has no algorithm information. */
  const NoAlgorithmInformation: string := "'NoneType' object has no attribute 'get_algorithm_require_ground_truth'"
  const UserCancelled: string := "User cancelled"
  const NoResultsGenerated: string := "Algorithm generate no results."
  const ForcefullyTerminated: string := "Forcefully terminated"
  const InvalidTypePrefix: string := "Invalid type for results: "
  const FailedSchemaValidation: string := "Failed schema validation"
  const TerminatedPrefix: string := "Task Terminated: "

  /** The error every terminated task records: SYS / WSYSx00002 / Warning / System / task.py. */
  function TerminatedError(text: string): Error {
    Error(SystemError, "WSYSx00002", JsonUtils.ScanForSingleQuotes(TerminatedPrefix + text), Warning, SystemErrorOrigin, "task.py")
  }

  /** `add_error_to_list("SYS", "WSYSx00002", f"Task Terminated: {text}", "Warning", "System", "task.py")` appends exactly that error. */
  lemma TerminatedErrorIsAdded(text: string)
    ensures ErrorManagement.NewError("SYS", Some("WSYSx00002"), Some(TerminatedPrefix + text), "Warning", "System", Some("task.py"))
      == Some(TerminatedError(text))
  {
    assert (TerminatedPrefix + text)[0] == 'T';
  }

  /** `type(x).__name__` of a converted result. */
  function TypeName(v: JsonUtils.Value): string {
    match v
    case PyNone => "NoneType"
    case Bool(_) => "bool"
    case Int(_) => "int"
    case Float(_) => "float"
    case Str(_) => "str"
    case NumpyInt(_) => "int64"
    case NumpyFloat(_) => "float64"
    case NdArray(_) => "ndarray"
    case List(_) => "list"
    case Dict(_) => "dict"
    case Other(name) => name
  }

  /** `_verify_task_results`: accepted exactly when the results are a dict that the output schema accepts. */
  function VerifyTaskResults(taskResult: JsonUtils.Value, outputSchemaAccepts: JsonUtils.Value -> bool): (r: (bool, string))
    ensures r.0 <==> taskResult.Dict? && outputSchemaAccepts(taskResult)
    ensures r.0 ==> r.1 == ""
    ensures !taskResult.Dict? ==> r.1 == InvalidTypePrefix + TypeName(taskResult)
    ensures taskResult.Dict? && !outputSchemaAccepts(taskResult) ==> r.1 == FailedSchemaValidation
  {
    if !taskResult.Dict? then (false, InvalidTypePrefix + TypeName(taskResult))
    else if !outputSchemaAccepts(taskResult) then (false, FailedSchemaValidation)
    else (true, "")
  }

  /**
   * What `_load_task_instances` ends with: its answer, the instance fields,
   * and every call made so far (those before the load first).
   */
  datatype LoadReport = LoadReport(ok: bool, message: string, instances: Instances, calls: seq<PluginCall>)

  /** The algorithm step, the last of `_load_task_instances`. */
  function AlgorithmStep(w: TaskWorld, prior: Instances, calls: seq<PluginCall>): LoadReport {
    var i := prior.(algorithm := w.algorithm);
    if w.algorithm.Some? then LoadReport(true, "", i, calls) else LoadReport(false, NoAlgorithmInstance, i, calls)
  }

  /**
   * The ground-truth step: get and set up the instance, keep the ground-truth
   * column in it and remove it from the data instance `data`, and only then
   * look at what keeping returned.
   */
  function GroundTruthStage(w: TaskWorld, data: Handle, groundTruth: Field, prior: Instances, priorCalls: seq<PluginCall>): LoadReport {
    var i := prior.(groundTruth := w.groundTruth);
    if w.groundTruth.None? then LoadReport(false, NoGroundTruthInstance, i, priorCalls)
    else
      var calls := priorCalls + [Setup(w.groundTruth.value)];
      if !w.groundTruthSetup.ok then LoadReport(false, GroundTruthSetupPrefix + w.groundTruthSetup.message, i, calls)
      else
        var kept := calls + [KeepGroundTruth(w.groundTruth.value, groundTruth), RemoveGroundTruth(data, groundTruth)];
        if !w.keepsGroundTruth then LoadReport(false, NoGroundTruthData, i, kept)
        else AlgorithmStep(w, i, kept)
  }

  /**
   * The model step, then the ground-truth step only when the algorithm
   * requires ground truth (reading that flag from absent algorithm
   * information raises).
   */
  function ModelStage(w: TaskWorld, data: Handle, info: Option<PluginControl.AlgorithmInfo>, groundTruth: Field,
                      prior: Instances, priorCalls: seq<PluginCall>): LoadReport {
    var i := prior.(model := w.model);
    if w.model.None? then LoadReport(false, NoModelInstance, i, priorCalls)
    else
      var calls := priorCalls + [Setup(w.model.value)];
      if !w.modelSetup.ok then LoadReport(false, ModelSetupPrefix + w.modelSetup.message, i, calls)
      else if info.None? then LoadReport(false, NoAlgorithmInformation, i, calls)
      else if info.value.requireGroundTruth then GroundTruthStage(w, data, groundTruth, i, calls)
      else AlgorithmStep(w, i.(groundTruth := None), calls)
  }

  /**
   * `_load_task_instances`: data, model, ground truth (only when the
   * algorithm requires it), then algorithm; each instance is set up as it
   * arrives, and the first one missing or failing ends the load.
   */
  function LoadPlan(w: TaskWorld, info: Option<PluginControl.AlgorithmInfo>, groundTruth: Field,
                    prior: Instances, priorCalls: seq<PluginCall>): LoadReport {
    var i := prior.(data := w.data);
    if w.data.None? then LoadReport(false, NoDataInstance, i, priorCalls)
    else
      var calls := priorCalls + [Setup(w.data.value)];
      if !w.dataSetup.ok then LoadReport(false, DataSetupPrefix + w.dataSetup.message, i, calls)
      else ModelStage(w, w.data.value, info, groundTruth, i, calls)
  }

  /** Whether the load needs ground truth: the algorithm information says so. */
  predicate NeedsGroundTruth(info: Option<PluginControl.AlgorithmInfo>) {
    info.Some? && info.value.requireGroundTruth
  }

  /**
   * Loading succeeds exactly when every step does, in the order data, model,
   * algorithm information, ground truth (if required), algorithm; a
   * successful load holds the instances it was given and says "".
   */
  lemma LoadSucceedsExactly(w: TaskWorld, info: Option<PluginControl.AlgorithmInfo>, groundTruth: Field, prior: Instances, priorCalls: seq<PluginCall>)
    ensures var r := LoadPlan(w, info, groundTruth, prior, priorCalls);
      (r.ok <==> w.data.Some? && w.dataSetup.ok && w.model.Some? && w.modelSetup.ok && info.Some? &&
                 (info.value.requireGroundTruth ==> w.groundTruth.Some? && w.groundTruthSetup.ok && w.keepsGroundTruth) &&
                 w.algorithm.Some?) &&
      (r.ok ==> r.instances == Instances(w.data, w.model, if NeedsGroundTruth(info) then w.groundTruth else None, w.algorithm) &&
                r.message == "")
  {
  }

  /** The first step that fails names itself, and nothing after it is asked for. */
  lemma LoadStopsAtFirstFailure(w: TaskWorld, info: Option<PluginControl.AlgorithmInfo>, groundTruth: Field, prior: Instances, priorCalls: seq<PluginCall>)
    ensures var r := LoadPlan(w, info, groundTruth, prior, priorCalls);
      (w.data.None? ==> r.message == NoDataInstance && r.calls == priorCalls && r.instances == prior.(data := None)) &&
      (w.data.Some? && !w.dataSetup.ok ==>
        r.message == DataSetupPrefix + w.dataSetup.message && r.calls == priorCalls + [Setup(w.data.value)] &&
        r.instances == prior.(data := w.data)) &&
      (w.data.Some? && w.dataSetup.ok && w.model.None? ==> r.message == NoModelInstance && r.instances.algorithm == prior.algorithm) &&
      (w.data.Some? && w.dataSetup.ok && w.model.Some? && !w.modelSetup.ok ==>
        r.message == ModelSetupPrefix + w.modelSetup.message && r.instances.algorithm == prior.algorithm) &&
      (w.data.Some? && w.dataSetup.ok && w.model.Some? && w.modelSetup.ok && info.None? ==>
        r.message == NoAlgorithmInformation && r.instances.algorithm == prior.algorithm)
  {
  }

  /**
   * Ground truth is touched only when the algorithm requires it: otherwise
   * the field is None and only setups are called. When it is required and
   * set up, `keep_ground_truth` on it and then `remove_ground_truth` on the
   * data run before the keep result is looked at.
   */
  lemma GroundTruthOnlyWhenRequired(w: TaskWorld, info: Option<PluginControl.AlgorithmInfo>, groundTruth: Field, prior: Instances, priorCalls: seq<PluginCall>)
    requires info.Some? && w.data.Some? && w.dataSetup.ok && w.model.Some? && w.modelSetup.ok
    ensures var r := LoadPlan(w, info, groundTruth, prior, priorCalls);
      (!info.value.requireGroundTruth ==>
        r.instances.groundTruth == None && r.calls == priorCalls + [Setup(w.data.value), Setup(w.model.value)]) &&
      (info.value.requireGroundTruth && w.groundTruth.Some? && w.groundTruthSetup.ok ==>
        r.calls == priorCalls + [Setup(w.data.value), Setup(w.model.value), Setup(w.groundTruth.value),
                                 KeepGroundTruth(w.groundTruth.value, groundTruth), RemoveGroundTruth(w.data.value, groundTruth)] &&
        (r.ok ==> w.keepsGroundTruth) && (!w.keepsGroundTruth ==> r.message == NoGroundTruthData))
  {
  }

  /** The calls loading makes: setups and the two ground-truth calls. */
  predicate LoadCall(c: PluginCall) {
    c.Setup? || c.KeepGroundTruth? || c.RemoveGroundTruth?
  }

  /** `calls` is `prior` followed by loading calls only. */
  predicate LoadExtends(prior: seq<PluginCall>, calls: seq<PluginCall>) {
    |prior| <= |calls| && calls[..|prior|] == prior &&
    forall k :: |prior| <= k < |calls| ==> LoadCall(calls[k])
  }

  lemma LoadExtendsStep(prior: seq<PluginCall>, calls: seq<PluginCall>, more: seq<PluginCall>)
    requires LoadExtends(prior, calls)
    requires forall k :: 0 <= k < |more| ==> LoadCall(more[k])
    ensures LoadExtends(prior, calls + more)
  {
    assert (calls + more)[..|prior|] == calls[..|prior|];
    forall k | |prior| <= k < |calls + more|
      ensures LoadCall((calls + more)[k])
    {
      if k >= |calls| {
        assert (calls + more)[k] == more[k - |calls|];
      }
    }
  }

  lemma GroundTruthStageExtends(w: TaskWorld, data: Handle, groundTruth: Field, prior: Instances, priorCalls: seq<PluginCall>)
    ensures LoadExtends(priorCalls, GroundTruthStage(w, data, groundTruth, prior, priorCalls).calls)
  {
    assert priorCalls[..|priorCalls|] == priorCalls;
    if w.groundTruth.Some? {
      var calls := priorCalls + [Setup(w.groundTruth.value)];
      LoadExtendsStep(priorCalls, priorCalls, [Setup(w.groundTruth.value)]);
      LoadExtendsStep(priorCalls, calls, [KeepGroundTruth(w.groundTruth.value, groundTruth), RemoveGroundTruth(data, groundTruth)]);
    }
  }

  lemma ModelStageExtends(w: TaskWorld, data: Handle, info: Option<PluginControl.AlgorithmInfo>, groundTruth: Field,
                          prior: Instances, priorCalls: seq<PluginCall>)
    ensures LoadExtends(priorCalls, ModelStage(w, data, info, groundTruth, prior, priorCalls).calls)
  {
    assert priorCalls[..|priorCalls|] == priorCalls;
    if w.model.Some? {
      var calls := priorCalls + [Setup(w.model.value)];
      LoadExtendsStep(priorCalls, priorCalls, [Setup(w.model.value)]);
      if w.modelSetup.ok && info.Some? && info.value.requireGroundTruth {
        var i := prior.(model := w.model);
        GroundTruthStageExtends(w, data, groundTruth, i, calls);
        var r := GroundTruthStage(w, data, groundTruth, i, calls).calls;
        assert r[..|calls|] == calls;
        assert r[..|priorCalls|] == r[..|calls|][..|priorCalls|];
      }
    }
  }

  /** Loading only appends setups and ground-truth calls: never a cleanup or a termination. */
  lemma LoadOnlyAppends(w: TaskWorld, info: Option<PluginControl.AlgorithmInfo>, groundTruth: Field, prior: Instances, priorCalls: seq<PluginCall>)
    ensures LoadExtends(priorCalls, LoadPlan(w, info, groundTruth, prior, priorCalls).calls)
  {
    assert priorCalls[..|priorCalls|] == priorCalls;
    if w.data.Some? {
      var calls := priorCalls + [Setup(w.data.value)];
      LoadExtendsStep(priorCalls, priorCalls, [Setup(w.data.value)]);
      if w.dataSetup.ok {
        var i := prior.(data := w.data);
        ModelStageExtends(w, w.data.value, info, groundTruth, i, calls);
        var r := ModelStage(w, w.data.value, info, groundTruth, i, calls).calls;
        assert r[..|calls|] == calls;
        assert r[..|priorCalls|] == r[..|calls|][..|priorCalls|];
      }
    }
  }

  /** `_update_task_status`: set the status, then send the metadata to the update callback if there is one. */
  function WithStatus(s: TaskState, status: TaskStatus, hasCallback: bool): TaskState {
    var md := s.metadata.(status := status);
    s.(metadata := md, updates := if hasCallback then s.updates + [md] else s.updates)
  }

  /** `_update_task_progress`: set the percentage and send an update as a status change does. */
  function WithProgress(s: TaskState, completionProgress: int, hasCallback: bool): TaskState {
    var md := s.metadata.(percentage := completionProgress);
    s.(metadata := md, updates := if hasCallback then s.updates + [md] else s.updates)
  }

  /** `_set_task_failure`: copy the error list, 100 %, results "", status ERROR. */
  function Failed(s: TaskState, hasCallback: bool): TaskState {
    WithStatus(s.(metadata := s.metadata.(errorMessages := ErrorListJson(s.errors), percentage := 100, results := NoResults)), TaskError, hasCallback)
  }

  /** `_set_task_cancelled`: as failure, with status CANCELLED. */
  function Cancelled(s: TaskState, hasCallback: bool): TaskState {
    WithStatus(s.(metadata := s.metadata.(errorMessages := ErrorListJson(s.errors), percentage := 100, results := NoResults)), TaskCancelled, hasCallback)
  }

  /** `_set_task_success`: clear the error messages, 100 %, status SUCCESS; results stay. */
  function Succeeded(s: TaskState, hasCallback: bool): TaskState {
    WithStatus(s.(metadata := s.metadata.(errorMessages := NoErrorMessages, percentage := 100)), TaskSuccess, hasCallback)
  }

  /** Record the terminated-task error. */
  function Logged(s: TaskState, text: string): TaskState {
    s.(errors := s.errors + [TerminatedError(text)])
  }

  /** `cancel`: set the flag, and terminate the child process when one is stored. */
  function CancelEffect(s: TaskState): TaskState {
    s.(toCancel := true, calls := if s.processStored then s.calls + [Terminate] else s.calls)
  }

  /** An empty failure message is replaced by "Forcefully terminated"; the result is never empty. */
  function Fallback(message: string): (r: string)
    ensures !ValidationChecks.IsEmptyString(Some(message)) ==> r == message
    ensures ValidationChecks.IsEmptyString(Some(message)) ==> r == ForcefullyTerminated
    ensures r != ""
  {
    assert ValidationChecks.IsEmptyString(Some("")) by {
      assert ValidationChecks.AllSpace("");
    }
    if ValidationChecks.IsEmptyString(Some(message)) then ForcefullyTerminated else message
  }

  /**
   * The conclusion of a new task once loading is over: success with the
   * converted results, or failure with its message. `cancelled` is the flag
   * when the result queue is read.
   */
  function Verdict(report: LoadReport, w: TaskWorld, cancelled: bool): (r: (bool, string, Results))
    ensures r.0 <==> (report.ok && w.run.Generated? &&
                      VerifyTaskResults(JsonUtils.RemoveNumpyFormats(w.run.output), w.outputSchemaAccepts).0)
    ensures r.0 ==> r.2 == ResultsOf(JsonUtils.RemoveNumpyFormats(w.run.output)) && r.1 == ""
    ensures !r.0 ==> r.2 == NoResults
    ensures report.ok && w.run.ChannelEmpty? ==> r.1 == if cancelled then UserCancelled else NoResultsGenerated
    ensures report.ok && w.run.GenerateFailed? ==> r.1 == w.run.message
    ensures !report.ok ==> r.1 == report.message
  {
    if !report.ok then (false, report.message, NoResults)
    else match w.run
      case ChannelEmpty => (false, if cancelled then UserCancelled else NoResultsGenerated, NoResults)
      case GenerateFailed(m) => (false, m, NoResults)
      case Generated(v) =>
        var taskResults := JsonUtils.RemoveNumpyFormats(v);
        var verified := VerifyTaskResults(taskResults, w.outputSchemaAccepts);
        if verified.0 then (true, "", ResultsOf(taskResults)) else (false, verified.1, NoResults)
  }

  /** The terminal setter of the `finally` block of `_process_new_task`. */
  function Ended(s: TaskState, ok: bool, message: string, hasCallback: bool): TaskState {
    if ok then Succeeded(s, hasCallback)
    else if s.toCancel then Cancelled(Logged(s, Fallback(message)), hasCallback)
    else Failed(Logged(s, Fallback(message)), hasCallback)
  }

  /** The `finally` block of `_process_new_task`: the terminal setter, then the model's cleanup. */
  function Concluded(s: TaskState, ok: bool, message: string, hasCallback: bool): TaskState {
    var ended := Ended(s, ok, message, hasCallback);
    if ended.instances.model.Some? then ended.(calls := ended.calls + [Cleanup(ended.instances.model.value)]) else ended
  }

  /**
   * The terminal setter: 100 %; SUCCESS exactly on success, even with the
   * cancel flag set; otherwise CANCELLED with the flag and ERROR without it.
   * Failure records one terminated-task error with the (never empty) message,
   * copies the error list and clears the results; success clears the error
   * messages and keeps the results. The model instance, when there is one,
   * is cleaned up as the last call.
   */
  lemma ConcludedState(s: TaskState, ok: bool, message: string, hasCallback: bool)
    ensures var c := Concluded(s, ok, message, hasCallback);
      c.metadata.percentage == 100 && c.toCancel == s.toCancel && c.instances == s.instances &&
      (c.metadata.status == TaskSuccess <==> ok) &&
      (c.metadata.status == TaskCancelled <==> !ok && s.toCancel) &&
      (c.metadata.status == TaskError <==> !ok && !s.toCancel) &&
      (ok ==> c.metadata.errorMessages == NoErrorMessages && c.errors == s.errors && c.metadata.results == s.metadata.results) &&
      (!ok ==> c.metadata.results == NoResults && c.errors == s.errors + [TerminatedError(Fallback(message))] &&
               c.metadata.errorMessages == ErrorListJson(c.errors)) &&
      (hasCallback ==> c.updates == s.updates + [c.metadata]) && (!hasCallback ==> c.updates == s.updates) &&
      (s.instances.model.Some? ==> c.calls == s.calls + [Cleanup(s.instances.model.value)]) &&
      (s.instances.model.None? ==> c.calls == s.calls)
  {
  }

  /** The state just before the result queue is read: RUNNING sent, instances loaded, process stored, any cancel applied. */
  function BeforeResults(s0: TaskState, report: LoadReport, cancelRequested: bool, hasCallback: bool): TaskState {
    var running := WithStatus(s0, TaskRunning, hasCallback);
    var loaded := running.(instances := report.instances, calls := report.calls);
    var started := if report.ok then loaded.(processStored := true) else loaded;
    if cancelRequested then CancelEffect(started) else started
  }

  /** `_process_new_task`, as the final state and the returned pair. */
  function NewTaskRun(s0: TaskState, w: TaskWorld, info: Option<PluginControl.AlgorithmInfo>, groundTruth: Field, hasCallback: bool)
    : (TaskState, bool, string)
  {
    var report := LoadPlan(w, info, groundTruth, s0.instances, s0.calls);
    var s := BeforeResults(s0, report, w.cancelRequested, hasCallback);
    var verdict := Verdict(report, w, s.toCancel);
    var s1 := if verdict.0 then s.(metadata := s.metadata.(results := verdict.2)) else s;
    (Concluded(s1, verdict.0, verdict.1, hasCallback), verdict.0, if verdict.0 then "" else Fallback(verdict.1))
  }

  /**
   * The terminal state of a new task: 100 %; SUCCESS exactly when it
   * succeeded, even if a cancel came; otherwise CANCELLED when the flag is set
   * and ERROR when not. Success stores the checked results and clears the
   * error messages; failure clears the results, records one terminated-task
   * error carrying the (never empty) returned message, and copies the error
   * list.
   */
  lemma NewTaskTerminalState(s0: TaskState, w: TaskWorld, info: Option<PluginControl.AlgorithmInfo>, groundTruth: Field, hasCallback: bool)
    ensures var (s, ok, message) := NewTaskRun(s0, w, info, groundTruth, hasCallback);
      s.metadata.percentage == 100 &&
      (s.metadata.status == TaskSuccess <==> ok) &&
      (s.metadata.status == TaskCancelled <==> !ok && s.toCancel) &&
      (s.metadata.status == TaskError <==> !ok && !s.toCancel) &&
      (ok ==> message == "" && s.metadata.errorMessages == NoErrorMessages && s.errors == s0.errors &&
              s.metadata.results == ResultsOf(JsonUtils.RemoveNumpyFormats(w.run.output))) &&
      (!ok ==> message != "" && s.metadata.results == NoResults &&
               s.errors == s0.errors + [TerminatedError(message)] && s.metadata.errorMessages == ErrorListJson(s.errors))
  {
    var report := LoadPlan(w, info, groundTruth, s0.instances, s0.calls);
    var s := BeforeResults(s0, report, w.cancelRequested, hasCallback);
    var verdict := Verdict(report, w, s.toCancel);
    var s1 := if verdict.0 then s.(metadata := s.metadata.(results := verdict.2)) else s;
    ConcludedState(s1, verdict.0, verdict.1, hasCallback);
  }

  /** Before the queue is read: RUNNING was sent, the load's instances and calls are in place, and a cancel adds at most a termination. */
  lemma BeforeResultsState(s0: TaskState, report: LoadReport, cancelRequested: bool, hasCallback: bool)
    ensures var s := BeforeResults(s0, report, cancelRequested, hasCallback);
      s.instances == report.instances && s.toCancel == (s0.toCancel || cancelRequested) &&
      (s.calls == report.calls || s.calls == report.calls + [Terminate]) &&
      (hasCallback ==> s.updates == s0.updates + [s0.metadata.(status := TaskRunning)]) &&
      (!hasCallback ==> s.updates == s0.updates)
  {
  }

  /**
   * The update callback hears RUNNING first and the terminal status last.
   */
  lemma NewTaskUpdates(s0: TaskState, w: TaskWorld, info: Option<PluginControl.AlgorithmInfo>, groundTruth: Field, hasCallback: bool)
    ensures var (s, ok, message) := NewTaskRun(s0, w, info, groundTruth, hasCallback);
      (hasCallback ==>
        s.updates == s0.updates + [s0.metadata.(status := TaskRunning), s.metadata]) &&
      (!hasCallback ==> s.updates == s0.updates)
  {
    var report := LoadPlan(w, info, groundTruth, s0.instances, s0.calls);
    var s := BeforeResults(s0, report, w.cancelRequested, hasCallback);
    BeforeResultsState(s0, report, w.cancelRequested, hasCallback);
    var verdict := Verdict(report, w, s.toCancel);
    var s1 := if verdict.0 then s.(metadata := s.metadata.(results := verdict.2)) else s;
    ConcludedState(s1, verdict.0, verdict.1, hasCallback);
    var c := Concluded(s1, verdict.0, verdict.1, hasCallback);
    assert NewTaskRun(s0, w, info, groundTruth, hasCallback).0 == c;
    if hasCallback {
      assert s1.updates == s0.updates + [s0.metadata.(status := TaskRunning)];
      assert c.updates == s0.updates + [s0.metadata.(status := TaskRunning), c.metadata];
    }
  }

  /** Nothing before the `finally` block is a cleanup. */
  lemma BeforeResultsNoCleanup(s0: TaskState, report: LoadReport, cancelRequested: bool, hasCallback: bool)
    requires LoadExtends(s0.calls, report.calls)
    ensures var s := BeforeResults(s0, report, cancelRequested, hasCallback);
      |s.calls| >= |s0.calls| && (|s.calls| == |s0.calls| || !s.calls[|s.calls| - 1].Cleanup?)
  {
    BeforeResultsState(s0, report, cancelRequested, hasCallback);
    if |report.calls| > |s0.calls| {
      assert LoadCall(report.calls[|report.calls| - 1]);
    }
  }

  /**
   * The model instance, when one was obtained, is cleaned up as the very last
   * call, whatever the outcome; without a model no cleanup is made.
   */
  lemma NewTaskCleanup(s0: TaskState, w: TaskWorld, info: Option<PluginControl.AlgorithmInfo>, groundTruth: Field, hasCallback: bool)
    ensures var (s, ok, message) := NewTaskRun(s0, w, info, groundTruth, hasCallback);
      s.instances.model == LoadPlan(w, info, groundTruth, s0.instances, s0.calls).instances.model &&
      (s.instances.model.Some? <==> (|s.calls| > |s0.calls| && s.calls[|s.calls| - 1].Cleanup?)) &&
      (s.instances.model.Some? ==> s.calls[|s.calls| - 1] == Cleanup(s.instances.model.value))
  {
    var report := LoadPlan(w, info, groundTruth, s0.instances, s0.calls);
    LoadOnlyAppends(w, info, groundTruth, s0.instances, s0.calls);
    var s := BeforeResults(s0, report, w.cancelRequested, hasCallback);
    BeforeResultsState(s0, report, w.cancelRequested, hasCallback);
    BeforeResultsNoCleanup(s0, report, w.cancelRequested, hasCallback);
    var verdict := Verdict(report, w, s.toCancel);
    var s1 := if verdict.0 then s.(metadata := s.metadata.(results := verdict.2)) else s;
    ConcludedCalls(s1, verdict.0, verdict.1, hasCallback);
    assert NewTaskRun(s0, w, info, groundTruth, hasCallback).0 == Concluded(s1, verdict.0, verdict.1, hasCallback);
  }

  /** The terminal setters keep the instances and the calls; only the cleanup is added. */
  lemma ConcludedCalls(s: TaskState, ok: bool, message: string, hasCallback: bool)
    ensures var c := Concluded(s, ok, message, hasCallback);
      c.instances == s.instances &&
      (s.instances.model.Some? ==> c.calls == s.calls + [Cleanup(s.instances.model.value)]) &&
      (s.instances.model.None? ==> c.calls == s.calls)
  {
  }

  /**
   * An empty result queue ends as "User cancelled" when the flag is set by
   * then and as "Algorithm generate no results." when not.
   */
  lemma EmptyChannelMessage(s0: TaskState, w: TaskWorld, info: Option<PluginControl.AlgorithmInfo>, groundTruth: Field, hasCallback: bool)
    requires LoadPlan(w, info, groundTruth, s0.instances, s0.calls).ok && w.run.ChannelEmpty?
    ensures var (s, ok, message) := NewTaskRun(s0, w, info, groundTruth, hasCallback);
      !ok && s.toCancel == (s0.toCancel || w.cancelRequested) &&
      message == if s0.toCancel || w.cancelRequested then UserCancelled else NoResultsGenerated
  {
    var report := LoadPlan(w, info, groundTruth, s0.instances, s0.calls);
    var s := BeforeResults(s0, report, w.cancelRequested, hasCallback);
    assert s.toCancel == (s0.toCancel || w.cancelRequested);
    var verdict := Verdict(report, w, s.toCancel);
    ValidationChecks.NonBlankIsNotEmpty(UserCancelled, 0);
    ValidationChecks.NonBlankIsNotEmpty(NoResultsGenerated, 0);
    ConcludedState(s, verdict.0, verdict.1, hasCallback);
  }

  /** `_process_pending_task`: record the terminated-task error for the id and fail. */
  function PendingRun(s0: TaskState, idText: string, hasCallback: bool): TaskState {
    Failed(Logged(s0, idText), hasCallback)
  }

  /** A pending task never runs: one error recorded, ERROR, 100 %, results "", no plugin call. */
  lemma PendingTaskEnds(s0: TaskState, idText: string, hasCallback: bool)
    ensures var s := PendingRun(s0, idText, hasCallback);
      s.metadata.status == TaskError && s.metadata.percentage == 100 && s.metadata.results == NoResults &&
      s.errors == s0.errors + [TerminatedError(idText)] && s.metadata.errorMessages == ErrorListJson(s.errors) &&
      s.calls == s0.calls && s.instances == s0.instances
  {
  }

  /** `str(id)` for the log texts. `show` is `str()` of a non-string id. */
  function IdText(id: Field, show: Field -> string): string {
    PyStr(id, show(id))
  }

  /**
   * The guard of `process` after a failed parse, as written:
   * `not id and not is_empty_string(id)`. None means it raises: a falsy
   * non-string id reaches `strip()`, which it does not have.
   */
  function ParseFailureGuardAsWritten(id: Field): (r: Option<bool>)
    ensures r.None? <==> !id.Truthy() && !id.NoneField? && !id.StrField?
  {
    if id.Truthy() then Some(false)
    else if id.NoneField? then Some(!ValidationChecks.IsEmptyString(None))
    else if id.StrField? then Some(!ValidationChecks.IsEmptyString(Some(id.s)))
    else None
  }

  /** As written, the guard never holds: a parse failure is never reported, and the metadata stays as it was. */
  lemma ParseFailureNeverReported(id: Field)
    ensures ParseFailureGuardAsWritten(id) != Some(true)
  {
    if id.StrField? && !id.Truthy() {
      assert id.s == "";
      assert ValidationChecks.AllSpace(id.s);
    }
  }

  /**
   * The guard as evidently intended, `id and not is_empty_string(id)`:
   * report whenever the id is a usable string. A truthy non-string id still
   * reaches `strip()` and raises.
   */
  function ParseFailureGuard(id: Field): (r: Option<bool>)
    ensures r == Some(true) <==> id.StrField? && !ValidationChecks.IsEmptyString(Some(id.s))
    ensures r.None? <==> id.Truthy() && !id.StrField?
  {
    if !id.Truthy() then Some(false)
    else if id.StrField? then Some(!ValidationChecks.IsEmptyString(Some(id.s)))
    else None
  }

  /** The intended guard reports a failed task whose id is known, for example "task-1". */
  lemma ParseFailureReportedForKnownId()
    ensures ParseFailureGuard(StrField("task-1")) == Some(true)
    ensures ParseFailureGuardAsWritten(StrField("task-1")) == Some(false)
  {
    ValidationChecks.NonBlankIsNotEmpty("task-1", 0);
  }

  /** `process` after a failed parse with the intended guard: report and fail only for a usable id. */
  function ParseFailureRun(s0: TaskState, id: Field, message: string, hasCallback: bool): (r: Option<TaskState>)
    ensures r.None? <==> ParseFailureGuard(id).None?
    ensures ParseFailureGuard(id) == Some(false) ==> r == Some(s0)
    ensures ParseFailureGuard(id) == Some(true) ==>
      r.Some? && r.value.metadata.status == TaskError && r.value.errors == s0.errors + [TerminatedError(message)]
  {
    match ParseFailureGuard(id)
    case None => None
    case Some(report) => if report then Some(Failed(Logged(s0, message), hasCallback)) else Some(s0)
  }

  class Task {
    const messageId: string
    const taskType: TaskType
    /** Whether a task update callback was given. */
    const hasUpdateCallback: bool
    const taskArguments: TaskArgument.TaskArgumentParser

    var metadata: TaskMetadata
    var toCancel: bool
    /** Whether an algorithm process has been stored. */
    var processStored: bool
    var instances: Instances
    var errors: seq<Error>
    var updates: seq<TaskMetadata>
    var calls: seq<PluginCall>

    ghost function State(): TaskState
      reads this
    {
      TaskState(metadata, toCancel, processStored, instances, errors, updates, calls)
    }

    constructor (messageId: string, validationSchemasFolder: string, taskType: TaskType, hasUpdateCallback: bool)
      ensures State() == InitialState
      ensures this.messageId == messageId && this.taskType == taskType && this.hasUpdateCallback == hasUpdateCallback
      ensures fresh(taskArguments) && taskArguments.values == TaskArgument.Unset
    {
      this.messageId := messageId;
      this.taskType := taskType;
      this.hasUpdateCallback := hasUpdateCallback;
      taskArguments := new TaskArgument.TaskArgumentParser(validationSchemasFolder);
      metadata := InitialMetadata;
      toCancel := false;
      processStored := false;
      instances := NoInstances;
      errors := [];
      updates := [];
      calls := [];
    }

    /** `get_id`. */
    function GetId(): Field
      reads this, taskArguments
    {
      taskArguments.values.id
    }

    /** `cancel`: set the flag and terminate a stored process. */
    method Cancel()
      modifies this
      ensures State() == CancelEffect(old(State()))
    {
      toCancel := true;
      if processStored {
        calls := calls + [Terminate];
      }
    }

    /** `_update_task_progress`: set the percentage, then send the metadata to the update callback if there is one. */
    method UpdateTaskProgress(completionProgress: int)
      modifies this
      ensures State() == WithProgress(old(State()), completionProgress, hasUpdateCallback)
    {
      metadata := metadata.(percentage := completionProgress);
      if hasUpdateCallback {
        updates := updates + [metadata];
      }
    }

    /** `_update_task_status`. */
    method UpdateTaskStatus(status: TaskStatus)
      modifies this
      ensures State() == WithStatus(old(State()), status, hasUpdateCallback)
    {
      metadata := metadata.(status := status);
      if hasUpdateCallback {
        updates := updates + [metadata];
      }
    }

    /** `_set_task_failure`. */
    method SetTaskFailure()
      modifies this
      ensures State() == Failed(old(State()), hasUpdateCallback)
    {
      metadata := metadata.(errorMessages := ErrorListJson(errors), percentage := 100, results := NoResults);
      UpdateTaskStatus(TaskError);
    }

    /** `_set_task_cancelled`. */
    method SetTaskCancelled()
      modifies this
      ensures State() == Cancelled(old(State()), hasUpdateCallback)
    {
      metadata := metadata.(errorMessages := ErrorListJson(errors), percentage := 100, results := NoResults);
      UpdateTaskStatus(TaskCancelled);
    }

    /** `_set_task_success`. */
    method SetTaskSuccess()
      modifies this
      ensures State() == Succeeded(old(State()), hasUpdateCallback)
    {
      metadata := metadata.(errorMessages := NoErrorMessages, percentage := 100);
      UpdateTaskStatus(TaskSuccess);
    }

    /** The terminated-task error added through `add_error_to_list`. */
    method AddTerminatedError(text: string)
      modifies this
      ensures State() == Logged(old(State()), text)
    {
      TerminatedErrorIsAdded(text);
      var e := ErrorManagement.NewError("SYS", Some("WSYSx00002"), Some(TerminatedPrefix + text), "Warning", "System", Some("task.py"));
      errors := errors + [e.value];
    }

    /** `_load_task_instances`. */
    method LoadTaskInstances(w: TaskWorld, info: Option<PluginControl.AlgorithmInfo>, groundTruth: Field)
      returns (ok: bool, message: string)
      modifies this
      ensures var r := LoadPlan(w, info, groundTruth, old(instances), old(calls));
        ok == r.ok && message == r.message && instances == r.instances && calls == r.calls
      ensures metadata == old(metadata) && toCancel == old(toCancel) && processStored == old(processStored)
      ensures errors == old(errors) && updates == old(updates)
    {
      instances := instances.(data := w.data);
      if w.data.None? {
        return false, NoDataInstance;
      }
      calls := calls + [Setup(w.data.value)];
      if !w.dataSetup.ok {
        return false, DataSetupPrefix + w.dataSetup.message;
      }
      assert LoadPlan(w, info, groundTruth, old(instances), old(calls)) == ModelStage(w, w.data.value, info, groundTruth, instances, calls);
      instances := instances.(model := w.model);
      if w.model.None? {
        return false, NoModelInstance;
      }
      calls := calls + [Setup(w.model.value)];
      if !w.modelSetup.ok {
        return false, ModelSetupPrefix + w.modelSetup.message;
      }
      if info.None? {
        return false, NoAlgorithmInformation;
      }
      ghost var afterModel := LoadReport(false, "", instances, calls);
      assert LoadPlan(w, info, groundTruth, old(instances), old(calls)) ==
        (if info.value.requireGroundTruth then GroundTruthStage(w, w.data.value, groundTruth, instances, calls)
         else AlgorithmStep(w, instances.(groundTruth := None), calls));
      if info.value.requireGroundTruth {
        instances := instances.(groundTruth := w.groundTruth);
        if w.groundTruth.None? {
          return false, NoGroundTruthInstance;
        }
        calls := calls + [Setup(w.groundTruth.value)];
        if !w.groundTruthSetup.ok {
          return false, GroundTruthSetupPrefix + w.groundTruthSetup.message;
        }
        var isGroundTruthInstanceSuccess := w.keepsGroundTruth;
        calls := calls + [KeepGroundTruth(w.groundTruth.value, groundTruth), RemoveGroundTruth(w.data.value, groundTruth)];
        if !isGroundTruthInstanceSuccess {
          return false, NoGroundTruthData;
        }
        assert GroundTruthStage(w, w.data.value, groundTruth, afterModel.instances, afterModel.calls) == AlgorithmStep(w, instances, calls);
      } else {
        instances := instances.(groundTruth := None);
      }
      instances := instances.(algorithm := w.algorithm);
      if w.algorithm.Some? {
        return true, "";
      }
      return false, NoAlgorithmInstance;
    }

    /**
     * The `finally` block of `_process_new_task`: the terminal setter, then the
     * model's cleanup; returns the message, replaced when empty on failure.
     */
    method Conclude(isSuccess: bool, errorMessages: string) returns (message: string)
      modifies this
      ensures State() == Concluded(old(State()), isSuccess, errorMessages, hasUpdateCallback)
      ensures message == if isSuccess then errorMessages else Fallback(errorMessages)
    {
      message := errorMessages;
      if isSuccess {
        SetTaskSuccess();
      } else {
        if ValidationChecks.IsEmptyString(Some(message)) {
          message := ForcefullyTerminated;
        }
        AddTerminatedError(message);
        if toCancel {
          SetTaskCancelled();
        } else {
          SetTaskFailure();
        }
      }
      if instances.model.Some? {
        calls := calls + [Cleanup(instances.model.value)];
      }
    }

    /**
     * The part of `_process_new_task` after loading: on a failed load its
     * message; otherwise the algorithm's result queue is read, the numpy
     * formats removed and the output verified, and on success the results
     * are stored in the metadata.
     */
    method ReadResults(w: TaskWorld, isLoadSuccess: bool, loadErrorMessages: string, ghost report: LoadReport)
      returns (isSuccess: bool, errorMessages: string)
      requires isLoadSuccess == report.ok && loadErrorMessages == report.message
      modifies this
      ensures var v := Verdict(report, w, toCancel); isSuccess == v.0 && errorMessages == v.1
      ensures var v := Verdict(report, w, toCancel);
        metadata == if v.0 then old(metadata).(results := v.2) else old(metadata)
      ensures toCancel == old(toCancel) && processStored == old(processStored) && instances == old(instances)
      ensures errors == old(errors) && updates == old(updates) && calls == old(calls)
    {
      isSuccess, errorMessages := false, "";
      if !isLoadSuccess {
        errorMessages := loadErrorMessages;
        return;
      }
      match w.run
      case ChannelEmpty =>
        errorMessages := if toCancel then UserCancelled else NoResultsGenerated;
      case GenerateFailed(processOutput) =>
        errorMessages := processOutput;
      case Generated(processOutput) =>
        var taskResults := JsonUtils.RemoveNumpyFormats(processOutput);
        var verified := VerifyTaskResults(taskResults, w.outputSchemaAccepts);
        if verified.0 {
          metadata := metadata.(results := ResultsOf(taskResults));
          isSuccess, errorMessages := true, "";
        } else {
          errorMessages := verified.1;
        }
    }

    /**
     * The first part of `_process_new_task`: RUNNING is sent, the instances
     * are loaded, the algorithm process is stored after a successful load, and
     * a cancel arriving meanwhile is applied.
     */
    method StartRun(w: TaskWorld, info: Option<PluginControl.AlgorithmInfo>, groundTruth: Field)
      returns (isLoadSuccess: bool, loadErrorMessages: string)
      modifies this
      ensures var report := LoadPlan(w, info, groundTruth, old(instances), old(calls));
        isLoadSuccess == report.ok && loadErrorMessages == report.message &&
        State() == BeforeResults(old(State()), report, w.cancelRequested, hasUpdateCallback)
    {
      UpdateTaskStatus(TaskRunning);
      isLoadSuccess, loadErrorMessages := LoadTaskInstances(w, info, groundTruth);
      if isLoadSuccess {
        processStored := true;
      }
      if w.cancelRequested {
        Cancel();
      }
    }

    /** `_process_new_task`. */
    method ProcessNewTask(w: TaskWorld, info: Option<PluginControl.AlgorithmInfo>, groundTruth: Field)
      returns (isSuccess: bool, errorMessages: string)
      modifies this
      ensures (State(), isSuccess, errorMessages) == NewTaskRun(old(State()), w, info, groundTruth, hasUpdateCallback)
    {
      ghost var report := LoadPlan(w, info, groundTruth, instances, calls);
      var isLoadSuccess, loadErrorMessages := StartRun(w, info, groundTruth);
      isSuccess, errorMessages := ReadResults(w, isLoadSuccess, loadErrorMessages, report);
      errorMessages := Conclude(isSuccess, errorMessages);
    }

    /** `_process_pending_task`. */
    method ProcessPendingTask(idText: string) returns (isSuccess: bool, errorMessages: string)
      modifies this
      ensures State() == PendingRun(old(State()), idText, hasUpdateCallback)
      ensures isSuccess && errorMessages == ""
    {
      AddTerminatedError(idText);
      SetTaskFailure();
      return true, "";
    }

    /**
     * `process`: parse; a parsed PENDING task is closed, a parsed NEW task
     * runs; after a failed parse the task is reported as failed when its id is
     * usable (the intended guard, see `ParseFailureGuard`).
     */
    method Process(p: TaskArgument.ParseInputs, w: TaskWorld, show: Field -> string) returns (r: ParseOutcome)
      modifies this, taskArguments
      ensures taskArguments.values == TaskArgument.ParseEffect(old(taskArguments.values), p).1
      ensures var parsed := TaskArgument.ParseEffect(old(taskArguments.values), p).0;
        parsed.Raised? ==> r == Raised && State() == old(State())
      ensures var (parsed, values) := TaskArgument.ParseEffect(old(taskArguments.values), p);
        parsed.Returned? && parsed.ok && taskType == Pending ==>
          r == Returned(true, "") && State() == PendingRun(old(State()), IdText(values.id, show), hasUpdateCallback)
      ensures var (parsed, values) := TaskArgument.ParseEffect(old(taskArguments.values), p);
        parsed.Returned? && parsed.ok && taskType == New ==>
          var run := NewTaskRun(old(State()), w, values.algorithmPluginInformation, values.groundTruth, hasUpdateCallback);
          r == Returned(run.1, run.2) && State() == run.0
      ensures var (parsed, values) := TaskArgument.ParseEffect(old(taskArguments.values), p);
        parsed.Returned? && !parsed.ok ==>
          var after := ParseFailureRun(old(State()), values.id, parsed.message, hasUpdateCallback);
          (after.None? ==> r == Raised && State() == old(State())) &&
          (after.Some? ==> r == Returned(false, parsed.message) && State() == after.value)
    {
      var parsed := taskArguments.Parse(p);
      if parsed.Raised? {
        return Raised;
      }
      if parsed.ok {
        if taskType == Pending {
          var ok, message := ProcessPendingTask(IdText(taskArguments.values.id, show));
          return Returned(ok, message);
        } else {
          var ok, message := ProcessNewTask(w, taskArguments.values.algorithmPluginInformation, taskArguments.values.groundTruth);
          return Returned(ok, message);
        }
      }
      var guard := ParseFailureGuard(taskArguments.values.id);
      if guard.None? {
        return Raised;
      }
      if guard.value {
        AddTerminatedError(parsed.message);
        SetTaskFailure();
      }
      return Returned(false, parsed.message);
    }
  }
}
