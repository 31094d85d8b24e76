/**
 * The worker loop (test_engine_app/worker.py): which stream a worker reads
 * and which control channels it subscribes to, how a stream read becomes a
 * list of items, how each item becomes a job, when an update and an
 * acknowledgement are sent for it, which item is running, and when a cancel
 * message reaches the running item.
 *
 * The jobs themselves are modelled by TaskProcessing, DatasetValidation and
 * ModelValidation; here a job is the record of how the worker built it, and
 * what it reports after `process()` and `get_formatted_results()` is given by
 * a function `idOf`: the id it reports, or None where either call raises. The
 * message broker is the `Transport` parameter: whether an update or an
 * acknowledgement goes through.
 */
module WorkerLoop {
  import opened Wrappers
  import opened Enums
  import opened ValidationChecks
  import opened Arguments

  /** One stream entry: its message id and its field dict. */
  datatype StreamEntry = StreamEntry(messageId: string, fields: map<string, string>)

  /** `fields.get(key, None)`. */
  function Lookup(fields: map<string, string>, key: string): Option<string> {
    if key in fields then Some(fields[key]) else None
  }

  /** One element of a stream read: the stream's name and the entries read from it. */
  datatype StreamRead = StreamRead(stream: string, entries: seq<StreamEntry>)

  /** What `_process_redis_message` lists: `(message_id, task)` or `(message_id, arguments, validation_type)`. */
  datatype Item =
    | TaskItem(messageId: string, arguments: string)
    | ServiceItem(messageId: string, arguments: string, kind: ServiceType)

  const DatasetKey: string := "validateDataset"
  const ModelKey: string := "validateModel"
  const TaskKey: string := "task"

  const TaskCancelChannel: string := "TASK_CANCEL"
  const AlgoInstallChannel: string := "ALGO_INSTALL"
  const AlgoUpdateChannel: string := "ALGO_UPDATE"
  const AlgoDeleteChannel: string := "ALGO_DELETE"

  /** The truth of `message_dict.get(key, None)` for a text field. */
  predicate Truthy(v: Option<string>) {
    v.Some? && v.value != ""
  }

  /** The field a service batch is read from: validateDataset wins over validateModel. */
  function KeyFor(isDataset: bool): string {
    if isDataset then DatasetKey else ModelKey
  }

  function KindFor(isDataset: bool): ServiceType {
    if isDataset then ValidateDatasetService else ValidateModelService
  }

  /**
   * The service loop over the entries of a read from the service stream, with
   * the kind read from the first entry; None where an entry lacks the field
   * (KeyError).
   */
  function ServiceEntries(entries: seq<StreamEntry>, isDataset: bool, isModel: bool): Option<seq<Item>>
    decreases |entries|
  {
    if entries == [] then Some([])
    else
      var prev := ServiceEntries(entries[..|entries| - 1], isDataset, isModel);
      var e := entries[|entries| - 1];
      if prev.None? then None
      else if !isDataset && !isModel then prev
      else
        var a := Lookup(e.fields, KeyFor(isDataset));
        if a.None? then None else Some(prev.value + [ServiceItem(e.messageId, a.value, KindFor(isDataset))])
  }

  /** The task loop over the entries of a read from the task stream; None where an entry has no "task" (KeyError). */
  function TaskEntries(entries: seq<StreamEntry>): Option<seq<Item>>
    decreases |entries|
  {
    if entries == [] then Some([])
    else
      var prev := TaskEntries(entries[..|entries| - 1]);
      var e := entries[|entries| - 1];
      var a := Lookup(e.fields, TaskKey);
      if prev.None? || a.None? then None else Some(prev.value + [TaskItem(e.messageId, a.value)])
  }

  /**
   * `_process_redis_message` for a worker of `workerType`: only the first
   * element of the read is looked at. None where it raises: an empty read
   * (IndexError), a service read with no entry (IndexError), or an entry
   * without its field (KeyError).
   */
  function Routed(workerType: WorkerType, serviceStream: string, taskStream: string, response: seq<StreamRead>): Option<seq<Item>> {
    if response == [] then None
    else
      var read := response[0];
      if workerType == ServiceWorker then
        if read.entries == [] then None
        else
          var first := read.entries[0].fields;
          if read.stream != serviceStream then Some([])
          else ServiceEntries(read.entries, Truthy(Lookup(first, DatasetKey)), Truthy(Lookup(first, ModelKey)))
      else if read.stream != taskStream then Some([])
      else TaskEntries(read.entries)
  }

  /** A service read raises exactly when the first entry names a kind and some entry lacks that kind's field. */
  lemma {:induction false} ServiceEntriesRaise(entries: seq<StreamEntry>, isDataset: bool, isModel: bool)
    decreases |entries|
    ensures ServiceEntries(entries, isDataset, isModel).None? <==>
      (isDataset || isModel) && exists i :: 0 <= i < |entries| && Lookup(entries[i].fields, KeyFor(isDataset)).None?
  {
    if entries != [] {
      var prefix := entries[..|entries| - 1];
      ServiceEntriesRaise(prefix, isDataset, isModel);
      assert forall i :: 0 <= i < |prefix| ==> prefix[i] == entries[i];
    }
  }

  /**
   * A service read gives one item per entry, in order, every one of the kind
   * the first entry names, or none at all when the first entry names neither.
   */
  lemma {:induction false} ServiceEntriesItems(entries: seq<StreamEntry>, isDataset: bool, isModel: bool)
    decreases |entries|
    ensures var r := ServiceEntries(entries, isDataset, isModel);
      (r.Some? && !isDataset && !isModel ==> r.value == []) &&
      (r.Some? && (isDataset || isModel) ==>
        |r.value| == |entries| &&
        forall i :: 0 <= i < |entries| ==>
          KeyFor(isDataset) in entries[i].fields &&
          r.value[i] == ServiceItem(entries[i].messageId, entries[i].fields[KeyFor(isDataset)], KindFor(isDataset)))
  {
    if entries != [] {
      var prefix := entries[..|entries| - 1];
      ServiceEntriesItems(prefix, isDataset, isModel);
      assert forall i :: 0 <= i < |prefix| ==> prefix[i] == entries[i];
    }
  }

  /** A task read gives one item per entry, in order; it raises exactly when some entry has no "task". */
  lemma {:induction false} TaskEntriesRoute(entries: seq<StreamEntry>)
    decreases |entries|
    ensures var r := TaskEntries(entries);
      (r.None? <==> exists i :: 0 <= i < |entries| && Lookup(entries[i].fields, TaskKey).None?) &&
      (r.Some? ==>
        |r.value| == |entries| &&
        forall i :: 0 <= i < |entries| ==>
          TaskKey in entries[i].fields && r.value[i] == TaskItem(entries[i].messageId, entries[i].fields[TaskKey]))
  {
    if entries != [] {
      var prefix := entries[..|entries| - 1];
      TaskEntriesRoute(prefix);
      assert forall i :: 0 <= i < |prefix| ==> prefix[i] == entries[i];
    }
  }

  /** A service worker lists only service items and any other worker only task items. */
  lemma RoutedMatchesWorker(workerType: WorkerType, serviceStream: string, taskStream: string, response: seq<StreamRead>)
    ensures var r := Routed(workerType, serviceStream, taskStream, response);
      r.Some? ==> forall it :: it in r.value ==> (it.ServiceItem? <==> workerType == ServiceWorker)
  {
    if response != [] {
      var read := response[0];
      if workerType == ServiceWorker {
        if read.entries != [] && read.stream == serviceStream {
          var first := read.entries[0].fields;
          ServiceEntriesItems(read.entries, Truthy(Lookup(first, DatasetKey)), Truthy(Lookup(first, ModelKey)));
        }
      } else if read.stream == taskStream {
        TaskEntriesRoute(read.entries);
      }
    }
  }

  /** A read whose first element comes from another stream lists nothing (a service read still needs an entry). */
  lemma OtherStreamIgnored(workerType: WorkerType, serviceStream: string, taskStream: string, response: seq<StreamRead>)
    requires response != []
    requires workerType == ServiceWorker ==> response[0].stream != serviceStream && response[0].entries != []
    requires workerType != ServiceWorker ==> response[0].stream != taskStream
    ensures Routed(workerType, serviceStream, taskStream, response) == Some([])
  {
  }

  /** The jobs the worker builds. */
  datatype JobKind = TaskJob | DatasetJob | ModelJob

  /** How a job was built: its kind, message, arguments, task type and whether it was given the update callback. */
  datatype JobSpec = JobSpec(kind: JobKind, messageId: string, arguments: string, taskType: TaskType, hasCallback: bool)

  /** A service item for model validation becomes a ValidateModel, any other service item a ValidateDataset. */
  function KindOf(item: Item): JobKind {
    if item.TaskItem? then TaskJob else if item.kind == ValidateModelService then ModelJob else DatasetJob
  }

  /** `_clear_pending_items`: a PENDING job with no update callback. */
  function BacklogJob(item: Item): JobSpec {
    JobSpec(KindOf(item), item.messageId, item.arguments, Pending, false)
  }

  /** `_discover_new_items`: a NEW job; only a Task is given the update callback. */
  function NewJob(item: Item): JobSpec {
    JobSpec(KindOf(item), item.messageId, item.arguments, New, item.TaskItem?)
  }

  function BacklogJobs(items: seq<Item>): (js: seq<JobSpec>)
    ensures |js| == |items|
  {
    seq(|items|, i requires 0 <= i < |items| => BacklogJob(items[i]))
  }

  function NewJobs(items: seq<Item>): (js: seq<JobSpec>)
    ensures |js| == |items|
  {
    seq(|items|, i requires 0 <= i < |items| => NewJob(items[i]))
  }

  /**
   * The backlog builds every item as a PENDING job with no callback, the
   * discovery loop as a NEW one, with the callback exactly for a Task; both
   * keep the item's message, arguments and kind.
   */
  lemma JobsBuilt(items: seq<Item>)
    ensures forall i :: 0 <= i < |items| ==>
      var b := BacklogJobs(items)[i];
      b.taskType == Pending && !b.hasCallback && b.messageId == items[i].messageId && b.arguments == items[i].arguments &&
      (b.kind == TaskJob <==> items[i].TaskItem?) &&
      (b.kind == ModelJob <==> items[i].ServiceItem? && items[i].kind == ValidateModelService)
    ensures forall i :: 0 <= i < |items| ==>
      var n := NewJobs(items)[i];
      n.taskType == New && (n.hasCallback <==> items[i].TaskItem?) && n.messageId == items[i].messageId &&
      n.arguments == items[i].arguments && n.kind == BacklogJobs(items)[i].kind
  {
  }

  /** All the items of the successive batches of the discovery loop, in order. */
  function Concat(batches: seq<seq<Item>>): seq<Item>
    decreases |batches|
  {
    if batches == [] then [] else Concat(batches[..|batches| - 1]) + batches[|batches| - 1]
  }

  /** The broker's answers: whether an update for an id, and an acknowledgement of a message, go through. */
  datatype Transport = Transport(update: string -> bool, acknowledge: string -> bool)

  /** What the worker has done: the jobs it built, the ids it sent updates for and the messages it acknowledged. */
  datatype Log = Log(built: seq<JobSpec>, updates: seq<string>, acks: seq<string>)

  const EmptyLog: Log := Log([], [], [])

  /** `is_empty_string` of an id that need not be text: None where `.strip()` raises on a dict or a number. */
  function EmptyId(id: Field): (r: Option<bool>)
    ensures r == Some(true) <==> id.NoneField? || (id.StrField? && IsEmptyString(Some(id.s)))
    ensures r == Some(false) <==> id.StrField? && !IsEmptyString(Some(id.s))
    ensures r.None? <==> id.DictField? || id.OtherField?
  {
    match id
    case NoneField => Some(true)
    case StrField(s) => Some(IsEmptyString(Some(s)))
    case DictField(_) => None
    case OtherField(_) => None
  }

  /**
   * `_send_update`: an empty id sends nothing and answers False; a text id is
   * sent and the answer is the broker's. None where the emptiness test raises.
   */
  function SendUpdateEffect(log: Log, id: Field, t: Transport): (r: (Log, Option<bool>))
    ensures r.1 == Some(true) ==> id.StrField? && !IsEmptyString(Some(id.s)) && t.update(id.s)
    ensures r.0.updates != log.updates <==> EmptyId(id) == Some(false)
    ensures r.0.updates != log.updates ==> r.0.updates == log.updates + [id.s]
    ensures r.0.built == log.built && r.0.acks == log.acks
    ensures r.1.None? <==> EmptyId(id).None?
  {
    match EmptyId(id)
    case None => (log, None)
    case Some(empty) =>
      if empty then (log, Some(false)) else (log.(updates := log.updates + [id.s]), Some(t.update(id.s)))
  }

  /** `_send_acknowledgement`: an empty message id sends nothing and answers False. */
  function SendAckEffect(log: Log, messageId: string, t: Transport): (r: (Log, bool))
    ensures r.1 ==> !IsEmptyString(Some(messageId)) && t.acknowledge(messageId)
    ensures r.0.acks != log.acks <==> !IsEmptyString(Some(messageId))
    ensures r.0.acks != log.acks ==> r.0.acks == log.acks + [messageId]
    ensures r.0.built == log.built && r.0.updates == log.updates
  {
    if IsEmptyString(Some(messageId)) then (log, false) else (log.(acks := log.acks + [messageId]), t.acknowledge(messageId))
  }

  /**
   * One item after its job was built and processed: send the update under
   * the id the job reports, and acknowledge the message only when the update
   * went through. `reported` is None where `process()` or
   * `get_formatted_results()` raised; then nothing is sent. True in the second
   * component where the item raised and the loop ends: in the job, or in the
   * emptiness test of the id.
   */
  function Step(log: Log, job: JobSpec, reported: Option<Field>, t: Transport): (Log, bool) {
    var built := log.(built := log.built + [job]);
    if reported.None? then (built, true)
    else
      var (sentLog, sent) := SendUpdateEffect(built, reported.value, t);
      if sent.None? then (sentLog, true)
      else if sent.value then (SendAckEffect(sentLog, job.messageId, t).0, false)
      else (sentLog, false)
  }

  /**
   * The update-then-acknowledge rule: a message is acknowledged only after an
   * update under a non-empty text id went through; a job that raised, or an
   * empty id, sends neither. The item raises exactly when the job raised or
   * its id is not text.
   */
  lemma StepAckRule(log: Log, job: JobSpec, reported: Option<Field>, t: Transport)
    ensures var (l, raised) := Step(log, job, reported, t);
      l.built == log.built + [job] &&
      (raised <==> Raises(reported)) &&
      (l.acks != log.acks ==>
        reported.Some? && reported.value.StrField? && !IsEmptyString(Some(reported.value.s)) && t.update(reported.value.s) &&
        l.updates == log.updates + [reported.value.s] && l.acks == log.acks + [job.messageId]) &&
      ((reported.Some? && EmptyId(reported.value) == Some(false) && t.update(reported.value.s) &&
        !IsEmptyString(Some(job.messageId))) ==> l.acks == log.acks + [job.messageId]) &&
      (reported.None? || EmptyId(reported.value) != Some(false) ==> l.updates == log.updates && l.acks == log.acks)
  {
  }

  /**
   * The loop over a list of jobs, each built, processed and answered in turn;
   * the first job that raises, itself or in the emptiness test of its id,
   * ends it.
   */
  function Run(log: Log, jobs: seq<JobSpec>, idOf: JobSpec -> Option<Field>, t: Transport): (Log, bool)
    decreases |jobs|
  {
    if jobs == [] then (log, false)
    else
      var (prev, raised) := Run(log, jobs[..|jobs| - 1], idOf, t);
      if raised then (prev, true)
      else
        var j := jobs[|jobs| - 1];
        Step(prev, j, idOf(j), t)
  }

  lemma RunSnoc(log: Log, jobs: seq<JobSpec>, j: JobSpec, idOf: JobSpec -> Option<Field>, t: Transport)
    ensures Run(log, jobs + [j], idOf, t) ==
      if Run(log, jobs, idOf, t).1 then Run(log, jobs, idOf, t) else Step(Run(log, jobs, idOf, t).0, j, idOf(j), t)
  {
    assert (jobs + [j])[..|jobs|] == jobs;
  }

  /** Once a job has raised, the jobs after it are never built. */
  lemma {:induction false} RunAfterRaise(log: Log, jobs: seq<JobSpec>, n: nat, idOf: JobSpec -> Option<Field>, t: Transport)
    requires n <= |jobs|
    requires Run(log, jobs[..n], idOf, t).1
    ensures Run(log, jobs, idOf, t) == Run(log, jobs[..n], idOf, t)
    decreases |jobs| - n
  {
    if n < |jobs| {
      var front := jobs[..|jobs| - 1];
      assert front[..n] == jobs[..n];
      RunAfterRaise(log, front, n, idOf, t);
    } else {
      assert jobs[..n] == jobs;
    }
  }

  /** A job that raised, itself or in the emptiness test of its id. */
  predicate Raises(reported: Option<Field>) {
    reported.None? || reported.value.DictField? || reported.value.OtherField?
  }

  /**
   * The jobs are built in order: a prefix of the list, all of it unless a job
   * raised, and then the last one built is the one that raised.
   */
  lemma {:induction false} RunBuilt(log: Log, jobs: seq<JobSpec>, idOf: JobSpec -> Option<Field>, t: Transport)
    decreases |jobs|
    ensures var (l, raised) := Run(log, jobs, idOf, t);
      |log.built| <= |l.built| <= |log.built| + |jobs| &&
      l.built == log.built + jobs[..|l.built| - |log.built|] &&
      (!raised ==> l.built == log.built + jobs) &&
      (raised ==> |l.built| > |log.built| && Raises(idOf(l.built[|l.built| - 1])))
  {
    if jobs != [] {
      var front := jobs[..|jobs| - 1];
      var j := jobs[|jobs| - 1];
      RunBuilt(log, front, idOf, t);
      var (prev, raised) := Run(log, front, idOf, t);
      if !raised {
        StepAckRule(prev, j, idOf(j), t);
        var (l, _) := Step(prev, j, idOf(j), t);
        assert l.built == prev.built + [j];
        assert jobs[..|l.built| - |log.built|] == front + [j];
      }
    }
  }

  /** Over the whole loop, earlier records are kept and there are never more acknowledgements than updates. */
  lemma {:induction false} RunAckCount(log: Log, jobs: seq<JobSpec>, idOf: JobSpec -> Option<Field>, t: Transport)
    decreases |jobs|
    ensures var l := Run(log, jobs, idOf, t).0;
      |l.acks| - |log.acks| <= |l.updates| - |log.updates| &&
      |log.updates| <= |l.updates| && l.updates[..|log.updates|] == log.updates &&
      |log.acks| <= |l.acks| && l.acks[..|log.acks|] == log.acks
  {
    if jobs != [] {
      var front := jobs[..|jobs| - 1];
      var j := jobs[|jobs| - 1];
      RunAckCount(log, front, idOf, t);
      var (prev, raised) := Run(log, front, idOf, t);
      if !raised {
        StepAckRule(prev, j, idOf(j), t);
        var l := Step(prev, j, idOf(j), t).0;
        assert l.acks[..|prev.acks|] == prev.acks;
        assert l.updates[..|prev.updates|] == prev.updates;
        assert l.acks[..|log.acks|] == prev.acks[..|log.acks|];
        assert l.updates[..|log.updates|] == prev.updates[..|log.updates|];
      }
    }
  }

  /** Every message the loop acknowledged after `log` belongs to one of its jobs. */
  lemma {:induction false} RunAcksFromJobs(log: Log, jobs: seq<JobSpec>, idOf: JobSpec -> Option<Field>, t: Transport)
    decreases |jobs|
    ensures var l := Run(log, jobs, idOf, t).0;
      |log.acks| <= |l.acks| &&
      forall k :: |log.acks| <= k < |l.acks| ==> exists j :: j in jobs && j.messageId == l.acks[k]
  {
    if jobs != [] {
      var front := jobs[..|jobs| - 1];
      var j := jobs[|jobs| - 1];
      RunAcksFromJobs(log, front, idOf, t);
      var (prev, raised) := Run(log, front, idOf, t);
      assert forall x :: x in front ==> x in jobs;
      if !raised {
        StepAckRule(prev, j, idOf(j), t);
      }
    }
  }

  /** The concatenation of the batches grows batch by batch: a batch is a contiguous block of it. */
  lemma {:induction false} ConcatAppend(a: seq<seq<Item>>, b: seq<seq<Item>>)
    decreases |b|
    ensures Concat(a + b) == Concat(a) + Concat(b)
  {
    if b == [] {
      assert a + b == a;
    } else {
      var front := b[..|b| - 1];
      assert (a + b)[..|a + b| - 1] == a + front;
      assert (a + b)[|a + b| - 1] == b[|b| - 1];
      ConcatAppend(a, front);
    }
  }

  /** The items of the first `r` batches and the first `k` of the next one are a prefix of all the items. */
  lemma ConcatPrefix(batches: seq<seq<Item>>, r: nat, k: nat)
    requires r < |batches| && k <= |batches[r]|
    ensures var p := Concat(batches[..r]) + batches[r][..k];
      |p| <= |Concat(batches)| && Concat(batches)[..|p|] == p
  {
    assert batches == batches[..r + 1] + batches[r + 1..];
    ConcatAppend(batches[..r + 1], batches[r + 1..]);
    assert batches[..r + 1][..r] == batches[..r];
  }

  lemma NewJobsSnoc(done: seq<Item>, items: seq<Item>, count: nat)
    requires count < |items|
    ensures NewJobs(done + items[..count + 1]) == NewJobs(done + items[..count]) + [NewJob(items[count])]
  {
    assert done + items[..count + 1] == (done + items[..count]) + [items[count]];
  }

  /** A job of a batch that raised ends the loop for the rest of the batch. */
  lemma RaisedInBatch(start: Log, done: seq<Item>, items: seq<Item>, n: nat, idOf: JobSpec -> Option<Field>, t: Transport)
    requires n <= |items|
    requires Run(start, NewJobs(done + items[..n]), idOf, t).1
    ensures Run(start, NewJobs(done + items), idOf, t) == Run(start, NewJobs(done + items[..n]), idOf, t)
  {
    assert (done + items)[..|done| + n] == done + items[..n];
    assert NewJobs(done + items)[..|done| + n] == NewJobs(done + items[..n]);
    RunAfterRaise(start, NewJobs(done + items), |done| + n, idOf, t);
  }

  function ChannelsFor(workerType: WorkerType): (r: seq<string>)
    ensures TaskCancelChannel in r <==> workerType == ProcessWorker
  {
    if workerType == ProcessWorker then [TaskCancelChannel, AlgoInstallChannel, AlgoUpdateChannel, AlgoDeleteChannel] else []
  }

  /** The outcome of `_setup_redis`: the channels subscribed to and the stream connected to, or the RuntimeError raised. */
  datatype SetupOutcome = SetUp(channels: seq<string>, stream: string) | PubSubFailed | StreamFailed

  /** What a stop message leads to. */
  datatype StopOutcome = EmptyTaskId | NoRunningTask | RunningDifferentItem | CancelCalled | CancelNotImplemented

  /**
   * `_process_task_stop_callback`: a non-empty id that equals, as text, the
   * id the running job reports reaches its `cancel()`; a validation job's
   * `cancel()` raises NotImplementedError.
   */
  function StopDecision(data: Option<string>, running: Option<JobSpec>, currentId: Field): (r: StopOutcome)
    ensures (r == CancelCalled || r == CancelNotImplemented) <==>
      (!IsEmptyString(data) && running.Some? && currentId == StrField(data.value))
    ensures r == CancelCalled ==> running.value.kind == TaskJob
    ensures r == CancelNotImplemented ==> running.value.kind != TaskJob
    ensures r == EmptyTaskId <==> IsEmptyString(data)
    ensures r == NoRunningTask <==> !IsEmptyString(data) && running.None?
  {
    if IsEmptyString(data) then EmptyTaskId
    else if running.None? then NoRunningTask
    else if currentId != StrField(data.value) then RunningDifferentItem
    else if running.value.kind == TaskJob then CancelCalled
    else CancelNotImplemented
  }

  /**
   * Only a process worker subscribes to TASK_CANCEL, and every job it
   * discovers is a Task, so a stop message never reaches a validation job.
   */
  lemma CancelOnlyReachesTasks(serviceStream: string, taskStream: string, response: seq<StreamRead>, item: Item,
                               data: Option<string>, currentId: Field)
    requires Routed(ProcessWorker, serviceStream, taskStream, response).Some?
    requires item in Routed(ProcessWorker, serviceStream, taskStream, response).value
    ensures StopDecision(data, Some(NewJob(item)), currentId) != CancelNotImplemented
    ensures TaskCancelChannel !in ChannelsFor(ServiceWorker)
  {
    RoutedMatchesWorker(ProcessWorker, serviceStream, taskStream, response);
  }

  /**
   * The worker: its type and the two stream names are fixed at start; the
   * running item, the record of what was sent and the jobs cancelled change.
   */
  class Worker {
    const workerType: WorkerType
    const serviceStream: string
    const taskStream: string
    /** `_running_item`. */
    var runningItem: Option<JobSpec>
    var log: Log
    /** The jobs whose `cancel()` was called, oldest first. */
    var cancelled: seq<JobSpec>

    constructor (workerType: WorkerType, serviceStream: string, taskStream: string)
      ensures this.workerType == workerType && this.serviceStream == serviceStream && this.taskStream == taskStream
      ensures runningItem.None? && log == EmptyLog && cancelled == []
    {
      this.workerType := workerType;
      this.serviceStream := serviceStream;
      this.taskStream := taskStream;
      runningItem := None;
      log := EmptyLog;
      cancelled := [];
    }

    /** `run`: a service worker reads the service stream, every other worker the task stream. */
    function StreamName(): (r: string)
      ensures r == serviceStream <== workerType == ServiceWorker
      ensures r == taskStream <== workerType != ServiceWorker
    {
      if workerType == ServiceWorker then serviceStream else taskStream
    }

    /**
     * `_setup_redis`, given whether the pub/sub and the stream connections
     * succeed: only a process worker subscribes, and a failed connection
     * raises a RuntimeError.
     */
    function SetupRedis(pubSubOk: bool, streamOk: bool): (r: SetupOutcome)
      ensures r == PubSubFailed <==> workerType == ProcessWorker && !pubSubOk
      ensures r == StreamFailed <==> !(workerType == ProcessWorker && !pubSubOk) && !streamOk
      ensures r.SetUp? ==> r.stream == StreamName() && (r.channels == [] <==> workerType != ProcessWorker)
      ensures r.SetUp? && workerType == ProcessWorker ==>
        r.channels == [TaskCancelChannel, AlgoInstallChannel, AlgoUpdateChannel, AlgoDeleteChannel]
    {
      if workerType == ProcessWorker && !pubSubOk then PubSubFailed
      else if !streamOk then StreamFailed
      else SetUp(ChannelsFor(workerType), StreamName())
    }

    /** `_process_redis_message`: the items of the first element of a stream read, None where it raises. */
    method ProcessRedisMessage(response: seq<StreamRead>) returns (r: Option<seq<Item>>)
      ensures r == Routed(workerType, serviceStream, taskStream, response)
    {
      if response == [] {
        return None;
      }
      var read := response[0];
      if workerType == ServiceWorker {
        if read.entries == [] {
          return None;
        }
        var isDataset := Truthy(Lookup(read.entries[0].fields, DatasetKey));
        var isModel := Truthy(Lookup(read.entries[0].fields, ModelKey));
        r := ServiceLoop(read, isDataset, isModel);
      } else {
        r := TaskLoop(read);
      }
    }

    /** The service branch of `_process_redis_message`, with the kind flags read from the first entry. */
    method ServiceLoop(read: StreamRead, isDataset: bool, isModel: bool) returns (r: Option<seq<Item>>)
      ensures read.stream != serviceStream ==> r == Some([])
      ensures read.stream == serviceStream ==> r == ServiceEntries(read.entries, isDataset, isModel)
    {
      var newList: seq<Item> := [];
      var count := 0;
      while count < |read.entries|
        invariant 0 <= count <= |read.entries|
        invariant read.stream != serviceStream ==> newList == []
        invariant read.stream == serviceStream ==> ServiceEntries(read.entries[..count], isDataset, isModel) == Some(newList)
      {
        if read.stream == serviceStream {
          var entry := read.entries[count];
          assert read.entries[..count + 1][..count] == read.entries[..count];
          if isDataset || isModel {
            var arguments := Lookup(entry.fields, KeyFor(isDataset));
            if arguments.None? {
              ServiceEntriesRaise(read.entries, isDataset, isModel);
              return None;
            }
            newList := newList + [ServiceItem(entry.messageId, arguments.value, KindFor(isDataset))];
          }
        }
        count := count + 1;
      }
      assert read.entries[..count] == read.entries;
      return Some(newList);
    }

    /** The task branch of `_process_redis_message`. */
    method TaskLoop(read: StreamRead) returns (r: Option<seq<Item>>)
      ensures read.stream != taskStream ==> r == Some([])
      ensures read.stream == taskStream ==> r == TaskEntries(read.entries)
    {
      var newList: seq<Item> := [];
      var count := 0;
      while count < |read.entries|
        invariant 0 <= count <= |read.entries|
        invariant read.stream != taskStream ==> newList == []
        invariant read.stream == taskStream ==> TaskEntries(read.entries[..count]) == Some(newList)
      {
        if read.stream == taskStream {
          var entry := read.entries[count];
          assert read.entries[..count + 1][..count] == read.entries[..count];
          var task := Lookup(entry.fields, TaskKey);
          if task.None? {
            TaskEntriesRoute(read.entries);
            return None;
          }
          newList := newList + [TaskItem(entry.messageId, task.value)];
        }
        count := count + 1;
      }
      assert read.entries[..count] == read.entries;
      return Some(newList);
    }

    /** `_set_running_item`. */
    method SetRunningItem(item: Option<JobSpec>)
      modifies this
      ensures runningItem == item && log == old(log) && cancelled == old(cancelled)
    {
      runningItem := item;
    }

    /** `_send_update`; None where the emptiness test raises. */
    method SendUpdate(updateId: Field, t: Transport) returns (r: Option<bool>)
      modifies this
      ensures (log, r) == SendUpdateEffect(old(log), updateId, t)
      ensures runningItem == old(runningItem) && cancelled == old(cancelled)
    {
      var empty := EmptyId(updateId);
      if empty.None? {
        return None;
      }
      if !empty.value {
        log := log.(updates := log.updates + [updateId.s]);
        return Some(t.update(updateId.s));
      }
      return Some(false);
    }

    /** `_send_acknowledgement`. */
    method SendAcknowledgement(messageId: string, t: Transport) returns (r: bool)
      modifies this
      ensures (log, r) == SendAckEffect(old(log), messageId, t)
      ensures runningItem == old(runningItem) && cancelled == old(cancelled)
    {
      if !IsEmptyString(Some(messageId)) {
        log := log.(acks := log.acks + [messageId]);
        return t.acknowledge(messageId);
      }
      return false;
    }

    /**
     * Record a built job, then, unless it raised, send its update and, if that
     * went through, its acknowledgement.
     */
    method HandleItem(job: JobSpec, reported: Option<Field>, t: Transport) returns (raised: bool)
      modifies this
      ensures (log, raised) == Step(old(log), job, reported, t)
      ensures runningItem == old(runningItem) && cancelled == old(cancelled)
    {
      log := log.(built := log.built + [job]);
      if reported.None? {
        return true;
      }
      var sent := SendUpdate(reported.value, t);
      if sent.None? {
        return true;
      }
      if sent.value {
        var _ := SendAcknowledgement(job.messageId, t);
      }
      return false;
    }

    /**
     * `_clear_pending_items` over the pending items: each is built as a
     * PENDING job and answered in turn; false where a job raised.
     */
    method ClearPendingItems(items: seq<Item>, idOf: JobSpec -> Option<Field>, t: Transport) returns (completed: bool)
      modifies this
      ensures (log, !completed) == Run(old(log), BacklogJobs(items), idOf, t)
      ensures runningItem == old(runningItem) && cancelled == old(cancelled)
    {
      var jobs := BacklogJobs(items);
      var count := 0;
      while count < |items|
        invariant 0 <= count <= |items|
        invariant (log, false) == Run(old(log), jobs[..count], idOf, t)
        invariant runningItem == old(runningItem) && cancelled == old(cancelled)
      {
        var job := BacklogJob(items[count]);
        assert jobs[..count + 1] == jobs[..count] + [job];
        RunSnoc(old(log), jobs[..count], job, idOf, t);
        var raised := HandleItem(job, idOf(job), t);
        if raised {
          RunAfterRaise(old(log), jobs, count + 1, idOf, t);
          return false;
        }
        count := count + 1;
      }
      assert jobs[..count] == jobs;
      return true;
    }

    /**
     * `_discover_new_items` over the successive batches: each item is built as
     * a NEW job, set running, answered, and the running item reset; false
     * where a job raised, with that job left running (until `run`'s handler
     * resets it).
     */
    method DiscoverNewItems(batches: seq<seq<Item>>, idOf: JobSpec -> Option<Field>, t: Transport) returns (completed: bool)
      requires runningItem.None?
      modifies this
      ensures (log, !completed) == Run(old(log), NewJobs(Concat(batches)), idOf, t)
      ensures completed ==> runningItem.None?
      ensures !completed ==> |log.built| > 0 && runningItem == Some(log.built[|log.built| - 1])
      ensures cancelled == old(cancelled)
    {
      var r := 0;
      while r < |batches|
        invariant 0 <= r <= |batches|
        invariant (log, false) == Run(old(log), NewJobs(Concat(batches[..r])), idOf, t)
        invariant runningItem.None? && cancelled == old(cancelled)
      {
        var done := Concat(batches[..r]);
        var ok := DiscoverBatch(batches[r], done, old(log), idOf, t);
        assert batches[..r + 1][..r] == batches[..r];
        if !ok {
          ConcatPrefix(batches, r, |batches[r]|);
          assert batches[r][..|batches[r]|] == batches[r];
          var p := done + batches[r];
          assert NewJobs(Concat(batches))[..|p|] == NewJobs(p);
          RunAfterRaise(old(log), NewJobs(Concat(batches)), |p|, idOf, t);
          return false;
        }
        r := r + 1;
      }
      assert batches[..r] == batches;
      return true;
    }

    /** One pass of the `for` loop of `_discover_new_items`, after the items `done` of the earlier batches. */
    method DiscoverBatch(items: seq<Item>, done: seq<Item>, ghost start: Log, idOf: JobSpec -> Option<Field>, t: Transport)
      returns (completed: bool)
      requires runningItem.None?
      requires (log, false) == Run(start, NewJobs(done), idOf, t)
      modifies this
      ensures (log, !completed) == Run(start, NewJobs(done + items), idOf, t)
      ensures completed ==> runningItem.None?
      ensures !completed ==> |log.built| > 0 && runningItem == Some(log.built[|log.built| - 1])
      ensures cancelled == old(cancelled)
    {
      var count := 0;
      assert done + items[..0] == done;
      while count < |items|
        invariant 0 <= count <= |items|
        invariant (log, false) == Run(start, NewJobs(done + items[..count]), idOf, t)
        invariant runningItem.None? && cancelled == old(cancelled)
      {
        SetRunningItem(None);
        var job := NewJob(items[count]);
        SetRunningItem(Some(job));
        NewJobsSnoc(done, items, count);
        RunSnoc(start, NewJobs(done + items[..count]), job, idOf, t);
        var raised := HandleItem(job, idOf(job), t);
        if raised {
          RaisedInBatch(start, done, items, count + 1, idOf, t);
          return false;
        }
        SetRunningItem(None);
        count := count + 1;
      }
      assert items[..count] == items;
      return true;
    }

    /**
     * `_process_task_stop_callback`, given the message's "data" and the id the
     * running job reports now: only a matching Task is cancelled.
     */
    method ProcessTaskStopCallback(data: Option<string>, currentId: Field) returns (r: StopOutcome)
      modifies this
      ensures r == StopDecision(data, old(runningItem), currentId)
      ensures cancelled == old(cancelled) + (if r == CancelCalled then [old(runningItem).value] else [])
      ensures runningItem == old(runningItem) && log == old(log)
    {
      if IsEmptyString(data) {
        return EmptyTaskId;
      }
      var running := runningItem;
      if running.None? {
        return NoRunningTask;
      }
      if currentId != StrField(data.value) {
        return RunningDifferentItem;
      }
      if running.value.kind != TaskJob {
        return CancelNotImplemented;
      }
      cancelled := cancelled + [running.value];
      return CancelCalled;
    }
  }
}
