/**
 * Finding an algorithm (test_engine_core/plugins/algorithm_manager.py): the
 * id must be exactly a key of the algorithm registry; when it is, four
 * run-time entries are written into the caller's argument dict before the
 * plugin is built with it.
 */
module AlgorithmManager {
  import opened Wrappers
  import opened OrderedDict
  import opened Plugins

  const ProjectBasePathKey: string := "project_base_path"
  const LoggerKey: string := "logger"
  const ProgressCallbackKey: string := "progress_callback"
  const GroundTruthKey: string := "ground_truth"
  const UnsupportedPrefix: string := "Unsupported algorithm: "

  /** The keyword arguments `get_algorithm` reads; None is an absent key. */
  datatype AlgorithmRequest = AlgorithmRequest(
    algorithmId: Option<string>,
    dataInstance: Option<Handle>,
    groundTruthInstance: Option<Handle>,
    modelInstance: Option<Handle>,
    logger: Option<ArgValue>,
    progressCallback: Option<ArgValue>,
    groundTruth: Option<ArgValue>)

  /** The id looked up: an absent id is "". */
  function RequestedId(request: AlgorithmRequest): string {
    request.algorithmId.GetOr("")
  }

  /** The caller's argument dict, which `get_algorithm` updates in place. */
  class ArgumentDict {
    var entries: Dict<ArgValue>

    constructor (entries: Dict<ArgValue>)
      ensures this.entries == entries
    {
      this.entries := entries;
    }

    /** `d[key] = value`. */
    method Set(key: string, value: ArgValue)
      modifies this
      ensures entries == Put(old(entries), key, value)
    {
      entries := Put(entries, key, value);
    }
  }

  /** The argument dict after the four writes, in the order the source makes them. */
  function WithRunTimeArguments(entries: Dict<ArgValue>, folder: string, request: AlgorithmRequest): Dict<ArgValue> {
    Put(Put(Put(Put(entries,
      ProjectBasePathKey, Text(folder)),
      LoggerKey, request.logger.GetOr(NoneValue)),
      ProgressCallbackKey, request.progressCallback.GetOr(NoneValue)),
      GroundTruthKey, request.groundTruth.GetOr(Text("")))
  }

  /**
   * The four keys get their new values, overwriting any same-named entry
   * (absent logger and callback are None, an absent ground truth is ""), and
   * every other key is untouched.
   */
  lemma RunTimeArgumentsWritten(entries: Dict<ArgValue>, folder: string, request: AlgorithmRequest)
    ensures var d := WithRunTimeArguments(entries, folder, request);
      Get(d, ProjectBasePathKey) == Some(Text(folder)) &&
      Get(d, LoggerKey) == Some(request.logger.GetOr(NoneValue)) &&
      Get(d, ProgressCallbackKey) == Some(request.progressCallback.GetOr(NoneValue)) &&
      Get(d, GroundTruthKey) == Some(request.groundTruth.GetOr(Text(""))) &&
      forall k :: k != ProjectBasePathKey && k != LoggerKey && k != ProgressCallbackKey && k != GroundTruthKey ==>
        Get(d, k) == Get(entries, k)
  {
    assert ProjectBasePathKey != LoggerKey && ProjectBasePathKey != ProgressCallbackKey && ProjectBasePathKey != GroundTruthKey;
    assert LoggerKey != ProgressCallbackKey && LoggerKey != GroundTruthKey;
    assert ProgressCallbackKey != GroundTruthKey;
  }

  /**
   * `get_algorithm`: found exactly when the id is a key of the registry. Then
   * the dict gets the run-time entries, the plugin is built from it and the
   * message is ""; otherwise the dict is unchanged and the message names the id.
   */
  method GetAlgorithm(algorithmPlugins: Dict<PluginModule>, request: AlgorithmRequest, algorithmArguments: ArgumentDict, b: PluginBehaviour)
    returns (isSuccess: bool, algorithm: Option<Handle>, errorMessage: string)
    modifies algorithmArguments
    ensures isSuccess <==> RequestedId(request) in Keys(algorithmPlugins)
    ensures !isSuccess ==>
      algorithm == None && errorMessage == UnsupportedPrefix + RequestedId(request) &&
      algorithmArguments.entries == old(algorithmArguments.entries)
    ensures isSuccess ==>
      var m := Get(algorithmPlugins, RequestedId(request)).value;
      algorithmArguments.entries == WithRunTimeArguments(old(algorithmArguments.entries), b.pluginFolder(m), request) &&
      algorithm == Some(b.makeAlgorithm(m, request.dataInstance, request.modelInstance, request.groundTruthInstance, algorithmArguments.entries)) &&
      errorMessage == ""
  {
    var algorithmId := RequestedId(request);
    var found := Get(algorithmPlugins, algorithmId);
    if found.Some? {
      isSuccess := true;
      errorMessage := "";
      var m := found.value;
      algorithmArguments.Set(ProjectBasePathKey, Text(b.pluginFolder(m)));
      algorithmArguments.Set(LoggerKey, request.logger.GetOr(NoneValue));
      algorithmArguments.Set(ProgressCallbackKey, request.progressCallback.GetOr(NoneValue));
      algorithmArguments.Set(GroundTruthKey, request.groundTruth.GetOr(Text("")));
      algorithm := Some(b.makeAlgorithm(m, request.dataInstance, request.modelInstance, request.groundTruthInstance, algorithmArguments.entries));
    } else {
      algorithm := None;
      isSuccess := false;
      errorMessage := UnsupportedPrefix + algorithmId;
    }
  }
}
