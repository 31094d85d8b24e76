/**
 * The go-between of the test engine and its plugin registry
 * (test_engine_app/processing/plugin_controller.py): it asks the plugin
 * manager for instances without ever raising, falls back to the algorithm
 * registry to install a missing algorithm, and handles the install, update
 * and delete messages of the algorithm channels.
 */
module PluginControl {
  import opened Wrappers
  import opened Enums
  import opened OrderedDict
  import opened Arguments
  import opened Plugins
  import opened PluginsManager
  import ValidationChecks
  import AlgorithmManager

  /**
   * What the algorithm registry knows of an algorithm (`AlgorithmInfo`, built
   * from the registry's non-empty response): the id it was asked for, where
   * to discover it and whether it needs ground truth. algorithm_info.py is not
   * part of this model; only these getters are used.
   */
  datatype AlgorithmInfo = AlgorithmInfo(algorithmId: Field, algorithmPath: string, requireGroundTruth: bool)

  /** A non-empty registry response, as `AlgorithmInfo` reads it. */
  datatype RegistryEntry = RegistryEntry(algorithmPath: string, requireGroundTruth: bool)

  /** `Redis.get_algorithm_info`: None stands for the empty dict (not found). */
  type AlgorithmRegistry = Field -> Option<RegistryEntry>

  /** `kwargs.get("algorithm_id")` as the registry receives it. */
  function IdField(algorithmId: Option<string>): (f: Field)
    ensures f.NoneField? <==> algorithmId.None?
    ensures algorithmId.Some? ==> f == StrField(algorithmId.value)
  {
    if algorithmId.Some? then StrField(algorithmId.value) else NoneField
  }

  /** `_get_from_algorithm_registry`: an info exactly when the response is non-empty, carrying the asked id. */
  function FromAlgorithmRegistry(algorithmId: Field, registry: AlgorithmRegistry): (r: Option<AlgorithmInfo>)
    ensures r.Some? <==> registry(algorithmId).Some?
    ensures r.Some? ==> (r.value.algorithmId == algorithmId &&
      r.value.algorithmPath == registry(algorithmId).value.algorithmPath &&
      r.value.requireGroundTruth == registry(algorithmId).value.requireGroundTruth)
  {
    match registry(algorithmId)
    case None => None
    case Some(e) => Some(AlgorithmInfo(algorithmId, e.algorithmPath, e.requireGroundTruth))
  }

  /** `get_plugin_information`: only algorithms are looked up; every other kind has no information. */
  function GetPluginInformation(pluginType: PluginType, algorithmId: Field, registry: AlgorithmRegistry): (r: Option<AlgorithmInfo>)
    ensures r.Some? <==> pluginType == Algorithm && registry(algorithmId).Some?
    ensures r.Some? ==> r.value.algorithmId == algorithmId
  {
    if pluginType == Algorithm then FromAlgorithmRegistry(algorithmId, registry) else None
  }

  /** The triple `_get_from_plugin_manager` returns: a RuntimeError becomes no instance, no serializer and its text. */
  function Returned(o: Outcome): (r: (Option<Handle>, Option<PluginModule>, string))
    ensures r.2 == o.message
    ensures o.RuntimeFailure? ==> r.0.None? && r.1.None?
    ensures o.Instance? ==> r.0 == o.instance && r.1 == o.serializer
  {
    match o
    case Instance(instance, serializer, message) => (instance, serializer, message)
    case RuntimeFailure(message) => (None, None, message)
  }

  /** `_get_from_plugin_manager`: ask for an instance; never raises. */
  method GetFromPluginManager(pm: PluginManager, pluginType: PluginType, kwargs: Kwargs, algorithmArguments: AlgorithmManager.ArgumentDict,
                              b: PluginBehaviour, show: Field -> string, kwargsText: string)
    returns (pluginInstance: Option<Handle>, serializerInstance: Option<PluginModule>, errorMessage: string)
    requires pm.Valid()
    modifies algorithmArguments
    ensures (pluginInstance, serializerInstance, errorMessage) ==
      Returned(InstanceFor(pm.plugins, pluginType, kwargs, old(algorithmArguments.entries), b, show, kwargsText))
    ensures algorithmArguments.entries == EntriesAfter(pm.plugins, pluginType, kwargs, old(algorithmArguments.entries), b)
  {
    var r := pm.GetInstance(pluginType, kwargs, algorithmArguments, b, show, kwargsText);
    match r
    case Instance(instance, serializer, message) =>
      pluginInstance, serializerInstance, errorMessage := instance, serializer, message;
    case RuntimeFailure(message) =>
      pluginInstance, serializerInstance, errorMessage := None, None, message;
  }

  /** The first attempt leads to the registry exactly for an algorithm that was not found. */
  predicate NeedsRegistry(plugins: Registry, pluginType: PluginType, kwargs: Kwargs)
    requires WellFormed(plugins)
  {
    pluginType == Algorithm && AlgorithmManager.RequestedId(kwargs.algorithm) !in Keys(plugins[Algorithm])
  }

  /** An algorithm that is not found gives no instance, and one that is found gives one. */
  lemma NeedsRegistryExactly(plugins: Registry, pluginType: PluginType, kwargs: Kwargs, entries: Dict<ArgValue>,
                             b: PluginBehaviour, show: Field -> string, kwargsText: string)
    requires WellFormed(plugins) && pluginType == Algorithm
    ensures Returned(InstanceFor(plugins, pluginType, kwargs, entries, b, show, kwargsText)).0.None? <==> NeedsRegistry(plugins, pluginType, kwargs)
    ensures NeedsRegistry(plugins, pluginType, kwargs) ==> EntriesAfter(plugins, pluginType, kwargs, entries, b) == entries
  {
  }

  /**
   * `get_plugin_instance`: ask once; when an algorithm is missing, look it up
   * in the algorithm registry, and when the registry has it, discover its
   * folder tagged with the id and ask again. `scan` stands for what the
   * discovery glob and imports find under a folder.
   */
  method GetPluginInstance(pm: PluginManager, pluginType: PluginType, kwargs: Kwargs, algorithmArguments: AlgorithmManager.ArgumentDict,
                           b: PluginBehaviour, show: Field -> string, kwargsText: string,
                           registry: AlgorithmRegistry, scan: string -> seq<Candidate>)
    returns (pluginInstance: Option<Handle>, serializerInstance: Option<PluginModule>, errorMessage: string)
    requires pm.Valid()
    modifies pm, algorithmArguments
    ensures pm.Valid()
    ensures var first := InstanceFor(old(pm.plugins), pluginType, kwargs, old(algorithmArguments.entries), b, show, kwargsText);
      !NeedsRegistry(old(pm.plugins), pluginType, kwargs) ==>
        (pluginInstance, serializerInstance, errorMessage) == Returned(first) && pm.plugins == old(pm.plugins) &&
        algorithmArguments.entries == EntriesAfter(old(pm.plugins), pluginType, kwargs, old(algorithmArguments.entries), b)
    ensures var first := InstanceFor(old(pm.plugins), pluginType, kwargs, old(algorithmArguments.entries), b, show, kwargsText);
      var info := FromAlgorithmRegistry(IdField(kwargs.algorithm.algorithmId), registry);
      NeedsRegistry(old(pm.plugins), pluginType, kwargs) && info.None? ==>
        pluginInstance == None && serializerInstance == None && errorMessage == first.message &&
        pm.plugins == old(pm.plugins) && algorithmArguments.entries == old(algorithmArguments.entries)
    ensures var info := FromAlgorithmRegistry(IdField(kwargs.algorithm.algorithmId), registry);
      NeedsRegistry(old(pm.plugins), pluginType, kwargs) && info.Some? ==>
        pm.plugins == Register(old(pm.plugins), Collect(scan(info.value.algorithmPath), kwargs.algorithm.algorithmId)) &&
        (pluginInstance, serializerInstance, errorMessage) ==
          Returned(InstanceFor(pm.plugins, pluginType, kwargs, old(algorithmArguments.entries), b, show, kwargsText)) &&
        algorithmArguments.entries == EntriesAfter(pm.plugins, pluginType, kwargs, old(algorithmArguments.entries), b)
  {
    NeedsRegistryExactly(pm.plugins, Algorithm, kwargs, algorithmArguments.entries, b, show, kwargsText);
    pluginInstance, serializerInstance, errorMessage := GetFromPluginManager(pm, pluginType, kwargs, algorithmArguments, b, show, kwargsText);
    if pluginInstance.None? && pluginType == Algorithm {
      var algorithmInfo := FromAlgorithmRegistry(IdField(kwargs.algorithm.algorithmId), registry);
      if algorithmInfo.None? {
        pluginInstance, serializerInstance := None, None;
      } else {
        pm.Discover(scan(algorithmInfo.value.algorithmPath), kwargs.algorithm.algorithmId);
        pluginInstance, serializerInstance, errorMessage := GetFromPluginManager(pm, pluginType, kwargs, algorithmArguments, b, show, kwargsText);
      }
    }
  }

  /**
   * Discovering an algorithm folder tagged with a missing id whose last
   * loadable module is an algorithm installs it under that id, so the
   * second attempt of `GetPluginInstance` finds it.
   */
  lemma TaggedDiscoveryInstalls(plugins: Registry, found: seq<Candidate>, algorithmId: string)
    requires WellFormed(plugins) && algorithmId != ""
    requires LastAccepted(found).Some? && LastAccepted(found).value.kind == Algorithm
    ensures algorithmId in Keys(Register(plugins, Collect(found, Some(algorithmId)))[Algorithm])
  {
    CollectTagged(found, Some(algorithmId));
    RegisterAdds(plugins, Collect(found, Some(algorithmId)), 0);
  }

  /** Which log line a channel callback ends with. */
  datatype CallbackOutcome =
    | EmptyId          // "Empty algorithm id"
    | AlreadyExists    // install: the id is already registered
    | DoesNotExist     // update and delete: the id is not registered
    | NotInRegistry    // install and update: the algorithm registry does not know the id
    | NotDiscovered    // install: discovery did not register the id
    | NotDeleted       // delete: the id is still registered
    | Completed             // installed, updated or deleted

  /** `process_algorithm_install_callback`: install an algorithm the registry knows but the plugin manager does not. */
  method InstallCallback(pm: PluginManager, data: Option<string>, registry: AlgorithmRegistry, scan: string -> seq<Candidate>)
    returns (outcome: CallbackOutcome)
    requires pm.Valid()
    modifies pm
    ensures pm.Valid()
    ensures outcome in {EmptyId, AlreadyExists, NotInRegistry, NotDiscovered, Completed}
    ensures outcome == EmptyId <==> ValidationChecks.IsEmptyString(data)
    ensures outcome == AlreadyExists <==> !ValidationChecks.IsEmptyString(data) && data.value in Keys(old(pm.plugins)[Algorithm])
    ensures outcome == NotInRegistry <==> (!ValidationChecks.IsEmptyString(data) && data.value !in Keys(old(pm.plugins)[Algorithm]) &&
      registry(StrField(data.value)).None?)
    ensures outcome in {EmptyId, AlreadyExists, NotInRegistry} ==> pm.plugins == old(pm.plugins)
    ensures outcome in {Completed, NotDiscovered} ==>
      pm.plugins == Register(old(pm.plugins), Collect(scan(registry(StrField(data.value)).value.algorithmPath), data)) &&
      (outcome == Completed <==> data.value in Keys(pm.plugins[Algorithm]))
  {
    if ValidationChecks.IsEmptyString(data) {
      return EmptyId;
    }
    var algorithmId := data.value;
    if pm.IsPluginExists(Algorithm, algorithmId) {
      return AlreadyExists;
    }
    var algorithmInfo := FromAlgorithmRegistry(StrField(algorithmId), registry);
    if algorithmInfo.None? {
      return NotInRegistry;
    }
    pm.Discover(scan(algorithmInfo.value.algorithmPath), data);
    if pm.IsPluginExists(Algorithm, algorithmId) {
      outcome := Completed;
    } else {
      outcome := NotDiscovered;
    }
  }

  /**
   * `process_algorithm_update_callback` as written: for a registered id the
   * registry knows, discover its folder tagged with the id.
   */
  method UpdateCallback(pm: PluginManager, data: Option<string>, registry: AlgorithmRegistry, scan: string -> seq<Candidate>)
    returns (outcome: CallbackOutcome)
    requires pm.Valid()
    modifies pm
    ensures pm.Valid()
    ensures outcome == EmptyId <==> ValidationChecks.IsEmptyString(data)
    ensures outcome == DoesNotExist <==> !ValidationChecks.IsEmptyString(data) && data.value !in Keys(old(pm.plugins)[Algorithm])
    ensures outcome == NotInRegistry <==> (!ValidationChecks.IsEmptyString(data) && data.value in Keys(old(pm.plugins)[Algorithm]) &&
      registry(StrField(data.value)).None?)
    ensures outcome in {EmptyId, DoesNotExist, NotInRegistry} ==> pm.plugins == old(pm.plugins)
    ensures outcome == Completed ==>
      pm.plugins == Register(old(pm.plugins), Collect(scan(registry(StrField(data.value)).value.algorithmPath), data))
    ensures outcome in {EmptyId, DoesNotExist, NotInRegistry, Completed}
  {
    if ValidationChecks.IsEmptyString(data) {
      return EmptyId;
    }
    var algorithmId := data.value;
    if !pm.IsPluginExists(Algorithm, algorithmId) {
      return DoesNotExist;
    }
    var algorithmInfo := FromAlgorithmRegistry(StrField(algorithmId), registry);
    if algorithmInfo.None? {
      return NotInRegistry;
    }
    pm.Discover(scan(algorithmInfo.value.algorithmPath), data);
    outcome := Completed;
  }

  /**
   * An update reported as done leaves the algorithm registered under the id
   * with the module it had before: registration never overwrites, so the
   * freshly discovered module is dropped.
   */
  lemma UpdateKeepsOldModule(plugins: Registry, found: seq<Candidate>, algorithmId: string)
    requires WellFormed(plugins) && algorithmId in Keys(plugins[Algorithm])
    ensures Get(Register(plugins, Collect(found, Some(algorithmId)))[Algorithm], algorithmId) == Get(plugins[Algorithm], algorithmId)
  {
    RegisterNeverOverwrites(plugins, Collect(found, Some(algorithmId)), Algorithm, algorithmId);
  }

  /** A concrete update: module 1 stays registered although the folder now holds module 2. */
  lemma UpdateDropsNewModule()
    ensures var plugins := Initial[Algorithm := [("a", PluginModule(1, Algorithm))]];
      var found := [Candidate("a.py", Some(PluginModule(2, Algorithm)))];
      WellFormed(plugins) &&
      Get(Register(plugins, Collect(found, Some("a")))[Algorithm], "a") == Some(PluginModule(1, Algorithm))
  {
    var plugins := Initial[Algorithm := [("a", PluginModule(1, Algorithm))]];
    InitialWellFormed();
    assert Keys(plugins[Algorithm]) == ["a"];
    assert WellFormed(plugins);
    UpdateKeepsOldModule(plugins, [Candidate("a.py", Some(PluginModule(2, Algorithm)))], "a");
  }

  /**
   * The update as evidently intended: drop the registered algorithm, then
   * discover its folder tagged with the id, so the module found now is the
   * one registered.
   */
  method UpdateCallbackReplacing(pm: PluginManager, data: Option<string>, registry: AlgorithmRegistry, scan: string -> seq<Candidate>)
    returns (outcome: CallbackOutcome)
    requires pm.Valid()
    modifies pm
    ensures pm.Valid()
    ensures outcome == EmptyId <==> ValidationChecks.IsEmptyString(data)
    ensures outcome == DoesNotExist <==> !ValidationChecks.IsEmptyString(data) && data.value !in Keys(old(pm.plugins)[Algorithm])
    ensures outcome == NotInRegistry <==> (!ValidationChecks.IsEmptyString(data) && data.value in Keys(old(pm.plugins)[Algorithm]) &&
      registry(StrField(data.value)).None?)
    ensures outcome in {EmptyId, DoesNotExist, NotInRegistry} ==> pm.plugins == old(pm.plugins)
    ensures outcome == Completed ==>
      var found := scan(registry(StrField(data.value)).value.algorithmPath);
      LastAccepted(found).Some? && LastAccepted(found).value.kind == Algorithm ==>
        Get(pm.plugins[Algorithm], data.value) == LastAccepted(found)
    ensures outcome in {EmptyId, DoesNotExist, NotInRegistry, Completed}
  {
    if ValidationChecks.IsEmptyString(data) {
      return EmptyId;
    }
    var algorithmId := data.value;
    if !pm.IsPluginExists(Algorithm, algorithmId) {
      return DoesNotExist;
    }
    var algorithmInfo := FromAlgorithmRegistry(StrField(algorithmId), registry);
    if algorithmInfo.None? {
      return NotInRegistry;
    }
    var removed := pm.RemovePlugin(Algorithm, algorithmId);
    var found := scan(algorithmInfo.value.algorithmPath);
    ghost var before := pm.plugins;
    pm.Discover(found, data);
    if LastAccepted(found).Some? && LastAccepted(found).value.kind == Algorithm {
      TaggedDiscoveryRegistersLast(before, found, algorithmId);
    }
    outcome := Completed;
  }

  /** A tagged discovery of a missing id registers the last loadable module under the id, when that module is an algorithm. */
  lemma TaggedDiscoveryRegistersLast(plugins: Registry, found: seq<Candidate>, algorithmId: string)
    requires WellFormed(plugins) && algorithmId != "" && algorithmId !in Keys(plugins[Algorithm])
    requires LastAccepted(found).Some? && LastAccepted(found).value.kind == Algorithm
    ensures Get(Register(plugins, Collect(found, Some(algorithmId)))[Algorithm], algorithmId) == LastAccepted(found)
  {
    CollectTagged(found, Some(algorithmId));
    var modules := Collect(found, Some(algorithmId));
    assert modules[..0] == [];
    var m := LastAccepted(found).value;
  }

  /** `process_algorithm_delete_callback`: remove a registered algorithm. */
  method DeleteCallback(pm: PluginManager, data: Option<string>)
    returns (outcome: CallbackOutcome)
    requires pm.Valid()
    modifies pm
    ensures pm.Valid()
    ensures outcome == EmptyId <==> ValidationChecks.IsEmptyString(data)
    ensures outcome == DoesNotExist <==> !ValidationChecks.IsEmptyString(data) && data.value !in Keys(old(pm.plugins)[Algorithm])
    ensures outcome in {EmptyId, DoesNotExist} ==> pm.plugins == old(pm.plugins)
    ensures outcome !in {EmptyId, DoesNotExist} ==>
      outcome == Completed && pm.plugins == old(pm.plugins)[Algorithm := Remove(old(pm.plugins)[Algorithm], data.value)] &&
      Get(pm.plugins[Algorithm], data.value) == None
  {
    if ValidationChecks.IsEmptyString(data) {
      return EmptyId;
    }
    var algorithmId := data.value;
    if !pm.IsPluginExists(Algorithm, algorithmId) {
      return DoesNotExist;
    }
    var removed := pm.RemovePlugin(Algorithm, algorithmId);
    if removed {
      outcome := Completed;
    } else {
      outcome := NotDeleted;
    }
  }
}
