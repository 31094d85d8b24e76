/**
 * The plugin registry (test_engine_core/plugins/plugins_manager.py): one
 * insertion-ordered dict of modules per plugin kind, filled by discovery that
 * never overwrites, emptied by removal, and the dispatch of `get_instance`
 * to the data, model and algorithm managers.
 */
module PluginsManager {
  import opened Wrappers
  import opened Enums
  import opened OrderedDict
  import opened Arguments
  import opened Plugins
  import DataManager
  import ModelManager
  import AlgorithmManager

  /** `_plugins`: plugin kind to its modules by name. */
  type Registry = map<PluginType, Dict<PluginModule>>

  /** Every kind has its dict, and no dict has a name twice. */
  predicate WellFormed(plugins: Registry) {
    (forall kind: PluginType :: kind in plugins) &&
    forall kind :: kind in plugins ==> DistinctKeys(plugins[kind])
  }

  /** One empty dict per plugin kind. */
  const Initial: Registry := map[Algorithm := [], Data := [], Model := [], Serializer := []]

  lemma InitialWellFormed()
    ensures WellFormed(Initial)
    ensures forall kind: PluginType :: kind in Initial && Initial[kind] == []
  {
    forall kind: PluginType
      ensures kind in Initial && Initial[kind] == []
    {
      match kind
      case Algorithm =>
      case Data =>
      case Model =>
      case Serializer =>
    }
  }

  /**
   * A Python file the discovery glob found: its file name and, when its spec
   * could be made, it imported without raising and it defines a `Plugin` of a
   * known kind, the module.
   */
  datatype Candidate = Candidate(fileName: string, plugin: Option<PluginModule>)

  /** The module name: the file name without a trailing ".py". */
  function ModuleName(fileName: string): (r: string)
    ensures |r| <= |fileName|
  {
    var n := |fileName|;
    if n >= 3 && fileName[n - 3] == '.' && fileName[n - 2] == 'p' && fileName[n - 1] == 'y' then fileName[..n - 3]
    else fileName
  }

  /** The name contains "__". */
  predicate HasDunder(s: string) {
    exists i :: 0 <= i < |s| - 1 && s[i] == '_' && s[i + 1] == '_'
  }

  /** `if tag_name:` */
  predicate TagTruthy(tagName: Option<string>) {
    tagName.Some? && tagName.value != ""
  }

  /** A candidate discovery keeps: a loadable plugin module whose name has no "__". */
  predicate Accepted(c: Candidate) {
    !HasDunder(ModuleName(c.fileName)) && c.plugin.Some?
  }

  /** The key a kept candidate is stored under: the tag when one is given, else its module name. */
  function KeyOf(c: Candidate, tagName: Option<string>): string {
    if TagTruthy(tagName) then tagName.value else ModuleName(c.fileName)
  }

  /** `plugin_modules` after the discovery loop over `found`. */
  function Collect(found: seq<Candidate>, tagName: Option<string>): (r: Dict<PluginModule>)
    ensures DistinctKeys(r)
  {
    if found == [] then []
    else
      var d := Collect(found[..|found| - 1], tagName);
      var c := found[|found| - 1];
      if Accepted(c) then
        PutKeepsDistinct(d, KeyOf(c, tagName), c.plugin.value);
        Put(d, KeyOf(c, tagName), c.plugin.value)
      else d
  }

  /** The module of the last kept candidate. */
  function LastAccepted(found: seq<Candidate>): (r: Option<PluginModule>)
    ensures r.Some? ==> exists i :: 0 <= i < |found| && Accepted(found[i]) && found[i].plugin == r
  {
    if found == [] then None
    else if Accepted(found[|found| - 1]) then found[|found| - 1].plugin
    else LastAccepted(found[..|found| - 1])
  }

  /** With a tag, discovery keeps at most one module, the last one found, under the tag. */
  lemma {:induction false} CollectTagged(found: seq<Candidate>, tagName: Option<string>)
    requires TagTruthy(tagName)
    ensures Collect(found, tagName) == if LastAccepted(found).Some? then [(tagName.value, LastAccepted(found).value)] else []
    decreases |found|
  {
    if found != [] {
      CollectTagged(found[..|found| - 1], tagName);
    }
  }

  /** A kept candidate's name, the key it gets without a tag. */
  predicate KeptAs(found: seq<Candidate>, k: string) {
    exists i :: 0 <= i < |found| && Accepted(found[i]) && ModuleName(found[i].fileName) == k
  }

  /** Keeping candidates one more step: the last one is kept as `k`, or an earlier one was. */
  lemma KeptAsStep(found: seq<Candidate>, k: string)
    requires found != []
    ensures KeptAs(found, k) <==>
      KeptAs(found[..|found| - 1], k) ||
      (Accepted(found[|found| - 1]) && ModuleName(found[|found| - 1].fileName) == k)
  {
    var front := found[..|found| - 1];
    if KeptAs(found, k) {
      var i :| 0 <= i < |found| && Accepted(found[i]) && ModuleName(found[i].fileName) == k;
      if i < |front| {
        assert front[i] == found[i];
      }
    }
    if KeptAs(front, k) {
      var i :| 0 <= i < |front| && Accepted(front[i]) && ModuleName(front[i].fileName) == k;
      assert found[i] == front[i];
    }
  }

  /** Without a tag, the keys are exactly the names of the kept candidates. */
  lemma {:induction false} CollectUntagged(found: seq<Candidate>, tagName: Option<string>, k: string)
    requires !TagTruthy(tagName)
    ensures k in Keys(Collect(found, tagName)) <==> KeptAs(found, k)
    decreases |found|
  {
    if found != [] {
      var front := found[..|found| - 1];
      var c := found[|found| - 1];
      CollectUntagged(front, tagName, k);
      KeptAsStep(found, k);
      if Accepted(c) {
        PutKeys(Collect(front, tagName), KeyOf(c, tagName), c.plugin.value);
      }
    }
  }

  /** Without a tag, no discovered key contains "__". */
  lemma CollectUntaggedNoDunder(found: seq<Candidate>, tagName: Option<string>, k: string)
    requires !TagTruthy(tagName) && k in Keys(Collect(found, tagName))
    ensures !HasDunder(k)
  {
    CollectUntagged(found, tagName, k);
  }

  /** `_update_plugin_modules`: each found module is added under its own kind unless its name is already there. */
  function Register(plugins: Registry, modules: Dict<PluginModule>): (r: Registry)
    requires WellFormed(plugins)
    ensures WellFormed(r)
  {
    if modules == [] then plugins
    else
      var p := Register(plugins, modules[..|modules| - 1]);
      var (name, m) := modules[|modules| - 1];
      if name in Keys(p[m.kind]) then p
      else
        PutKeepsDistinct(p[m.kind], name, m);
        p[m.kind := Put(p[m.kind], name, m)]
  }

  /** Registration never overwrites: a name already under a kind keeps its module. */
  lemma {:induction false} RegisterNeverOverwrites(plugins: Registry, modules: Dict<PluginModule>, kind: PluginType, name: string)
    requires WellFormed(plugins) && name in Keys(plugins[kind])
    ensures Get(Register(plugins, modules)[kind], name) == Get(plugins[kind], name)
    decreases |modules|
  {
    if modules != [] {
      RegisterNeverOverwrites(plugins, modules[..|modules| - 1], kind, name);
    }
  }

  /** After registration every found name is present under its module's kind. */
  lemma {:induction false} RegisterAdds(plugins: Registry, modules: Dict<PluginModule>, i: nat)
    requires WellFormed(plugins) && i < |modules|
    ensures modules[i].0 in Keys(Register(plugins, modules)[modules[i].1.kind])
    decreases |modules|
  {
    var front := modules[..|modules| - 1];
    var p := Register(plugins, front);
    var (name, m) := modules[|modules| - 1];
    if i < |modules| - 1 {
      RegisterAdds(plugins, front, i);
      assert front[i] == modules[i];
      if name !in Keys(p[m.kind]) {
        PutKeys(p[m.kind], name, m);
      }
    } else if name !in Keys(p[m.kind]) {
      PutKeys(p[m.kind], name, m);
    }
  }

  /** A tagged discovery of a tag already registered under that kind changes nothing. */
  lemma TaggedDiscoveryOfRegisteredTag(plugins: Registry, found: seq<Candidate>, tagName: Option<string>)
    requires WellFormed(plugins) && TagTruthy(tagName)
    requires LastAccepted(found).Some? ==> tagName.value in Keys(plugins[LastAccepted(found).value.kind])
    ensures Register(plugins, Collect(found, tagName)) == plugins
  {
    CollectTagged(found, tagName);
    if LastAccepted(found).Some? {
      var modules := Collect(found, tagName);
      assert modules[..0] == [];
    }
  }

  /** Where `get_instance` sends a request. */
  datatype Route = LoadData | LoadModel | FindAlgorithm

  /** DATA to data loading, MODEL to model loading, every other kind (serializer included) to algorithm lookup. */
  function RouteOf(kind: PluginType): (r: Route)
    ensures r == LoadData <==> kind == Data
    ensures r == LoadModel <==> kind == Model
  {
    if kind == Data then LoadData else if kind == Model then LoadModel else FindAlgorithm
  }

  /** The keyword arguments `get_instance` passes on; None is an absent key. */
  datatype Kwargs = Kwargs(
    filename: Option<string>,
    mode: Option<ModelMode>,
    apiSchema: Option<Field>,
    apiConfig: Option<Field>,
    algorithm: AlgorithmManager.AlgorithmRequest)

  /** What `get_instance` ends with: an instance triple, or a RuntimeError with its message. */
  datatype Outcome = Instance(instance: Option<Handle>, serializer: Option<PluginModule>, message: string) | RuntimeFailure(message: string)

  const DataFailurePrefix: string := "Failed to load dataset(file): "
  const ModelApiFailurePrefix: string := "Failed to load model(api): "
  const ModelFileFailurePrefix: string := "Failed to load model(file): "
  const AlgorithmFailurePrefix: string := "Failed to load algorithm: "

  /** `f"{prefix}{subject} ({error_message})"` */
  function FailureText(prefix: string, subject: string, errorMessage: string): string {
    prefix + subject + " (" + errorMessage + ")"
  }

  /** A manager's answer as `get_instance` passes it on: success gives the triple, failure raises. */
  function FromLoad(r: LoadResult, failure: string): (o: Outcome)
    ensures o.Instance? <==> r.isSuccess
  {
    if r.isSuccess then Instance(r.instance, r.serializer, r.errorMessage) else RuntimeFailure(failure)
  }

  /**
   * What `get_instance` returns for `kind`, given the registry and the caller's
   * argument dict. `show` is `str()` of an API schema or config and
   * `kwargsText` is `str()` of the keyword arguments.
   */
  function InstanceFor(plugins: Registry, kind: PluginType, kwargs: Kwargs, entries: Dict<ArgValue>,
                       b: PluginBehaviour, show: Field -> string, kwargsText: string): (o: Outcome)
    requires WellFormed(plugins)
    ensures RouteOf(kind) == FindAlgorithm ==>
      (o.Instance? <==> AlgorithmManager.RequestedId(kwargs.algorithm) in Keys(plugins[Algorithm]))
    ensures RouteOf(kind) == FindAlgorithm && o.Instance? ==> o.instance.Some? && o.serializer == None && o.message == ""
  {
    match RouteOf(kind)
    case LoadData =>
      var filename := kwargs.filename.GetOr("");
      var r := DataManager.DataFileResult(filename, plugins[Data], plugins[Serializer], b);
      FromLoad(r, FailureText(DataFailurePrefix, filename, r.errorMessage))
    case LoadModel =>
      if kwargs.mode == Some(Api) then
        var apiSchema := kwargs.apiSchema.GetOr(DictField(0));
        var apiConfig := kwargs.apiConfig.GetOr(DictField(0));
        var r := ModelManager.ModelApiResult(apiSchema, apiConfig, plugins[Model], b);
        FromLoad(r, FailureText(ModelApiFailurePrefix, show(apiSchema) + " | " + show(apiConfig), r.errorMessage))
      else
        var filename := kwargs.filename.GetOr("");
        var r := ModelManager.ModelFileResult(filename, plugins[Model], plugins[Serializer], b);
        FromLoad(r, FailureText(ModelFileFailurePrefix, filename, r.errorMessage))
    case FindAlgorithm =>
      var id := AlgorithmManager.RequestedId(kwargs.algorithm);
      var found := Get(plugins[Algorithm], id);
      if found.Some? then
        var m := found.value;
        var request := kwargs.algorithm;
        Instance(Some(b.makeAlgorithm(m, request.dataInstance, request.modelInstance, request.groundTruthInstance,
          AlgorithmManager.WithRunTimeArguments(entries, b.pluginFolder(m), request))), None, "")
      else RuntimeFailure(FailureText(AlgorithmFailurePrefix, kwargsText, AlgorithmManager.UnsupportedPrefix + id))
  }

  /** The caller's argument dict after `get_instance`: only a found algorithm writes to it. */
  function EntriesAfter(plugins: Registry, kind: PluginType, kwargs: Kwargs, entries: Dict<ArgValue>, b: PluginBehaviour): Dict<ArgValue>
    requires WellFormed(plugins)
  {
    var id := AlgorithmManager.RequestedId(kwargs.algorithm);
    if RouteOf(kind) == FindAlgorithm && id in Keys(plugins[Algorithm]) then
      AlgorithmManager.WithRunTimeArguments(entries, b.pluginFolder(Get(plugins[Algorithm], id).value), kwargs.algorithm)
    else entries
  }

  class PluginManager {
    var plugins: Registry

    ghost predicate Valid()
      reads this
    {
      WellFormed(plugins)
    }

    /** The class-level registry as first defined: one empty dict per kind. */
    constructor ()
      ensures plugins == Initial && Valid()
    {
      plugins := Initial;
      InitialWellFormed();
    }

    /**
     * `discover`, given what the glob and the imports found: keep each
     * loadable module without "__" in its name under the tag or its name,
     * then register the result.
     */
    method Discover(found: seq<Candidate>, tagName: Option<string>)
      requires Valid()
      modifies this
      ensures Valid()
      ensures plugins == Register(old(plugins), Collect(found, tagName))
    {
      var pluginModules: Dict<PluginModule> := [];
      for i := 0 to |found|
        invariant pluginModules == Collect(found[..i], tagName)
      {
        assert found[..i + 1][..i] == found[..i];
        var c := found[i];
        var moduleName := ModuleName(c.fileName);
        if !HasDunder(moduleName) && c.plugin.Some? {
          if TagTruthy(tagName) {
            pluginModules := Put(pluginModules, tagName.value, c.plugin.value);
          } else {
            pluginModules := Put(pluginModules, moduleName, c.plugin.value);
          }
        }
      }
      assert found[..|found|] == found;
      UpdatePluginModules(pluginModules);
    }

    /** `_update_plugin_modules`: add each module under its kind when its name is new there. */
    method UpdatePluginModules(modules: Dict<PluginModule>)
      requires Valid()
      modifies this
      ensures Valid()
      ensures plugins == Register(old(plugins), modules)
    {
      ghost var start := plugins;
      for i := 0 to |modules|
        invariant plugins == Register(start, modules[..i])
      {
        assert modules[..i + 1][..i] == modules[..i];
        var (moduleName, pluginModule) := modules[i];
        var pluginType := pluginModule.kind;
        if moduleName !in Keys(plugins[pluginType]) {
          plugins := plugins[pluginType := Put(plugins[pluginType], moduleName, pluginModule)];
        }
      }
      assert modules[..|modules|] == modules;
    }

    /** `is_plugin_exists`: key membership in that kind's dict. */
    function IsPluginExists(pluginType: PluginType, pluginName: string): (r: bool)
      requires Valid()
      reads this
      ensures r <==> Get(plugins[pluginType], pluginName).Some?
    {
      pluginName in Keys(plugins[pluginType])
    }

    /** `_delete_plugins_by_type`: pop the name when present. */
    method DeletePluginsByType(pluginType: PluginType, pluginName: string)
      requires Valid()
      modifies this
      ensures Valid()
      ensures plugins == old(plugins)[pluginType := Remove(old(plugins)[pluginType], pluginName)]
    {
      if pluginName in Keys(plugins[pluginType]) {
        RemoveKeepsDistinct(plugins[pluginType], pluginName);
        plugins := plugins[pluginType := Remove(plugins[pluginType], pluginName)];
      } else {
        assert plugins == plugins[pluginType := plugins[pluginType]];
      }
    }

    /**
     * `remove_plugin`: delete, then report whether the name is gone, which it
     * always is, present before or not; no other entry changes.
     */
    method RemovePlugin(pluginType: PluginType, pluginName: string) returns (removed: bool)
      requires Valid()
      modifies this
      ensures Valid()
      ensures plugins == old(plugins)[pluginType := Remove(old(plugins)[pluginType], pluginName)]
      ensures removed <==> !IsPluginExists(pluginType, pluginName)
      ensures removed
    {
      DeletePluginsByType(pluginType, pluginName);
      removed := !IsPluginExists(pluginType, pluginName);
    }

    /** `get_instance`: dispatch on the kind; a failed load raises RuntimeError. */
    method GetInstance(pluginType: PluginType, kwargs: Kwargs, algorithmArguments: AlgorithmManager.ArgumentDict,
                       b: PluginBehaviour, show: Field -> string, kwargsText: string)
      returns (r: Outcome)
      requires Valid()
      modifies algorithmArguments
      ensures r == InstanceFor(plugins, pluginType, kwargs, old(algorithmArguments.entries), b, show, kwargsText)
      ensures algorithmArguments.entries == EntriesAfter(plugins, pluginType, kwargs, old(algorithmArguments.entries), b)
    {
      if pluginType == Data {
        var filename := kwargs.filename.GetOr("");
        var loaded := DataManager.ReadDataFile(filename, plugins[Data], plugins[Serializer], b);
        r := FromLoad(loaded, FailureText(DataFailurePrefix, filename, loaded.errorMessage));
      } else if pluginType == Model {
        if kwargs.mode == Some(Api) {
          var apiSchema := kwargs.apiSchema.GetOr(DictField(0));
          var apiConfig := kwargs.apiConfig.GetOr(DictField(0));
          var loaded := ModelManager.ReadModelApi(apiSchema, apiConfig, plugins[Model], b);
          r := FromLoad(loaded, FailureText(ModelApiFailurePrefix, show(apiSchema) + " | " + show(apiConfig), loaded.errorMessage));
        } else {
          var filename := kwargs.filename.GetOr("");
          var loaded := ModelManager.ReadModelFile(filename, plugins[Model], plugins[Serializer], b);
          r := FromLoad(loaded, FailureText(ModelFileFailurePrefix, filename, loaded.errorMessage));
        }
      } else {
        var isSuccess, algorithm, errorMessage := AlgorithmManager.GetAlgorithm(plugins[Algorithm], kwargs.algorithm, algorithmArguments, b);
        if isSuccess {
          r := Instance(algorithm, None, errorMessage);
        } else {
          r := RuntimeFailure(FailureText(AlgorithmFailurePrefix, kwargsText, errorMessage));
        }
      }
    }
  }
}
