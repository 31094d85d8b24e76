/**
 * What the plugin managers handle (test_engine_core/plugins/): modules found
 * on disk, the objects their plugin code makes, and the outcome of a load.
 * What plugin code does is known only to that code, so it is a parameter.
 */
module Plugins {
  import opened Wrappers
  import opened Enums
  import opened OrderedDict
  import opened Arguments

  /** An object made by plugin code: deserialized data or a model, or a data, model or algorithm instance. */
  type Handle = int

  /** A discovered plugin module: its identity and the kind its `Plugin.get_plugin_type()` reports. */
  datatype PluginModule = PluginModule(handle: Handle, kind: PluginType)

  /** A value in an algorithm's argument dict, as far as the managers write it. */
  datatype ArgValue = NoneValue | Text(s: string) | Object(h: Handle)

  /** The plugins' own code, which the managers call. */
  datatype PluginBehaviour = PluginBehaviour(
    /** `Plugin.deserialize_data(file)` of a serializer module; None when it raises. */
    deserialize: (PluginModule, string) -> Option<Handle>,
    /** `Plugin(data)` of a data module. */
    makeData: (PluginModule, Handle) -> Handle,
    /** `Plugin(model)` of a model module. */
    makeModel: (PluginModule, Option<Handle>) -> Handle,
    /** `Plugin(model, api_schema, api_config)` of a model module. */
    makeApiModel: (PluginModule, Option<Handle>, Field, Field) -> Handle,
    /** `is_supported()` of a data or model instance. */
    isSupported: Handle -> bool,
    /** `str(type(x))` of a deserialized object. */
    typeName: Option<Handle> -> string,
    /** `Path(module.__file__).parent` of an algorithm module. */
    pluginFolder: PluginModule -> string,
    /** `Plugin(data, model, ground_truth, **arguments)` of an algorithm module. */
    makeAlgorithm: (PluginModule, Option<Handle>, Option<Handle>, Option<Handle>, Dict<ArgValue>) -> Handle)

  /** The four-part answer of `read_data_file`, `read_model_file` and `read_model_api`. */
  datatype LoadResult = LoadResult(isSuccess: bool, instance: Option<Handle>, serializer: Option<PluginModule>, errorMessage: string)

  /** The serializer test of the deserialization loop: its `deserialize_data` returns instead of raising. */
  function Deserializes(file: string, b: PluginBehaviour): ((string, PluginModule)) -> bool {
    (entry: (string, PluginModule)) => b.deserialize(entry.1, file).Some?
  }

  /** The last module of a dict, which a loop that never breaks leaves in its variable. */
  function LastModule(d: Dict<PluginModule>): (r: Option<PluginModule>)
    ensures r.None? <==> |d| == 0
  {
    if |d| == 0 then None else Some(d[|d| - 1].1)
  }

  /**
   * `_try_to_deserialize_data` / `_try_to_deserialize_model` (the two are
   * the same loop): try the serializers in `items()` order and keep the first
   * that does not raise, with what it returned. When none succeeds the data
   * stays None and the serializer variable holds the last one tried.
   */
  method TryToDeserialize(file: string, serializerPlugins: Dict<PluginModule>, b: PluginBehaviour)
    returns (isSuccess: bool, data: Option<Handle>, serializer: Option<PluginModule>)
    ensures var w := FirstIndex(serializerPlugins, Deserializes(file, b));
      (isSuccess <==> w.Some?) &&
      (w.Some? ==> serializer == Some(serializerPlugins[w.value].1) &&
                   data == b.deserialize(serializerPlugins[w.value].1, file) && data.Some?) &&
      (w.None? ==> data == None && serializer == LastModule(serializerPlugins))
  {
    isSuccess, data, serializer := false, None, None;
    var i := 0;
    while i < |serializerPlugins|
      invariant 0 <= i <= |serializerPlugins|
      invariant forall j :: 0 <= j < i ==> !Deserializes(file, b)(serializerPlugins[j])
      invariant !isSuccess && data == None
      invariant serializer == if i == 0 then None else Some(serializerPlugins[i - 1].1)
    {
      serializer := Some(serializerPlugins[i].1);
      var attempt := b.deserialize(serializerPlugins[i].1, file);
      if attempt.Some? {
        data := attempt;
        isSuccess := true;
        FirstIndexIs(serializerPlugins, Deserializes(file, b), i);
        return;
      }
      i := i + 1;
    }
  }
}
