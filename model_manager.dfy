/**
 * Reading a model (test_engine_core/plugins/model_manager.py): a model file
 * goes through the serializers and then the model plugins, first success in
 * registry order; an API model goes straight to the model plugins with its
 * schema and config.
 */
module ModelManager {
  import opened Wrappers
  import opened OrderedDict
  import opened Arguments
  import opened Plugins

  const DeserializeFailurePrefix: string := "Failed to deserialize model: "
  const UnsupportedPrefix: string := "Unsupported model format: "
  const UnsupportedApi: string := "Unsupported model format"

  /**
   * How `_try_to_identify_model_format` builds an instance: the one-argument
   * constructor exactly when both the API schema and config are None, the
   * three-argument one otherwise.
   */
  function Instantiate(m: PluginModule, model: Option<Handle>, apiSchema: Field, apiConfig: Field, b: PluginBehaviour): (h: Handle)
    ensures apiSchema.NoneField? && apiConfig.NoneField? ==> h == b.makeModel(m, model)
    ensures !(apiSchema.NoneField? && apiConfig.NoneField?) ==> h == b.makeApiModel(m, model, apiSchema, apiConfig)
  {
    if apiSchema.NoneField? && apiConfig.NoneField? then b.makeModel(m, model)
    else b.makeApiModel(m, model, apiSchema, apiConfig)
  }

  /** The model plugin test of the identification loop. */
  function SupportsModel(model: Option<Handle>, apiSchema: Field, apiConfig: Field, b: PluginBehaviour): ((string, PluginModule)) -> bool {
    (entry: (string, PluginModule)) => b.isSupported(Instantiate(entry.1, model, apiSchema, apiConfig, b))
  }

  /**
   * `_try_to_identify_model_format`: build an instance with each model
   * plugin in order and stop at the first that is supported; when none is,
   * the instance variable holds the last one built.
   */
  method TryToIdentifyModelFormat(model: Option<Handle>, modelPlugins: Dict<PluginModule>, apiSchema: Field, apiConfig: Field, b: PluginBehaviour)
    returns (isSuccess: bool, modelInstance: Option<Handle>)
    ensures var w := FirstIndex(modelPlugins, SupportsModel(model, apiSchema, apiConfig, b));
      (isSuccess <==> w.Some?) &&
      (w.Some? ==> modelInstance == Some(Instantiate(modelPlugins[w.value].1, model, apiSchema, apiConfig, b))) &&
      (w.None? ==> modelInstance == if |modelPlugins| == 0 then None
                                    else Some(Instantiate(modelPlugins[|modelPlugins| - 1].1, model, apiSchema, apiConfig, b)))
  {
    isSuccess, modelInstance := false, None;
    var i := 0;
    while i < |modelPlugins|
      invariant 0 <= i <= |modelPlugins|
      invariant forall j :: 0 <= j < i ==> !SupportsModel(model, apiSchema, apiConfig, b)(modelPlugins[j])
      invariant !isSuccess
      invariant modelInstance == if i == 0 then None else Some(Instantiate(modelPlugins[i - 1].1, model, apiSchema, apiConfig, b))
    {
      var instance := Instantiate(modelPlugins[i].1, model, apiSchema, apiConfig, b);
      modelInstance := Some(instance);
      if b.isSupported(instance) {
        isSuccess := true;
        FirstIndexIs(modelPlugins, SupportsModel(model, apiSchema, apiConfig, b), i);
        return;
      }
      i := i + 1;
    }
  }

  /** What `read_model_api` returns: never a serializer; the first supporting plugin's instance, or a fixed message. */
  function ModelApiResult(apiSchema: Field, apiConfig: Field, modelPlugins: Dict<PluginModule>, b: PluginBehaviour): (r: LoadResult)
    ensures r.serializer == None
    ensures r.isSuccess <==> FirstIndex(modelPlugins, SupportsModel(None, apiSchema, apiConfig, b)).Some?
    ensures r.isSuccess <==> r.instance.Some?
    ensures r.isSuccess ==> r.errorMessage == ""
  {
    match FirstIndex(modelPlugins, SupportsModel(None, apiSchema, apiConfig, b))
    case None => LoadResult(false, None, None, UnsupportedApi)
    case Some(d) => LoadResult(true, Some(Instantiate(modelPlugins[d].1, None, apiSchema, apiConfig, b)), None, "")
  }

  /** `read_model_api`: identification with no model object and the API schema and config. */
  method ReadModelApi(apiSchema: Field, apiConfig: Field, modelPlugins: Dict<PluginModule>, b: PluginBehaviour)
    returns (r: LoadResult)
    ensures r == ModelApiResult(apiSchema, apiConfig, modelPlugins, b)
  {
    var serializerInstance: Option<PluginModule> := None;
    var isSuccess, modelInstance := TryToIdentifyModelFormat(None, modelPlugins, apiSchema, apiConfig, b);
    if isSuccess {
      r := LoadResult(true, modelInstance, serializerInstance, "");
    } else {
      r := LoadResult(false, None, serializerInstance, UnsupportedApi);
    }
  }

  /**
   * What `read_model_file` returns: a deserialization failure clears both
   * instance and serializer; an unsupported model keeps the serializer; the
   * file path always uses the one-argument constructor.
   */
  function ModelFileResult(modelFile: string, modelPlugins: Dict<PluginModule>, serializerPlugins: Dict<PluginModule>, b: PluginBehaviour): (r: LoadResult)
    ensures r.serializer.Some? <==> FirstIndex(serializerPlugins, Deserializes(modelFile, b)).Some?
    ensures r.isSuccess <==> r.instance.Some?
    ensures r.isSuccess ==> r.errorMessage == "" && r.serializer.Some?
  {
    match FirstIndex(serializerPlugins, Deserializes(modelFile, b))
    case None => LoadResult(false, None, None, DeserializeFailurePrefix + modelFile)
    case Some(s) =>
      var model := b.deserialize(serializerPlugins[s].1, modelFile);
      match FirstIndex(modelPlugins, SupportsModel(model, NoneField, NoneField, b))
      case None => LoadResult(false, None, Some(serializerPlugins[s].1), UnsupportedPrefix + b.typeName(model))
      case Some(d) => LoadResult(true, Some(Instantiate(modelPlugins[d].1, model, NoneField, NoneField, b)), Some(serializerPlugins[s].1), "")
  }

  /** A model read from a file is built with the one-argument constructor. */
  lemma FileModelsUseOneArgument(modelFile: string, modelPlugins: Dict<PluginModule>, serializerPlugins: Dict<PluginModule>, b: PluginBehaviour)
    requires ModelFileResult(modelFile, modelPlugins, serializerPlugins, b).isSuccess
    ensures exists m, model :: ModelFileResult(modelFile, modelPlugins, serializerPlugins, b).instance == Some(b.makeModel(m, model))
  {
    var s := FirstIndex(serializerPlugins, Deserializes(modelFile, b)).value;
    var model := b.deserialize(serializerPlugins[s].1, modelFile);
    var d := FirstIndex(modelPlugins, SupportsModel(model, NoneField, NoneField, b)).value;
    assert ModelFileResult(modelFile, modelPlugins, serializerPlugins, b).instance == Some(b.makeModel(modelPlugins[d].1, model));
  }

  /** `read_model_file`: deserialize, then identify. */
  method ReadModelFile(modelFile: string, modelPlugins: Dict<PluginModule>, serializerPlugins: Dict<PluginModule>, b: PluginBehaviour)
    returns (r: LoadResult)
    ensures r == ModelFileResult(modelFile, modelPlugins, serializerPlugins, b)
  {
    var isSuccess, model, serializerInstance := TryToDeserialize(modelFile, serializerPlugins, b);
    if isSuccess {
      var identified, modelInstance := TryToIdentifyModelFormat(model, modelPlugins, NoneField, NoneField, b);
      if identified {
        r := LoadResult(true, modelInstance, serializerInstance, "");
      } else {
        r := LoadResult(false, None, serializerInstance, UnsupportedPrefix + b.typeName(model));
      }
    } else {
      r := LoadResult(false, None, None, DeserializeFailurePrefix + modelFile);
    }
  }
}
