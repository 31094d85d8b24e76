/**
 * Reading a dataset file (test_engine_core/plugins/data_manager.py): the
 * first serializer, in registry order, that can deserialize the file wins;
 * then the first data plugin, in registry order, whose instance supports the
 * data wins.
 */
module DataManager {
  import opened Wrappers
  import opened OrderedDict
  import opened Plugins

  const DeserializeFailurePrefix: string := "Failed to deserialize dataset: "
  const UnsupportedPrefix: string := "Unsupported data format: "

  /** The data plugin test of the identification loop: the instance it builds on `data` is supported. */
  function SupportsData(data: Handle, b: PluginBehaviour): ((string, PluginModule)) -> bool {
    (entry: (string, PluginModule)) => b.isSupported(b.makeData(entry.1, data))
  }

  /**
   * `_try_to_identify_data_format`: build an instance with each data plugin
   * in order and stop at the first that is supported. When none is, the
   * instance variable holds the last one built.
   */
  method TryToIdentifyDataFormat(data: Handle, dataPlugins: Dict<PluginModule>, b: PluginBehaviour)
    returns (isSuccess: bool, dataInstance: Option<Handle>)
    ensures var w := FirstIndex(dataPlugins, SupportsData(data, b));
      (isSuccess <==> w.Some?) &&
      (w.Some? ==> dataInstance == Some(b.makeData(dataPlugins[w.value].1, data))) &&
      (w.None? ==> dataInstance == if |dataPlugins| == 0 then None else Some(b.makeData(dataPlugins[|dataPlugins| - 1].1, data)))
  {
    isSuccess, dataInstance := false, None;
    var i := 0;
    while i < |dataPlugins|
      invariant 0 <= i <= |dataPlugins|
      invariant forall j :: 0 <= j < i ==> !SupportsData(data, b)(dataPlugins[j])
      invariant !isSuccess
      invariant dataInstance == if i == 0 then None else Some(b.makeData(dataPlugins[i - 1].1, data))
    {
      dataInstance := Some(b.makeData(dataPlugins[i].1, data));
      if b.isSupported(dataInstance.value) {
        isSuccess := true;
        FirstIndexIs(dataPlugins, SupportsData(data, b), i);
        return;
      }
      i := i + 1;
    }
  }

  /**
   * What `read_data_file` returns: a deserialization failure clears both
   * instance and serializer; unsupported data keeps the serializer; success
   * has an empty message.
   */
  function DataFileResult(dataFile: string, dataPlugins: Dict<PluginModule>, serializerPlugins: Dict<PluginModule>, b: PluginBehaviour): (r: LoadResult)
    ensures r.serializer.Some? <==> FirstIndex(serializerPlugins, Deserializes(dataFile, b)).Some?
    ensures r.isSuccess <==> r.instance.Some?
    ensures r.isSuccess ==> r.errorMessage == "" && r.serializer.Some?
  {
    match FirstIndex(serializerPlugins, Deserializes(dataFile, b))
    case None => LoadResult(false, None, None, DeserializeFailurePrefix + dataFile)
    case Some(s) =>
      var data := b.deserialize(serializerPlugins[s].1, dataFile).value;
      match FirstIndex(dataPlugins, SupportsData(data, b))
      case None => LoadResult(false, None, Some(serializerPlugins[s].1), UnsupportedPrefix + b.typeName(Some(data)))
      case Some(d) => LoadResult(true, Some(b.makeData(dataPlugins[d].1, data)), Some(serializerPlugins[s].1), "")
  }

  /** `read_data_file`: deserialize, then identify. */
  method ReadDataFile(dataFile: string, dataPlugins: Dict<PluginModule>, serializerPlugins: Dict<PluginModule>, b: PluginBehaviour)
    returns (r: LoadResult)
    ensures r == DataFileResult(dataFile, dataPlugins, serializerPlugins, b)
  {
    var isSuccess, data, serializerInstance := TryToDeserialize(dataFile, serializerPlugins, b);
    if isSuccess {
      var identified, dataInstance := TryToIdentifyDataFormat(data.value, dataPlugins, b);
      if identified {
        r := LoadResult(true, dataInstance, serializerInstance, "");
      } else {
        r := LoadResult(false, None, serializerInstance, UnsupportedPrefix + b.typeName(data));
      }
    } else {
      r := LoadResult(false, None, None, DeserializeFailurePrefix + dataFile);
    }
  }

  /**
   * Registry order decides between data plugins that both accept: with `a`
   * first, `a`'s instance is returned; with `c` first, `c`'s.
   */
  lemma OrderDecidesDataFormat(data: Handle, a: (string, PluginModule), c: (string, PluginModule), rest: Dict<PluginModule>, b: PluginBehaviour)
    requires SupportsData(data, b)(a) && SupportsData(data, b)(c)
    ensures FirstIndex([a, c] + rest, SupportsData(data, b)) == Some(0)
    ensures FirstIndex([c, a] + rest, SupportsData(data, b)) == Some(0)
  {
    FirstIndexExtend([a], [c] + rest, SupportsData(data, b));
    assert [a] + ([c] + rest) == [a, c] + rest;
    FirstIndexExtend([c], [a] + rest, SupportsData(data, b));
    assert [c] + ([a] + rest) == [c, a] + rest;
  }
}
