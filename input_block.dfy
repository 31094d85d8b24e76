/**
 * `generateInputBock` of the plugin-authoring tool
 * (ai-verify-plugin/src/inputBlock.mjs): the input block's meta object is
 * started (or read back), the command-line keys are merged into it under
 * the fill-if-absent-or-forced rule (`tag` as `tags`), `name` defaults to
 * the cid, and the templates are copied under the block's cid. Its
 * validation loop is `PluginUtils.ValidateComponents`.
 */
module InputBlock {
  import opened Wrappers
  import opened JsValues
  import opened PluginUtils

  const TagKey: string := "tag"
  const TagsKey: string := "tags"
  /** The base name of the input block templates. */
  const SampleInputBlockName: string := "sample-input-block"

  /** The keys the loop visits, in order. */
  const InputBlockKeys: seq<string> := ["name", "description", "author", "version", "tag", "group", "width", "fullScreen"]

  /** The property a key is stored under. */
  function InputBlockTarget(key: string): string {
    if key == TagKey then TagsKey else key
  }

  /** A new input block's meta, or the one read back from its existing meta file. */
  function StartMeta(cid: string, metaFile: Option<Obj>): (r: Obj)
    ensures metaFile.None? ==> r == map[CidKey := Str(cid)]
    ensures metaFile.Some? ==> r == metaFile.value
  {
    if metaFile.Some? then metaFile.value else map[CidKey := Str(cid)]
  }

  /** The meta object `generateInputBock` writes. */
  function InputBlockMeta(cid: string, metaFile: Option<Obj>, argv: Obj, force: bool): Obj {
    NameDefault(Merge(StartMeta(cid, metaFile), argv, InputBlockKeys, force, InputBlockTarget), CidKey)
  }

  /** No two keys of the loop write the same property, and none writes the cid. */
  lemma InputBlockKeysSeparate()
    ensures DistinctTargets(InputBlockKeys, InputBlockTarget)
    ensures CidKey !in Targets(InputBlockKeys, InputBlockTarget)
  {
    var ts := Targets(InputBlockKeys, InputBlockTarget);
    assert forall i :: 0 <= i < |ts| ==> ts[i] == InputBlockTarget(InputBlockKeys[i]) != CidKey;
  }

  /**
   * Where each key lands: under its target (`tag` under `tags`) by the
   * fill rule, then `name` falls back to the cid; the cid and every other
   * property no key targets are kept.
   */
  lemma InputBlockKeysLand(cid: string, metaFile: Option<Obj>, argv: Obj, force: bool)
    ensures var start := StartMeta(cid, metaFile);
      var r := InputBlockMeta(cid, metaFile, argv, force);
      (forall i :: 1 <= i < |InputBlockKeys| ==>
        Prop(r, InputBlockTarget(InputBlockKeys[i])) == MergedValue(start, argv, InputBlockKeys[i], force, InputBlockTarget(InputBlockKeys[i]))) &&
      Prop(r, NameKey) == (if Truthy(MergedValue(start, argv, NameKey, force, NameKey)) then MergedValue(start, argv, NameKey, force, NameKey)
                           else Prop(start, CidKey)) &&
      (forall x :: x !in Targets(InputBlockKeys, InputBlockTarget) ==> Prop(r, x) == Prop(start, x))
  {
    var start := StartMeta(cid, metaFile);
    InputBlockKeysSeparate();
    MergeSpec(start, argv, InputBlockKeys, force, InputBlockTarget);
    assert InputBlockTarget(InputBlockKeys[0]) == NameKey;
    assert Targets(InputBlockKeys, InputBlockTarget)[0] == NameKey;
  }

  /** A new input block keeps its cid and is always named. */
  lemma NewInputBlockNamed(cid: string, argv: Obj, force: bool)
    requires cid != ""
    ensures Prop(InputBlockMeta(cid, None, argv, force), CidKey) == Str(cid)
    ensures Truthy(Prop(InputBlockMeta(cid, None, argv, force), NameKey))
  {
    InputBlockKeysLand(cid, None, argv, force);
  }

  /**
   * `generateInputBock`: exits when the plugin directory is missing (None);
   * otherwise the meta it writes, then the template copies (`templates` is
   * the listing of the input block templates, None where reading it throws).
   */
  method GenerateInputBlock(pluginDirExists: bool, cid: string, metaFile: Option<Obj>, argv: Obj, force: bool,
                            templates: Option<seq<string>>, copyOk: string -> bool)
    returns (meta: Option<Obj>, copies: seq<(string, string)>, copied: Outcome<()>)
    ensures !pluginDirExists ==> meta.None? && copies == []
    ensures pluginDirExists ==> meta == Some(InputBlockMeta(cid, metaFile, argv, force))
    ensures pluginDirExists && templates.None? ==> copies == [] && copied == Throws(ConsoleErrMissing)
    ensures pluginDirExists && templates.Some? ==>
      copies == CopyRun(templates.value, SampleInputBlockName, cid, copyOk).0 &&
      (copied.Throws? <==> CopyRun(templates.value, SampleInputBlockName, cid, copyOk).1)
  {
    if !pluginDirExists {
      return None, [], Returns(());
    }
    var m := MergeKeys(StartMeta(cid, metaFile), argv, InputBlockKeys, force, InputBlockTarget);
    m := NameDefault(m, CidKey);
    meta := Some(m);
    copies, copied := CopyAndRenameTemplates(templates, SampleInputBlockName, cid, copyOk);
  }
}
