/**
 * `generateWidget` of the plugin-authoring tool
 * (aiverify-plugin/src/reportWidget.mjs): the widget's meta object is
 * started (or read back), the command-line keys are merged into it under
 * the fill-if-absent-or-forced rule (sizes inside `widgetSize`, `tag` as
 * `tags`), `name` defaults to the cid, and the dependency, mock-data and
 * property lists are rebuilt from the parsed `--dep` and `--prop` options.
 * Files are abstracted: an existing meta file is given as the object it
 * reads as, existence of sample files is a parameter.
 */
module ReportWidget {
  import opened Wrappers
  import opened JsValues
  import opened PluginUtils

  const TagKey: string := "tag"
  const TagsKey: string := "tags"
  const WidgetSizeKey: string := "widgetSize"
  const DependenciesKey: string := "dependencies"
  const MockdataKey: string := "mockdata"
  const PropertiesKey: string := "properties"
  const GidKey: string := "gid"
  const VersionKey: string := "version"
  const TypeKey: string := "type"
  const DatapathKey: string := "datapath"
  const KeyKey: string := "key"
  const HelperKey: string := "helper"
  const DefaultKey: string := "default"
  const SampleSuffix: string := ".sample.json"
  const SampleContent: string := "{}"
  /** Reading or creating a size property on a `widgetSize` that is not an object. */
  const WidgetSizeTypeError: string := "TypeError: widgetSize is not an object"

  /** The keys the loop visits, in order. */
  const WidgetKeys: seq<string> := ["name", "description", "version", "author", "tag", "minW", "minH", "maxW", "maxH", "dynamicHeight"]
  const SizeKeys: set<string> := {"minW", "minH", "maxW", "maxH"}

  /** The property a non-size key is stored under. */
  function WidgetTarget(key: string): string {
    if key == TagKey then TagsKey else key
  }

  function SameName(key: string): string {
    key
  }

  /** A new widget's meta, or the one read back from its existing meta file. */
  function StartMeta(cid: string, metaFile: Option<Obj>): (r: Obj)
    ensures metaFile.None? ==> Prop(r, CidKey) == Str(cid) && Prop(r, WidgetSizeKey) == Object(map[])
    ensures metaFile.Some? ==> r == metaFile.value
  {
    if metaFile.Some? then metaFile.value else map[CidKey := Str(cid), WidgetSizeKey := Object(map[])]
  }

  /**
   * One size key given on the command line: filled inside `widgetSize`.
   * An array takes the property but `JSON.stringify` drops it; any other
   * non-object throws (reading from undefined or null, or creating a
   * property on a primitive in strict mode).
   */
  function SizeStep(meta: Obj, v: JsValue, key: string, force: bool): Outcome<Obj> {
    match Prop(meta, WidgetSizeKey)
    case Object(ws) => Returns(meta[WidgetSizeKey := Object(FillIfAbsent(ws, key, v, force))])
    case Array(_) => Returns(meta)
    case _ => Throws(WidgetSizeTypeError)
  }

  /** One pass of the key loop. */
  function KeyStep(meta: Obj, argv: Obj, key: string, force: bool): Outcome<Obj> {
    if key !in argv then Returns(meta)
    else if key in SizeKeys then SizeStep(meta, argv[key], key, force)
    else Returns(FillIfAbsent(meta, WidgetTarget(key), argv[key], force))
  }

  /** The key loop over `keys`; an exception ends it. */
  function KeyLoop(meta: Obj, argv: Obj, keys: seq<string>, force: bool): Outcome<Obj>
    decreases |keys|
  {
    if keys == [] then Returns(meta)
    else
      match KeyLoop(meta, argv, keys[..|keys| - 1], force)
      case Throws(e) => Throws(e)
      case Returns(m) => KeyStep(m, argv, keys[|keys| - 1], force)
  }

  /** The command-line values of the size keys, and of all other keys. */
  function SizeArgs(argv: Obj): Obj {
    map k | k in argv && k in SizeKeys :: argv[k]
  }

  function TopArgs(argv: Obj): Obj {
    map k | k in argv && k !in SizeKeys :: argv[k]
  }

  /** Some size key in `keys` is given on the command line. */
  predicate TouchesSize(keys: seq<string>, argv: Obj) {
    exists i :: 0 <= i < |keys| && keys[i] in SizeArgs(argv)
  }

  /**
   * What the key loop amounts to: the non-size keys merged at the top level,
   * the size keys merged inside `widgetSize` when one of them is given, and
   * an exception when one is given and `widgetSize` is neither an object
   * nor an array.
   */
  function KeyLoopResult(meta: Obj, argv: Obj, keys: seq<string>, force: bool): Outcome<Obj> {
    var top := Merge(meta, TopArgs(argv), keys, force, WidgetTarget);
    if !TouchesSize(keys, argv) then Returns(top)
    else
      match Prop(meta, WidgetSizeKey)
      case Object(ws) => Returns(top[WidgetSizeKey := Object(Merge(ws, SizeArgs(argv), keys, force, SameName))])
      case Array(_) => Returns(top)
      case _ => Throws(WidgetSizeTypeError)
  }

  /** The interleaved key loop equals the two separate merges. */
  lemma {:induction false} KeyLoopSpec(meta: Obj, argv: Obj, keys: seq<string>, force: bool)
    requires forall k :: k in keys ==> WidgetTarget(k) != WidgetSizeKey
    decreases |keys|
    ensures KeyLoop(meta, argv, keys, force) == KeyLoopResult(meta, argv, keys, force)
  {
    if keys != [] {
      var front := keys[..|keys| - 1];
      var k := keys[|keys| - 1];
      assert forall x :: x in front ==> x in keys;
      KeyLoopSpec(meta, argv, front, force);
      assert forall i :: 0 <= i < |front| ==> front[i] == keys[i];
      MergeFrame(meta, TopArgs(argv), front, force, WidgetTarget, WidgetSizeKey);
      if k in argv && k in SizeKeys {
        SizeKeyStep(meta, argv, keys, force);
      } else {
        assert TouchesSize(keys, argv) == TouchesSize(front, argv);
        if k in argv {
          TopKeyStep(meta, argv, keys, force);
        }
      }
    }
  }

  /** The inductive step of `KeyLoopSpec` for a size key given on the command line. */
  lemma SizeKeyStep(meta: Obj, argv: Obj, keys: seq<string>, force: bool)
    requires keys != [] && keys[|keys| - 1] in argv && keys[|keys| - 1] in SizeKeys
    requires forall k :: k in keys ==> WidgetTarget(k) != WidgetSizeKey
    requires KeyLoop(meta, argv, keys[..|keys| - 1], force) == KeyLoopResult(meta, argv, keys[..|keys| - 1], force)
    requires Prop(Merge(meta, TopArgs(argv), keys[..|keys| - 1], force, WidgetTarget), WidgetSizeKey) == Prop(meta, WidgetSizeKey)
    ensures KeyLoop(meta, argv, keys, force) == KeyLoopResult(meta, argv, keys, force)
  {
    var front := keys[..|keys| - 1];
    var k := keys[|keys| - 1];
    assert TouchesSize(keys, argv);
    var top := Merge(meta, TopArgs(argv), front, force, WidgetTarget);
    assert Merge(meta, TopArgs(argv), keys, force, WidgetTarget) == top;
    assert k in SizeArgs(argv) && SizeArgs(argv)[k] == argv[k] && k !in TopArgs(argv);
    if Prop(meta, WidgetSizeKey).Object? {
      SizeKeyStepObject(meta, argv, keys, force, Prop(meta, WidgetSizeKey).fields);
    }
  }

  /** `SizeKeyStep` when `widgetSize` is an object. */
  lemma SizeKeyStepObject(meta: Obj, argv: Obj, keys: seq<string>, force: bool, ws: Obj)
    requires keys != [] && keys[|keys| - 1] in argv && keys[|keys| - 1] in SizeKeys
    requires Prop(meta, WidgetSizeKey) == Object(ws)
    requires KeyLoop(meta, argv, keys[..|keys| - 1], force) == KeyLoopResult(meta, argv, keys[..|keys| - 1], force)
    requires Prop(Merge(meta, TopArgs(argv), keys[..|keys| - 1], force, WidgetTarget), WidgetSizeKey) == Object(ws)
    requires TouchesSize(keys, argv)
    requires Merge(meta, TopArgs(argv), keys, force, WidgetTarget) == Merge(meta, TopArgs(argv), keys[..|keys| - 1], force, WidgetTarget)
    ensures KeyLoop(meta, argv, keys, force) == KeyLoopResult(meta, argv, keys, force)
  {
    var front := keys[..|keys| - 1];
    var k := keys[|keys| - 1];
    var top := Merge(meta, TopArgs(argv), front, force, WidgetTarget);
    assert k in SizeArgs(argv) && SizeArgs(argv)[k] == argv[k];
    var wsF := Merge(ws, SizeArgs(argv), front, force, SameName);
    assert Merge(ws, SizeArgs(argv), keys, force, SameName) == FillIfAbsent(wsF, k, argv[k], force);
    if !TouchesSize(front, argv) {
      assert forall x :: x in front ==> x !in SizeArgs(argv);
      MergeUntouched(ws, SizeArgs(argv), front, force, SameName);
    } else {
      var mF := top[WidgetSizeKey := Object(wsF)];
      assert KeyLoop(meta, argv, front, force) == Returns(mF);
      assert Prop(mF, WidgetSizeKey) == Object(wsF);
      assert mF[WidgetSizeKey := Object(FillIfAbsent(wsF, k, argv[k], force))] ==
        top[WidgetSizeKey := Object(FillIfAbsent(wsF, k, argv[k], force))];
    }
  }

  /** The inductive step of `KeyLoopSpec` for a non-size key given on the command line. */
  lemma TopKeyStep(meta: Obj, argv: Obj, keys: seq<string>, force: bool)
    requires keys != [] && keys[|keys| - 1] in argv && keys[|keys| - 1] !in SizeKeys
    requires forall k :: k in keys ==> WidgetTarget(k) != WidgetSizeKey
    requires KeyLoop(meta, argv, keys[..|keys| - 1], force) == KeyLoopResult(meta, argv, keys[..|keys| - 1], force)
    requires TouchesSize(keys, argv) == TouchesSize(keys[..|keys| - 1], argv)
    ensures KeyLoop(meta, argv, keys, force) == KeyLoopResult(meta, argv, keys, force)
  {
    var front := keys[..|keys| - 1];
    var k := keys[|keys| - 1];
    var t := WidgetTarget(k);
    assert t != WidgetSizeKey;
    assert Merge(meta, TopArgs(argv), keys, force, WidgetTarget) ==
      FillIfAbsent(Merge(meta, TopArgs(argv), front, force, WidgetTarget), t, argv[k], force);
    assert k in TopArgs(argv) && TopArgs(argv)[k] == argv[k] && k !in SizeArgs(argv);
    match Prop(meta, WidgetSizeKey)
    case Object(ws) =>
      if TouchesSize(front, argv) {
        FillCommutes(Merge(meta, TopArgs(argv), front, force, WidgetTarget), Object(Merge(ws, SizeArgs(argv), front, force, SameName)), t, argv[k], force);
      }
    case _ =>
  }

  /** Filling a top-level property commutes with replacing `widgetSize`. */
  lemma FillCommutes(m: Obj, w: JsValue, t: string, v: JsValue, force: bool)
    requires t != WidgetSizeKey
    ensures FillIfAbsent(m[WidgetSizeKey := w], t, v, force) == FillIfAbsent(m, t, v, force)[WidgetSizeKey := w]
  {
    assert Prop(m[WidgetSizeKey := w], t) == Prop(m, t);
  }

  /** The key loop as `generateWidget` runs it, updating `meta` in place. */
  method WidgetKeyLoop(start: Obj, argv: Obj, force: bool) returns (r: Outcome<Obj>)
    ensures r == KeyLoop(start, argv, WidgetKeys, force)
  {
    var meta := start;
    for i := 0 to |WidgetKeys|
      invariant KeyLoop(start, argv, WidgetKeys[..i], force) == Returns(meta)
    {
      assert WidgetKeys[..i + 1][..i] == WidgetKeys[..i];
      var key := WidgetKeys[i];
      assert KeyLoop(start, argv, WidgetKeys[..i + 1], force) == KeyStep(meta, argv, key, force);
      if key in argv {
        if key in SizeKeys {
          var ws := Prop(meta, WidgetSizeKey);
          if ws.Object? {
            if !Truthy(Prop(ws.fields, key)) || force {
              meta := meta[WidgetSizeKey := Object(ws.fields[key := argv[key]])];
            } else {
              assert meta[WidgetSizeKey := Object(ws.fields)] == meta;
            }
          } else if !ws.Array? {
            ThrowsPersist(start, argv, WidgetKeys, i + 1, force);
            return Throws(WidgetSizeTypeError);
          }
        } else if key == TagKey {
          if !Truthy(Prop(meta, TagsKey)) || force {
            meta := meta[TagsKey := argv[key]];
          }
        } else {
          if !Truthy(Prop(meta, key)) || force {
            meta := meta[key := argv[key]];
          }
        }
      }
    }
    assert WidgetKeys[..|WidgetKeys|] == WidgetKeys;
    r := Returns(meta);
  }

  /** Once the loop over a prefix of the keys throws, the whole loop throws the same. */
  lemma {:induction false} ThrowsPersist(meta: Obj, argv: Obj, keys: seq<string>, k: nat, force: bool)
    requires k <= |keys| && KeyLoop(meta, argv, keys[..k], force).Throws?
    decreases |keys| - k
    ensures KeyLoop(meta, argv, keys, force) == KeyLoop(meta, argv, keys[..k], force)
  {
    if k < |keys| {
      assert keys[..k + 1][..k] == keys[..k];
      ThrowsPersist(meta, argv, keys, k + 1, force);
    } else {
      assert keys[..k] == keys;
    }
  }

  /** No key of the loop writes `widgetSize` itself, and no two keys write the same top-level property. */
  lemma WidgetKeysSeparate()
    ensures forall k :: k in WidgetKeys ==> WidgetTarget(k) != WidgetSizeKey
    ensures DistinctTargets(WidgetKeys, WidgetTarget)
    ensures DistinctTargets(WidgetKeys, SameName)
  {
  }

  /**
   * Where each non-size key of the loop lands: under its target (`tag`
   * under `tags`) by the fill rule; every property no key targets is kept.
   */
  lemma WidgetKeysLand(meta: Obj, argv: Obj, force: bool)
    ensures var r := KeyLoop(meta, argv, WidgetKeys, force);
      (Prop(meta, WidgetSizeKey).Object? || Prop(meta, WidgetSizeKey).Array? || !TouchesSize(WidgetKeys, argv) ==> r.Returns?) &&
      (r.Returns? ==>
        (forall i :: 0 <= i < |WidgetKeys| && WidgetKeys[i] !in SizeKeys ==>
          Prop(r.value, WidgetTarget(WidgetKeys[i])) == MergedValue(meta, argv, WidgetKeys[i], force, WidgetTarget(WidgetKeys[i]))) &&
        (forall x :: x !in Targets(WidgetKeys, WidgetTarget) && x != WidgetSizeKey ==> Prop(r.value, x) == Prop(meta, x)))
  {
    WidgetKeysSeparate();
    KeyLoopSpec(meta, argv, WidgetKeys, force);
    MergeSpec(meta, TopArgs(argv), WidgetKeys, force, WidgetTarget);
  }

  /** Each size key given lands inside `widgetSize` by the fill rule, when `widgetSize` is an object. */
  lemma WidgetSizesLand(meta: Obj, argv: Obj, force: bool)
    requires Prop(meta, WidgetSizeKey).Object? && TouchesSize(WidgetKeys, argv)
    ensures var r := KeyLoop(meta, argv, WidgetKeys, force);
      var ws := Prop(meta, WidgetSizeKey).fields;
      r.Returns? && Prop(r.value, WidgetSizeKey).Object? &&
      forall i :: 0 <= i < |WidgetKeys| && WidgetKeys[i] in SizeKeys ==>
        Prop(Prop(r.value, WidgetSizeKey).fields, WidgetKeys[i]) == MergedValue(ws, argv, WidgetKeys[i], force, WidgetKeys[i])
  {
    WidgetKeysSeparate();
    KeyLoopSpec(meta, argv, WidgetKeys, force);
    MergeSpec(Prop(meta, WidgetSizeKey).fields, SizeArgs(argv), WidgetKeys, force, SameName);
  }

  /** A size key given on the command line against a `widgetSize` that is neither object nor array makes the command throw. */
  lemma BadWidgetSizeThrows(meta: Obj, argv: Obj, force: bool)
    requires TouchesSize(WidgetKeys, argv)
    requires !Prop(meta, WidgetSizeKey).Object? && !Prop(meta, WidgetSizeKey).Array?
    ensures KeyLoop(meta, argv, WidgetKeys, force) == Throws(WidgetSizeTypeError)
  {
    WidgetKeysSeparate();
    KeyLoopSpec(meta, argv, WidgetKeys, force);
  }

  /** Field `i` of a parsed option, undefined when the option has fewer fields. */
  function Field(words: seq<string>, i: nat): JsValue {
    if i < |words| then Str(words[i]) else Undefined
  }

  /** The text a template literal gives for field `i`: the field, or "undefined". */
  function FieldText(words: seq<string>, i: nat): string {
    if i < |words| then words[i] else "undefined"
  }

  /** The sample data file of a dependency: `<cid>.sample.json`. */
  function SamplePath(dep: seq<string>): string {
    FieldText(dep, 1) + SampleSuffix
  }

  /** The dependency entry of one `--dep` option. */
  function DependencyEntry(dep: seq<string>): JsValue {
    var base := map[CidKey := Field(dep, 1)];
    var withGid := if |dep| >= 3 then base[GidKey := Str(dep[2])] else base;
    Object(if |dep| == 4 then withGid[VersionKey := Str(dep[3])] else withGid)
  }

  /** A dependency entry holds the cid, the gid with 3 fields or more, the version with 4, and nothing else. */
  lemma DependencyEntryShape(dep: seq<string>)
    ensures var r := DependencyEntry(dep);
      r.Object? && Prop(r.fields, CidKey) == Field(dep, 1) &&
      (GidKey in r.fields <==> |dep| >= 3) && (VersionKey in r.fields <==> |dep| == 4) &&
      (|dep| >= 3 ==> r.fields[GidKey] == Str(dep[2])) && (|dep| == 4 ==> r.fields[VersionKey] == Str(dep[3])) &&
      r.fields.Keys <= {CidKey, GidKey, VersionKey}
  {
  }

  /** The mock data entry of one `--dep` option. */
  function MockEntry(dep: seq<string>): JsValue {
    Object(map[TypeKey := Field(dep, 0), CidKey := Field(dep, 1), DatapathKey := Str(SamplePath(dep))])
  }

  /** A mock data entry holds the dependency's type, its cid and its sample data file `<cid>.sample.json`. */
  lemma MockEntryShape(dep: seq<string>)
    requires 2 <= |dep|
    ensures var r := MockEntry(dep);
      r.Object? && r.fields.Keys == {TypeKey, CidKey, DatapathKey} &&
      r.fields[TypeKey] == Str(dep[0]) && r.fields[CidKey] == Str(dep[1]) &&
      r.fields[DatapathKey] == Str(dep[1] + SampleSuffix)
  {
  }

  /** The property entry of one `--prop` option. */
  function PropertyEntry(prop: seq<string>): JsValue {
    Object(map[KeyKey := Field(prop, 0), HelperKey := Field(prop, 1), DefaultKey := Field(prop, 2)])
  }

  /** A property entry holds key and helper, and a default only when the option had a third field. */
  lemma PropertyEntryShape(prop: seq<string>)
    requires 2 <= |prop| <= 3
    ensures var r := PropertyEntry(prop);
      r.Object? && r.fields.Keys == {KeyKey, HelperKey, DefaultKey} &&
      r.fields[KeyKey] == Str(prop[0]) && r.fields[HelperKey] == Str(prop[1]) &&
      (|prop| == 3 <==> r.fields[DefaultKey] != Undefined) && (|prop| == 3 ==> r.fields[DefaultKey] == Str(prop[2]))
  {
  }

  /** The sample data files written with "{}", in order: those that do not exist and were not written already. */
  function SamplesWritten(deps: seq<seq<string>>, sampleExists: string -> bool): seq<string>
    decreases |deps|
  {
    if deps == [] then []
    else
      var before := SamplesWritten(deps[..|deps| - 1], sampleExists);
      var p := SamplePath(deps[|deps| - 1]);
      if !sampleExists(p) && p !in before then before + [p] else before
  }

  /**
   * Every dependency ends with a sample data file: either it existed or it
   * is written; each file written is the sample file of some dependency,
   * did not exist, and is written once.
   */
  lemma {:induction false} SamplesWrittenSpec(deps: seq<seq<string>>, sampleExists: string -> bool)
    decreases |deps|
    ensures var w := SamplesWritten(deps, sampleExists);
      (forall i :: 0 <= i < |deps| ==> sampleExists(SamplePath(deps[i])) || SamplePath(deps[i]) in w) &&
      (forall p :: p in w ==> !sampleExists(p) && exists i :: 0 <= i < |deps| && SamplePath(deps[i]) == p) &&
      (forall a, b :: 0 <= a < b < |w| ==> w[a] != w[b])
  {
    if deps != [] {
      var front := deps[..|deps| - 1];
      SamplesWrittenSpec(front, sampleExists);
      assert forall i :: 0 <= i < |front| ==> front[i] == deps[i];
      var before := SamplesWritten(front, sampleExists);
      var w := SamplesWritten(deps, sampleExists);
      forall p | p in w
        ensures !sampleExists(p) && exists i :: 0 <= i < |deps| && SamplePath(deps[i]) == p
      {
        if p in before {
          var i :| 0 <= i < |front| && SamplePath(front[i]) == p;
          assert SamplePath(deps[i]) == p;
        } else {
          assert SamplePath(deps[|deps| - 1]) == p;
        }
      }
    }
  }

  /** The dependency loop: one dependency and one mock entry per `--dep` option, in order, and the sample files written. */
  method BuildDependencies(deps: seq<seq<string>>, sampleExists: string -> bool)
    returns (dependencies: seq<JsValue>, mockdata: seq<JsValue>, written: seq<string>)
    ensures |dependencies| == |deps| && |mockdata| == |deps|
    ensures forall i :: 0 <= i < |deps| ==> dependencies[i] == DependencyEntry(deps[i]) && mockdata[i] == MockEntry(deps[i])
    ensures written == SamplesWritten(deps, sampleExists)
  {
    dependencies, mockdata, written := [], [], [];
    for i := 0 to |deps|
      invariant |dependencies| == i && |mockdata| == i
      invariant forall j :: 0 <= j < i ==> dependencies[j] == DependencyEntry(deps[j]) && mockdata[j] == MockEntry(deps[j])
      invariant written == SamplesWritten(deps[..i], sampleExists)
    {
      assert deps[..i + 1][..i] == deps[..i];
      var dep := deps[i];
      var datapath := SamplePath(dep);
      dependencies := dependencies + [DependencyEntry(dep)];
      mockdata := mockdata + [MockEntry(dep)];
      assert SamplesWritten(deps[..i + 1], sampleExists) ==
        if !sampleExists(datapath) && datapath !in written then written + [datapath] else written;
      if !sampleExists(datapath) && datapath !in written {
        written := written + [datapath];
      }
    }
    assert deps[..|deps|] == deps;
  }

  /** The property loop: one entry per `--prop` option, in order. */
  method BuildProperties(props: seq<seq<string>>) returns (properties: seq<JsValue>)
    ensures |properties| == |props|
    ensures forall i :: 0 <= i < |props| ==> properties[i] == PropertyEntry(props[i])
  {
    properties := [];
    for i := 0 to |props|
      invariant |properties| == i
      invariant forall j :: 0 <= j < i ==> properties[j] == PropertyEntry(props[j])
    {
      properties := properties + [PropertyEntry(props[i])];
    }
  }

  function DependencyEntries(deps: seq<seq<string>>): (r: seq<JsValue>)
    ensures |r| == |deps|
  {
    seq(|deps|, i requires 0 <= i < |deps| => DependencyEntry(deps[i]))
  }

  function MockEntries(deps: seq<seq<string>>): (r: seq<JsValue>)
    ensures |r| == |deps|
  {
    seq(|deps|, i requires 0 <= i < |deps| => MockEntry(deps[i]))
  }

  function PropertyEntries(props: seq<seq<string>>): (r: seq<JsValue>)
    ensures |r| == |props|
  {
    seq(|props|, i requires 0 <= i < |props| => PropertyEntry(props[i]))
  }

  /** The dependency lists are rebuilt when `--dep` was given and there are none yet, or with `force`. */
  predicate RebuildDeps(meta: Obj, deps: Option<seq<seq<string>>>, force: bool) {
    deps.Some? && (!Truthy(Prop(meta, DependenciesKey)) || force)
  }

  predicate RebuildProps(meta: Obj, props: Option<seq<seq<string>>>, force: bool) {
    props.Some? && (!Truthy(Prop(meta, PropertiesKey)) || force)
  }

  /** The meta object `generateWidget` writes, or the exception the key loop throws. */
  function WidgetMeta(cid: string, metaFile: Option<Obj>, argv: Obj, force: bool,
                      deps: Option<seq<seq<string>>>, props: Option<seq<seq<string>>>): Outcome<Obj>
  {
    match KeyLoop(StartMeta(cid, metaFile), argv, WidgetKeys, force)
    case Throws(e) => Throws(e)
    case Returns(m) =>
      var named := NameDefault(m, CidKey);
      var withDeps := if RebuildDeps(named, deps, force)
        then named[DependenciesKey := Array(DependencyEntries(deps.value))][MockdataKey := Array(MockEntries(deps.value))]
        else named;
      Returns(if RebuildProps(withDeps, props, force) then withDeps[PropertiesKey := Array(PropertyEntries(props.value))] else withDeps)
  }

  /**
   * `generateWidget`: builds and returns the meta it writes, the sample data
   * files it creates, and the template copies made after the meta is written
   * (`templates` is the listing of the widget templates, None where reading
   * it throws). When the key loop throws nothing is written or copied.
   */
  method GenerateWidget(cid: string, metaFile: Option<Obj>, argv: Obj, force: bool,
                        deps: Option<seq<seq<string>>>, props: Option<seq<seq<string>>>,
                        sampleExists: string -> bool, templates: Option<seq<string>>, copyOk: string -> bool)
    returns (meta: Outcome<Obj>, written: seq<string>, copies: seq<(string, string)>, copied: Outcome<()>)
    ensures meta == WidgetMeta(cid, metaFile, argv, force, deps, props)
    ensures meta.Throws? ==> written == [] && copies == [] && copied == Throws(meta.error)
    ensures meta.Returns? ==>
      written == (if RebuildDeps(NameDefault(KeyLoop(StartMeta(cid, metaFile), argv, WidgetKeys, force).value, CidKey), deps, force)
                  then SamplesWritten(deps.value, sampleExists) else [])
    ensures meta.Returns? && templates.None? ==> copies == [] && copied == Throws(ConsoleErrMissing)
    ensures meta.Returns? && templates.Some? ==>
      copies == CopyRun(templates.value, SampleWidgetName, cid, copyOk).0 &&
      (copied.Throws? <==> CopyRun(templates.value, SampleWidgetName, cid, copyOk).1)
  {
    var start := StartMeta(cid, metaFile);
    var looped := WidgetKeyLoop(start, argv, force);
    if looped.Throws? {
      return looped, [], [], Throws(looped.error);
    }
    var m := NameDefault(looped.value, CidKey);
    written := [];
    if RebuildDeps(m, deps, force) {
      var dependencies, mockdata, w := BuildDependencies(deps.value, sampleExists);
      assert dependencies == DependencyEntries(deps.value);
      assert mockdata == MockEntries(deps.value);
      m := m[DependenciesKey := Array(dependencies)][MockdataKey := Array(mockdata)];
      written := w;
    }
    if RebuildProps(m, props, force) {
      var properties := BuildProperties(props.value);
      assert properties == PropertyEntries(props.value);
      m := m[PropertiesKey := Array(properties)];
    }
    meta := Returns(m);
    copies, copied := CopyAndRenameTemplates(templates, SampleWidgetName, cid, copyOk);
  }

  /** The base name of the widget templates. */
  const SampleWidgetName: string := "sample-widget"

  /** Where a size key sits in the loop's key list. */
  function SizeIndex(k: string): (i: nat)
    requires k in SizeKeys
    ensures i < |WidgetKeys| && WidgetKeys[i] == k
  {
    if k == "minW" then 5 else if k == "minH" then 6 else if k == "maxW" then 7 else 8
  }

  /** The key loop on a new widget's meta never throws, keeps the cid, and sets each size given. */
  lemma NewWidgetKeys(cid: string, argv: Obj, force: bool)
    ensures var r := KeyLoop(StartMeta(cid, None), argv, WidgetKeys, force);
      r.Returns? && Prop(r.value, CidKey) == Str(cid) && Prop(r.value, WidgetSizeKey).Object? &&
      forall k :: k in SizeKeys && k in argv ==> Prop(Prop(r.value, WidgetSizeKey).fields, k) == argv[k]
  {
    var start := StartMeta(cid, None);
    var empty: Obj := map[];
    WidgetKeysSeparate();
    KeyLoopSpec(start, argv, WidgetKeys, force);
    MergeFrame(start, TopArgs(argv), WidgetKeys, force, WidgetTarget, CidKey);
    MergeFrame(start, TopArgs(argv), WidgetKeys, force, WidgetTarget, WidgetSizeKey);
    MergeSpec(empty, SizeArgs(argv), WidgetKeys, force, SameName);
    forall k | k in SizeKeys && k in argv
      ensures TouchesSize(WidgetKeys, argv)
      ensures Prop(Merge(empty, SizeArgs(argv), WidgetKeys, force, SameName), k) == argv[k]
    {
      var i := SizeIndex(k);
      assert WidgetKeys[i] in SizeArgs(argv);
    }
  }

  /** A new widget keeps its cid, is always named, and has the sizes given on the command line. */
  lemma NewWidgetMeta(cid: string, argv: Obj, force: bool, deps: Option<seq<seq<string>>>, props: Option<seq<seq<string>>>)
    requires cid != ""
    ensures var r := WidgetMeta(cid, None, argv, force, deps, props);
      r.Returns? && Prop(r.value, CidKey) == Str(cid) && Truthy(Prop(r.value, NameKey)) &&
      Prop(r.value, WidgetSizeKey).Object? &&
      forall k :: k in SizeKeys && k in argv ==> Prop(Prop(r.value, WidgetSizeKey).fields, k) == argv[k]
  {
    NewWidgetKeys(cid, argv, force);
    var m := KeyLoop(StartMeta(cid, None), argv, WidgetKeys, force).value;
    assert Prop(NameDefault(m, CidKey), WidgetSizeKey) == Prop(m, WidgetSizeKey);
  }

  /**
   * The dependency, mock data and property lists are replaced exactly when
   * the rebuild rule holds; otherwise they are kept as they were.
   */
  lemma ListsRebuilt(cid: string, metaFile: Option<Obj>, argv: Obj, force: bool,
                     deps: Option<seq<seq<string>>>, props: Option<seq<seq<string>>>)
    requires KeyLoop(StartMeta(cid, metaFile), argv, WidgetKeys, force).Returns?
    ensures var named := NameDefault(KeyLoop(StartMeta(cid, metaFile), argv, WidgetKeys, force).value, CidKey);
      var r := WidgetMeta(cid, metaFile, argv, force, deps, props).value;
      (RebuildDeps(named, deps, force) ==>
        Prop(r, DependenciesKey) == Array(DependencyEntries(deps.value)) && Prop(r, MockdataKey) == Array(MockEntries(deps.value))) &&
      (!RebuildDeps(named, deps, force) ==>
        Prop(r, DependenciesKey) == Prop(named, DependenciesKey) && Prop(r, MockdataKey) == Prop(named, MockdataKey)) &&
      (props.None? ==> Prop(r, PropertiesKey) == Prop(named, PropertiesKey)) &&
      (!force && Truthy(Prop(named, PropertiesKey)) ==> Prop(r, PropertiesKey) == Prop(named, PropertiesKey)) &&
      (props.Some? && (force || !Truthy(Prop(named, PropertiesKey))) ==> Prop(r, PropertiesKey) == Array(PropertyEntries(props.value))) &&
      Prop(r, CidKey) == Prop(named, CidKey) && Prop(r, NameKey) == Prop(named, NameKey)
  {
  }
}
