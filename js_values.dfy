/**
 * The JavaScript values the plugin-authoring tool (ai-verify-plugin and
 * aiverify-plugin) reads and writes: parsed JSON, command-line options, and
 * the truthiness its `if (!x)` tests use; and the "fill if absent or forced"
 * rule every `generate*` command applies to a component's meta object.
 */
module JsValues {
  /** A JavaScript value; an object is a map from property names (their order is not modelled). */
  datatype JsValue =
    | Undefined
    | Null
    | Boolean(b: bool)
    | Number(n: real)
    | NaN
    | Str(s: string)
    | Array(items: seq<JsValue>)
    | Object(fields: map<string, JsValue>)

  type Obj = map<string, JsValue>

  /** JavaScript truthiness: undefined, null, false, 0, NaN and "" are falsy, every array and object is truthy. */
  predicate Truthy(v: JsValue) {
    match v
    case Undefined => false
    case Null => false
    case Boolean(b) => b
    case Number(n) => n != 0.0
    case NaN => false
    case Str(s) => s != ""
    case Array(_) => true
    case Object(_) => true
  }

  /** `o[key]`: undefined when the property is absent. */
  function Prop(o: Obj, key: string): JsValue {
    if key in o then o[key] else Undefined
  }

  /** A call that returns a value or throws an exception (with its message). */
  datatype Outcome<T> = Returns(value: T) | Throws(error: string)

  const NameKey: string := "name"

  /** `if (!meta.name) meta.name = meta[idKey]`: an unnamed component is named after its id. */
  function NameDefault(meta: Obj, idKey: string): (r: Obj)
    ensures Truthy(Prop(meta, idKey)) ==> Truthy(Prop(r, NameKey))
    ensures Truthy(Prop(meta, NameKey)) ==> r == meta
    ensures !Truthy(Prop(meta, NameKey)) ==> Prop(r, NameKey) == Prop(meta, idKey)
    ensures forall x :: x != NameKey ==> Prop(r, x) == Prop(meta, x)
  {
    if !Truthy(Prop(meta, NameKey)) then meta[NameKey := Prop(meta, idKey)] else meta
  }

  /** `if (!o[key] || force) o[key] = v`. */
  function FillIfAbsent(o: Obj, key: string, v: JsValue, force: bool): Obj {
    if !Truthy(Prop(o, key)) || force then o[key := v] else o
  }

  /**
   * The key loop of a `generate*` command: for each listed key present in
   * `argv`, fill the meta property `target(key)` if absent or forced.
   */
  function Merge(meta: Obj, argv: Obj, keys: seq<string>, force: bool, target: string -> string): Obj
    decreases |keys|
  {
    if keys == [] then meta
    else
      var m := Merge(meta, argv, keys[..|keys| - 1], force, target);
      var k := keys[|keys| - 1];
      if k in argv then FillIfAbsent(m, target(k), argv[k], force) else m
  }

  /** The meta properties the loop over `keys` may write. */
  function Targets(keys: seq<string>, target: string -> string): (ts: seq<string>)
    ensures |ts| == |keys|
  {
    seq(|keys|, i requires 0 <= i < |keys| => target(keys[i]))
  }

  predicate DistinctTargets(keys: seq<string>, target: string -> string) {
    forall i, j :: 0 <= i < j < |keys| ==> target(keys[i]) != target(keys[j])
  }

  /** What the loop leaves in one target property: its argument when present and the property was falsy or forced, else the old value. */
  function MergedValue(meta: Obj, argv: Obj, key: string, force: bool, t: string): JsValue {
    if key in argv && (!Truthy(Prop(meta, t)) || force) then argv[key] else Prop(meta, t)
  }

  /**
   * The key loop writes each listed key's target as the fill rule says,
   * whatever the order of the keys, and leaves every other property alone.
   */
  lemma {:induction false} MergeSpec(meta: Obj, argv: Obj, keys: seq<string>, force: bool, target: string -> string)
    requires DistinctTargets(keys, target)
    decreases |keys|
    ensures forall i :: 0 <= i < |keys| ==>
      Prop(Merge(meta, argv, keys, force, target), target(keys[i])) == MergedValue(meta, argv, keys[i], force, target(keys[i]))
    ensures forall x :: x !in Targets(keys, target) ==> Prop(Merge(meta, argv, keys, force, target), x) == Prop(meta, x)
  {
    if keys != [] {
      var front := keys[..|keys| - 1];
      var k := keys[|keys| - 1];
      assert DistinctTargets(front, target);
      MergeSpec(meta, argv, front, force, target);
      assert forall i :: 0 <= i < |front| ==> front[i] == keys[i];
      assert Targets(keys, target) == Targets(front, target) + [target(k)];
      assert target(k) !in Targets(front, target);
    }
  }

  /** Without `force`, a property that is already truthy is never overwritten. */
  lemma KeepsTruthy(meta: Obj, argv: Obj, keys: seq<string>, target: string -> string, t: string)
    requires DistinctTargets(keys, target)
    requires Truthy(Prop(meta, t))
    ensures Prop(Merge(meta, argv, keys, false, target), t) == Prop(meta, t)
  {
    MergeSpec(meta, argv, keys, false, target);
    if t in Targets(keys, target) {
      var i :| 0 <= i < |keys| && Targets(keys, target)[i] == t;
      assert target(keys[i]) == t;
    }
  }

  /** With `force`, every listed key given on the command line overwrites its property. */
  lemma ForceOverwrites(meta: Obj, argv: Obj, keys: seq<string>, target: string -> string, i: nat)
    requires DistinctTargets(keys, target)
    requires i < |keys| && keys[i] in argv
    ensures Prop(Merge(meta, argv, keys, true, target), target(keys[i])) == argv[keys[i]]
  {
    MergeSpec(meta, argv, keys, true, target);
  }

  /**
   * The key loop itself: `for (key of keys) if (key in argv && (!meta[t] || force)) meta[t] = argv[key]`,
   * with `t` the property `key` is stored under.
   */
  method MergeKeys(meta: Obj, argv: Obj, keys: seq<string>, force: bool, target: string -> string) returns (m: Obj)
    ensures m == Merge(meta, argv, keys, force, target)
  {
    m := meta;
    for i := 0 to |keys|
      invariant m == Merge(meta, argv, keys[..i], force, target)
    {
      assert keys[..i + 1][..i] == keys[..i];
      var key := keys[i];
      if key in argv {
        if !Truthy(Prop(m, target(key))) || force {
          m := m[target(key) := argv[key]];
        }
      }
    }
    assert keys[..|keys|] == keys;
  }

  /** A property no listed key writes keeps its value; the targets need not be distinct. */
  lemma {:induction false} MergeFrame(meta: Obj, argv: Obj, keys: seq<string>, force: bool, target: string -> string, x: string)
    requires forall k :: k in keys ==> target(k) != x
    decreases |keys|
    ensures Prop(Merge(meta, argv, keys, force, target), x) == Prop(meta, x)
  {
    if keys != [] {
      MergeFrame(meta, argv, keys[..|keys| - 1], force, target, x);
    }
  }

  /** When no listed key is given, the loop writes nothing. */
  lemma {:induction false} MergeUntouched(meta: Obj, argv: Obj, keys: seq<string>, force: bool, target: string -> string)
    requires forall k :: k in keys ==> k !in argv
    decreases |keys|
    ensures Merge(meta, argv, keys, force, target) == meta
  {
    if keys != [] {
      MergeUntouched(meta, argv, keys[..|keys| - 1], force, target);
    }
  }
}
