/**
 * Result clean-up helpers of the test engine core
 * (test_engine_core/utils/json_utils.py): quote scanning for error texts and
 * the conversion of numpy values into plain JSON-compatible values.
 */
module JsonUtils {

  /** `input_data.replace("'", '"')`. */
  function ScanForSingleQuotes(s: string): (r: string)
    ensures |r| == |s|
    ensures forall i :: 0 <= i < |s| ==> r[i] == (if s[i] == '\'' then '"' else s[i])
    ensures forall i :: 0 <= i < |r| ==> r[i] != '\''
  {
    if s == [] then []
    else [if s[0] == '\'' then '"' else s[0]] + ScanForSingleQuotes(s[1..])
  }

  /** A dictionary key before `str(key)`. */
  datatype Key = StrKey(s: string) | IntKey(i: int) | OtherKey(text: string)

  /** A numeric numpy array: numpy integers, numpy floats or nested arrays. */
  datatype NdItem = NdInt(i: int) | NdFloat(f: real) | NdSub(items: seq<NdItem>)

  /** The Python values an algorithm may hand back as its results. */
  datatype Value =
    | PyNone
    | Bool(b: bool)
    | Int(i: int)
    | Float(f: real)
    | Str(s: string)
    | NumpyInt(n: int)
    | NumpyFloat(x: real)
    | NdArray(items: seq<NdItem>)
    | List(elems: seq<Value>)
    | Dict(entries: seq<(Key, Value)>)
    | Other(typeName: string)

  function DigitText(d: nat): (r: string)
    requires d < 10
    ensures |r| == 1
  {
    ["0123456789"[d]]
  }

  /** Decimal text of a natural number, as `str` writes it. */
  function NatText(n: nat): (r: string)
    ensures |r| >= 1
  {
    if n < 10 then DigitText(n) else NatText(n / 10) + DigitText(n % 10)
  }

  /** `str(key)`. */
  function KeyText(k: Key): string {
    match k
    case StrKey(s) => s
    case IntKey(i) => if i < 0 then "-" + NatText(-i) else NatText(i)
    case OtherKey(t) => t
  }

  /** `ndarray.tolist()`: numpy scalars become Python scalars, sub-arrays lists. */
  function ToList(items: seq<NdItem>): (r: seq<Value>)
    ensures |r| == |items|
    decreases items, 0
  {
    seq(|items|, i requires 0 <= i < |items| => ItemToValue(items[i]))
  }

  function ItemToValue(x: NdItem): (r: Value)
    decreases x, 1
  {
    match x
    case NdInt(i) => Int(i)
    case NdFloat(f) => Float(f)
    case NdSub(xs) => List(ToList(xs))
  }

  /** The keys of an insertion-ordered dictionary. */
  function Keys(d: seq<(string, Value)>): seq<string> {
    seq(|d|, i requires 0 <= i < |d| => d[i].0)
  }

  predicate UniqueKeys(d: seq<(string, Value)>) {
    forall i, j :: 0 <= i < j < |d| ==> d[i].0 != d[j].0
  }

  /**
   * `new_results.update({k: v})`: an existing key keeps its position and takes
   * the new value; a new key goes at the end.
   */
  function Put(d: seq<(string, Value)>, k: string, v: Value): (r: seq<(string, Value)>)
    ensures k in Keys(d) ==> |r| == |d|
    ensures k !in Keys(d) ==> r == d + [(k, v)]
    ensures forall i :: 0 <= i < |d| ==> r[i] == (if d[i].0 == k then (k, v) else d[i])
    ensures UniqueKeys(d) ==> UniqueKeys(r)
  {
    if k in Keys(d) then
      seq(|d|, i requires 0 <= i < |d| => if d[i].0 == k then (k, v) else d[i])
    else
      assert forall i :: 0 <= i < |d| ==> Keys(d)[i] == d[i].0;
      d + [(k, v)]
  }

  /** The dictionary built by updating a fresh dict with every pair in turn. */
  function Collect(pairs: seq<(string, Value)>): (r: seq<(string, Value)>)
    ensures UniqueKeys(r)
  {
    if pairs == [] then [] else Put(Collect(pairs[..|pairs| - 1]), pairs[|pairs| - 1].0, pairs[|pairs| - 1].1)
  }

  function Lift(d: seq<(string, Value)>): seq<(Key, Value)> {
    seq(|d|, i requires 0 <= i < |d| => (StrKey(d[i].0), d[i].1))
  }

  /** `remove_numpy_formats(data)`. */
  function RemoveNumpyFormats(v: Value): Value
    decreases v
  {
    match v
    case NumpyInt(n) => Int(n)
    case NumpyFloat(x) => Float(x)
    case NdArray(items) => List(ToList(items))
    case List(xs) => List(seq(|xs|, i requires 0 <= i < |xs| => RemoveNumpyFormats(xs[i])))
    case Dict(es) =>
      Dict(Lift(Collect(seq(|es|, i requires 0 <= i < |es| => (KeyText(es[i].0), RemoveNumpyFormats(es[i].1))))))
    case _ => v
  }

  /** A value holding no numpy value and only dictionaries with distinct string keys. */
  predicate Plain(v: Value)
    decreases v
  {
    match v
    case NumpyInt(_) => false
    case NumpyFloat(_) => false
    case NdArray(_) => false
    case List(xs) => forall i :: 0 <= i < |xs| ==> Plain(xs[i])
    case Dict(es) =>
      (forall i :: 0 <= i < |es| ==> es[i].0.StrKey? && Plain(es[i].1)) &&
      (forall i, j :: 0 <= i < j < |es| ==> es[i].0 != es[j].0)
    case _ => true
  }

  /** `None` stays `None`. */
  lemma NoneStaysNone()
    ensures RemoveNumpyFormats(PyNone) == PyNone
  {
  }

  /** Values that are neither containers nor numpy values are returned unchanged. */
  lemma ScalarsUnchanged(v: Value)
    requires !v.List? && !v.Dict? && !v.NumpyInt? && !v.NumpyFloat? && !v.NdArray?
    ensures RemoveNumpyFormats(v) == v
  {
  }

  /** Lists keep their length and order, each element converted on its own. */
  lemma ListElementwise(xs: seq<Value>)
    ensures RemoveNumpyFormats(List(xs)).List?
    ensures |RemoveNumpyFormats(List(xs)).elems| == |xs|
    ensures forall i :: 0 <= i < |xs| ==> RemoveNumpyFormats(List(xs)).elems[i] == RemoveNumpyFormats(xs[i])
  {
  }

  /** Every value in a collected dictionary came from one of the pairs. */
  lemma CollectFrom(pairs: seq<(string, Value)>, k: nat)
    requires k < |Collect(pairs)|
    ensures exists j :: 0 <= j < |pairs| && Collect(pairs)[k] == pairs[j]
    decreases |pairs|
  {
    if pairs != [] {
      var init := pairs[..|pairs| - 1];
      var last := pairs[|pairs| - 1];
      var c := Collect(init);
      if k < |c| && c[k].0 != last.0 {
        CollectFrom(init, k);
        var j :| 0 <= j < |init| && c[k] == init[j];
        assert pairs[j] == init[j];
      } else {
        assert Collect(pairs)[k] == last;
      }
    }
  }

  /** Collecting pairs whose keys are already distinct gives the pairs back. */
  lemma {:induction false} CollectUnique(pairs: seq<(string, Value)>)
    requires UniqueKeys(pairs)
    ensures Collect(pairs) == pairs
    decreases |pairs|
  {
    if pairs != [] {
      var init := pairs[..|pairs| - 1];
      CollectUnique(init);
      var k := pairs[|pairs| - 1].0;
      assert k !in Keys(init) by {
        forall i | 0 <= i < |init| ensures Keys(init)[i] != k {
          assert init[i] == pairs[i];
        }
      }
      assert init + [pairs[|pairs| - 1]] == pairs;
    }
  }

  lemma ToListPlain(items: seq<NdItem>)
    ensures forall i :: 0 <= i < |items| ==> Plain(ToList(items)[i])
    decreases items, 0
  {
    forall i | 0 <= i < |items| ensures Plain(ToList(items)[i]) {
      ItemPlain(items[i]);
    }
  }

  lemma ItemPlain(x: NdItem)
    ensures Plain(ItemToValue(x))
    decreases x, 1
  {
    if x.NdSub? {
      ToListPlain(x.items);
    }
  }

  /** The result of `remove_numpy_formats` is plain. */
  lemma {:induction false} RemoveNumpyFormatsPlain(v: Value)
    ensures Plain(RemoveNumpyFormats(v))
    decreases v
  {
    match v
    case NdArray(items) => ToListPlain(items);
    case List(xs) =>
      forall i | 0 <= i < |xs| ensures Plain(RemoveNumpyFormats(v).elems[i]) {
        RemoveNumpyFormatsPlain(xs[i]);
      }
    case Dict(es) =>
      var pairs := seq(|es|, i requires 0 <= i < |es| => (KeyText(es[i].0), RemoveNumpyFormats(es[i].1)));
      var c := Collect(pairs);
      var r := Lift(c);
      assert RemoveNumpyFormats(v) == Dict(r);
      forall i | 0 <= i < |r| ensures r[i].0.StrKey? && Plain(r[i].1) {
        CollectFrom(pairs, i);
        var j :| 0 <= j < |pairs| && c[i] == pairs[j];
        RemoveNumpyFormatsPlain(es[j].1);
      }
    case _ =>
  }

  /** A plain value is left as it is. */
  lemma {:induction false} PlainUnchanged(v: Value)
    requires Plain(v)
    ensures RemoveNumpyFormats(v) == v
    decreases v
  {
    match v
    case List(xs) =>
      forall i | 0 <= i < |xs| ensures RemoveNumpyFormats(xs[i]) == xs[i] {
        PlainUnchanged(xs[i]);
      }
    case Dict(es) =>
      var pairs := seq(|es|, i requires 0 <= i < |es| => (KeyText(es[i].0), RemoveNumpyFormats(es[i].1)));
      forall i | 0 <= i < |es| ensures pairs[i] == (es[i].0.s, es[i].1) {
        PlainUnchanged(es[i].1);
      }
      assert UniqueKeys(pairs);
      CollectUnique(pairs);
      assert Lift(pairs) == es;
    case _ =>
  }

  /** Applying `remove_numpy_formats` to its own output changes nothing. */
  lemma Idempotent(v: Value)
    ensures RemoveNumpyFormats(RemoveNumpyFormats(v)) == RemoveNumpyFormats(v)
  {
    RemoveNumpyFormatsPlain(v);
    PlainUnchanged(RemoveNumpyFormats(v));
  }

  /** Dictionary results get `str(key)` keys, a later duplicate overwriting in place. */
  lemma DictKeysAreText(es: seq<(Key, Value)>)
    ensures RemoveNumpyFormats(Dict(es)).Dict?
    ensures forall i :: 0 <= i < |RemoveNumpyFormats(Dict(es)).entries| ==> RemoveNumpyFormats(Dict(es)).entries[i].0.StrKey?
  {
  }

  /**
   * The list branch: every element of the list is replaced in place by its
   * converted value, so the list keeps its length and order.
   */
  method ConvertListInPlace(a: array<Value>)
    modifies a
    ensures forall i :: 0 <= i < a.Length ==> a[i] == RemoveNumpyFormats(old(a[i]))
    ensures RemoveNumpyFormats(List(old(a[..]))) == List(a[..])
  {
    var count := 0;
    while count < a.Length
      invariant 0 <= count <= a.Length
      invariant forall i :: 0 <= i < count ==> a[i] == RemoveNumpyFormats(old(a[i]))
      invariant forall i :: count <= i < a.Length ==> a[i] == old(a[i])
    {
      a[count] := RemoveNumpyFormats(a[count]);
      count := count + 1;
    }
  }
}
