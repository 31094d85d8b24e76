/**
 * Python's insertion-ordered dict with string keys, as the plugin registry
 * and the managers use it: a sequence of (key, value) pairs in insertion
 * order, with `in`, `get`, `update` of one key, `pop`, and the first entry,
 * in `items()` order, that passes a test.
 */
module OrderedDict {
  import opened Wrappers

  type Dict<V> = seq<(string, V)>

  /** `keys()`, in insertion order. */
  function Keys<V>(d: Dict<V>): (ks: seq<string>)
    ensures |ks| == |d|
    ensures forall i :: 0 <= i < |d| ==> ks[i] == d[i].0
  {
    if d == [] then [] else [d[0].0] + Keys(d[1..])
  }

  predicate Distinct(ks: seq<string>) {
    forall i, j :: 0 <= i < j < |ks| ==> ks[i] != ks[j]
  }

  /** A well-formed dict: no key twice. */
  predicate DistinctKeys<V>(d: Dict<V>) {
    Distinct(Keys(d))
  }

  /** `d.get(k)`: the value stored under `k`, or None when `k` is not a key. */
  function Get<V>(d: Dict<V>, k: string): (r: Option<V>)
    ensures r.Some? <==> k in Keys(d)
    ensures r.Some? ==> (k, r.value) in d
  {
    if d == [] then None
    else if d[0].0 == k then Some(d[0].1)
    else
      assert Keys(d) == [d[0].0] + Keys(d[1..]);
      Get(d[1..], k)
  }

  /**
   * `d.update({k: v})`: an existing key keeps its position and gets the new
   * value; a new key goes at the end.
   */
  function Put<V>(d: Dict<V>, k: string, v: V): (r: Dict<V>)
    ensures Get(r, k) == Some(v)
    ensures forall k' :: k' != k ==> Get(r, k') == Get(d, k')
  {
    if d == [] then [(k, v)]
    else if d[0].0 == k then [(k, v)] + d[1..]
    else [d[0]] + Put(d[1..], k, v)
  }

  /** The keys of a dict with one entry in front. */
  lemma ConsKeys<V>(e: (string, V), d: Dict<V>)
    ensures Keys([e] + d) == [e.0] + Keys(d)
  {
    assert ([e] + d)[1..] == d;
  }

  /** Updating a present key keeps the key order. */
  lemma {:induction false} PutPresentKeys<V>(d: Dict<V>, k: string, v: V)
    requires k in Keys(d)
    ensures Keys(Put(d, k, v)) == Keys(d)
    decreases |d|
  {
    ConsKeys(d[0], d[1..]);
    assert [d[0]] + d[1..] == d;
    if d[0].0 == k {
      ConsKeys((k, v), d[1..]);
    } else {
      PutPresentKeys(d[1..], k, v);
      ConsKeys(d[0], Put(d[1..], k, v));
    }
  }

  /** Updating a new key appends it to the key order. */
  lemma {:induction false} PutAbsentKeys<V>(d: Dict<V>, k: string, v: V)
    requires k !in Keys(d)
    ensures Keys(Put(d, k, v)) == Keys(d) + [k]
    decreases |d|
  {
    if d != [] {
      ConsKeys(d[0], d[1..]);
      assert [d[0]] + d[1..] == d;
      PutAbsentKeys(d[1..], k, v);
      ConsKeys(d[0], Put(d[1..], k, v));
      assert [d[0].0] + (Keys(d[1..]) + [k]) == ([d[0].0] + Keys(d[1..])) + [k];
    }
  }

  /** Where `update` puts the key: in place when present, else last. */
  lemma PutKeys<V>(d: Dict<V>, k: string, v: V)
    ensures Keys(Put(d, k, v)) == if k in Keys(d) then Keys(d) else Keys(d) + [k]
  {
    if k in Keys(d) {
      PutPresentKeys(d, k, v);
    } else {
      PutAbsentKeys(d, k, v);
    }
  }

  /** An update keeps the keys distinct. */
  lemma PutKeepsDistinct<V>(d: Dict<V>, k: string, v: V)
    requires DistinctKeys(d)
    ensures DistinctKeys(Put(d, k, v))
  {
    PutKeys(d, k, v);
    if k !in Keys(d) {
      var ks := Keys(d) + [k];
      forall i, j | 0 <= i < j < |ks|
        ensures ks[i] != ks[j]
      {
        if j == |ks| - 1 {
          assert ks[i] == Keys(d)[i];
        }
      }
    }
  }

  /** `d.pop(k)` when `k` is a key, nothing otherwise: every other entry stays, in order. */
  function Remove<V>(d: Dict<V>, k: string): (r: Dict<V>)
    ensures Get(r, k) == None
    ensures forall k' :: k' != k ==> Get(r, k') == Get(d, k')
    ensures k !in Keys(d) ==> r == d
    ensures forall x :: x in Keys(r) ==> x in Keys(d)
  {
    if d == [] then []
    else
      assert Keys(d) == [d[0].0] + Keys(d[1..]);
      var rest := Remove(d[1..], k);
      if d[0].0 == k then rest
      else
        assert ([d[0]] + rest)[1..] == rest;
        [d[0]] + rest
  }

  /** Removing a key keeps the others distinct. */
  lemma {:induction false} RemoveKeepsDistinct<V>(d: Dict<V>, k: string)
    requires DistinctKeys(d)
    ensures DistinctKeys(Remove(d, k))
    decreases |d|
  {
    if d != [] {
      assert Keys(d) == [d[0].0] + Keys(d[1..]);
      assert DistinctKeys(d[1..]) by {
        forall i, j | 0 <= i < j < |Keys(d[1..])|
          ensures Keys(d[1..])[i] != Keys(d[1..])[j]
        {
          assert Keys(d[1..])[i] == Keys(d)[i + 1] && Keys(d[1..])[j] == Keys(d)[j + 1];
        }
      }
      RemoveKeepsDistinct(d[1..], k);
      var rest := Remove(d[1..], k);
      if d[0].0 != k {
        assert d[0].0 !in Keys(d[1..]);
        assert d[0].0 !in Keys(rest);
        assert ([d[0]] + rest)[1..] == rest;
        assert Keys([d[0]] + rest) == [d[0].0] + Keys(rest);
      }
    }
  }

  /**
   * The position of the first entry, in `items()` order, that passes `ok`:
   * what a `for ... in d.items(): if ...: break` loop stops at.
   */
  function FirstIndex<V>(d: Dict<V>, ok: ((string, V)) -> bool): (r: Option<nat>)
    ensures r.Some? ==> r.value < |d| && ok(d[r.value]) && forall j :: 0 <= j < r.value ==> !ok(d[j])
    ensures r.None? ==> forall j :: 0 <= j < |d| ==> !ok(d[j])
  {
    if d == [] then None
    else if ok(d[0]) then Some(0)
    else
      var r := FirstIndex(d[1..], ok);
      if r.None? then None else Some(r.value + 1)
  }

  /** The characterisation picks out exactly one position: a loop that stops at `i` agrees with FirstIndex. */
  lemma FirstIndexIs<V>(d: Dict<V>, ok: ((string, V)) -> bool, i: nat)
    requires i < |d| && ok(d[i]) && forall j :: 0 <= j < i ==> !ok(d[j])
    ensures FirstIndex(d, ok) == Some(i)
  {
  }

  /** Any entry that passes bounds the winner: an earlier entry that also passes takes precedence. */
  lemma EarlierWins<V>(d: Dict<V>, ok: ((string, V)) -> bool, i: nat)
    requires i < |d| && ok(d[i])
    ensures FirstIndex(d, ok).Some? && FirstIndex(d, ok).value <= i
  {
    assert !(forall x :: 0 <= x < |d| ==> !ok(d[x])) by {
      assert ok(d[i]);
    }
  }

  /** Entries after a passing one are never reached: extending the dict does not move the winner. */
  lemma {:induction false} FirstIndexExtend<V>(front: Dict<V>, back: Dict<V>, ok: ((string, V)) -> bool)
    requires FirstIndex(front, ok).Some?
    ensures FirstIndex(front + back, ok) == FirstIndex(front, ok)
    decreases |front|
  {
    assert (front + back)[0] == front[0];
    if !ok(front[0]) {
      assert (front + back)[1..] == front[1..] + back;
      FirstIndexExtend(front[1..], back, ok);
    }
  }
}
