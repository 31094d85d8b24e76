/**
 * The summary functions of the sample input block the plugin-authoring tool
 * generates (ai-verify-plugin/src/inputs/sample-input-block.ts): the summary
 * text, the completion percentage over three expected values, and the
 * "complete" verdict.
 */
module SampleInputBlock {
  import opened JsValues

  /** How many values complete the sample input block's data. */
  const TotalKeys: nat := 3
  const NoData: string := "No data"

  /** The filter of `progress`: a string or an array counts when it is not empty; every other value counts. */
  predicate Counts(v: JsValue) {
    match v
    case Str(s) => |s| > 0
    case Array(items) => |items| > 0
    case _ => true
  }

  /** How many items of an array count. */
  function CountItems(items: seq<JsValue>): (n: nat)
    ensures n <= |items|
    ensures n == |items| <==> forall i :: 0 <= i < |items| ==> Counts(items[i])
    ensures n == 0 <==> forall i :: 0 <= i < |items| ==> !Counts(items[i])
    decreases |items|
  {
    if items == [] then 0
    else
      var rest := CountItems(items[1..]);
      assert forall i :: 1 <= i < |items| ==> items[i] == items[1..][i - 1];
      (if Counts(items[0]) then 1 else 0) + rest
  }

  /**
   * How many of `Object.values(data)` count: the property values of an
   * object, the items of an array, the one-character strings of a string;
   * numbers and booleans have no values.
   */
  function CountedValues(data: JsValue): nat {
    match data
    case Object(fields) => |set k | k in fields && Counts(fields[k])|
    case Array(items) => CountItems(items)
    case Str(s) => |s|
    case _ => 0
  }

  /** `Math.round(100 * n / 3)`: the nearest whole percentage, halves rounded up. */
  function RoundedPercent(n: nat): (r: int)
    ensures r as real - 0.5 <= 100.0 * n as real / TotalKeys as real < r as real + 0.5
  {
    (200 * n + TotalKeys) / (2 * TotalKeys)
  }

  /** `progress`: 0 for missing data, otherwise the rounded share of the three values that count. */
  function Progress(data: JsValue): (r: int)
    ensures !Truthy(data) ==> r == 0
    ensures Truthy(data) ==> r == RoundedPercent(CountedValues(data))
    ensures r >= 0
  {
    if !Truthy(data) then 0 else RoundedPercent(CountedValues(data))
  }

  /** With 0 to 3 values counting the progress is 0, 33, 67 and 100; with more it passes 100. */
  lemma ProgressSteps(n: nat)
    ensures RoundedPercent(0) == 0 && RoundedPercent(1) == 33 && RoundedPercent(2) == 67 && RoundedPercent(3) == 100
    ensures n > TotalKeys ==> RoundedPercent(n) > 100
    ensures RoundedPercent(n) == 100 <==> n == TotalKeys
  {
  }

  /** `validate`: the data is complete exactly when its progress is 100. */
  function Validate(data: JsValue): (r: bool)
    ensures r <==> Truthy(data) && CountedValues(data) == TotalKeys
  {
    ProgressSteps(CountedValues(data));
    Progress(data) == 100
  }

  /** An object with exactly the three values filled in is complete; one with an empty string among three values is not. */
  lemma ThreeFilledValues(a: JsValue, b: JsValue, c: JsValue)
    requires Counts(a) && Counts(b) && Counts(c)
    ensures Validate(Object(map["a" := a, "b" := b, "c" := c]))
    ensures !Validate(Object(map["a" := a, "b" := b, "c" := Str("")]))
  {
    var m := map["a" := a, "b" := b, "c" := c];
    assert (set k | k in m && Counts(m[k])) == {"a", "b", "c"};
    var m2 := map["a" := a, "b" := b, "c" := Str("")];
    assert (set k | k in m2 && Counts(m2[k])) == {"a", "b"};
  }

  /** `summary`: "No data" for missing data, otherwise the data's JSON text (`stringify` is `JSON.stringify`). */
  function Summary(data: JsValue, stringify: JsValue -> string): string {
    if !Truthy(data) then NoData else stringify(data)
  }

  /**
   * When no JSON text reads "No data", the summary says "No data" exactly
   * for missing data, and then the progress is 0 and the data is not complete.
   */
  lemma MissingDataSummary(data: JsValue, stringify: JsValue -> string)
    requires forall v :: stringify(v) != NoData
    ensures Summary(data, stringify) == NoData <==> !Truthy(data)
    ensures Summary(data, stringify) == NoData ==> Progress(data) == 0 && !Validate(data)
  {
  }
}
