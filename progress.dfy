/**
 * The progress counter algorithms report through
 * (test_engine_core/utils/simple_progress.py): a total, a completed count and
 * an optional callback that receives the percentage after every update.
 */
module Progress {
  import opened Wrappers

  /**
   * An argument as `isinstance(x, int)` sees it: ints and bools (a bool is an
   * int in Python) pass, anything else is ignored.
   */
  datatype PyArg = IntArg(i: int) | BoolArg(b: bool) | OtherArg

  function AsInt(a: PyArg): (r: Option<int>)
    ensures r.Some? <==> !a.OtherArg?
    ensures a.IntArg? ==> r == Some(a.i)
    ensures a.BoolArg? ==> r == Some(if a.b then 1 else 0)
  {
    match a
    case IntArg(i) => Some(i)
    case BoolArg(b) => Some(if b then 1 else 0)
    case OtherArg => None
  }

  /** What the `callback` attribute holds: nothing, a callable, or some other object. */
  datatype CallbackSlot = NoCallback | Callable | NotCallable

  /** `int(x)` on a quotient: truncation toward zero, for a positive divisor. */
  function TruncDiv(a: int, b: int): (q: int)
    requires b > 0
    ensures a >= 0 ==> q == a / b
    ensures a < 0 ==> q == -((-a) / b)
  {
    if a >= 0 then a / b else -((-a) / b)
  }

  /** Truncation toward zero never overshoots the exact quotient's magnitude. */
  lemma TruncDivBounds(a: int, b: int)
    requires b > 0 && 0 <= a <= 100 * b
    ensures 0 <= TruncDiv(a, b) <= 100
  {
    assert a / b <= (100 * b) / b by {
      DivMonotone(a, 100 * b, b);
    }
  }

  lemma DivMonotone(a: int, c: int, b: int)
    requires b > 0 && 0 <= a <= c
    ensures a / b <= c / b
  {
    var qa, ra, qc, rc := a / b, a % b, c / b, c % b;
    assert a == qa * b + ra && 0 <= ra < b;
    assert c == qc * b + rc && 0 <= rc < b;
    if qa > qc {
      MulAtLeast(qa - qc, b);
    }
  }

  lemma {:induction false} MulAtLeast(k: int, b: int)
    requires k >= 1 && b > 0
    ensures k * b >= b
    decreases k
  {
    if k > 1 {
      MulAtLeast(k - 1, b);
      assert k * b == (k - 1) * b + b;
    }
  }

  /**
   * The percentage `get_progress` reports: the completed share of the total,
   * truncated, or 0 when either value is None or the total is not positive.
   */
  function Percent(total: Option<int>, completed: Option<int>): (p: int)
    ensures total.None? || completed.None? || total.value <= 0 ==> p == 0
    ensures total.Some? && completed.Some? && 0 <= completed.value <= total.value ==> 0 <= p <= 100
    ensures total.Some? && completed.Some? && total.value > 0 && completed.value == total.value ==> p == 100
  {
    if total.Some? && completed.Some? then
      if total.value > 0 then
        if 0 <= completed.value <= total.value then
          TruncDivBounds(completed.value * 100, total.value);
          TruncDiv(completed.value * 100, total.value)
        else TruncDiv(completed.value * 100, total.value)
      else 0
    else 0
  }

  /** More completed work never lowers the percentage. */
  lemma PercentMonotone(total: int, c1: int, c2: int)
    requires total > 0 && 0 <= c1 <= c2
    ensures Percent(Some(total), Some(c1)) <= Percent(Some(total), Some(c2))
  {
    DivMonotone(c1 * 100, c2 * 100, total);
  }

  class SimpleProgress {
    var total: Option<int>
    var completed: Option<int>
    var callback: CallbackSlot
    /** The percentages handed to the callback, oldest first. */
    var reported: seq<int>

    constructor (total: Option<int>, completed: Option<int>, callback: CallbackSlot)
      ensures this.total == total && this.completed == completed && this.callback == callback
      ensures reported == []
    {
      this.total := total;
      this.completed := completed;
      this.callback := callback;
      reported := [];
    }

    /** `get_progress`. */
    function GetProgress(): (p: int)
      reads this
      ensures p == Percent(total, completed)
    {
      Percent(total, completed)
    }

    /** `add_total`: an int argument is added while the total is not None. */
    method AddTotal(amount: PyArg)
      modifies this
      ensures total == if old(total).Some? && AsInt(amount).Some? then Some(old(total).value + AsInt(amount).value) else old(total)
      ensures completed == old(completed) && callback == old(callback) && reported == old(reported)
    {
      var n := AsInt(amount);
      if total.Some? && n.Some? {
        total := Some(total.value + n.value);
      }
    }

    /**
     * `update`: an int value is added to the completed count while it is not
     * None; then a callable callback receives the new percentage, once.
     */
    method Update(value: PyArg)
      modifies this
      ensures completed == if old(completed).Some? && AsInt(value).Some? then Some(old(completed).value + AsInt(value).value) else old(completed)
      ensures total == old(total) && callback == old(callback)
      ensures reported == old(reported) + (if callback == Callable then [GetProgress()] else [])
    {
      var n := AsInt(value);
      if completed.Some? && n.Some? {
        completed := Some(completed.value + n.value);
      }
      if callback == Callable {
        reported := reported + [GetProgress()];
      }
    }
  }
}
