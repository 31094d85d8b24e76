/**
 * The error-counting convention shared by the argument and configuration
 * validators: every failed check adds one to an error count and appends its
 * text and a ';' to an error message, and a validator adds the counts and
 * concatenates the messages of its checks in a fixed order. The model keeps
 * the failed checks themselves, as a sequence of error kinds, and derives the
 * count and the message the source returns from them.
 */
module Tally {

  /** The error message: the text of every failed check, each followed by ';'. */
  function Join<E>(errors: seq<E>, text: E -> string): string {
    if errors == [] then "" else Join(errors[..|errors| - 1], text) + text(errors[|errors| - 1]) + ";"
  }

  lemma {:induction false} JoinAppend<E>(a: seq<E>, b: seq<E>, text: E -> string)
    ensures Join(a + b, text) == Join(a, text) + Join(b, text)
    decreases |b|
  {
    if b == [] {
      assert a + b == a;
    } else {
      var b' := b[..|b| - 1];
      assert (a + b)[..|a + b| - 1] == a + b';
      JoinAppend(a, b', text);
    }
  }

  lemma JoinOne<E>(e: E, text: E -> string)
    ensures Join([e], text) == text(e) + ";"
  {
    assert [e][..0] == [];
  }

  function CountSemicolons(s: string): (n: nat)
    ensures n <= |s|
  {
    if s == [] then 0 else (if s[0] == ';' then 1 else 0) + CountSemicolons(s[1..])
  }

  lemma {:induction false} CountSemicolonsAppend(a: string, b: string)
    ensures CountSemicolons(a + b) == CountSemicolons(a) + CountSemicolons(b)
    decreases |a|
  {
    if a == [] {
      assert a + b == b;
    } else {
      assert (a + b)[1..] == a[1..] + b;
      CountSemicolonsAppend(a[1..], b);
    }
  }

  lemma {:induction false} NoSemicolons(s: string)
    requires ';' !in s
    ensures CountSemicolons(s) == 0
    decreases |s|
  {
    if s != [] {
      assert s[0] in s;
      assert forall c :: c in s[1..] ==> c in s;
      NoSemicolons(s[1..]);
    }
  }

  /**
   * When no error text holds a ';' of its own, the error count equals the
   * number of ';' in the error message.
   */
  lemma {:induction false} CountIsSemicolons<E>(errors: seq<E>, text: E -> string)
    requires forall i :: 0 <= i < |errors| ==> ';' !in text(errors[i])
    ensures |errors| == CountSemicolons(Join(errors, text))
    decreases |errors|
  {
    if errors != [] {
      var init := errors[..|errors| - 1];
      var last := text(errors[|errors| - 1]);
      CountIsSemicolons(init, text);
      NoSemicolons(last);
      CountSemicolonsAppend(Join(init, text), last);
      CountSemicolonsAppend(Join(init, text) + last, ";");
    }
  }

  /** The errors of a sequence of checks, one sub-list per check, in order. */
  function Flatten<E>(parts: seq<seq<E>>): (r: seq<E>)
    ensures |r| == 0 <==> forall i :: 0 <= i < |parts| ==> |parts[i]| == 0
  {
    if parts == [] then [] else Flatten(parts[..|parts| - 1]) + parts[|parts| - 1]
  }

  /**
   * The accumulating loop of a `validate` method: the counts of its checks are
   * added and their messages concatenated.
   */
  method Accumulate<E>(parts: seq<seq<E>>, text: E -> string) returns (errorCount: int, errorMessage: string)
    ensures errorCount == |Flatten(parts)|
    ensures errorMessage == Join(Flatten(parts), text)
  {
    errorCount, errorMessage := 0, "";
    var k := 0;
    while k < |parts|
      invariant 0 <= k <= |parts|
      invariant errorCount == |Flatten(parts[..k])|
      invariant errorMessage == Join(Flatten(parts[..k]), text)
    {
      assert parts[..k + 1][..k] == parts[..k];
      JoinAppend(Flatten(parts[..k]), parts[k], text);
      errorCount := errorCount + |parts[k]|;
      errorMessage := errorMessage + Join(parts[k], text);
      k := k + 1;
    }
    assert parts[..k] == parts;
  }
}
