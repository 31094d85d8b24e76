/**
 * The emptiness test shared by every argument validator of the test engine
 * (test_engine_app/utils/validation_checks.py).
 */
module ValidationChecks {
  import opened Wrappers

  /**
   * The characters `str.strip()` removes, those of `str.isspace()`: tab to
   * carriage return, the four information separators, space, next line,
   * no-break space and the Unicode space and line/paragraph separators.
   */
  predicate IsSpace(c: char) {
    c == ' ' || ('\t' <= c <= '\r') || ('\U{1C}' <= c <= '\U{1F}') || c == '\U{85}' || c == '\U{A0}' ||
    c == '\U{1680}' || ('\U{2000}' <= c <= '\U{200A}') || c == '\U{2028}' || c == '\U{2029}' ||
    c == '\U{202F}' || c == '\U{205F}' || c == '\U{3000}'
  }

  predicate AllSpace(s: string) {
    forall i :: 0 <= i < |s| ==> IsSpace(s[i])
  }

  /** Drop the leading characters that satisfy `drop`. */
  function DropWhile(s: string, drop: char -> bool): (r: string)
    ensures |r| <= |s|
    ensures r == s[|s| - |r|..]
    ensures r == [] || !drop(r[0])
    ensures forall i :: 0 <= i < |s| - |r| ==> drop(s[i])
  {
    if s == [] then []
    else if drop(s[0]) then
      var t := DropWhile(s[1..], drop);
      assert forall i :: 1 <= i < |s| - |t| ==> s[i] == s[1..][i - 1];
      t
    else s
  }

  /** Drop the trailing characters that satisfy `drop`. */
  function DropWhileEnd(s: string, drop: char -> bool): (r: string)
    ensures |r| <= |s|
    ensures r == s[..|r|]
    ensures r == [] || !drop(r[|r| - 1])
    ensures forall i :: |r| <= i < |s| ==> drop(s[i])
  {
    if s == [] then []
    else if drop(s[|s| - 1]) then
      var t := DropWhileEnd(s[..|s| - 1], drop);
      assert forall i :: |t| <= i < |s| - 1 ==> s[i] == s[..|s| - 1][i];
      t
    else s
  }

  /** `s.lstrip()`: drop leading whitespace. */
  function StripLeft(s: string): (r: string)
    ensures |r| <= |s|
    ensures r == s[|s| - |r|..]
    ensures r == [] || !IsSpace(r[0])
    ensures AllSpace(s[..|s| - |r|])
  {
    var r := DropWhile(s, IsSpace);
    assert forall i :: 0 <= i < |s| - |r| ==> s[..|s| - |r|][i] == s[i];
    r
  }

  /** `s.rstrip()`: drop trailing whitespace. */
  function StripRight(s: string): (r: string)
    ensures |r| <= |s|
    ensures r == s[..|r|]
    ensures r == [] || !IsSpace(r[|r| - 1])
    ensures AllSpace(s[|r|..])
  {
    var r := DropWhileEnd(s, IsSpace);
    assert forall i :: 0 <= i < |s| - |r| ==> s[|r|..][i] == s[|r| + i];
    r
  }

  /** `s.strip()`. */
  function Strip(s: string): string {
    StripRight(StripLeft(s))
  }

  /** A string strips to nothing exactly when every character is whitespace. */
  lemma StripEmptyIffAllSpace(s: string)
    ensures |Strip(s)| == 0 <==> AllSpace(s)
  {
    var l := StripLeft(s);
    if |Strip(s)| == 0 {
      assert l[|Strip(s)|..] == l;
      assert l == [];
      forall i | 0 <= i < |s| ensures IsSpace(s[i]) {
        assert s[..|s| - |l|][i] == s[i];
      }
    } else {
      assert l != [] && !IsSpace(l[0]);
      assert l[0] == s[|s| - |l|];
    }
  }

  /**
   * The two spellings of None the emptiness test accepts, "None" and "none",
   * compared character by character.
   */
  predicate IsNoneWord(s: string) {
    |s| == 4 && (s[0] == 'N' || s[0] == 'n') && s[1] == 'o' && s[2] == 'n' && s[3] == 'e'
  }

  lemma NoneWordIsExact(s: string)
    ensures IsNoneWord(s) <==> s == "None" || s == "none"
  {
    if IsNoneWord(s) {
      assert s == [s[0], 'o', 'n', 'e'];
    }
  }

  /**
   * `is_empty_string(argument)`: None, the exact texts "None" and "none",
   * and every string that strips to nothing count as empty. The strip test
   * is stated as "every character is whitespace"; `EmptyStringStrips` shows
   * the two agree.
   */
  function IsEmptyString(argument: Option<string>): (r: bool)
    ensures argument.None? ==> r
  {
    match argument
    case None => true
    case Some(s) => IsNoneWord(s) || AllSpace(s)
  }

  /** The test as the source writes it: "None", "none", "", or a string whose strip is empty. */
  lemma EmptyStringStrips(s: string)
    ensures IsEmptyString(Some(s)) <==> IsNoneWord(s) || s == "" || |Strip(s)| <= 0
  {
    StripEmptyIffAllSpace(s);
  }

  /** The "None" test is exact: other spellings and padded forms are not empty. */
  lemma NoneTestIsExact()
    ensures !IsEmptyString(Some("NONE"))
    ensures !IsEmptyString(Some(" None "))
    ensures IsEmptyString(Some(" \t "))
    ensures IsEmptyString(Some("\U{A0}\U{3000}\U{1F}"))
  {
    assert !IsSpace("NONE"[0]);
    assert !IsSpace(" None "[1]);
  }

  /** Any string holding a non-whitespace character, other than "None"/"none", is not empty. */
  lemma NonBlankIsNotEmpty(s: string, k: nat)
    requires k < |s| && !IsSpace(s[k])
    requires s != "None" && s != "none"
    ensures !IsEmptyString(Some(s))
  {
    NoneWordIsExact(s);
  }
}
