/**
 * The command-line checks of the plugin-authoring tool
 * (ai-verify-plugin/src/index.mjs): the id and number validators, the
 * search for the plugin root, the `check` callback of generate-widget (widget
 * sizes, `--dep` and `--prop` parsing) and the defaults of
 * generate-algorithm. `semver.valid` is a parameter.
 */
module PluginCli {
  import opened Wrappers
  import opened JsValues

  // ---------------------------------------------------------------------
  // validateID
  // ---------------------------------------------------------------------

  /** A character the id may start with: an ASCII letter or digit. */
  predicate IdStart(c: char) {
    'a' <= c <= 'z' || 'A' <= c <= 'Z' || '0' <= c <= '9'
  }

  /** A character the rest of the id may hold: a letter, a digit, '-', '.' or '_'. */
  predicate IdChar(c: char) {
    IdStart(c) || c == '-' || c == '.' || c == '_'
  }

  /** The tail of `/^[a-zA-Z0-9][a-zA-Z0-9-._]*$/`, matched one character at a time. */
  function MatchIdRest(s: string): (r: bool)
    ensures r <==> forall i :: 0 <= i < |s| ==> IdChar(s[i])
    decreases |s|
  {
    if s == [] then true else IdChar(s[0]) && MatchIdRest(s[1..])
  }

  /** `validateID`: whether the id matches `/^[a-zA-Z0-9][a-zA-Z0-9-._]*$/`. */
  function ValidateID(id: string): (r: bool)
    ensures r <==> |id| > 0 && IdStart(id[0]) && forall i :: 1 <= i < |id| ==> IdChar(id[i])
  {
    |id| > 0 && IdStart(id[0]) && MatchIdRest(id[1..])
  }

  predicate HexDigit(c: char) {
    '0' <= c <= '9' || 'a' <= c <= 'f' || 'A' <= c <= 'F'
  }

  /** The random UUID the command uses as a default gid is always a valid id. */
  lemma UuidIsValidID(id: string)
    requires |id| == 36
    requires forall i :: 0 <= i < |id| ==> (i in {8, 13, 18, 23} ==> id[i] == '-') && (i !in {8, 13, 18, 23} ==> HexDigit(id[i]))
    ensures ValidateID(id)
  {
    assert HexDigit(id[0]);
  }

  /** A valid id extended with a separator and a valid id stays valid. */
  lemma JoinedIdIsValid(a: string, sep: char, b: string)
    requires ValidateID(a) && ValidateID(b) && sep in "-._"
    ensures ValidateID(a + [sep] + b)
  {
    var s := a + [sep] + b;
    forall i | 1 <= i < |s|
      ensures IdChar(s[i])
    {
      if i < |a| {
        assert s[i] == a[i];
      } else if i > |a| {
        assert s[i] == b[i - |a| - 1];
      }
    }
  }

  /** An id with a character outside the allowed set, or one starting with a separator, is rejected. */
  lemma BadIdRejected(id: string, i: nat)
    requires i < |id|
    requires !IdChar(id[i]) || (i == 0 && !IdStart(id[0]))
    ensures !ValidateID(id)
  {
  }

  // ---------------------------------------------------------------------
  // validateNumber
  // ---------------------------------------------------------------------

  /**
   * `validateNumber(n, min, max)`: false for NaN and for anything that is
   * not a number; each bound is checked only when it is truthy, so a bound
   * of 0 is ignored.
   */
  function ValidateNumber(n: JsValue, min: real, max: real): (r: bool)
    ensures r ==> n.Number?
    ensures n.Number? && min != 0.0 && max != 0.0 ==> (r <==> min <= n.n <= max)
  {
    if n.NaN? || !n.Number? then false
    else if min != 0.0 && n.n < min then false
    else if max != 0.0 && n.n > max then false
    else true
  }

  /** A zero bound does not reject: with bounds 0 every number passes. */
  lemma ZeroBoundsIgnored(x: real)
    ensures ValidateNumber(Number(x), 0.0, 0.0)
    ensures x <= 5.0 ==> ValidateNumber(Number(x), 0.0, 5.0)
    ensures x >= 1.0 ==> ValidateNumber(Number(x), 1.0, 0.0)
  {
  }

  /** NaN, text and a missing option never pass. */
  lemma NonNumbersFail(min: real, max: real)
    ensures !ValidateNumber(NaN, min, max)
    ensures !ValidateNumber(Str("3"), min, max)
    ensures !ValidateNumber(Undefined, min, max)
  {
  }

  // ---------------------------------------------------------------------
  // The generate-widget check
  // ---------------------------------------------------------------------

  /** Why the check callback threw, in the order the checks run. */
  datatype CheckError =
    | NoPluginRoot
    | InvalidSize(option: string)
    | MinWAboveMaxW
    | MinHAboveMaxH
    | InvalidDep(dep: string)
    | InvalidDepType(dep: string)
    | InvalidDepVersion(dep: string)
    | InvalidProp(prop: string)

  datatype Checked<T> = Accepted(value: T) | Rejected(error: CheckError)

  const MaxWidth: real := 12.0
  const MaxHeight: real := 36.0

  /** The widget sizes the check accepts. */
  predicate SizesInRange(minW: JsValue, minH: JsValue, maxW: JsValue, maxH: JsValue) {
    minW.Number? && minH.Number? && maxW.Number? && maxH.Number? &&
    1.0 <= minW.n <= MaxWidth && 1.0 <= maxW.n <= MaxWidth &&
    1.0 <= minH.n <= MaxHeight && 1.0 <= maxH.n <= MaxHeight &&
    minW.n <= maxW.n && minH.n <= maxH.n
  }

  /** The size checks, in order: each size in range, then minW <= maxW, then minH <= maxH. */
  function CheckSizes(minW: JsValue, minH: JsValue, maxW: JsValue, maxH: JsValue): (r: Checked<()>)
    ensures r.Accepted? <==> SizesInRange(minW, minH, maxW, maxH)
  {
    if !ValidateNumber(minW, 1.0, MaxWidth) then Rejected(InvalidSize("minW"))
    else if !ValidateNumber(minH, 1.0, MaxHeight) then Rejected(InvalidSize("minH"))
    else if !ValidateNumber(maxW, 1.0, MaxWidth) then Rejected(InvalidSize("maxW"))
    else if !ValidateNumber(maxH, 1.0, MaxHeight) then Rejected(InvalidSize("maxH"))
    else if minW.n > maxW.n then Rejected(MinWAboveMaxW)
    else if minH.n > maxH.n then Rejected(MinHAboveMaxH)
    else Accepted(())
  }

  /** The defaults 1, 1, 12 and 36 pass; a minimum above its maximum is reported as such. */
  lemma SizeDefaultsPass(w: real, h: real)
    ensures CheckSizes(Number(1.0), Number(1.0), Number(MaxWidth), Number(MaxHeight)).Accepted?
    ensures 1.0 <= w < MaxWidth ==> CheckSizes(Number(MaxWidth), Number(1.0), Number(w), Number(MaxHeight)) == Rejected(MinWAboveMaxW)
    ensures 1.0 <= h < MaxHeight ==> CheckSizes(Number(1.0), Number(MaxHeight), Number(MaxWidth), Number(h)) == Rejected(MinHAboveMaxH)
  {
  }

  /** `s.split(/,/)`: the pieces between commas, one more than there are commas. */
  function Split(s: string): (r: seq<string>)
    ensures |r| >= 1
    ensures forall i :: 0 <= i < |r| ==> ',' !in r[i]
    decreases |s|
  {
    if s == [] then [""]
    else
      var rest := Split(s[1..]);
      if s[0] == ',' then [""] + rest
      else [[s[0]] + rest[0]] + rest[1..]
  }

  /** `words.join(",")`. */
  function Join(words: seq<string>): string
    decreases |words|
  {
    if words == [] then ""
    else if |words| == 1 then words[0]
    else words[0] + "," + Join(words[1..])
  }

  /** Joining the pieces with commas gives the text back. */
  lemma {:induction false} SplitJoin(s: string)
    decreases |s|
    ensures Join(Split(s)) == s
  {
    if s != [] {
      var rest := Split(s[1..]);
      SplitJoin(s[1..]);
      if s[0] == ',' {
        assert Split(s) == [""] + rest;
        assert Join(Split(s)) == "" + "," + Join(rest);
      } else {
        assert Split(s) == [[s[0]] + rest[0]] + rest[1..];
        if |rest| == 1 {
          assert Join(rest) == rest[0];
        } else {
          assert Join(rest) == rest[0] + "," + Join(rest[1..]);
          assert ([[s[0]] + rest[0]] + rest[1..])[1..] == rest[1..];
        }
      }
    }
  }

  /** A text without commas is one piece. */
  lemma {:induction false} SplitNoComma(s: string)
    requires ',' !in s
    decreases |s|
    ensures Split(s) == [s]
  {
    if s != [] {
      assert forall c :: c in s[1..] ==> c in s;
      SplitNoComma(s[1..]);
      assert [s[0]] + s[1..] == s;
    }
  }

  const AlgorithmType: string := "Algorithm"
  const InputBlockType: string := "InputBlock"

  /** One `--dep` entry: 2 to 4 fields, an "Algorithm" or "InputBlock" type, and a semver version if there are 4. */
  function CheckDep(dep: string, semverValid: string -> bool): (r: Checked<seq<string>>)
    ensures r.Accepted? ==> r.value == Split(dep)
    ensures r.Accepted? <==> DepWellFormed(Split(dep), semverValid)
  {
    var words := Split(dep);
    var count := |words|;
    if count < 2 || count > 4 then Rejected(InvalidDep(dep))
    else if words[0] != AlgorithmType && words[0] != InputBlockType then Rejected(InvalidDepType(dep))
    else if count == 4 && !semverValid(words[3]) then Rejected(InvalidDepVersion(dep))
    else Accepted(words)
  }

  predicate DepWellFormed(words: seq<string>, semverValid: string -> bool) {
    2 <= |words| <= 4 && (words[0] == AlgorithmType || words[0] == InputBlockType) &&
    (|words| == 4 ==> semverValid(words[3]))
  }

  /** One `--prop` entry: at most 3 fields; a lone key is its own helper text. */
  function CheckProp(prop: string): (r: Checked<seq<string>>)
    ensures r.Accepted? <==> |Split(prop)| <= 3
    ensures r.Accepted? ==> 2 <= |r.value| <= 3 && r.value[0] == Split(prop)[0]
    ensures r.Accepted? && |Split(prop)| == 1 ==> r.value == [prop, prop]
    ensures r.Accepted? && |Split(prop)| > 1 ==> r.value == Split(prop)
  {
    var words := Split(prop);
    var count := |words|;
    if count < 1 || count > 3 then Rejected(InvalidProp(prop))
    else if count < 2 then
      SplitNoCommaInverse(prop);
      Accepted(words + [words[0]])
    else Accepted(words)
  }

  /** A text that splits into one piece is that piece. */
  lemma SplitNoCommaInverse(s: string)
    requires |Split(s)| == 1
    ensures Split(s) == [s]
  {
    SplitJoin(s);
  }

  /**
   * The entries the loop over `entries` accepts, in order, or the first
   * entry it rejects (the loop throws there).
   */
  function CheckAll(entries: seq<string>, check: string -> Checked<seq<string>>): Checked<seq<seq<string>>>
    decreases |entries|
  {
    if entries == [] then Accepted([])
    else
      match CheckAll(entries[..|entries| - 1], check)
      case Rejected(e) => Rejected(e)
      case Accepted(done) =>
        match check(entries[|entries| - 1])
        case Rejected(e) => Rejected(e)
        case Accepted(words) => Accepted(done + [words])
  }

  /**
   * The loop accepts exactly when every entry is accepted; it then keeps
   * every entry's fields in input order, and otherwise reports the first
   * entry rejected.
   */
  lemma {:induction false} CheckAllSpec(entries: seq<string>, check: string -> Checked<seq<string>>)
    decreases |entries|
    ensures CheckAll(entries, check).Accepted? <==> forall i :: 0 <= i < |entries| ==> check(entries[i]).Accepted?
    ensures CheckAll(entries, check).Accepted? ==>
      |CheckAll(entries, check).value| == |entries| &&
      forall i :: 0 <= i < |entries| ==> CheckAll(entries, check).value[i] == check(entries[i]).value
    ensures CheckAll(entries, check).Rejected? ==>
      exists i :: 0 <= i < |entries| && check(entries[i]).Rejected? && CheckAll(entries, check).error == check(entries[i]).error &&
                  forall j :: 0 <= j < i ==> check(entries[j]).Accepted?
  {
    if entries != [] {
      var front := entries[..|entries| - 1];
      CheckAllSpec(front, check);
      assert forall i :: 0 <= i < |front| ==> front[i] == entries[i];
    }
  }

  /** The loop over `--dep` (or `--prop`) entries: pushes each accepted entry's fields and throws at the first rejected one. */
  method CheckEntries(entries: seq<string>, check: string -> Checked<seq<string>>) returns (r: Checked<seq<seq<string>>>)
    ensures r == CheckAll(entries, check)
  {
    var pushed: seq<seq<string>> := [];
    var i := 0;
    while i < |entries|
      invariant 0 <= i <= |entries|
      invariant CheckAll(entries[..i], check) == Accepted(pushed)
    {
      assert entries[..i + 1][..i] == entries[..i];
      var words := check(entries[i]);
      if words.Rejected? {
        PrefixRejected(entries, i + 1, check);
        return Rejected(words.error);
      }
      pushed := pushed + [words.value];
      i := i + 1;
    }
    assert entries[..i] == entries;
    r := Accepted(pushed);
  }

  /** Once a prefix of the entries is rejected, so is the whole loop. */
  lemma {:induction false} PrefixRejected(entries: seq<string>, k: nat, check: string -> Checked<seq<string>>)
    requires k <= |entries|
    requires CheckAll(entries[..k], check).Rejected?
    decreases |entries| - k
    ensures CheckAll(entries, check) == CheckAll(entries[..k], check)
  {
    if k < |entries| {
      assert entries[..k + 1][..k] == entries[..k];
      PrefixRejected(entries, k + 1, check);
    } else {
      assert entries[..k] == entries;
    }
  }

  /** The options generate-widget hands on: the parsed `--dep` and `--prop` entries, when given. */
  datatype WidgetOptions = WidgetOptions(deps: Option<seq<seq<string>>>, props: Option<seq<seq<string>>>)

  /** A dependency entry as generate-widget receives it. */
  predicate ParsedDep(words: seq<string>) {
    2 <= |words| <= 4
  }

  /** A property entry as generate-widget receives it. */
  predicate ParsedProp(words: seq<string>) {
    2 <= |words| <= 3
  }

  // ---------------------------------------------------------------------
  // findPluginRoot
  // ---------------------------------------------------------------------

  /** An absolute directory as its list of components; "/" is the empty list. */
  type Path = seq<string>

  /** The nearest directory, from `dir` upwards, that holds plugin.meta.json. */
  function NearestRoot(dir: Path, hasMeta: Path -> bool): Option<Path>
    decreases |dir|
  {
    if hasMeta(dir) then Some(dir)
    else if dir == [] then None
    else NearestRoot(dir[..|dir| - 1], hasMeta)
  }

  /**
   * The root found is an ancestor of `dir` (or `dir` itself) that holds the
   * meta file, and no nearer one does; none is found exactly when no
   * ancestor holds it.
   */
  lemma {:induction false} NearestRootSpec(dir: Path, hasMeta: Path -> bool)
    decreases |dir|
    ensures NearestRoot(dir, hasMeta).Some? ==>
      var root := NearestRoot(dir, hasMeta).value;
      |root| <= |dir| && root == dir[..|root|] && hasMeta(root) &&
      forall k :: |root| < k <= |dir| ==> !hasMeta(dir[..k])
    ensures NearestRoot(dir, hasMeta).None? <==> forall k :: 0 <= k <= |dir| ==> !hasMeta(dir[..k])
  {
    assert dir[..|dir|] == dir;
    if !hasMeta(dir) && dir != [] {
      var parent := dir[..|dir| - 1];
      NearestRootSpec(parent, hasMeta);
      assert forall k :: 0 <= k <= |parent| ==> parent[..k] == dir[..k];
    }
  }

  const RootNotFound: string := "Unable to find plugin root directory"

  /** `findPluginRoot`: walks up from the plugin directory until one holds plugin.meta.json, and throws past "/". */
  method FindPluginRoot(dir: Path, hasMeta: Path -> bool) returns (r: Outcome<Path>)
    ensures NearestRoot(dir, hasMeta).Some? ==> r == Returns(NearestRoot(dir, hasMeta).value)
    ensures NearestRoot(dir, hasMeta).None? ==> r == Throws(RootNotFound)
  {
    var curDir := dir;
    while !hasMeta(curDir)
      invariant NearestRoot(curDir, hasMeta) == NearestRoot(dir, hasMeta)
      decreases |curDir|
    {
      if curDir == [] {
        return Throws(RootNotFound);
      }
      curDir := curDir[..|curDir| - 1];
    }
    r := Returns(curDir);
  }

  /**
   * The generate-widget `check` callback: the plugin root must be found,
   * then the sizes pass, then every `--dep` entry, then every `--prop`
   * entry; the first failure is thrown.
   */
  method CheckWidget(dir: Path, hasMeta: Path -> bool, minW: JsValue, minH: JsValue, maxW: JsValue, maxH: JsValue,
                     dep: Option<seq<string>>, prop: Option<seq<string>>, semverValid: string -> bool)
    returns (root: Option<Path>, r: Checked<WidgetOptions>)
    ensures root == NearestRoot(dir, hasMeta)
    ensures r.Accepted? <==>
      root.Some? && SizesInRange(minW, minH, maxW, maxH) &&
      (dep.Some? ==> forall i :: 0 <= i < |dep.value| ==> DepWellFormed(Split(dep.value[i]), semverValid)) &&
      (prop.Some? ==> forall i :: 0 <= i < |prop.value| ==> |Split(prop.value[i])| <= 3)
    ensures root.None? ==> r == Rejected(NoPluginRoot)
    ensures r.Accepted? ==>
      (r.value.deps.Some? <==> dep.Some?) && (r.value.props.Some? <==> prop.Some?) &&
      (dep.Some? ==>
         |r.value.deps.value| == |dep.value| &&
         forall i :: 0 <= i < |dep.value| ==> r.value.deps.value[i] == Split(dep.value[i]) && ParsedDep(r.value.deps.value[i])) &&
      (prop.Some? ==>
         |r.value.props.value| == |prop.value| &&
         forall i :: 0 <= i < |prop.value| ==> r.value.props.value[i] == CheckProp(prop.value[i]).value && ParsedProp(r.value.props.value[i]))
  {
    var found := FindPluginRoot(dir, hasMeta);
    if found.Throws? {
      return None, Rejected(NoPluginRoot);
    }
    root := Some(found.value);
    var sizes := CheckSizes(minW, minH, maxW, maxH);
    if sizes.Rejected? {
      return root, Rejected(sizes.error);
    }
    var deps: Option<seq<seq<string>>> := None;
    if dep.Some? {
      var checkDep := (d: string) => CheckDep(d, semverValid);
      var parsed := CheckEntries(dep.value, checkDep);
      CheckAllSpec(dep.value, checkDep);
      if parsed.Rejected? {
        return root, Rejected(parsed.error);
      }
      deps := Some(parsed.value);
    }
    var props: Option<seq<seq<string>>> := None;
    if prop.Some? {
      var parsed := CheckEntries(prop.value, CheckProp);
      CheckAllSpec(prop.value, CheckProp);
      if parsed.Rejected? {
        return root, Rejected(parsed.error);
      }
      props := Some(parsed.value);
    }
    r := Accepted(WidgetOptions(deps, props));
  }

  // ---------------------------------------------------------------------
  // generate-algorithm
  // ---------------------------------------------------------------------

  const DescriptionKey: string := "description"
  const CidKey: string := "cid"

  /** The generate-algorithm handler: `name` defaults to the cid, then `description` to the name. */
  function AlgorithmDefaults(argv: Obj): (r: Obj)
    ensures Prop(r, NameKey) == (if Truthy(Prop(argv, NameKey)) then Prop(argv, NameKey) else Prop(argv, CidKey))
    ensures Prop(r, DescriptionKey) == (if Truthy(Prop(argv, DescriptionKey)) then Prop(argv, DescriptionKey) else Prop(r, NameKey))
    ensures forall k :: k != NameKey && k != DescriptionKey ==> Prop(r, k) == Prop(argv, k)
  {
    var named := if !Truthy(Prop(argv, NameKey)) then argv[NameKey := Prop(argv, CidKey)] else argv;
    if !Truthy(Prop(named, DescriptionKey)) then named[DescriptionKey := Prop(named, NameKey)] else named
  }

  /** With a cid, the algorithm always gets a name and a description; applying the defaults again changes nothing. */
  lemma AlgorithmDefaultsNamed(argv: Obj)
    requires Truthy(Prop(argv, CidKey))
    ensures Truthy(Prop(AlgorithmDefaults(argv), NameKey)) && Truthy(Prop(AlgorithmDefaults(argv), DescriptionKey))
    ensures AlgorithmDefaults(AlgorithmDefaults(argv)) == AlgorithmDefaults(argv)
  {
  }
}
