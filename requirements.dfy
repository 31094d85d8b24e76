/**
 * Package requirement checks of the test engine
 * (test_engine_app/utils/requirements_checks.py): looking a package up in the
 * host's package list, cutting the package name off a requirement such as
 * "numpy>=1.2.3", and deciding whether the installed version is compatible.
 * The version parser and the compatibility test are library calls and become
 * parameters.
 */
module Requirements {
  import opened Wrappers
  import ValidationChecks

  /** One entry of the host's package list. */
  datatype PackageInfo = PackageInfo(name: string, version: string)

  /** The version of the first package named exactly `name`. */
  function Lookup(name: string, packages: seq<PackageInfo>): (r: Option<string>)
    ensures r.Some? <==> exists i :: 0 <= i < |packages| && packages[i].name == name
  {
    if packages == [] then None
    else if packages[0].name == name then Some(packages[0].version)
    else
      var r := Lookup(name, packages[1..]);
      assert forall i :: 0 < i < |packages| ==> packages[i] == packages[1..][i - 1];
      r
  }

  /** `Lookup` returns the version of the earliest matching entry. */
  lemma {:induction false} LookupIsFirst(name: string, packages: seq<PackageInfo>, i: nat)
    requires i < |packages| && packages[i].name == name
    requires forall j :: 0 <= j < i ==> packages[j].name != name
    ensures Lookup(name, packages) == Some(packages[i].version)
  {
    if i > 0 {
      LookupIsFirst(name, packages[1..], i - 1);
    }
  }

  /** `get_package_version`: scan the list, returning at the first name match. */
  method GetPackageVersion(packageName: string, packages: seq<PackageInfo>) returns (found: bool, version: string)
    ensures found <==> Lookup(packageName, packages).Some?
    ensures found ==> version == Lookup(packageName, packages).value
    ensures !found ==> version == "Unable to get package version"
  {
    var k := 0;
    while k < |packages|
      invariant 0 <= k <= |packages|
      invariant Lookup(packageName, packages) == Lookup(packageName, packages[k..])
    {
      assert packages[k..][1..] == packages[k + 1..];
      if packageName == packages[k].name {
        return true, packages[k].version;
      }
      k := k + 1;
    }
    return false, "Unable to get package version";
  }

  /** `str.find` for one character: the first index holding `c`, or -1. */
  function Find(s: string, c: char): (r: int)
    ensures -1 <= r < |s|
    ensures r == -1 <==> c !in s
    ensures r >= 0 ==> s[r] == c && c !in s[..r]
  {
    if s == [] then -1
    else if s[0] == c then 0
    else
      var r := Find(s[1..], c);
      assert s[1..] == s[1..][..];
      assert forall k :: 0 <= k < |s| - 1 ==> s[1..][k] == s[k + 1];
      if r == -1 then -1 else r + 1
  }

  /** The characters that end a package name in a requirement. */
  const Tokens: seq<char> := ['=', '>', '<']

  /** The smallest strictly positive entry of `xs`, if there is one. */
  function MinPositive(xs: seq<int>): (r: Option<int>)
    ensures r.Some? <==> exists i :: 0 <= i < |xs| && xs[i] > 0
    ensures r.Some? ==> r.value > 0 && r.value in xs && forall i :: 0 <= i < |xs| && xs[i] > 0 ==> r.value <= xs[i]
  {
    if xs == [] then None
    else
      var rest := MinPositive(xs[1..]);
      assert forall i :: 0 < i < |xs| ==> xs[i] == xs[1..][i - 1];
      if xs[0] <= 0 then rest
      else if rest.None? || xs[0] <= rest.value then Some(xs[0])
      else rest
  }

  /** Where the package name ends: the earliest token found at a positive index. */
  function NameEnd(requirement: string): (r: Option<int>)
    ensures r.Some? <==> exists i :: 0 <= i < |Tokens| && Find(requirement, Tokens[i]) > 0
    ensures r.Some? ==> 0 < r.value <= |requirement|
    ensures r.Some? ==> exists i :: 0 <= i < |Tokens| && Find(requirement, Tokens[i]) == r.value
    ensures r.Some? ==> forall i :: 0 <= i < |Tokens| && Find(requirement, Tokens[i]) > 0 ==> r.value <= Find(requirement, Tokens[i])
  {
    var positions := [Find(requirement, Tokens[0]), Find(requirement, Tokens[1]), Find(requirement, Tokens[2])];
    assert forall i :: 0 <= i < 3 ==> positions[i] == Find(requirement, Tokens[i]);
    MinPositive(positions)
  }

  /** Python's `min` over a non-empty list. */
  function Min(xs: seq<int>): (m: int)
    requires |xs| > 0
    ensures m in xs && forall i :: 0 <= i < |xs| ==> m <= xs[i]
  {
    if |xs| == 1 then xs[0]
    else
      var m := Min(xs[1..]);
      assert forall i :: 0 < i < |xs| ==> xs[i] == xs[1..][i - 1];
      if xs[0] <= m then xs[0] else m
  }

  /**
   * `extract_package_name`: collect the first index of each token when it is
   * positive, then cut the requirement at the smallest of them.
   */
  method ExtractPackageName(requirement: string) returns (ok: bool, text: string)
    ensures ok <==> NameEnd(requirement).Some?
    ensures ok ==> text == requirement[..NameEnd(requirement).value]
    ensures !ok ==> text == "Unable to determine the package name"
  {
    var tokenFound := false;
    var positions: seq<int> := [];
    for k := 0 to |Tokens|
      invariant tokenFound <==> |positions| > 0
      invariant forall p :: p in positions ==> p > 0 && exists i :: 0 <= i < k && Find(requirement, Tokens[i]) == p
      invariant forall i :: 0 <= i < k && Find(requirement, Tokens[i]) > 0 ==> Find(requirement, Tokens[i]) in positions
    {
      var positionOfToken := Find(requirement, Tokens[k]);
      if positionOfToken > 0 {
        tokenFound := true;
        positions := positions + [positionOfToken];
      }
    }
    if tokenFound {
      var minPosition := Min(positions);
      var end := NameEnd(requirement).value;
      assert minPosition == end by {
        assert minPosition <= end;
        assert end <= minPosition;
      }
      return true, requirement[0..minPosition];
    }
    return false, "Unable to determine the package name";
  }

  /** A requirement that does not open with a token yields a name without any token. */
  lemma NameHasNoToken(requirement: string)
    requires requirement == [] || requirement[0] !in Tokens
    requires NameEnd(requirement).Some?
    ensures forall i :: 0 <= i < |Tokens| ==> Tokens[i] !in requirement[..NameEnd(requirement).value]
  {
    var end := NameEnd(requirement).value;
    forall i | 0 <= i < |Tokens|
      ensures Tokens[i] !in requirement[..end]
    {
      var p := Find(requirement, Tokens[i]);
      if p > 0 {
        assert requirement[..end] == requirement[..p][..end];
      }
    }
  }

  /** `remove_empty`: keep the truthy elements, in order. */
  function RemoveEmpty<T>(items: seq<T>, truthy: T -> bool): (r: seq<T>)
    ensures |r| <= |items|
    ensures forall i :: 0 <= i < |r| ==> truthy(r[i]) && r[i] in items
  {
    if items == [] then []
    else
      var rest := RemoveEmpty(items[1..], truthy);
      if truthy(items[0]) then [items[0]] + rest else rest
  }

  /** `remove_empty` distributes over concatenation: it is exactly a filter. */
  lemma {:induction false} RemoveEmptyAppend<T>(a: seq<T>, b: seq<T>, truthy: T -> bool)
    ensures RemoveEmpty(a + b, truthy) == RemoveEmpty(a, truthy) + RemoveEmpty(b, truthy)
    decreases |a|
  {
    if a == [] {
      assert a + b == b;
    } else {
      assert (a + b)[1..] == a[1..] + b;
      RemoveEmptyAppend(a[1..], b, truthy);
    }
  }

  /** Every truthy element survives `remove_empty`. */
  lemma {:induction false} RemoveEmptyKeepsTruthy<T>(items: seq<T>, truthy: T -> bool, i: nat)
    requires i < |items| && truthy(items[i])
    ensures items[i] in RemoveEmpty(items, truthy)
  {
    if i > 0 {
      RemoveEmptyKeepsTruthy(items[1..], truthy, i - 1);
    }
  }

  /**
   * One field of `tuple(semantic_version.Version(...))`: the major, minor and
   * patch numbers, then the prerelease and build label tuples.
   */
  datatype VersionField = Number(n: nat) | Labels(labels: seq<string>)

  datatype SemVer = SemVer(major: nat, minor: nat, patch: nat, prerelease: seq<string>, build: seq<string>)

  function Fields(v: SemVer): seq<VersionField> {
    [Number(v.major), Number(v.minor), Number(v.patch), Labels(v.prerelease), Labels(v.build)]
  }

  /** Python truthiness of a field: a number other than 0, a non-empty tuple. */
  predicate Truthy(f: VersionField) {
    match f
    case Number(n) => n != 0
    case Labels(ls) => ls != []
  }

  /** The tuple `is_package_in_json` passes on, as written: zero numbers are dropped too. */
  function VersionTupleAsWritten(v: SemVer): (r: seq<VersionField>)
    ensures |r| <= 5
  {
    RemoveEmpty(Fields(v), Truthy)
  }

  /** Versions 1.0.5 and 1.5.0 reach the compatibility test as the same tuple (1, 5). */
  lemma AsWrittenConflatesVersions()
    ensures VersionTupleAsWritten(SemVer(1, 0, 5, [], [])) == VersionTupleAsWritten(SemVer(1, 5, 0, [], []))
    ensures VersionTupleAsWritten(SemVer(1, 0, 5, [], [])) == [Number(1), Number(5)]
  {
    var a := Fields(SemVer(1, 0, 5, [], []));
    var b := Fields(SemVer(1, 5, 0, [], []));
    assert a == [Number(1)] + [Number(0)] + [Number(5)] + [Labels([])] + [Labels([])];
    assert b == [Number(1)] + [Number(5)] + [Number(0)] + [Labels([])] + [Labels([])];
    RemoveEmptyAppend([Number(1)] + [Number(0)] + [Number(5)] + [Labels([])], [Labels([])], Truthy);
    RemoveEmptyAppend([Number(1)] + [Number(0)] + [Number(5)], [Labels([])], Truthy);
    RemoveEmptyAppend([Number(1)] + [Number(0)], [Number(5)], Truthy);
    RemoveEmptyAppend([Number(1)], [Number(0)], Truthy);
    RemoveEmptyAppend([Number(1)] + [Number(5)] + [Number(0)] + [Labels([])], [Labels([])], Truthy);
    RemoveEmptyAppend([Number(1)] + [Number(5)] + [Number(0)], [Labels([])], Truthy);
    RemoveEmptyAppend([Number(1)] + [Number(5)], [Number(0)], Truthy);
    RemoveEmptyAppend([Number(1)], [Number(5)], Truthy);
  }

  /** The tuple as evidently intended: the three numbers always, then the non-empty label tuples. */
  function VersionTuple(v: SemVer): (r: seq<VersionField>)
    ensures 3 <= |r| <= 5
    ensures r[..3] == [Number(v.major), Number(v.minor), Number(v.patch)]
    ensures forall i :: 3 <= i < |r| ==> Truthy(r[i])
  {
    [Number(v.major), Number(v.minor), Number(v.patch)] + RemoveEmpty([Labels(v.prerelease), Labels(v.build)], Truthy)
  }

  /** The intended tuple tells apart any two versions whose numbers differ. */
  lemma VersionTupleKeepsNumbers(v: SemVer, w: SemVer)
    requires VersionTuple(v) == VersionTuple(w)
    ensures v.major == w.major && v.minor == w.minor && v.patch == w.patch
  {
    assert VersionTuple(v)[..3] == VersionTuple(w)[..3];
  }

  /** The two tuples differ only through zero numbers: with none, the written tuple is the intended one. */
  lemma AsWrittenAgreesWithoutZeros(v: SemVer)
    requires v.major != 0 && v.minor != 0 && v.patch != 0
    ensures VersionTupleAsWritten(v) == VersionTuple(v)
  {
    var nums := [Number(v.major), Number(v.minor), Number(v.patch)];
    var labels := [Labels(v.prerelease), Labels(v.build)];
    assert Fields(v) == nums + labels;
    RemoveEmptyAppend(nums, labels, Truthy);
    RemoveEmptyAppend([Number(v.major), Number(v.minor)], [Number(v.patch)], Truthy);
    RemoveEmptyAppend([Number(v.major)], [Number(v.minor)], Truthy);
  }

  /** The answer of the compatibility library: a verdict, or ValueError. */
  datatype Compatibility = Compatible | NotCompatible | BadVersionValue

  /** A returned `(bool, str)` pair, or an exception that propagates to the caller. */
  datatype CheckOutcome = Returned(ok: bool, message: string) | Raised

  /**
   * `is_package_in_json`: extract and strip the name, look it up, parse the
   * installed version (a parse error propagates), and ask the compatibility
   * test with the version tuple as written, zero numbers dropped.
   */
  method IsPackageInJson(
    requirement: string,
    packages: seq<PackageInfo>,
    parse: string -> Option<SemVer>,
    compatible: (string, seq<VersionField>) -> Compatibility)
    returns (r: CheckOutcome)
    ensures NameEnd(requirement).None? ==> r == Returned(false, "Unable to determine the package name")
    ensures NameEnd(requirement).Some? ==>
      var name := ValidationChecks.Strip(requirement[..NameEnd(requirement).value]);
      var installed := Lookup(name, packages);
      if installed.None? then r == Returned(false, "Unable to find the package version on host environment")
      else if parse(installed.value).None? then r == Raised
      else
        match compatible(requirement, VersionTupleAsWritten(parse(installed.value).value))
        case Compatible => r == Returned(true, "")
        case NotCompatible => r == Returned(false, "Not compatible")
        case BadVersionValue => r == Returned(false, "Error handling package version value")
  {
    var extracted, text := ExtractPackageName(requirement);
    if !extracted {
      return Returned(false, text);
    }
    var subjectPackageName := ValidationChecks.Strip(text);
    var found, packageVersion := GetPackageVersion(subjectPackageName, packages);
    if !found {
      return Returned(false, "Unable to find the package version on host environment");
    }
    var semantic := parse(packageVersion);
    if semantic.None? {
      return Raised;
    }
    var versionTuple := VersionTupleAsWritten(semantic.value);
    var result := compatible(requirement, versionTuple);
    if result == Compatible {
      return Returned(true, "");
    } else if result == NotCompatible {
      return Returned(false, "Not compatible");
    }
    return Returned(false, "Error handling package version value");
  }
}
