/**
 * The file helpers of the plugin-authoring tool (aiverify-plugin/src/utils.mjs):
 * `readJSON` with its empty-object fallback, the template copy that renames
 * a file's leading base name, the node_modules link guard, and the loop
 * over a component directory's meta files that the widget and input-block
 * validators share.
 */
module PluginUtils {
  import opened Wrappers
  import opened JsValues

  const MetaSuffix: string := ".meta.json"
  const CidKey: string := "cid"
  /** What calling the missing `console.err` throws. */
  const ConsoleErrMissing: string := "console.err is not a function"

  /**
   * `readJSON`: the parsed file, or `{}` when the file cannot be read or
   * parsed (`parsed` is None).
   */
  function ReadJSON(parsed: Option<JsValue>): JsValue {
    if parsed.None? then Object(map[]) else parsed.value
  }

  /** A file that cannot be read looks like a meta object with no property at all, so it has no `cid`. */
  lemma UnreadableHasNoProperty(key: string)
    ensures ReadJSON(None).Object?
    ensures Prop(ReadJSON(None).fields, key) == Undefined
    ensures !Truthy(Prop(ReadJSON(None).fields, CidKey))
  {
  }

  predicate StartsWith(s: string, prefix: string) {
    |prefix| <= |s| && s[..|prefix|] == prefix
  }

  predicate EndsWith(s: string, suffix: string) {
    |suffix| <= |s| && s[|s| - |suffix|..] == suffix
  }

  /** `p` occurs in `s` at position `j`. */
  predicate OccursAt(s: string, p: string, j: nat) {
    j + |p| <= |s| && s[j..j + |p|] == p
  }

  /** `s.indexOf(p)`: the first position where `p` occurs, None when it does not. */
  function IndexOf(s: string, p: string): (r: Option<nat>)
    ensures r.Some? ==> OccursAt(s, p, r.value) && forall j: nat :: j < r.value ==> !OccursAt(s, p, j)
    ensures r.None? ==> forall j: nat :: !OccursAt(s, p, j)
    decreases |s|
  {
    if |p| > |s| then None
    else if s[..|p|] == p then Some(0)
    else
      var rest := IndexOf(s[1..], p);
      assert forall j: nat :: j >= 1 ==> (OccursAt(s, p, j) <==> OccursAt(s[1..], p, j - 1));
      if rest.None? then None else Some(rest.value + 1)
  }

  /** `s.replace(p, q)` with a text pattern: only the first occurrence is replaced. */
  function ReplaceFirst(s: string, p: string, q: string): string {
    match IndexOf(s, p)
    case None => s
    case Some(i) => s[..i] + q + s[i + |p|..]
  }

  /** `copyAndRenameTemplates`: the name a template is copied under. */
  function RenamedTarget(srcFile: string, srcBaseName: string, targetBaseName: string): string {
    if StartsWith(srcFile, srcBaseName) then ReplaceFirst(srcFile, srcBaseName, targetBaseName) else srcFile
  }

  /**
   * A file whose name starts with the source base name is copied as the
   * target base name followed by the rest of its name; any other keeps its name.
   */
  lemma RenameRule(srcFile: string, srcBaseName: string, targetBaseName: string)
    ensures StartsWith(srcFile, srcBaseName) ==>
      RenamedTarget(srcFile, srcBaseName, targetBaseName) == targetBaseName + srcFile[|srcBaseName|..]
    ensures !StartsWith(srcFile, srcBaseName) ==> RenamedTarget(srcFile, srcBaseName, targetBaseName) == srcFile
  {
    if StartsWith(srcFile, srcBaseName) {
      var i := IndexOf(srcFile, srcBaseName);
      assert OccursAt(srcFile, srcBaseName, 0);
    }
  }

  /** Renaming a copied template back gives the template's own name. */
  lemma RenameRoundTrip(srcFile: string, srcBaseName: string, targetBaseName: string)
    requires StartsWith(srcFile, srcBaseName)
    ensures RenamedTarget(RenamedTarget(srcFile, srcBaseName, targetBaseName), targetBaseName, srcBaseName) == srcFile
  {
    RenameRule(srcFile, srcBaseName, targetBaseName);
    var t := targetBaseName + srcFile[|srcBaseName|..];
    assert t[..|targetBaseName|] == targetBaseName;
    RenameRule(t, targetBaseName, srcBaseName);
    assert t[|targetBaseName|..] == srcFile[|srcBaseName|..];
    assert srcFile == srcBaseName + srcFile[|srcBaseName|..];
  }

  /**
   * The copies of the loop over `files` until one fails: (source, target)
   * pairs in order, and whether a copy failed.
   */
  function CopyRun(files: seq<string>, srcBaseName: string, targetBaseName: string, copyOk: string -> bool): (seq<(string, string)>, bool)
    decreases |files|
  {
    if files == [] then ([], false)
    else if !copyOk(files[0]) then ([], true)
    else
      var (rest, failed) := CopyRun(files[1..], srcBaseName, targetBaseName, copyOk);
      ([(files[0], RenamedTarget(files[0], srcBaseName, targetBaseName))] + rest, failed)
  }

  /** When every copy succeeds there is exactly one copy per template, in order, under its renamed name. */
  lemma {:induction false} OneCopyPerFile(files: seq<string>, srcBaseName: string, targetBaseName: string, copyOk: string -> bool)
    requires forall f :: f in files ==> copyOk(f)
    decreases |files|
    ensures var (copies, failed) := CopyRun(files, srcBaseName, targetBaseName, copyOk);
      !failed && |copies| == |files| &&
      forall i :: 0 <= i < |files| ==> copies[i] == (files[i], RenamedTarget(files[i], srcBaseName, targetBaseName))
  {
    if files != [] {
      OneCopyPerFile(files[1..], srcBaseName, targetBaseName, copyOk);
    }
  }

  /**
   * `copyAndRenameTemplates(srcDir, srcBaseName, targetDir, targetBaseName)`
   * over the listing of `srcDir` (None where reading it throws). The catch
   * handler calls `console.err`, which does not exist, so a failed listing
   * or copy ends in a TypeError.
   */
  method CopyAndRenameTemplates(listing: Option<seq<string>>, srcBaseName: string, targetBaseName: string, copyOk: string -> bool)
    returns (copies: seq<(string, string)>, r: Outcome<()>)
    ensures listing.None? ==> copies == [] && r == Throws(ConsoleErrMissing)
    ensures listing.Some? ==> copies == CopyRun(listing.value, srcBaseName, targetBaseName, copyOk).0
    ensures listing.Some? ==> (r.Throws? <==> CopyRun(listing.value, srcBaseName, targetBaseName, copyOk).1)
    ensures r.Throws? ==> r.error == ConsoleErrMissing
  {
    copies := [];
    if listing.None? {
      return copies, Throws(ConsoleErrMissing);
    }
    var files := listing.value;
    var i := 0;
    assert files[0..] == files;
    while i < |files|
      invariant 0 <= i <= |files|
      invariant CopyRun(files, srcBaseName, targetBaseName, copyOk).0 == copies + CopyRun(files[i..], srcBaseName, targetBaseName, copyOk).0
      invariant CopyRun(files, srcBaseName, targetBaseName, copyOk).1 == CopyRun(files[i..], srcBaseName, targetBaseName, copyOk).1
    {
      var srcFile := files[i];
      var targetFile := srcFile;
      if StartsWith(srcFile, srcBaseName) {
        targetFile := ReplaceFirst(srcFile, srcBaseName, targetBaseName);
      }
      assert files[i..][1..] == files[i + 1..];
      if !copyOk(srcFile) {
        return copies, Throws(ConsoleErrMissing);
      }
      copies := copies + [(srcFile, targetFile)];
      i := i + 1;
    }
    return copies, Returns(());
  }

  /** `linkModulePath`: the link is created exactly when ./node_modules is absent. */
  function LinkModulePath(nodeModulesExists: bool): (created: bool) {
    !nodeModulesExists
  }

  /** Once the link exists, linking again creates nothing. */
  lemma LinkOnce(nodeModulesExists: bool)
    ensures !LinkModulePath(nodeModulesExists || LinkModulePath(nodeModulesExists))
  {
  }

  /**
   * The validation loop over a component directory's listing: files that
   * are not "*.meta.json" are skipped; a meta without a truthy `cid`, or one
   * the component validator rejects, ends the loop with false. The second
   * component lists the meta files the validator was run on.
   */
  function MetaFilesRun(files: seq<string>, read: string -> Obj, valid: Obj -> bool): (seq<string>, bool)
    decreases |files|
  {
    if files == [] then ([], true)
    else
      var f := files[0];
      if !EndsWith(f, MetaSuffix) then MetaFilesRun(files[1..], read, valid)
      else if !Truthy(Prop(read(f), CidKey)) then ([], false)
      else if !valid(read(f)) then ([f], false)
      else
        var (rest, ok) := MetaFilesRun(files[1..], read, valid);
        ([f] + rest, ok)
  }

  /** The loop answers true exactly when every meta file has a `cid` and passes the validator. */
  lemma {:induction false} MetaFilesValid(files: seq<string>, read: string -> Obj, valid: Obj -> bool)
    decreases |files|
    ensures MetaFilesRun(files, read, valid).1 <==>
      forall f :: f in files && EndsWith(f, MetaSuffix) ==> Truthy(Prop(read(f), CidKey)) && valid(read(f))
  {
    if files != [] {
      MetaFilesValid(files[1..], read, valid);
      assert forall f :: f in files <==> f == files[0] || f in files[1..];
    }
  }

  /** The validator runs only on meta files with a `cid`, in listing order, and stops after the first it rejects. */
  lemma {:induction false} MetaFilesChecked(files: seq<string>, read: string -> Obj, valid: Obj -> bool)
    decreases |files|
    ensures var (checked, ok) := MetaFilesRun(files, read, valid);
      (forall f :: f in checked ==> f in files && EndsWith(f, MetaSuffix) && Truthy(Prop(read(f), CidKey))) &&
      (forall k :: 0 <= k < |checked| - 1 ==> valid(read(checked[k]))) &&
      (ok ==> forall f :: f in checked ==> valid(read(f)))
  {
    if files != [] {
      MetaFilesChecked(files[1..], read, valid);
    }
  }

  /**
   * `validateAllWidgets` and `validateAllInputBlocks`: true when the
   * component directory is absent; otherwise the loop over its listing,
   * which skips files that are not "*.meta.json" and returns false at the
   * first meta without a `cid` or rejected by the component validator.
   */
  method ValidateComponents(dirExists: bool, files: seq<string>, read: string -> Obj, valid: Obj -> bool)
    returns (ok: bool, checked: seq<string>)
    ensures !dirExists ==> ok && checked == []
    ensures dirExists ==> (ok, checked) == (MetaFilesRun(files, read, valid).1, MetaFilesRun(files, read, valid).0)
  {
    if !dirExists {
      return true, [];
    }
    checked := [];
    var i := 0;
    assert files[0..] == files;
    while i < |files|
      invariant 0 <= i <= |files|
      invariant MetaFilesRun(files, read, valid).0 == checked + MetaFilesRun(files[i..], read, valid).0
      invariant MetaFilesRun(files, read, valid).1 == MetaFilesRun(files[i..], read, valid).1
    {
      var f := files[i];
      assert files[i..][0] == f && files[i..][1..] == files[i + 1..];
      if !EndsWith(f, MetaSuffix) {
        i := i + 1;
        continue;
      }
      var meta := read(f);
      if !Truthy(Prop(meta, CidKey)) {
        assert MetaFilesRun(files[i..], read, valid) == ([], false);
        assert checked + [] == checked;
        return false, checked;
      }
      checked := checked + [f];
      if !valid(meta) {
        return false, checked;
      }
      i := i + 1;
    }
    assert files[i..] == [];
    assert checked + [] == checked;
    return true, checked;
  }
}
