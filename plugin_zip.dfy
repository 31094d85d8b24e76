/**
 * `zipPlugin` of the plugin-authoring tool (aiverify-plugin/src/plugin.mjs,
 * and the older ai-verify-plugin/src/plugin.mjs): the entries it adds to the
 * plugin's zip file, in order, and the name the zip is written under. The
 * archive library is not modelled; an entry records the call that adds it.
 */
module PluginZip {
  import opened Wrappers
  import opened JsValues
  import opened PluginUtils
  import PluginCli

  const PluginMetaFile: string := "plugin.meta.json"
  const RequiredFilesKey: string := "requiredFiles"
  const GidKey: string := "gid"
  const VersionKey: string := "version"
  const LicenseFile: string := "LICENSE"
  const AlgorithmsDir: string := "algorithms"
  const DistDir: string := "dist"
  const ZipSuffix: string := ".zip"
  /** What `path.join` throws for a required file that is not a string. */
  const PathNotString: string := "The \"path\" argument must be of type string"
  /** What `lstatSync` and `readdirSync` throw for a path that does not exist. */
  const NoSuchFile: string := "ENOENT: no such file or directory"

  /** `path.join(dir, name)` for a plain name (normalisation is not modelled). */
  function Join(dir: string, name: string): string {
    dir + "/" + name
  }

  /** Joining names to the same directory gives the same path only for the same name. */
  lemma JoinInjective(dir: string, a: string, b: string)
    requires Join(dir, a) == Join(dir, b)
    ensures a == b
  {
    assert a == Join(dir, a)[|dir| + 1..];
    assert b == Join(dir, b)[|dir| + 1..];
  }

  /** One call on the zip object. */
  datatype ZipEntry =
    | DirEntry(name: string)                   // addFile(name, null): an empty directory entry
    | LocalFile(path: string, zipDir: string)  // addLocalFile(path, zipDir)
    | LocalFolder(path: string, zipDir: string) // addLocalFolder(path, zipDir)

  /** The local path an entry reads, if any. */
  predicate ReadsPath(e: ZipEntry, path: string) {
    (e.LocalFile? || e.LocalFolder?) && e.path == path
  }

  /** The component directories copied whole, in order. */
  const FolderDirs: seq<string> := ["widgets", "inputs", "templates"]

  /** The entries for one component directory: its directory entry `name`, then the folder under its own name. */
  function FolderEntries(pluginDir: string, dir: string, name: string): seq<ZipEntry> {
    [DirEntry(name), LocalFolder(Join(pluginDir, dir), dir)]
  }

  /**
   * The component-directory entries as written: each directory is looked
   * for relative to the working directory (`fs` says which paths exist),
   * and the inputs branch adds a second "widgets/" entry instead of "inputs/".
   */
  function TopEntriesAsWritten(pluginDir: string, fs: string -> bool): seq<ZipEntry> {
    (if fs("widgets") then FolderEntries(pluginDir, "widgets", "widgets/") else []) +
    (if fs("inputs") then FolderEntries(pluginDir, "inputs", "widgets/") else []) +
    (if fs("templates") then FolderEntries(pluginDir, "templates", "templates/") else [])
  }

  /** An inputs directory is zipped without an "inputs/" entry: its directory entry reads "widgets/". */
  lemma InputsEntryMisnamed()
    ensures TopEntriesAsWritten("p", x => x == "inputs") == [DirEntry("widgets/"), LocalFolder("p/inputs", "inputs")]
    ensures DirEntry("inputs/") !in TopEntriesAsWritten("p", x => x == "inputs")
  {
    assert Join("p", "inputs") == "p/inputs";
    assert "widgets" != "inputs" && "templates" != "inputs";
    assert "widgets/" != "inputs/";
  }

  /** Zipping the plugin "p" from another directory leaves out its widgets: "widgets" is looked for in the working directory. */
  lemma WidgetsLookedUpInWorkingDir()
    ensures TopEntriesAsWritten("p", x => x == "p/widgets") == []
  {
    assert "widgets" != "p/widgets" && "inputs" != "p/widgets";
    assert "templates"[0] != "p/widgets"[0];
  }

  /** The component-directory entries as intended, for the directories `dirs` in order. */
  function DirEntries(pluginDir: string, fs: string -> bool, dirs: seq<string>): seq<ZipEntry>
    decreases |dirs|
  {
    if dirs == [] then []
    else
      (if fs(Join(pluginDir, dirs[0])) then FolderEntries(pluginDir, dirs[0], dirs[0] + "/") else []) +
      DirEntries(pluginDir, fs, dirs[1..])
  }

  /** The intended component-directory entries: each directory is looked for under the plugin directory. */
  function TopEntries(pluginDir: string, fs: string -> bool): seq<ZipEntry> {
    DirEntries(pluginDir, fs, FolderDirs)
  }

  /** Each entry of `dirs`'s entries comes from a directory listed in `dirs` that exists under the plugin directory. */
  predicate FromExistingDir(e: ZipEntry, pluginDir: string, fs: string -> bool, dirs: seq<string>) {
    exists d :: d in dirs && fs(Join(pluginDir, d)) && e in FolderEntries(pluginDir, d, d + "/")
  }

  /** Every entry belongs to a listed directory that exists under the plugin directory. */
  lemma {:induction false} DirEntriesSound(pluginDir: string, fs: string -> bool, dirs: seq<string>)
    decreases |dirs|
    ensures forall e :: e in DirEntries(pluginDir, fs, dirs) ==> FromExistingDir(e, pluginDir, fs, dirs)
  {
    if dirs != [] {
      DirEntriesSound(pluginDir, fs, dirs[1..]);
      assert forall d :: d in dirs[1..] ==> d in dirs;
    }
  }

  /** A directory's entries name only that directory. */
  lemma FolderEntriesNameDir(pluginDir: string, d: string, d': string)
    ensures DirEntry(d + "/") in FolderEntries(pluginDir, d', d' + "/") ==> d == d'
    ensures LocalFolder(Join(pluginDir, d), d) in FolderEntries(pluginDir, d', d' + "/") ==> d == d'
  {
    if DirEntry(d + "/") in FolderEntries(pluginDir, d', d' + "/") {
      assert d + "/" == d' + "/";
      assert d == (d + "/")[..|d|] && d' == (d' + "/")[..|d'|];
    }
  }

  /**
   * A listed directory gets its own directory entry, and its folder, exactly
   * when it exists under the plugin directory.
   */
  lemma DirEntriesSpec(pluginDir: string, fs: string -> bool, dirs: seq<string>, d: string)
    requires d in dirs
    ensures DirEntry(d + "/") in DirEntries(pluginDir, fs, dirs) <==> fs(Join(pluginDir, d))
    ensures LocalFolder(Join(pluginDir, d), d) in DirEntries(pluginDir, fs, dirs) <==> fs(Join(pluginDir, d))
  {
    DirEntriesSound(pluginDir, fs, dirs);
    if DirEntry(d + "/") in DirEntries(pluginDir, fs, dirs) {
      var d' :| d' in dirs && fs(Join(pluginDir, d')) && DirEntry(d + "/") in FolderEntries(pluginDir, d', d' + "/");
      FolderEntriesNameDir(pluginDir, d, d');
    }
    if LocalFolder(Join(pluginDir, d), d) in DirEntries(pluginDir, fs, dirs) {
      var d' :| d' in dirs && fs(Join(pluginDir, d')) && LocalFolder(Join(pluginDir, d), d) in FolderEntries(pluginDir, d', d' + "/");
      FolderEntriesNameDir(pluginDir, d, d');
    }
    if fs(Join(pluginDir, d)) {
      DirEntriesPresent(pluginDir, fs, dirs, d);
    }
  }

  /** A listed directory that exists contributes its entries. */
  lemma {:induction false} DirEntriesPresent(pluginDir: string, fs: string -> bool, dirs: seq<string>, d: string)
    requires d in dirs && fs(Join(pluginDir, d))
    decreases |dirs|
    ensures forall e :: e in FolderEntries(pluginDir, d, d + "/") ==> e in DirEntries(pluginDir, fs, dirs)
  {
    if dirs[0] != d {
      DirEntriesPresent(pluginDir, fs, dirs[1..], d);
    }
  }

  /** The intended entries written out, directory by directory. */
  lemma TopEntriesUnfold(pluginDir: string, fs: string -> bool)
    ensures TopEntries(pluginDir, fs) ==
      (if fs(Join(pluginDir, "widgets")) then FolderEntries(pluginDir, "widgets", "widgets/") else []) +
      (if fs(Join(pluginDir, "inputs")) then FolderEntries(pluginDir, "inputs", "inputs/") else []) +
      (if fs(Join(pluginDir, "templates")) then FolderEntries(pluginDir, "templates", "templates/") else [])
  {
    assert FolderDirs[0] == "widgets" && FolderDirs[1..] == ["inputs", "templates"];
    assert FolderDirs[1..][0] == "inputs" && FolderDirs[1..][1..] == ["templates"];
    assert FolderDirs[1..][1..][0] == "templates" && FolderDirs[1..][1..][1..] == [];
    assert "widgets" + "/" == "widgets/" && "inputs" + "/" == "inputs/" && "templates" + "/" == "templates/";
    assert DirEntries(pluginDir, fs, []) == [];
    var w := if fs(Join(pluginDir, "widgets")) then FolderEntries(pluginDir, "widgets", "widgets/") else [];
    var i := if fs(Join(pluginDir, "inputs")) then FolderEntries(pluginDir, "inputs", "inputs/") else [];
    var t := if fs(Join(pluginDir, "templates")) then FolderEntries(pluginDir, "templates", "templates/") else [];
    assert DirEntries(pluginDir, fs, FolderDirs[1..][1..]) == t + [];
    assert DirEntries(pluginDir, fs, FolderDirs[1..]) == i + (t + []);
    assert TopEntries(pluginDir, fs) == w + (i + (t + []));
    assert w + (i + (t + [])) == w + i + t;
  }

  /** The intended entries name every component directory of the plugin, under its own name. */
  lemma TopEntriesComplete(pluginDir: string, fs: string -> bool)
    ensures forall d :: d in FolderDirs ==>
      (DirEntry(d + "/") in TopEntries(pluginDir, fs) <==> fs(Join(pluginDir, d)))
    ensures forall d :: d in FolderDirs ==>
      (LocalFolder(Join(pluginDir, d), d) in TopEntries(pluginDir, fs) <==> fs(Join(pluginDir, d)))
  {
    forall d | d in FolderDirs
      ensures DirEntry(d + "/") in TopEntries(pluginDir, fs) <==> fs(Join(pluginDir, d))
      ensures LocalFolder(Join(pluginDir, d), d) in TopEntries(pluginDir, fs) <==> fs(Join(pluginDir, d))
    {
      DirEntriesSpec(pluginDir, fs, FolderDirs, d);
    }
  }

  /** Whether a required file is added at all: only aiverify-plugin skips "LICENSE". */
  predicate Included(f: JsValue, skipLicense: bool) {
    !(skipLicense && f == Str(LicenseFile))
  }

  /** The zip directory of an algorithm's files. */
  function AlgorithmZipDir(algo: string): string {
    AlgorithmsDir + "/" + algo
  }

  /** The entry that adds a required file or directory itself. */
  function MainEntry(algo: string, algoPath: string, name: string, isDir: bool): ZipEntry {
    if isDir then LocalFolder(Join(algoPath, name), AlgorithmZipDir(algo))
    else LocalFile(Join(algoPath, name), AlgorithmZipDir(algo))
  }

  /**
   * The entries for one `requiredFiles` item; `stat` says whether a path is
   * a directory, None where `lstatSync` throws.
   */
  function RequiredFileEntries(algo: string, algoPath: string, f: JsValue, skipLicense: bool, stat: string -> Option<bool>): Outcome<seq<ZipEntry>> {
    if !Included(f, skipLicense) then Returns([])
    else if !f.Str? then Throws(PathNotString)
    else
      match stat(Join(algoPath, f.s))
      case None => Throws(NoSuchFile)
      case Some(isDir) =>
        Returns(if isDir then [DirEntry(AlgorithmZipDir(algo) + "/" + f.s + "/"), MainEntry(algo, algoPath, f.s, true)]
                else [MainEntry(algo, algoPath, f.s, false)])
  }

  /** The entries for the items of `requiredFiles`, in order; the first item that throws ends `zipPlugin`. */
  function RequiredEntries(algo: string, algoPath: string, files: seq<JsValue>, skipLicense: bool, stat: string -> Option<bool>): Outcome<seq<ZipEntry>>
    decreases |files|
  {
    if files == [] then Returns([])
    else
      match RequiredEntries(algo, algoPath, files[..|files| - 1], skipLicense, stat)
      case Throws(e) => Throws(e)
      case Returns(es) =>
        match RequiredFileEntries(algo, algoPath, files[|files| - 1], skipLicense, stat)
        case Throws(e) => Throws(e)
        case Returns(more) => Returns(es + more)
  }

  /** An item that is added is a string naming a path `lstatSync` can read. */
  predicate Addable(algoPath: string, f: JsValue, stat: string -> Option<bool>) {
    f.Str? && stat(Join(algoPath, f.s)).Some?
  }

  /**
   * The required files are added exactly when every included item is a
   * string that exists; then each included item's file or folder is among
   * the entries.
   */
  lemma {:induction false} RequiredEntriesSpec(algo: string, algoPath: string, files: seq<JsValue>, skipLicense: bool, stat: string -> Option<bool>)
    decreases |files|
    ensures var r := RequiredEntries(algo, algoPath, files, skipLicense, stat);
      (r.Returns? <==> forall i :: 0 <= i < |files| && Included(files[i], skipLicense) ==> Addable(algoPath, files[i], stat)) &&
      (r.Returns? ==> forall i :: 0 <= i < |files| && Included(files[i], skipLicense) ==>
        MainEntry(algo, algoPath, files[i].s, stat(Join(algoPath, files[i].s)).value) in r.value)
  {
    if files != [] {
      var front := files[..|files| - 1];
      RequiredEntriesSpec(algo, algoPath, front, skipLicense, stat);
      assert forall i :: 0 <= i < |front| ==> front[i] == files[i];
    }
  }

  /** aiverify-plugin never adds a LICENSE among an algorithm's required files. */
  lemma {:induction false} LicenseNeverAdded(algo: string, algoPath: string, files: seq<JsValue>, stat: string -> Option<bool>)
    requires RequiredEntries(algo, algoPath, files, true, stat).Returns?
    decreases |files|
    ensures forall e :: e in RequiredEntries(algo, algoPath, files, true, stat).value ==> !ReadsPath(e, Join(algoPath, LicenseFile))
  {
    if files != [] {
      var f := files[|files| - 1];
      LicenseNeverAdded(algo, algoPath, files[..|files| - 1], stat);
      if Included(f, true) && f.Str? {
        if Join(algoPath, f.s) == Join(algoPath, LicenseFile) {
          JoinInjective(algoPath, f.s, LicenseFile);
        }
      }
    }
  }

  /** The older ai-verify-plugin adds a listed LICENSE file like any other. */
  lemma LicenseAddedWithoutSkip(algo: string, algoPath: string, files: seq<JsValue>, stat: string -> Option<bool>)
    requires Str(LicenseFile) in files && stat(Join(algoPath, LicenseFile)) == Some(false)
    requires RequiredEntries(algo, algoPath, files, false, stat).Returns?
    ensures LocalFile(Join(algoPath, LicenseFile), AlgorithmZipDir(algo)) in RequiredEntries(algo, algoPath, files, false, stat).value
  {
    RequiredEntriesSpec(algo, algoPath, files, false, stat);
    var i :| 0 <= i < |files| && files[i] == Str(LicenseFile);
    assert Included(files[i], false);
  }

  /**
   * The loop over `requiredFiles`: LICENSE is skipped when `skipLicense`,
   * a directory gets its own entry and is added as a folder, a file is added
   * as a file.
   */
  method AddRequiredFiles(algo: string, algoPath: string, files: seq<JsValue>, skipLicense: bool, stat: string -> Option<bool>)
    returns (r: Outcome<seq<ZipEntry>>)
    ensures r == RequiredEntries(algo, algoPath, files, skipLicense, stat)
  {
    var entries: seq<ZipEntry> := [];
    for i := 0 to |files|
      invariant RequiredEntries(algo, algoPath, files[..i], skipLicense, stat) == Returns(entries)
    {
      var f := files[i];
      assert files[..i + 1][..i] == files[..i];
      if skipLicense && f == Str(LicenseFile) {
        assert entries + [] == entries;
        continue;
      }
      if !f.Str? {
        ThrowsPersist(algo, algoPath, files, i + 1, skipLicense, stat);
        return Throws(PathNotString);
      }
      var subpath := Join(algoPath, f.s);
      var isDir := stat(subpath);
      if isDir.None? {
        ThrowsPersist(algo, algoPath, files, i + 1, skipLicense, stat);
        return Throws(NoSuchFile);
      }
      if isDir.value {
        entries := entries + [DirEntry(AlgorithmZipDir(algo) + "/" + f.s + "/"), LocalFolder(subpath, AlgorithmZipDir(algo))];
      } else {
        entries := entries + [LocalFile(subpath, AlgorithmZipDir(algo))];
      }
    }
    assert files[..|files|] == files;
    return Returns(entries);
  }

  /** Once a prefix of the items throws, so do all the items. */
  lemma {:induction false} ThrowsPersist(algo: string, algoPath: string, files: seq<JsValue>, k: nat, skipLicense: bool, stat: string -> Option<bool>)
    requires k <= |files|
    requires RequiredEntries(algo, algoPath, files[..k], skipLicense, stat).Throws?
    decreases |files| - k
    ensures RequiredEntries(algo, algoPath, files, skipLicense, stat) == RequiredEntries(algo, algoPath, files[..k], skipLicense, stat)
  {
    if k < |files| {
      assert files[..k + 1][..k] == files[..k];
      ThrowsPersist(algo, algoPath, files, k + 1, skipLicense, stat);
    } else {
      assert files[..k] == files;
    }
  }

  /** The meta file of the algorithm `algo` under the algorithms directory. */
  function AlgorithmMetaPath(algoRoot: string, algo: string): string {
    Join(Join(algoRoot, algo), algo + MetaSuffix)
  }

  /** The TypeError JavaScript throws when reading property `key` of null. */
  function NullReadText(key: string): string {
    "TypeError: Cannot read properties of null (reading '" + key + "')"
  }

  /**
   * The entries for one algorithm subdirectory: none when it has no meta
   * file; otherwise its directory entry, then its required files when the
   * meta's `requiredFiles` is an array. `readMeta` is what `readJSON` gives,
   * None for a meta file holding `null`, whose `requiredFiles` throws.
   */
  function AlgorithmEntries(algoRoot: string, algo: string, fs: string -> bool, readMeta: string -> Option<Obj>, skipLicense: bool, stat: string -> Option<bool>): Outcome<seq<ZipEntry>> {
    if !fs(AlgorithmMetaPath(algoRoot, algo)) then Returns([])
    else
      var head := [DirEntry(AlgorithmZipDir(algo) + "/")];
      var meta := readMeta(AlgorithmMetaPath(algoRoot, algo));
      if meta.None? then Throws(NullReadText(RequiredFilesKey))
      else
      match Prop(meta.value, RequiredFilesKey)
      case Array(items) =>
        (match RequiredEntries(algo, Join(algoRoot, algo), items, skipLicense, stat)
         case Throws(e) => Throws(e)
         case Returns(es) => Returns(head + es))
      case _ => Returns(head)
  }

  /** The entries for the algorithm subdirectories, in listing order; the first that throws ends `zipPlugin`. */
  function AlgorithmsRun(algoRoot: string, subdirs: seq<string>, fs: string -> bool, readMeta: string -> Option<Obj>, skipLicense: bool, stat: string -> Option<bool>): Outcome<seq<ZipEntry>>
    decreases |subdirs|
  {
    if subdirs == [] then Returns([])
    else
      match AlgorithmsRun(algoRoot, subdirs[..|subdirs| - 1], fs, readMeta, skipLicense, stat)
      case Throws(e) => Throws(e)
      case Returns(es) =>
        match AlgorithmEntries(algoRoot, subdirs[|subdirs| - 1], fs, readMeta, skipLicense, stat)
        case Throws(e) => Throws(e)
        case Returns(more) => Returns(es + more)
  }

  /**
   * The algorithm entries are built exactly when every subdirectory's
   * entries are; then each subdirectory with a meta file has its directory
   * entry, and one without a meta file contributes nothing.
   */
  lemma {:induction false} AlgorithmsRunSpec(algoRoot: string, subdirs: seq<string>, fs: string -> bool, readMeta: string -> Option<Obj>, skipLicense: bool, stat: string -> Option<bool>)
    decreases |subdirs|
    ensures var r := AlgorithmsRun(algoRoot, subdirs, fs, readMeta, skipLicense, stat);
      (r.Returns? <==> forall i :: 0 <= i < |subdirs| ==> AlgorithmEntries(algoRoot, subdirs[i], fs, readMeta, skipLicense, stat).Returns?) &&
      (r.Returns? ==> forall i :: 0 <= i < |subdirs| && fs(AlgorithmMetaPath(algoRoot, subdirs[i])) ==>
        DirEntry(AlgorithmZipDir(subdirs[i]) + "/") in r.value)
  {
    if subdirs != [] {
      var front := subdirs[..|subdirs| - 1];
      AlgorithmsRunSpec(algoRoot, front, fs, readMeta, skipLicense, stat);
      assert forall i :: 0 <= i < |front| ==> front[i] == subdirs[i];
    }
  }

  /**
   * The algorithms step as written: "algorithms" is looked for in the
   * working directory, but the directory listed is the plugin's, so listing
   * throws when only the working directory has one.
   */
  function AlgorithmsStepAsWritten(pluginDir: string, fs: string -> bool, subdirs: seq<string>, readMeta: string -> Option<Obj>,
                                   skipLicense: bool, stat: string -> Option<bool>): Outcome<seq<ZipEntry>>
  {
    if !fs(AlgorithmsDir) then Returns([])
    else if !fs(Join(pluginDir, AlgorithmsDir)) then Throws(NoSuchFile)
    else
      match AlgorithmsRun(Join(pluginDir, AlgorithmsDir), subdirs, fs, readMeta, skipLicense, stat)
      case Throws(e) => Throws(e)
      case Returns(es) => Returns([DirEntry(AlgorithmsDir + "/")] + es)
  }

  /** The algorithms step as intended: the plugin's own "algorithms" directory is looked for and listed. */
  function AlgorithmsStep(pluginDir: string, fs: string -> bool, subdirs: seq<string>, readMeta: string -> Option<Obj>,
                          skipLicense: bool, stat: string -> Option<bool>): Outcome<seq<ZipEntry>>
  {
    if !fs(Join(pluginDir, AlgorithmsDir)) then Returns([])
    else
      match AlgorithmsRun(Join(pluginDir, AlgorithmsDir), subdirs, fs, readMeta, skipLicense, stat)
      case Throws(e) => Throws(e)
      case Returns(es) => Returns([DirEntry(AlgorithmsDir + "/")] + es)
  }

  /**
   * Zipping the plugin "p" from another directory: when only the working
   * directory has "algorithms", listing "p/algorithms" throws ENOENT; when
   * only the plugin has one, its algorithms are left out, although the
   * intended step lists them.
   */
  lemma AlgorithmsLookedUpInWorkingDir(subdirs: seq<string>, readMeta: string -> Option<Obj>, skipLicense: bool, stat: string -> Option<bool>)
    ensures AlgorithmsStepAsWritten("p", x => x == AlgorithmsDir, subdirs, readMeta, skipLicense, stat) == Throws(NoSuchFile)
    ensures AlgorithmsStepAsWritten("p", x => x == "p/algorithms", subdirs, readMeta, skipLicense, stat) == Returns([])
    ensures AlgorithmsStep("p", x => x == "p/algorithms", subdirs, readMeta, skipLicense, stat).Returns? ==>
      DirEntry("algorithms/") in AlgorithmsStep("p", x => x == "p/algorithms", subdirs, readMeta, skipLicense, stat).value
  {
    assert Join("p", AlgorithmsDir) == "p/algorithms";
    assert |AlgorithmsDir| != |"p/algorithms"|;
    var r := AlgorithmsStep("p", x => x == "p/algorithms", subdirs, readMeta, skipLicense, stat);
    if r.Returns? {
      var es := AlgorithmsRun("p/algorithms", subdirs, x => x == "p/algorithms", readMeta, skipLicense, stat).value;
      assert r.value == [DirEntry(AlgorithmsDir + "/")] + es;
      assert r.value[0] == DirEntry("algorithms/");
    }
  }

  /** Where the working directory and the plugin directory agree on "algorithms", the two steps agree. */
  lemma AlgorithmsStepAgrees(pluginDir: string, fs: string -> bool, subdirs: seq<string>, readMeta: string -> Option<Obj>,
                             skipLicense: bool, stat: string -> Option<bool>)
    requires fs(AlgorithmsDir) == fs(Join(pluginDir, AlgorithmsDir))
    ensures AlgorithmsStepAsWritten(pluginDir, fs, subdirs, readMeta, skipLicense, stat) ==
            AlgorithmsStep(pluginDir, fs, subdirs, readMeta, skipLicense, stat)
  {
  }

  /** An algorithm subdirectory without a meta file adds nothing. */
  lemma NoMetaNoEntries(algoRoot: string, algo: string, fs: string -> bool, readMeta: string -> Option<Obj>, skipLicense: bool, stat: string -> Option<bool>)
    requires !fs(AlgorithmMetaPath(algoRoot, algo))
    ensures AlgorithmEntries(algoRoot, algo, fs, readMeta, skipLicense, stat) == Returns([])
  {
  }

  /** An algorithm whose meta file holds `null` ends `zipPlugin` with the TypeError of reading `requiredFiles`. */
  lemma NullMetaThrows(algoRoot: string, algo: string, fs: string -> bool, readMeta: string -> Option<Obj>, skipLicense: bool, stat: string -> Option<bool>)
    requires fs(AlgorithmMetaPath(algoRoot, algo)) && readMeta(AlgorithmMetaPath(algoRoot, algo)).None?
    ensures AlgorithmEntries(algoRoot, algo, fs, readMeta, skipLicense, stat) == Throws(NullReadText(RequiredFilesKey))
  {
  }

  /** The loop over the algorithm subdirectories. */
  method AddAlgorithms(algoRoot: string, subdirs: seq<string>, fs: string -> bool, readMeta: string -> Option<Obj>, skipLicense: bool, stat: string -> Option<bool>)
    returns (r: Outcome<seq<ZipEntry>>)
    ensures r == AlgorithmsRun(algoRoot, subdirs, fs, readMeta, skipLicense, stat)
  {
    var entries: seq<ZipEntry> := [];
    for i := 0 to |subdirs|
      invariant AlgorithmsRun(algoRoot, subdirs[..i], fs, readMeta, skipLicense, stat) == Returns(entries)
    {
      var algo := subdirs[i];
      assert subdirs[..i + 1][..i] == subdirs[..i];
      var metaPath := AlgorithmMetaPath(algoRoot, algo);
      if !fs(metaPath) {
        assert entries + [] == entries;
        continue;
      }
      var meta := readMeta(metaPath);
      if meta.None? {
        AlgorithmsThrowPersist(algoRoot, subdirs, i + 1, fs, readMeta, skipLicense, stat);
        return Throws(NullReadText(RequiredFilesKey));
      }
      var more: seq<ZipEntry> := [DirEntry(AlgorithmZipDir(algo) + "/")];
      var required := Prop(meta.value, RequiredFilesKey);
      if required.Array? {
        var files := AddRequiredFiles(algo, Join(algoRoot, algo), required.items, skipLicense, stat);
        if files.Throws? {
          AlgorithmsThrowPersist(algoRoot, subdirs, i + 1, fs, readMeta, skipLicense, stat);
          return files;
        }
        more := more + files.value;
      }
      entries := entries + more;
    }
    assert subdirs[..|subdirs|] == subdirs;
    return Returns(entries);
  }

  /** Once a prefix of the subdirectories throws, so do all of them. */
  lemma {:induction false} AlgorithmsThrowPersist(algoRoot: string, subdirs: seq<string>, k: nat, fs: string -> bool, readMeta: string -> Option<Obj>, skipLicense: bool, stat: string -> Option<bool>)
    requires k <= |subdirs|
    requires AlgorithmsRun(algoRoot, subdirs[..k], fs, readMeta, skipLicense, stat).Throws?
    decreases |subdirs| - k
    ensures AlgorithmsRun(algoRoot, subdirs, fs, readMeta, skipLicense, stat) == AlgorithmsRun(algoRoot, subdirs[..k], fs, readMeta, skipLicense, stat)
  {
    if k < |subdirs| {
      assert subdirs[..k + 1][..k] == subdirs[..k];
      AlgorithmsThrowPersist(algoRoot, subdirs, k + 1, fs, readMeta, skipLicense, stat);
    } else {
      assert subdirs[..k] == subdirs;
    }
  }

  /**
   * A value as a template literal writes it; `numberText` is JavaScript's
   * number formatting, which is not modelled.
   */
  function TemplateText(v: JsValue, numberText: real -> string): string
    decreases v
  {
    match v
    case Undefined => "undefined"
    case Null => "null"
    case Boolean(b) => if b then "true" else "false"
    case Number(n) => numberText(n)
    case NaN => "NaN"
    case Str(s) => s
    case Array(items) =>
      PluginCli.Join(seq(|items|, i requires 0 <= i < |items| =>
        if items[i].Undefined? || items[i].Null? then "" else TemplateText(items[i], numberText)))
    case Object(_) => "[object Object]"
  }

  /** `${gid}-${version}.zip` for the plugin meta. */
  function ZipName(pluginMeta: Obj, numberText: real -> string): string {
    TemplateText(Prop(pluginMeta, GidKey), numberText) + "-" + TemplateText(Prop(pluginMeta, VersionKey), numberText) + ZipSuffix
  }

  /**
   * A plugin meta with string gid and version gives `<gid>-<version>.zip`;
   * a meta that could not be read gives "undefined-undefined.zip".
   */
  lemma ZipNameSpec(gid: string, version: string, numberText: real -> string)
    ensures ZipName(map[GidKey := Str(gid), VersionKey := Str(version)], numberText) == gid + "-" + version + ZipSuffix
    ensures ZipName(map[], numberText) == "undefined-undefined.zip"
  {
  }

  /** The zip `zipPlugin` writes: its path and its entries in order. */
  datatype ZipFile = ZipFile(path: string, entries: seq<ZipEntry>)

  /** The entries before the algorithms: the plugin meta file, then the component directories. */
  function HeadEntries(pluginDir: string, fs: string -> bool): seq<ZipEntry> {
    [LocalFile(Join(pluginDir, PluginMetaFile), "")] + TopEntries(pluginDir, fs)
  }

  /**
   * `zipPlugin` with the component directories looked for under the
   * plugin directory and each named by its own directory entry.
   * `pluginMeta` is what `readJSON` gives for the plugin meta file, None
   * for a file holding `null`, whose `gid` throws once the dist directory
   * exists; `fs`
   * says which paths exist; `subdirs` lists the algorithms directory.
   * `skipLicense` is true for aiverify-plugin. The dist directory is
   * created when it does not exist (`distCreated`).
   */
  method ZipPlugin(pluginDir: string, pluginMeta: Option<Obj>, fs: string -> bool, subdirs: seq<string>, readMeta: string -> Option<Obj>,
                   skipLicense: bool, stat: string -> Option<bool>, numberText: real -> string)
    returns (distCreated: bool, r: Outcome<ZipFile>)
    ensures distCreated <==>
      !fs(Join(pluginDir, DistDir)) &&
      (!fs(Join(pluginDir, AlgorithmsDir)) || AlgorithmsRun(Join(pluginDir, AlgorithmsDir), subdirs, fs, readMeta, skipLicense, stat).Returns?)
    ensures (pluginMeta.None? &&
      (!fs(Join(pluginDir, AlgorithmsDir)) || AlgorithmsRun(Join(pluginDir, AlgorithmsDir), subdirs, fs, readMeta, skipLicense, stat).Returns?)) ==>
      r == Throws(NullReadText(GidKey))
    ensures pluginMeta.Some? && !fs(Join(pluginDir, AlgorithmsDir)) ==>
      r == Returns(ZipFile(Join(Join(pluginDir, DistDir), ZipName(pluginMeta.value, numberText)), HeadEntries(pluginDir, fs)))
    ensures fs(Join(pluginDir, AlgorithmsDir)) ==>
      match AlgorithmsRun(Join(pluginDir, AlgorithmsDir), subdirs, fs, readMeta, skipLicense, stat)
      case Throws(e) => r == Throws(e)
      case Returns(es) =>
        pluginMeta.Some? ==>
        r == Returns(ZipFile(Join(Join(pluginDir, DistDir), ZipName(pluginMeta.value, numberText)),
                             HeadEntries(pluginDir, fs) + [DirEntry(AlgorithmsDir + "/")] + es))
  {
    var entries := [LocalFile(Join(pluginDir, PluginMetaFile), "")];
    if fs(Join(pluginDir, "widgets")) {
      entries := entries + FolderEntries(pluginDir, "widgets", "widgets/");
    }
    if fs(Join(pluginDir, "inputs")) {
      entries := entries + FolderEntries(pluginDir, "inputs", "inputs/");
    }
    if fs(Join(pluginDir, "templates")) {
      entries := entries + FolderEntries(pluginDir, "templates", "templates/");
    }
    TopEntriesUnfold(pluginDir, fs);
    assert entries == HeadEntries(pluginDir, fs);
    if fs(Join(pluginDir, AlgorithmsDir)) {
      entries := entries + [DirEntry(AlgorithmsDir + "/")];
      var algos := AddAlgorithms(Join(pluginDir, AlgorithmsDir), subdirs, fs, readMeta, skipLicense, stat);
      if algos.Throws? {
        return false, Throws(algos.error);
      }
      entries := entries + algos.value;
    }
    distCreated := !fs(Join(pluginDir, DistDir));
    if pluginMeta.None? {
      return distCreated, Throws(NullReadText(GidKey));
    }
    r := Returns(ZipFile(Join(Join(pluginDir, DistDir), ZipName(pluginMeta.value, numberText)), entries));
  }
}
