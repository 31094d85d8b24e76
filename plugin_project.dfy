/**
 * `generatePlugin` and `validatePlugin` of the plugin-authoring tool
 * (aiverify-plugin/src/plugin.mjs, and the older ai-verify-plugin/src/plugin.mjs
 * that has the same meta merge and no license step): the plugin meta is
 * started as `{gid}` (or read back), the command-line keys are merged into
 * it under the fill-if-absent-or-forced rule, `name` defaults to the gid, the
 * chosen license template becomes the plugin's LICENSE, and the validator
 * runs the plugin meta check and then each component directory's check,
 * stopping at the first that fails.
 */
module PluginProject {
  import opened Wrappers
  import opened JsValues
  import opened PluginUtils

  const GidKey: string := "gid"

  /** The keys the meta loop visits, in order; each is stored under its own name. */
  const PluginKeys: seq<string> := ["name", "version", "description", "author", "url"]

  function SameKey(key: string): string {
    key
  }

  /** A new plugin's meta, `{gid: argv.gid}`, or the one read back from its existing meta file. */
  function StartMeta(gid: JsValue, metaFile: Option<Obj>): (r: Obj)
    ensures metaFile.None? ==> r == map[GidKey := gid]
    ensures metaFile.Some? ==> r == metaFile.value
  {
    if metaFile.Some? then metaFile.value else map[GidKey := gid]
  }

  /** The meta object `generatePlugin` writes. */
  function PluginMeta(argv: Obj, metaFile: Option<Obj>, force: bool): Obj {
    NameDefault(Merge(StartMeta(Prop(argv, GidKey), metaFile), argv, PluginKeys, force, SameKey), GidKey)
  }

  /** The meta loop of `generatePlugin`, followed by the `name` default. */
  method GeneratePluginMeta(argv: Obj, metaFile: Option<Obj>, force: bool) returns (meta: Obj)
    ensures meta == PluginMeta(argv, metaFile, force)
  {
    meta := MergeKeys(StartMeta(Prop(argv, GidKey), metaFile), argv, PluginKeys, force, SameKey);
    if !Truthy(Prop(meta, NameKey)) {
      meta := meta[NameKey := Prop(meta, GidKey)];
    }
  }

  /** Each key is stored under its own name, no two alike, and none is the gid. */
  lemma PluginKeysSeparate()
    ensures DistinctTargets(PluginKeys, SameKey)
    ensures Targets(PluginKeys, SameKey) == PluginKeys
    ensures GidKey !in PluginKeys
  {
    var ts := Targets(PluginKeys, SameKey);
    assert forall i :: 0 <= i < |ts| ==> ts[i] == PluginKeys[i];
  }

  /**
   * Where each key lands: by the fill rule, then `name` falls back to the
   * gid; the gid and every property that is not a listed key are kept.
   */
  lemma PluginKeysLand(argv: Obj, metaFile: Option<Obj>, force: bool)
    ensures var start := StartMeta(Prop(argv, GidKey), metaFile);
      var r := PluginMeta(argv, metaFile, force);
      (forall i :: 1 <= i < |PluginKeys| ==>
        Prop(r, PluginKeys[i]) == MergedValue(start, argv, PluginKeys[i], force, PluginKeys[i])) &&
      Prop(r, NameKey) == (if Truthy(MergedValue(start, argv, NameKey, force, NameKey)) then MergedValue(start, argv, NameKey, force, NameKey)
                           else Prop(start, GidKey)) &&
      (forall x :: x !in PluginKeys ==> Prop(r, x) == Prop(start, x))
  {
    var start := StartMeta(Prop(argv, GidKey), metaFile);
    PluginKeysSeparate();
    MergeSpec(start, argv, PluginKeys, force, SameKey);
    assert PluginKeys[0] == NameKey;
  }

  /** A new plugin keeps the gid it was given and, when that gid is set, is always named. */
  lemma NewPluginNamed(argv: Obj, force: bool)
    ensures Prop(PluginMeta(argv, None, force), GidKey) == Prop(argv, GidKey)
    ensures Truthy(Prop(argv, GidKey)) ==> Truthy(Prop(PluginMeta(argv, None, force), NameKey))
  {
    PluginKeysLand(argv, None, force);
  }

  /**
   * Running `generate-plugin` again with the same options and without
   * `--force` over the meta it wrote changes no property.
   */
  lemma RegenerateUnchanged(argv: Obj, metaFile: Option<Obj>, force: bool, x: string)
    ensures var first := PluginMeta(argv, metaFile, force);
      Prop(PluginMeta(argv, Some(first), false), x) == Prop(first, x)
  {
    var first := PluginMeta(argv, metaFile, force);
    var start := StartMeta(Prop(argv, GidKey), metaFile);
    PluginKeysLand(argv, metaFile, force);
    PluginKeysLand(argv, Some(first), false);
    assert Prop(first, GidKey) == Prop(start, GidKey);
  }

  /** The license choices, in the order of the switch. */
  const ApacheLicense: string := "Apache Software License 2.0"
  const MitLicense: string := "MIT"
  const BsdLicense: string := "BSD-3"
  const GplLicense: string := "GNU GPL v3.0"
  const MplLicense: string := "Mozilla Public License 2.0"

  /** The template file the license switch picks; "" for any other value. */
  function LicenseTemplate(license: JsValue): string {
    if license == Str(ApacheLicense) then "Apache-2"
    else if license == Str(MitLicense) then "MIT"
    else if license == Str(BsdLicense) then "BSD-3"
    else if license == Str(GplLicense) then "GPL-3"
    else if license == Str(MplLicense) then "MPL-2"
    else ""
  }

  /** The five license choices pick the five templates, and nothing else picks one. */
  lemma LicenseTemplates(license: JsValue)
    ensures LicenseTemplate(Str(ApacheLicense)) == "Apache-2"
    ensures LicenseTemplate(Str(MitLicense)) == "MIT"
    ensures LicenseTemplate(Str(BsdLicense)) == "BSD-3"
    ensures LicenseTemplate(Str(GplLicense)) == "GPL-3"
    ensures LicenseTemplate(Str(MplLicense)) == "MPL-2"
    ensures LicenseTemplate(license) != "" <==>
      license in {Str(ApacheLicense), Str(MitLicense), Str(BsdLicense), Str(GplLicense), Str(MplLicense)}
  {
  }

  /** Two license choices that pick a template pick the same one only when they are the same choice. */
  lemma LicenseTemplateInjective(a: JsValue, b: JsValue)
    requires LicenseTemplate(a) != ""
    requires LicenseTemplate(a) == LicenseTemplate(b)
    ensures a == b
  {
  }

  /** What the license step of `generatePlugin` does. */
  datatype LicenseResult =
    | NoLicense                       // `argv.license` is falsy
    | LicenseWritten(template: string) // the LICENSE is written from this template
    | TemplateNotFound                // the template is missing: an error is reported and the process exits with -1
    | GenerationFailed                // reading the template or writing the LICENSE fails: the process exits with -1
    | LicenseThrows(error: string)

  /** What the missing-template message throws: it names a `license` variable that does not exist. */
  const LicenseUndefined: string := "license is not defined"

  /**
   * The license step as written. `found(file)` says whether the template
   * `file` exists in the license directory (for "" it is the directory
   * itself); `generates(file)` whether reading it and writing the LICENSE
   * succeed. Reading "" reads the directory, which always fails.
   */
  function LicenseStepAsWritten(license: JsValue, found: string -> bool, generates: string -> bool): LicenseResult {
    if !Truthy(license) then NoLicense
    else
      var file := LicenseTemplate(license);
      if !found(file) then LicenseThrows(LicenseUndefined)
      else if file == "" || !generates(file) then GenerationFailed
      else LicenseWritten(file)
  }

  /** A chosen license whose template is missing ends in a ReferenceError instead of the intended message and exit. */
  lemma LicenseMissingThrows()
    ensures LicenseStepAsWritten(Str(MitLicense), f => false, f => true) == LicenseThrows(LicenseUndefined)
  {
  }

  /** The license step as intended: a missing template is reported and the process exits. */
  function LicenseStep(license: JsValue, found: string -> bool, generates: string -> bool): LicenseResult {
    if !Truthy(license) then NoLicense
    else
      var file := LicenseTemplate(license);
      if !found(file) then TemplateNotFound
      else if file == "" || !generates(file) then GenerationFailed
      else LicenseWritten(file)
  }

  /**
   * The LICENSE is written exactly when one of the five choices was given
   * and its template exists and can be used; a missing template exits, and
   * the step never throws.
   */
  lemma LicenseStepSpec(license: JsValue, found: string -> bool, generates: string -> bool)
    ensures var r := LicenseStep(license, found, generates);
      (r.LicenseWritten? <==>
        Truthy(license) && LicenseTemplate(license) != "" && found(LicenseTemplate(license)) && generates(LicenseTemplate(license))) &&
      (r.LicenseWritten? ==> r.template == LicenseTemplate(license)) &&
      (r == TemplateNotFound <==> Truthy(license) && !found(LicenseTemplate(license))) &&
      (r == NoLicense <==> !Truthy(license)) &&
      !r.LicenseThrows?
  {
  }

  /** The two steps differ only where the template is missing. */
  lemma LicenseStepAgrees(license: JsValue, found: string -> bool, generates: string -> bool)
    ensures LicenseStepAsWritten(license, found, generates) == LicenseStep(license, found, generates) <==>
      !Truthy(license) || found(LicenseTemplate(license))
  {
  }

  /**
   * `validatePluginOnly`: false when the meta file is missing; otherwise the
   * schema verdict on what `readJSON` gives, with a validator that throws
   * counted as false.
   */
  function ValidatePluginOnly(metaExists: bool, parsed: Option<JsValue>, validate: JsValue -> Outcome<bool>): (r: bool)
    ensures r <==> metaExists && validate(ReadJSON(parsed)) == Returns(true)
  {
    if !metaExists then false
    else
      match validate(ReadJSON(parsed))
      case Throws(_) => false
      case Returns(valid) => valid
  }

  /** The checks of `validatePlugin`, in order. */
  datatype Stage = MetaStage | WidgetsStage | InputsStage | AlgorithmsStage

  /** One check: whether it applies (its directory exists) and whether it passes. */
  datatype Check = Check(stage: Stage, applies: bool, passes: bool)

  /** The checks run in order, skipping those that do not apply, until one fails: the stages run and the verdict. */
  function RunChecks(checks: seq<Check>): (seq<Stage>, bool)
    decreases |checks|
  {
    if checks == [] then ([], true)
    else if !checks[0].applies then RunChecks(checks[1..])
    else if !checks[0].passes then ([checks[0].stage], false)
    else
      var (rest, ok) := RunChecks(checks[1..]);
      ([checks[0].stage] + rest, ok)
  }

  /** The stages of the checks that apply. */
  function AppliedStages(checks: seq<Check>): seq<Stage>
    decreases |checks|
  {
    if checks == [] then []
    else (if checks[0].applies then [checks[0].stage] else []) + AppliedStages(checks[1..])
  }

  /** The verdict is true exactly when every check that applies passes. */
  lemma {:induction false} RunChecksVerdict(checks: seq<Check>)
    decreases |checks|
    ensures RunChecks(checks).1 <==> forall i :: 0 <= i < |checks| && checks[i].applies ==> checks[i].passes
  {
    if checks != [] {
      RunChecksVerdict(checks[1..]);
      assert forall i :: 1 <= i < |checks| ==> checks[i] == checks[1..][i - 1];
    }
  }

  /** When every check that applies passes, all of them ran, in order. */
  lemma {:induction false} RunChecksAllRan(checks: seq<Check>)
    requires forall i :: 0 <= i < |checks| && checks[i].applies ==> checks[i].passes
    decreases |checks|
    ensures RunChecks(checks) == (AppliedStages(checks), true)
  {
    if checks != [] {
      var tail := checks[1..];
      assert forall i :: 1 <= i < |checks| ==> checks[i] == tail[i - 1];
      RunChecksAllRan(tail);
      assert AppliedStages(checks) == (if checks[0].applies then [checks[0].stage] else []) + AppliedStages(tail);
      if !checks[0].applies {
        assert AppliedStages(checks) == AppliedStages(tail);
      }
    }
  }

  /**
   * At the first applicable check that fails the run stops with false,
   * having run exactly the applicable checks up to and including it.
   */
  lemma {:induction false} RunChecksStop(checks: seq<Check>, k: nat)
    requires k < |checks| && checks[k].applies && !checks[k].passes
    requires forall i :: 0 <= i < k && checks[i].applies ==> checks[i].passes
    decreases k
    ensures RunChecks(checks) == (AppliedStages(checks[..k + 1]), false)
  {
    var tail := checks[1..];
    assert checks[..k + 1][1..] == tail[..k];
    if k == 0 {
      assert checks[..1][0] == checks[0] && checks[..1][1..] == [];
      assert AppliedStages(checks[..1]) == [checks[0].stage] + AppliedStages([]);
      assert [checks[0].stage] + [] == [checks[0].stage];
    } else {
      assert forall i :: 1 <= i < |checks| ==> checks[i] == tail[i - 1];
      RunChecksStop(tail, k - 1);
      assert checks[..k + 1][0] == checks[0];
      assert AppliedStages(checks[..k + 1]) == (if checks[0].applies then [checks[0].stage] else []) + AppliedStages(tail[..k]);
      if !checks[0].applies {
        assert AppliedStages(checks[..k + 1]) == AppliedStages(tail[..k]);
      }
    }
  }

  /** One check in front of the others. */
  lemma RunChecksCons(c: Check, rest: seq<Check>)
    ensures RunChecks([c] + rest) ==
      if !c.applies then RunChecks(rest)
      else if !c.passes then ([c.stage], false)
      else ([c.stage] + RunChecks(rest).0, RunChecks(rest).1)
  {
    assert ([c] + rest)[1..] == rest;
  }

  /** A component directory of the plugin: whether it exists, its listing, what its meta files read as, and the component validator. */
  datatype ComponentDir = ComponentDir(present: bool, files: seq<string>, read: string -> Obj, valid: Obj -> bool)

  /** The checks `validatePlugin` runs: the plugin meta, then the widgets, input blocks and algorithms directories. */
  function PluginChecks(metaOk: bool, widgets: ComponentDir, inputs: ComponentDir, algorithmsPresent: bool, algorithmsOk: bool): seq<Check> {
    [Check(MetaStage, true, metaOk),
     Check(WidgetsStage, widgets.present, MetaFilesRun(widgets.files, widgets.read, widgets.valid).1),
     Check(InputsStage, inputs.present, MetaFilesRun(inputs.files, inputs.read, inputs.valid).1),
     Check(AlgorithmsStage, algorithmsPresent, algorithmsOk)]
  }

  /**
   * `validatePlugin`. `links` is true for aiverify-plugin, which first
   * links ./node_modules, and false for the older ai-verify-plugin. The
   * algorithm validator is given by its verdict `algorithmsOk`.
   */
  method ValidatePlugin(links: bool, nodeModulesExists: bool, metaExists: bool, parsed: Option<JsValue>,
                        validate: JsValue -> Outcome<bool>, widgets: ComponentDir, inputs: ComponentDir,
                        algorithmsPresent: bool, algorithmsOk: bool)
    returns (linked: bool, run: seq<Stage>, ok: bool)
    ensures linked <==> links && LinkModulePath(nodeModulesExists)
    ensures run == RunChecks(PluginChecks(ValidatePluginOnly(metaExists, parsed, validate), widgets, inputs, algorithmsPresent, algorithmsOk)).0
    ensures ok == RunChecks(PluginChecks(ValidatePluginOnly(metaExists, parsed, validate), widgets, inputs, algorithmsPresent, algorithmsOk)).1
  {
    linked := links && LinkModulePath(nodeModulesExists);
    var metaOk := ValidatePluginOnly(metaExists, parsed, validate);
    ghost var c3 := Check(AlgorithmsStage, algorithmsPresent, algorithmsOk);
    ghost var c2 := Check(InputsStage, inputs.present, MetaFilesRun(inputs.files, inputs.read, inputs.valid).1);
    ghost var c1 := Check(WidgetsStage, widgets.present, MetaFilesRun(widgets.files, widgets.read, widgets.valid).1);
    ghost var t3 := [c3] + [];
    ghost var t2 := [c2] + t3;
    ghost var t1 := [c1] + t2;
    assert PluginChecks(metaOk, widgets, inputs, algorithmsPresent, algorithmsOk) == [Check(MetaStage, true, metaOk)] + t1;
    RunChecksCons(c3, []);
    RunChecksCons(c2, t3);
    RunChecksCons(c1, t2);
    RunChecksCons(Check(MetaStage, true, metaOk), t1);
    assert RunChecks([]) == ([], true);
    run := [MetaStage];
    if !metaOk {
      return linked, run, false;
    }
    if widgets.present {
      var widgetsOk, _ := ValidateComponents(true, widgets.files, widgets.read, widgets.valid);
      run := run + [WidgetsStage];
      if !widgetsOk {
        return linked, run, false;
      }
    }
    ghost var wPart: seq<Stage> := if widgets.present then [WidgetsStage] else [];
    assert run == [MetaStage] + wPart;
    if inputs.present {
      var inputsOk, _ := ValidateComponents(true, inputs.files, inputs.read, inputs.valid);
      run := run + [InputsStage];
      if !inputsOk {
        assert RunChecks(t2).0 == [InputsStage];
        return linked, run, false;
      }
    }
    ghost var iPart: seq<Stage> := if inputs.present then [InputsStage] else [];
    assert run == [MetaStage] + wPart + iPart;
    if algorithmsPresent {
      run := run + [AlgorithmsStage];
      if !algorithmsOk {
        assert RunChecks(t3).0 == [AlgorithmsStage];
        return linked, run, false;
      }
    }
    ghost var aPart: seq<Stage> := if algorithmsPresent then [AlgorithmsStage] else [];
    assert run == [MetaStage] + wPart + iPart + aPart;
    assert RunChecks(t3).0 == aPart + [] && RunChecks(t3).1;
    assert RunChecks(t2).0 == iPart + (aPart + []) && RunChecks(t2).1;
    assert RunChecks(t1).0 == wPart + (iPart + (aPart + [])) && RunChecks(t1).1;
    assert [MetaStage] + wPart + iPart + aPart == [MetaStage] + (wPart + (iPart + (aPart + [])));
    return linked, run, true;
  }

  /**
   * `validatePlugin` answers true exactly when the plugin meta is valid and
   * every component directory that exists passes; an invalid plugin meta
   * stops it before any component is looked at.
   */
  lemma ValidatePluginVerdict(metaOk: bool, widgets: ComponentDir, inputs: ComponentDir, algorithmsPresent: bool, algorithmsOk: bool)
    ensures var (run, ok) := RunChecks(PluginChecks(metaOk, widgets, inputs, algorithmsPresent, algorithmsOk));
      (ok <==>
         metaOk &&
         (widgets.present ==> MetaFilesRun(widgets.files, widgets.read, widgets.valid).1) &&
         (inputs.present ==> MetaFilesRun(inputs.files, inputs.read, inputs.valid).1) &&
         (algorithmsPresent ==> algorithmsOk)) &&
      (!metaOk ==> run == [MetaStage])
  {
    var checks := PluginChecks(metaOk, widgets, inputs, algorithmsPresent, algorithmsOk);
    RunChecksVerdict(checks);
    assert checks[0].applies && checks[0].passes == metaOk;
    assert checks[1] == Check(WidgetsStage, widgets.present, MetaFilesRun(widgets.files, widgets.read, widgets.valid).1);
    assert checks[2] == Check(InputsStage, inputs.present, MetaFilesRun(inputs.files, inputs.read, inputs.valid).1);
    assert checks[3] == Check(AlgorithmsStage, algorithmsPresent, algorithmsOk);
    if !metaOk {
      RunChecksStop(checks, 0);
      assert checks[..1][0] == checks[0] && checks[..1][1..] == [];
      assert AppliedStages(checks[..1]) == [MetaStage] + AppliedStages([]);
      assert [MetaStage] + [] == [MetaStage];
    }
  }
}
