# A verified model of the AI Verify test engine and plugin tool

This project models, in Dafny, the decision logic of two parts of AI Verify's developer tools.

**The test engine** is a pool of Python worker processes. Each worker reads jobs from a message stream. A job is either an algorithm **task** or one of two **validation services** (validate a dataset, validate a model). Run by a worker, a job:

1. parses its message with an error-counting argument validator;
2. resolves its data, model and algorithm plugins through the **plugin registry** (one insertion-ordered dict of modules per plugin kind);
3. moves its metadata record through its statuses;
4. sends a formatted response.

The worker acknowledges a message only after that response went through. At start-up it re-answers the messages still pending from an earlier run, as failures, without running them. The engine's other parts are modelled too:

- the plugin controller, which installs a missing algorithm from the algorithm registry and retries once;
- the error list every job keeps;
- the start-up settings;
- the package-requirement checks;
- the progress counter;
- the allocation of worker roles at start-up.

**The plugin-authoring tool** (`ai-verify-plugin`, and its successor `aiverify-plugin`) is a Node.js command line that generates and packages plugins. The model covers:

- its option validators;
- the "fill if absent or forced" rule that merges command-line options into a component's meta file;
- the renaming of template files;
- the widget and input-block generators;
- the plugin validator;
- the zip packager;
- the sample input block's progress functions.

The plugins' own code, the child process that runs an algorithm, the message broker, the file system and the JSON-schema validator are not modelled. Each is a parameter of the operations that use it: a function, a predicate or a given outcome. So every property holds for every behaviour of those components.

Module layout: one module per source file.

- **Shared modules:**
  - `Wrappers` (Option);
  - `OrderedDict` (Python's insertion-ordered dict);
  - `Enums`;
  - `Arguments` and `Tally` (the error-counting convention);
  - `JsValues` (JavaScript values and the meta merge rule).
- **State-changing source.** These become classes whose methods are proved against state-to-state functions:
  - the task and validation jobs;
  - the registry;
  - the error manager;
  - the settings;
  - the progress counter;
  - the worker.
- **Loops** become methods with invariants, proved against recursive functions.

The comment at test_engine_app/processing/task.py:172-173 says that a task whose message fails parsing is reported under its id when an id can be read. The guard below that comment never lets this happen (first row under Findings). The model states the guard as written, with a lemma showing that it never fires. `Task.Process` uses the corrected guard (see `Process` under Left out).

## Model

| member | source | states |
|---|---|---|
| AlgorithmManager.ArgumentDict.Set | test_engine_core/plugins/algorithm_manager.py:55-62 | an item assignment replaces the key's value in place or appends a new key, keeping every other entry and the order |
| AlgorithmManager.RunTimeArgumentsWritten | test_engine_core/plugins/algorithm_manager.py:55-62 | the four run-time keys (project base path, logger, progress callback, ground truth) get their new values, overwriting same-named entries, and every other key is untouched |
| AlgorithmManager.GetAlgorithm | test_engine_core/plugins/algorithm_manager.py:27-85 | success exactly when the requested id is a registry key; on failure no plugin, the arguments unchanged and "Unsupported algorithm: <id>"; on success the arguments gain the run-time entries and the plugin is built from them with an empty message |
| DataManager.TryToIdentifyDataFormat | test_engine_core/plugins/data_manager.py:124-149 | success exactly when some data plugin, in registry order, supports the data; the instance is the first supporting plugin's, or the last one built when none supports it |
| DataManager.DataFileResult | test_engine_core/plugins/data_manager.py:29-88 | a serializer is returned exactly when one deserializes the file; success exactly when an instance is returned, and then the message is empty |
| DataManager.ReadDataFile | test_engine_core/plugins/data_manager.py:29-122 | the deserialize-then-identify steps return exactly the result described by DataFileResult |
| DataManager.OrderDecidesDataFormat | test_engine_core/plugins/data_manager.py:143-147 | when two data plugins both accept the data, the one earlier in the registry wins |
| ModelManager.Instantiate | test_engine_core/plugins/model_manager.py:189-193 | the one-argument constructor exactly when both API schema and config are None, the three-argument one otherwise |
| ModelManager.TryToIdentifyModelFormat | test_engine_core/plugins/model_manager.py:167-199 | success exactly when some model plugin, in registry order, supports the model; the instance is the first supporting plugin's, or the last built |
| ModelManager.ModelApiResult | test_engine_core/plugins/model_manager.py:29-69 | an API model never has a serializer; success exactly when some plugin supports it, and then an instance and an empty message |
| ModelManager.ReadModelApi | test_engine_core/plugins/model_manager.py:29-69 | returns exactly ModelApiResult |
| ModelManager.ModelFileResult | test_engine_core/plugins/model_manager.py:71-131 | a serializer exactly when one deserializes the file; success exactly when an instance is returned, with an empty message |
| ModelManager.FileModelsUseOneArgument | test_engine_core/plugins/model_manager.py:104-106 | a model read from a file is always built with the one-argument constructor |
| ModelManager.ReadModelFile | test_engine_core/plugins/model_manager.py:71-165 | the deserialize-then-identify steps return exactly ModelFileResult |
| Arguments.PathErrors | test_engine_app/processing/task_argument.py:166-187 | at most one error: not a string, else empty, else not found; no error exactly when the path is a non-blank string that exists |
| Arguments.ModelApiErrors | test_engine_app/processing/task_argument.py:246-264 | one error for each of schema and config that is not a dict, checked independently |
| Arguments.PyStr | test_engine_app/processing/validate_model_argument.py:77-82 | formatting a field into a message gives a string as itself and any other non-None value as its given text |
| JsonUtils.ScanForSingleQuotes | test_engine_core/utils/json_utils.py:9-19 | same length, every single quote becomes a double quote and nothing else changes, so no single quote is left |
| JsonUtils.ToList | test_engine_core/utils/json_utils.py:42-43 | `tolist()` keeps the array's length |
| JsonUtils.Put | test_engine_core/utils/json_utils.py:52-53 | an update replaces an existing key in place or appends a new key, and keeps keys unique |
| JsonUtils.Collect | test_engine_core/utils/json_utils.py:50-54 | the dict built by successive updates has unique keys |
| JsonUtils.NoneStaysNone | test_engine_core/utils/json_utils.py:33-34 | None is returned as None |
| JsonUtils.ScalarsUnchanged | test_engine_core/utils/json_utils.py:56-57 | values that are neither containers nor numpy values are returned unchanged |
| JsonUtils.ListElementwise | test_engine_core/utils/json_utils.py:45-48 | a list keeps its length and order, each element converted on its own |
| JsonUtils.CollectFrom | test_engine_core/utils/json_utils.py:50-54 | every entry of the rebuilt dict comes from one of the converted pairs |
| JsonUtils.CollectUnique | test_engine_core/utils/json_utils.py:50-54 | rebuilding from pairs whose keys are already distinct gives the pairs back |
| JsonUtils.ToListPlain | test_engine_core/utils/json_utils.py:42-43 | `tolist()` leaves no numpy value behind |
| JsonUtils.RemoveNumpyFormatsPlain | test_engine_core/utils/json_utils.py:22-57 | the result holds no numpy value and only string dict keys |
| JsonUtils.PlainUnchanged | test_engine_core/utils/json_utils.py:22-57 | a value already free of numpy values and with string keys is returned unchanged |
| JsonUtils.Idempotent | test_engine_core/utils/json_utils.py:22-57 | converting the result again changes nothing |
| JsonUtils.DictKeysAreText | test_engine_core/utils/json_utils.py:50-54 | a dict result has only `str(key)` keys |
| JsonUtils.ConvertListInPlace | test_engine_core/utils/json_utils.py:45-48 | the in-place loop replaces each element by its converted value, so the array ends up as the converted list |
| ErrorRecord.Lower | test_engine_core/logging/error.py:50 | same length, ASCII upper-case letters lowered and everything else kept |
| ErrorRecord.GetDict | test_engine_core/logging/error.py:39-53 | exactly the six keys, with the category and origin names, the lower-cased severity name, and code, description and component as given |
| ErrorRecord.GetDictInjective | test_engine_core/logging/error.py:39-53 | the dictionary form loses nothing: equal dictionaries come from equal errors |
| ErrorManagement.CategoryTable | test_engine_core/logging/error_manager.py:161-185 | the category lookup accepts exactly DAT, MOD, ARG, TST and SYS, and inverts the code of every category |
| ErrorManagement.SeverityTable | test_engine_core/logging/error_manager.py:187-209 | the severity lookup accepts exactly Information, Critical, System and Warning, and inverts the code of every severity |
| ErrorManagement.OriginTable | test_engine_core/logging/error_manager.py:211-229 | the origin lookup accepts exactly User and System, and inverts the code of every origin |
| ErrorManagement.NewError | test_engine_core/logging/error_manager.py:89-109 | no error exactly when description, code or component is missing or a category, severity or origin is unknown; otherwise the error with the looked-up values and the description's single quotes replaced |
| ErrorManagement.ErrorFileName | test_engine_core/logging/error_manager.py:42-50 | None or a blank name keeps the current name; any other name is stripped and becomes the name, never empty |
| ErrorManagement.Appended | test_engine_core/logging/error_manager.py:104-112 | the error list is unchanged when no error is built, and otherwise gains exactly that error at the end |
| ErrorManagement.ErrorManager.constructor | test_engine_core/logging/error_manager.py:17-24 | the four initial fields: name "error_file", empty path and list, folder "errors" |
| ErrorManagement.ErrorManager.CreateErrorManager | test_engine_core/logging/error_manager.py:26-62 | success exactly when the folder is ready; then the name follows ErrorFileName and the path is `<cwd>/errors/<name>.json`; on failure name and path are unchanged; the error list never changes |
| ErrorManagement.ErrorManager.AddErrorToList | test_engine_core/logging/error_manager.py:64-112 | name and path are kept and the list becomes Appended with NewError's outcome |
| ErrorManagement.ErrorManager.GetErrorsAsDicts | test_engine_core/logging/error_manager.py:140-150 | one dictionary per error, in list order, each the error's GetDict |
| Tally.JoinAppend | test_engine_app/processing/task_argument.py:159-162 | concatenating the messages of two runs of checks is the message of their failed checks together |
| Tally.JoinOne | test_engine_app/processing/task_argument.py:176-178 | one failure contributes its text and a ';' |
| Tally.CountSemicolons | test_engine_app/processing/task_argument.py:159-162 | a message holds no more ';' than characters |
| Tally.CountSemicolonsAppend | test_engine_app/processing/task_argument.py:159-162 | the ';' count of a concatenation is the sum of the counts |
| Tally.NoSemicolons | test_engine_app/processing/task_argument.py:176-178 | a text without ';' counts zero |
| Tally.CountIsSemicolons | test_engine_app/processing/task_argument.py:135-164 | when no error text holds ';' of its own, the error count equals the number of ';' in the error message |
| Arguments.ArgTextWithoutSemicolon | test_engine_app/processing/task_argument.py:174-299 | no argument error text holds a ';' of its own |
| Arguments.ErrorCountIsSemicolons | test_engine_app/processing/task_argument.py:135-164 | the number of argument errors equals the number of ';' in their joined message |
| EnvConfig.EnvTextWithoutSemicolon | test_engine_app/config/environment_variables.py:112-142 | no settings error text holds a ';' of its own |
| EnvConfig.ErrorCountIsSemicolons | test_engine_app/config/environment_variables.py:89-144 | the number of settings errors equals the number of ';' in their joined message |
| Tally.Flatten | test_engine_app/processing/task_argument.py:159-162 | no failure overall exactly when no check failed |
| Tally.Accumulate | test_engine_app/processing/task_argument.py:135-164 | the loop over the checks returns as count the number of failed checks and as message their texts in order, each followed by ';' |
| EnvConfig.FailedChecks | test_engine_app/config/environment_variables.py:111-144 | no check fails exactly when both folders are directories, group and host name are not blank and both ports are in 1..65535 |
| EnvConfig.ValidateData | test_engine_app/config/environment_variables.py:89-144 | the error count is zero exactly when the settings are acceptable, and it equals the number of ';' in the error message |
| EnvConfig.ReadFile | test_engine_app/config/environment_variables.py:51-61 | reading fails exactly when a port text is not a number (the ValueError path) |
| EnvConfig.EnvironmentVariables.constructor | test_engine_app/config/environment_variables.py:15-22 | the class-level defaults relative to the working directory |
| EnvConfig.EnvironmentVariables.Reset | test_engine_app/config/environment_variables.py:24-38 | every value goes back to its default |
| EnvConfig.EnvironmentVariables.Load | test_engine_app/config/environment_variables.py:40-87 | without a `.env` file nothing changes; otherwise all six values are replaced together when the read values validate, and none when reading or validation fails |
| EnvConfig.LoadedValuesValid | test_engine_app/config/environment_variables.py:72-80 | after a replacing load both ports are in range, and the consumer group and the host name are neither blank nor "None" or "none" |
| Requirements.Lookup | test_engine_app/utils/requirements_checks.py:50-53 | a version is found exactly when some package has exactly that name |
| Requirements.LookupIsFirst | test_engine_app/utils/requirements_checks.py:50-52 | the version found is the earliest matching entry's |
| Requirements.GetPackageVersion | test_engine_app/utils/requirements_checks.py:35-53 | the loop finds exactly the packages Lookup finds, returns the first match's version, and otherwise "Unable to get package version" |
| Requirements.Find | test_engine_app/utils/requirements_checks.py:75 | `str.find`: -1 exactly when the character is absent, otherwise the index of its first occurrence |
| Requirements.MinPositive | test_engine_app/utils/requirements_checks.py:74-81 | the smallest positive position exists exactly when some position is positive, and is at most every positive one |
| Requirements.NameEnd | test_engine_app/utils/requirements_checks.py:68-83 | the name ends at the earliest token found at a positive index, which exists exactly when some token is found there |
| Requirements.Min | test_engine_app/utils/requirements_checks.py:81 | `min` of a non-empty list is one of its elements and at most every element |
| Requirements.ExtractPackageName | test_engine_app/utils/requirements_checks.py:56-87 | success exactly when a token is found at a positive index; then the name is the text before the earliest one, otherwise "Unable to determine the package name" |
| Requirements.NameHasNoToken | test_engine_app/utils/requirements_checks.py:80-83 | a requirement that does not start with a token gives a name containing none of `=`, `>`, `<` |
| Requirements.RemoveEmpty | test_engine_app/utils/requirements_checks.py:90-101 | no longer than the input, and every kept element is a truthy element of the input |
| Requirements.RemoveEmptyAppend | test_engine_app/utils/requirements_checks.py:100 | the comprehension is a filter: it distributes over concatenation |
| Requirements.RemoveEmptyKeepsTruthy | test_engine_app/utils/requirements_checks.py:100 | every truthy element survives |
| Requirements.VersionTupleAsWritten | test_engine_app/utils/requirements_checks.py:151-154 | the filtered version tuple has at most five parts |
| Requirements.AsWrittenConflatesVersions | test_engine_app/utils/requirements_checks.py:154 | versions 1.0.5 and 1.5.0 both reach the compatibility test as (1, 5) |
| Requirements.VersionTuple | test_engine_app/utils/requirements_checks.py:151-154 | the intended tuple starts with all three version numbers, followed only by non-empty label parts |
| Requirements.VersionTupleKeepsNumbers | test_engine_app/utils/requirements_checks.py:151-159 | equal intended tuples come from versions with equal numbers |
| Requirements.AsWrittenAgreesWithoutZeros | test_engine_app/utils/requirements_checks.py:151-154 | for a version with no zero number the tuple as written is the intended one |
| Requirements.IsPackageInJson | test_engine_app/utils/requirements_checks.py:126-169 | the name error is passed on, a missing package gives its message, a version parse error propagates; the compatibility test is asked with the tuple as written (zero numbers dropped); a ValueError from the test gives "Error handling package version value", and otherwise the test's verdict with "" or "Not compatible" |
| Progress.AsInt | test_engine_core/utils/simple_progress.py:23 | `isinstance(x, int)` accepts ints and booleans (as 1 and 0) and nothing else |
| Progress.TruncDiv | test_engine_core/utils/simple_progress.py:35 | `int()` truncates toward zero, for either sign of the numerator |
| Progress.TruncDivBounds | test_engine_core/utils/simple_progress.py:35 | a share between 0 and 100 truncates to between 0 and 100 |
| Progress.Percent | test_engine_core/utils/simple_progress.py:26-39 | 0 when either value is None or the total is not positive; between 0 and 100 when the completed count is within the total; 100 when everything is complete |
| Progress.PercentMonotone | test_engine_core/utils/simple_progress.py:26-39 | more completed work never lowers the percentage |
| Progress.SimpleProgress.constructor | test_engine_core/utils/simple_progress.py:9-14 | the given total, completed count and callback, and nothing reported yet |
| Progress.SimpleProgress.GetProgress | test_engine_core/utils/simple_progress.py:26-39 | the percentage of the current state |
| Progress.SimpleProgress.AddTotal | test_engine_core/utils/simple_progress.py:16-24 | an int amount is added when the total is not None; everything else is unchanged |
| Progress.SimpleProgress.Update | test_engine_core/utils/simple_progress.py:41-53 | an int value is added when the completed count is not None, and a callable callback then receives the new percentage exactly once |
| ValidationChecks.StripLeft | test_engine_app/utils/validation_checks.py:43 | a suffix of the input, starting with a non-space, with only whitespace dropped |
| ValidationChecks.StripRight | test_engine_app/utils/validation_checks.py:43 | a prefix of the input, ending with a non-space, with only whitespace dropped |
| ValidationChecks.StripEmptyIffAllSpace | test_engine_app/utils/validation_checks.py:43 | a string strips to nothing exactly when every character is whitespace |
| ValidationChecks.IsEmptyString | test_engine_app/utils/validation_checks.py:30-43 | None is empty |
| ValidationChecks.EmptyStringStrips | test_engine_app/utils/validation_checks.py:40-43 | a string is empty exactly when it is "None", "none", "" or strips to nothing |
| ValidationChecks.NoneTestIsExact | test_engine_app/utils/validation_checks.py:40-43 | "NONE" and " None " are not empty; a blank string is, also one of non-ASCII spaces (no-break space, ideographic space, unit separator) |
| ValidationChecks.NonBlankIsNotEmpty | test_engine_app/utils/validation_checks.py:40-43 | a string with a non-space character, other than "None" and "none", is not empty |
| Plugins.LastModule | test_engine_core/plugins/data_manager.py:143-149 | a loop that never breaks leaves a module in its variable exactly when the dict is not empty |
| Plugins.TryToDeserialize | test_engine_core/plugins/data_manager.py:90-122 | success exactly when some serializer, in registry order, deserializes the file; then the first such serializer and what it returned; otherwise no data and the last serializer tried |
| PluginsManager.InitialWellFormed | test_engine_core/plugins/plugins_manager.py:30 | the class-level registry has one empty dict for every plugin kind |
| PluginsManager.ModuleName | test_engine_core/plugins/plugins_manager.py:74 | removing the ".py" suffix never lengthens the file name |
| PluginsManager.Collect | test_engine_core/plugins/plugins_manager.py:66-94 | the modules collected by discovery have distinct names |
| PluginsManager.LastAccepted | test_engine_core/plugins/plugins_manager.py:87-94 | the module kept last is one of the accepted candidates |
| PluginsManager.CollectTagged | test_engine_core/plugins/plugins_manager.py:91-92 | with a tag, discovery keeps at most one module, the last accepted one, under the tag |
| PluginsManager.KeptAsStep | test_engine_core/plugins/plugins_manager.py:67-94 | a name is kept after one more candidate exactly when it was kept before or the new candidate is accepted under it |
| PluginsManager.CollectUntagged | test_engine_core/plugins/plugins_manager.py:93-94 | without a tag, the collected names are exactly the names of the accepted candidates |
| PluginsManager.CollectUntaggedNoDunder | test_engine_core/plugins/plugins_manager.py:74-76 | without a tag, no collected name contains "__" |
| PluginsManager.Register | test_engine_core/plugins/plugins_manager.py:402-419 | registration keeps one dict per kind with distinct names |
| PluginsManager.RegisterNeverOverwrites | test_engine_core/plugins/plugins_manager.py:416-419 | a name already registered under a kind keeps its module |
| PluginsManager.RegisterAdds | test_engine_core/plugins/plugins_manager.py:410-419 | afterwards every found name is registered under its module's kind |
| PluginsManager.TaggedDiscoveryOfRegisteredTag | test_engine_core/plugins/plugins_manager.py:91-92 | re-discovering under a tag that is already registered changes nothing |
| PluginsManager.RouteOf | test_engine_core/plugins/plugins_manager.py:126-133 | DATA goes to data loading, MODEL to model loading, every other kind to algorithm lookup |
| PluginsManager.FromLoad | test_engine_core/plugins/plugins_manager.py:217-222 | a load result becomes an instance exactly when it succeeded, and a RuntimeError otherwise |
| PluginsManager.InstanceFor | test_engine_core/plugins/plugins_manager.py:187-311 | an algorithm request succeeds exactly when its id is registered, and then gives an instance, no serializer and an empty message |
| PluginsManager.PluginManager.constructor | test_engine_core/plugins/plugins_manager.py:30 | the registry starts with one empty dict per kind |
| PluginsManager.PluginManager.Discover | test_engine_core/plugins/plugins_manager.py:48-106 | the registry becomes the old one with the collected modules registered |
| PluginsManager.PluginManager.UpdatePluginModules | test_engine_core/plugins/plugins_manager.py:402-419 | the registry becomes Register of the old one and the modules |
| PluginsManager.PluginManager.IsPluginExists | test_engine_core/plugins/plugins_manager.py:146-162 | true exactly when the name is a key under that kind |
| PluginsManager.PluginManager.DeletePluginsByType | test_engine_core/plugins/plugins_manager.py:313-324 | the name is removed from that kind's dict when present; nothing else changes |
| PluginsManager.PluginManager.RemovePlugin | test_engine_core/plugins/plugins_manager.py:164-185 | deletes the name, and reports true exactly when it is no longer present, which is always |
| PluginsManager.PluginManager.GetInstance | test_engine_core/plugins/plugins_manager.py:108-133 | returns InstanceFor the current registry and writes the algorithm arguments as the algorithm route does |
| PluginControl.IdField | test_engine_app/processing/plugin_controller.py:110 | `kwargs.get("algorithm_id")` is None exactly when the id is absent, and the id's text otherwise |
| PluginControl.FromAlgorithmRegistry | test_engine_app/processing/plugin_controller.py:372-390 | an info exactly when the registry's response is non-empty, carrying the asked id and the response's path and ground-truth flag |
| PluginControl.GetPluginInformation | test_engine_app/processing/plugin_controller.py:56-79 | information exactly for an algorithm the registry knows, and then for the asked id |
| PluginControl.Returned | test_engine_app/processing/plugin_controller.py:348-370 | a RuntimeError becomes no instance, no serializer and its text as the message; success passes the triple on |
| PluginControl.GetFromPluginManager | test_engine_app/processing/plugin_controller.py:329-370 | never raises: returns the plugin manager's answer turned by Returned, with the same argument writes |
| PluginControl.NeedsRegistryExactly | test_engine_app/processing/plugin_controller.py:107 | an algorithm request gives no instance exactly when its id is not registered, and then the arguments are untouched |
| PluginControl.GetPluginInstance | test_engine_app/processing/plugin_controller.py:81-144 | a request that finds its plugin is answered once and the registry is unchanged; a missing algorithm is looked up in the algorithm registry, and when found its folder is discovered tagged with the id and the request is asked again |
| PluginControl.TaggedDiscoveryInstalls | test_engine_app/processing/plugin_controller.py:133-142 | discovering the folder of a missing algorithm whose last loadable module is an algorithm registers it under the id, so the second request finds it |
| PluginControl.InstallCallback | test_engine_app/processing/plugin_controller.py:146-219 | an empty id, an id already registered and one the registry does not know each leave the plugins unchanged; otherwise its folder is discovered tagged with the id, reported installed exactly when the id is then registered |
| PluginControl.UpdateCallback | test_engine_app/processing/plugin_controller.py:221-282 | as written: an empty id, an unregistered id and one the registry does not know leave the plugins unchanged; otherwise its folder is discovered tagged with the id and the update is reported done |
| PluginControl.UpdateKeepsOldModule | test_engine_app/processing/plugin_controller.py:260-262 | an update reported done leaves the id registered with the module it had before |
| PluginControl.UpdateDropsNewModule | test_engine_app/processing/plugin_controller.py:260-262 | concretely: module 1 stays registered although the folder now holds module 2 |
| PluginControl.UpdateCallbackReplacing | test_engine_app/processing/plugin_controller.py:221-282 | the corrected update: same outcomes, and when done the module now found in the folder is the one registered under the id |
| PluginControl.TaggedDiscoveryRegistersLast | test_engine_app/processing/plugin_controller.py:260-262 | discovering a missing id registers the folder's last loadable module under it, when that module is an algorithm |
| PluginControl.DeleteCallback | test_engine_app/processing/plugin_controller.py:284-327 | an empty or unregistered id leaves the plugins unchanged; a registered one is removed from the algorithms, and nothing else changes |
| AppLauncher.Allocation | test_engine_app/test_engine_app.py:76-110 | one submission per available process |
| AppLauncher.AllocationShape | test_engine_app/test_engine_app.py:93-110 | worker ids are 1..n in submission order; the first is the API worker, the last the service worker, the rest process workers |
| AppLauncher.CountRole | test_engine_app/test_engine_app.py:76-82 | no more workers of a role than submissions |
| AppLauncher.AllocationCounts | test_engine_app/test_engine_app.py:76-82 | exactly one API worker, one service worker and n - 2 process workers |
| AppLauncher.TestEngineApp.constructor | test_engine_app/test_engine_app.py:40-57 | the available process count is the CPU count, None when it cannot be determined, and nothing is submitted yet |
| AppLauncher.TestEngineApp.Run | test_engine_app/test_engine_app.py:59-117 | an unknown CPU count raises TypeError and submits nothing; with fewer than three processes nothing is submitted; otherwise the allocation is appended |
| TaskArgument.ModeOf | test_engine_app/processing/task_argument.py:90-93 | the mode is API exactly for the text "api"; anything else, or nothing, is UPLOAD |
| TaskArgument.ModelTypeOf | test_engine_app/processing/task_argument.py:100-106 | only the exact texts "classification" and "regression" give a model type |
| TaskArgument.GroundTruthErrors | test_engine_app/processing/task_argument.py:189-219 | at most two errors, and none exactly when the dataset path is a usable file and the column name is not blank |
| TaskArgument.AlgorithmErrors | test_engine_app/processing/task_argument.py:266-302 | one outcome out of: id not found, arguments rejected by the input schema, nothing when no ground truth is required, the failed pre-check when a ground-truth field is falsy, else the ground-truth checks |
| TaskArgument.AlgorithmAccepts | test_engine_app/processing/task_argument.py:266-302 | the algorithm check passes exactly when the algorithm is known, its arguments fit and, if it needs ground truth, both ground-truth fields are usable; at most two errors |
| TaskArgument.NonEmptyTextIsTruthy | test_engine_app/processing/task_argument.py:284-290 | a string `is_empty_string` rejects is truthy, so the pre-check adds no condition of its own |
| TaskArgument.CheckResults | test_engine_app/processing/task_argument.py:135-164 | the checks run are the data check, then the API or the upload check by mode, then the algorithm check |
| TaskArgument.ValidateBounds | test_engine_app/processing/task_argument.py:135-164 | a task has no errors exactly when each of its three checks passes, and has at most five errors |
| TaskArgument.ParseEffect | test_engine_app/processing/task_argument.py:68-133 | an invalid schema file gives its RuntimeError text; a missing schema file (FileNotFoundError), a message that is not JSON and JSON that is not an object (AttributeError) raise; a schema failure keeps only the id; otherwise every field is copied and the parse succeeds exactly when `validate` finds no error, and then the algorithm is known |
| TaskArgument.TaskArgumentParser.constructor | test_engine_app/processing/task_argument.py:49-66 | every field unset and the schema file under the given folder |
| TaskArgument.TaskArgumentParser.Validate | test_engine_app/processing/task_argument.py:135-164 | the count is the number of failed checks and the message their texts, each with ';'; the count equals the number of ';' in the message |
| TaskArgument.TaskArgumentParser.Parse | test_engine_app/processing/task_argument.py:68-133 | the outcome and the new fields are ParseEffect's |
| ValidateDatasetArgument.DatasetCheckResults | test_engine_app/processing/validate_dataset_argument.py:71-88 | the data file check only |
| ValidateDatasetArgument.DatasetChecks | test_engine_app/processing/validate_dataset_argument.py:90-111 | at most one error, and none exactly when the path is a usable file |
| ValidateDatasetArgument.ParseEffect | test_engine_app/processing/validate_dataset_argument.py:32-69 | a bad schema file gives its RuntimeError text; a missing schema file, a message that is not JSON and JSON that is not an object raise; a schema failure keeps the id; otherwise the id and path are copied and the parse succeeds, with an empty message, exactly when the path is usable |
| ValidateDatasetArgument.DatasetArgumentParser.constructor | test_engine_app/processing/validate_dataset_argument.py:24-30 | id and path unset and the schema file under the given folder |
| ValidateDatasetArgument.DatasetArgumentParser.Validate | test_engine_app/processing/validate_dataset_argument.py:71-88 | the data check's count and message; the count equals the number of ';' in the message |
| ValidateDatasetArgument.DatasetArgumentParser.Parse | test_engine_app/processing/validate_dataset_argument.py:32-69 | the outcome and the new id and path are ParseEffect's |
| ValidateModelArgument.ModeFromText | test_engine_app/processing/validate_model_argument.py:60-68 | a mode only for the exact texts "api" and "upload" |
| ValidateModelArgument.ModeErrors | test_engine_app/processing/validate_model_argument.py:114-128 | no error exactly when a mode is set |
| ValidateModelArgument.ModelCheckResults | test_engine_app/processing/validate_model_argument.py:88-112 | the mode check, then the API or the upload check |
| ValidateModelArgument.ParsedModelChecks | test_engine_app/processing/validate_model_argument.py:88-174 | with a mode set and the API fields left empty dicts, an API model always passes and an upload fails only when its path is unusable; at most one error |
| ValidateModelArgument.ParseEffect | test_engine_app/processing/validate_model_argument.py:39-86 | every exception (bad or missing schema file, text that is not JSON, JSON that is not an object) becomes (False, its text); a schema failure keeps the id and names it; an unknown mode is refused before any check; otherwise success exactly when the mode is API or the path is usable, with an empty message and a mode set |
| ValidateModelArgument.ModelArgumentParser.constructor | test_engine_app/processing/validate_model_argument.py:28-37 | id, mode and path unset, empty API dicts, the schema file under the given folder |
| ValidateModelArgument.ModelArgumentParser.Validate | test_engine_app/processing/validate_model_argument.py:88-112 | the mode and model checks' count and message; the count equals the number of ';' in the message |
| ValidateModelArgument.ModelArgumentParser.Parse | test_engine_app/processing/validate_model_argument.py:39-86 | the outcome and the new id, mode and path are ParseEffect's; the API fields are untouched |
| ServiceRecords.JobWarningRecorded | test_engine_app/processing/validate_dataset.py:280-287 | a warning with a known category is recorded exactly when its text, code and component are not empty, with its single quotes replaced |
| ServiceRecords.PendingServiceEnds | test_engine_app/processing/validate_dataset.py:268-292 | a pending validation loads nothing: it appends exactly one warning naming the id, and ends ERROR with result NONE |
| ServiceRecords.SetAndSend | test_engine_app/processing/validate_dataset.py:361-384 | the status is set; with a callback the metadata is sent, unless formatting it raises, which happens exactly while the result is unset, and then nothing is sent; the errors are kept |
| ServiceRecords.SettledSend | test_engine_app/processing/validate_dataset.py:318-359 | once the result is set, sending never raises: only the RUNNING update can |
| ServiceRecords.TerminalSetters | test_engine_app/processing/validate_dataset.py:318-359 | ERROR always comes with result NONE, DONE with VALID or INVALID; only VALID clears the error messages; the errors and the schema are kept |
| ServiceFormat.NameOrUnset | test_engine_app/processing/service_formatter.py:36-37 | a set member is sent as its lower-cased name, an unset one as "none" |
| ServiceFormat.FormatAsWrittenRaises | test_engine_app/processing/service_formatter.py:14-117 | the formatter as written raises exactly when the result is unset, or when a job that is not ERROR is VALID without a serializer type or without its format |
| ServiceFormat.SendRaisesAgrees | test_engine_app/processing/service_formatter.py:30-65 | before a job is VALID, formatting its update raises exactly where the result is unset, as SendRaises says |
| ServiceFormat.DatasetUpdatesFormat | test_engine_app/processing/validate_dataset.py:155-266 | every update a dataset job sends, from a record not yet VALID, can be formatted as written: SendRaises misses no raise |
| ServiceFormat.FormatAgrees | test_engine_app/processing/service_formatter.py:14-117 | wherever the formatter as written answers, the corrected one gives the same response |
| ServiceFormat.LowerIdempotent | test_engine_app/processing/service_formatter.py:36 | lower-casing twice is lower-casing once |
| ServiceFormat.ResponseKeys | test_engine_app/processing/service_formatter.py:14-117 | type, status and validationResult lead and logFile ends; errorMessages is sent exactly when the job is ERROR or not VALID, serializedBy and the format otherwise, and columns only for a VALID dataset |
| ServiceFormat.InitialResponse | test_engine_app/processing/service_metadata.py:27-35 | a job still at INIT, with no result, cannot be formatted as written; the corrected response says "none" |
| ServiceFormat.ParseFailureNotFormattable | test_engine_app/processing/service_formatter.py:56-64 | a job whose message fails to parse stays at INIT with no result, so formatting its response raises, for both services |
| ServiceFormat.FinishedDatasetJobsFormat | test_engine_app/processing/service_formatter.py:14-65 | every dataset job that ran, new or pending, can be formatted as written |
| ServiceFormat.ApiModelResponse | test_engine_app/processing/service_formatter.py:96-106 | a recognised API model ends VALID without a serializer: the formatter as written raises on it, the corrected one sends "serializedBy": "none" |
| TaskFormat.UpperChar | test_engine_app/processing/task_formatter.py:72 | ASCII upper-casing of one character |
| TaskFormat.InitialCase | test_engine_app/processing/task_formatter.py:60-73 | same length; the first character of the lower-cased text upper-cased and the rest lower-cased |
| TaskFormat.InitialCaseIdempotent | test_engine_app/processing/task_formatter.py:60-73 | initial case applied twice is applied once |
| TaskFormat.StatusText | test_engine_app/processing/task_formatter.py:35 | the status text is as long as the member name |
| TaskFormat.SuccessText | test_engine_app/processing/task_formatter.py:35 | SUCCESS is sent as "Success" |
| TaskFormat.PendingText | test_engine_app/processing/task_formatter.py:35 | PENDING is sent as "Pending" |
| TaskFormat.RunningText | test_engine_app/processing/task_formatter.py:35 | RUNNING is sent as "Running" |
| TaskFormat.ErrorText | test_engine_app/processing/task_formatter.py:35 | ERROR is sent as "Error" |
| TaskFormat.CancelledText | test_engine_app/processing/task_formatter.py:35 | CANCELLED is sent as "Cancelled" |
| TaskFormat.ErrorResponseKeys | test_engine_app/processing/task_formatter.py:31-43 | an ERROR task sends eight keys in order, with its raw results and the text of its error messages |
| TaskFormat.ResponseKeys | test_engine_app/processing/task_formatter.py:44-57 | any other task sends seven keys in order, with no error messages and its results converted (the empty string when there are none) |
| TaskFormat.OutputPlain | test_engine_app/processing/task_formatter.py:45-53 | the output of a task not in ERROR holds no numpy value, so it can be written as JSON |
| TaskFormat.OutputStable | test_engine_app/processing/task_formatter.py:46 | formatting the converted results again sends the same response |
| TaskFormat.NoResultsOutput | test_engine_app/processing/task_formatter.py:31-57 | a task without results (the metadata's initial "", also set on failure and cancellation) sends the JSON text of the empty string unless it is in ERROR, where it sends the empty string unconverted |
| DatasetValidation.ColumnsOf | test_engine_app/processing/validate_dataset.py:219-220 | one `{"name", "datatype"}` entry per label, in label order |
| DatasetValidation.AfterRunningOutcome | test_engine_app/processing/validate_dataset.py:170-266 | once RUNNING was sent: DONE / VALID exactly when the instance exists, validates, has columns and has a serializer; ERROR exactly when validation or the serializer lookup raises; DONE / INVALID otherwise; the instance is loaded, and with a callback exactly one more update, the final one, is sent |
| DatasetValidation.NewServiceOutcome | test_engine_app/processing/validate_dataset.py:155-266 | a new dataset job ends DONE / VALID exactly when the instance exists, validates, has columns and has a serializer, and then the messages are cleared and the schema holds the columns; an exception ends ERROR / NONE with a SYS warning and is_success false; the other cases end DONE / INVALID with is_success true; with a callback and the result unset, sending RUNNING raises: nothing is loaded, the warning "Service Terminated: 'NoneType' object has no attribute 'name'" is recorded and only the ERROR update is sent |
| DatasetValidation.CallbackJobFails | test_engine_app/processing/validate_dataset.py:166-168 | a new job given the update callback fails at its first update: ERROR / NONE, is_success false, one update sent, nothing loaded |
| DatasetValidation.NewServiceRejections | test_engine_app/processing/validate_dataset.py:166-264 | a RUNNING update that raises leads to the `except` branch with the AttributeError text; otherwise each invalid outcome carries its message: the loader's for a missing instance, the validation message, or "Dataset is empty" |
| DatasetValidation.RejectedRecords | test_engine_app/processing/validate_dataset.py:184-193 | a rejection records a DAT warning exactly when its message is not empty, and ends DONE / INVALID |
| DatasetValidation.ValidateDataset.constructor | test_engine_app/processing/validate_dataset.py:25-54 | the job starts at INIT with no errors, no columns, no instance and fresh unset arguments |
| DatasetValidation.ValidateDataset.AddErrorToList | test_engine_app/processing/validate_dataset.py:184-191 | the job's error list gains the warning when it is well formed |
| DatasetValidation.ValidateDataset.SetAndSendServiceStatus | test_engine_app/processing/validate_dataset.py:361-384 | the new state and the raise are SetAndSend's: the status is set, and with a callback the update is sent unless formatting it raises |
| DatasetValidation.ValidateDataset.SetServiceFailure | test_engine_app/processing/validate_dataset.py:318-332 | the state becomes ServiceFailure of the old one |
| DatasetValidation.ValidateDataset.SetFileInvalid | test_engine_app/processing/validate_dataset.py:334-348 | the state becomes FileInvalid of the old one |
| DatasetValidation.ValidateDataset.SetFileValid | test_engine_app/processing/validate_dataset.py:350-359 | the state becomes FileValid of the old one |
| DatasetValidation.ValidateDataset.AppendColumns | test_engine_app/processing/validate_dataset.py:219-220 | the column array gains the label columns at its end, in order |
| DatasetValidation.ValidateDataset.ProcessNewService | test_engine_app/processing/validate_dataset.py:155-266 | the new state and the returned pair are NewServiceRun's |
| DatasetValidation.ValidateDataset.ProcessPendingService | test_engine_app/processing/validate_dataset.py:268-292 | the state becomes PendingServiceRun's and the result is (True, "") |
| DatasetValidation.ValidateDataset.Process | test_engine_app/processing/validate_dataset.py:84-153 | the arguments are ParseEffect's; a parsed PENDING job is closed and a parsed NEW job runs; a failed parse records a warning and leaves the status at INIT |
| ModelValidation.ApiModelNeverValidAsWritten | test_engine_app/processing/validate_model.py:197-202 | as written, no API model is ever VALID: a recognised one has no serializer, so reading its type raises and the job ends ERROR / NONE |
| ModelValidation.ApiModelValid | test_engine_app/processing/validate_model.py:151-227 | with the corrected run an API model ends DONE, VALID exactly when a model plugin supports it |
| ModelValidation.NewServiceOutcome | test_engine_app/processing/validate_model.py:151-227 | a new model job ends DONE with is_success true: VALID with format and serializer recorded and messages cleared exactly when an instance was obtained, otherwise INVALID with the loader's message recorded as a MOD warning when not empty |
| ModelValidation.RunsAgreeWithSerializer | test_engine_app/processing/validate_model.py:162-204 | the as-written and corrected runs agree exactly when there is no instance or there is a serializer, and the RUNNING update does not raise (no callback, or a result already set) |
| ModelValidation.RejectedRecords | test_engine_app/processing/validate_model.py:181-195 | a missing instance records a MOD warning exactly when the message is not empty |
| ModelValidation.ValidateModel.constructor | test_engine_app/processing/validate_model.py:25-50 | the job starts at INIT with no errors, no instance and fresh unset arguments with empty API dicts |
| ModelValidation.ValidateModel.AddErrorToList | test_engine_app/processing/validate_model.py:186-193 | the job's error list gains the warning when it is well formed |
| ModelValidation.ValidateModel.SetAndSendServiceStatus | test_engine_app/processing/validate_model.py:316-339 | sets the status and sends an update when there is a callback, as the corrected formatter would, which never raises |
| ModelValidation.ValidateModel.SetServiceFailure | test_engine_app/processing/validate_model.py:273-287 | the state becomes ServiceFailure of the old one |
| ModelValidation.ValidateModel.SetFileInvalid | test_engine_app/processing/validate_model.py:289-303 | the state becomes FileInvalid of the old one |
| ModelValidation.ValidateModel.SetFileValid | test_engine_app/processing/validate_model.py:305-314 | the state becomes FileValid of the old one |
| ModelValidation.ValidateModel.ProcessNewService | test_engine_app/processing/validate_model.py:151-227 | the new state and the returned pair are the corrected NewServiceRun's |
| ModelValidation.ValidateModel.ProcessPendingService | test_engine_app/processing/validate_model.py:229-253 | the state becomes PendingServiceRun's and the result is (True, "") |
| ModelValidation.ValidateModel.Process | test_engine_app/processing/validate_model.py:80-149 | the arguments are ParseEffect's; a parsed PENDING job is closed and a parsed NEW job runs; a failed parse records a warning and leaves the status at INIT |
| TaskProcessing.TerminatedErrorIsAdded | test_engine_app/processing/task.py:438-445 | the terminated-task warning is well formed, so it is always appended |
| TaskProcessing.VerifyTaskResults | test_engine_app/processing/task.py:617-647 | accepted exactly when the results are a dict the output schema accepts, with "" then; a non-dict names its type; a rejected dict says "Failed schema validation" |
| TaskProcessing.LoadSucceedsExactly | test_engine_app/processing/task.py:210-352 | loading succeeds exactly when every step does, in the order data, model, ground truth when required, algorithm, and then holds the instances obtained and says "" |
| TaskProcessing.LoadStopsAtFirstFailure | test_engine_app/processing/task.py:236-352 | the first failing step names itself and nothing after it is asked for |
| TaskProcessing.GroundTruthOnlyWhenRequired | test_engine_app/processing/task.py:280-329 | ground truth is touched only when the algorithm requires it; then `keep_ground_truth` and `remove_ground_truth` both run before the keep result is looked at |
| TaskProcessing.LoadOnlyAppends | test_engine_app/processing/task.py:210-352 | loading only appends setups and ground-truth calls, never a cleanup or a termination |
| TaskProcessing.Fallback | test_engine_app/processing/task.py:431-432 | an empty failure message becomes "Forcefully terminated"; the message is never empty |
| TaskProcessing.Verdict | test_engine_app/processing/task.py:370-423 | success exactly when loading succeeded, the algorithm produced output and its converted output is accepted, then with those results and ""; otherwise no results and the failing step's message, "User cancelled" or "Algorithm generate no results." for an empty queue |
| TaskProcessing.ConcludedState | test_engine_app/processing/task.py:425-456 | 100 %; SUCCESS exactly on success, even with the cancel flag; otherwise CANCELLED with the flag and ERROR without it, with one terminated-task error recorded |
| TaskProcessing.NewTaskTerminalState | test_engine_app/processing/task.py:354-457 | a new task ends at 100 %, SUCCESS exactly when it succeeded; success stores the checked results, failure clears them and records one error with a non-empty message |
| TaskProcessing.BeforeResultsState | test_engine_app/processing/task.py:367-399 | before the queue is read RUNNING was sent, the loaded instances and calls are in place and a cancel adds at most one termination |
| TaskProcessing.NewTaskUpdates | test_engine_app/processing/task.py:366-451 | the update callback hears RUNNING first and the terminal status last |
| TaskProcessing.BeforeResultsNoCleanup | test_engine_app/processing/task.py:365-424 | nothing before the `finally` block is a cleanup |
| TaskProcessing.NewTaskCleanup | test_engine_app/processing/task.py:454-455 | the model instance, when one was obtained, is cleaned up as the very last call whatever the outcome, and never otherwise |
| TaskProcessing.EmptyChannelMessage | test_engine_app/processing/task.py:392-398 | an empty result queue ends as "User cancelled" when the flag is set by then, and as "Algorithm generate no results." otherwise |
| TaskProcessing.PendingTaskEnds | test_engine_app/processing/task.py:459-483 | a pending task never runs: one error recorded, ERROR at 100 %, no results and no plugin call |
| TaskProcessing.ParseFailureGuardAsWritten | test_engine_app/processing/task.py:174-176 | the guard as written raises exactly for a falsy id that is neither None nor a string |
| TaskProcessing.ParseFailureNeverReported | test_engine_app/processing/task.py:174-176 | the guard as written never holds, so a parse failure is never reported |
| TaskProcessing.ParseFailureGuard | test_engine_app/processing/task.py:174-176 | the intended guard holds exactly for a usable string id, and raises for a truthy non-string id |
| TaskProcessing.ParseFailureReportedForKnownId | test_engine_app/processing/task.py:174-176 | a failed task with id "task-1" is reported by the intended guard and not by the written one |
| TaskProcessing.ParseFailureRun | test_engine_app/processing/task.py:171-195 | with the intended guard a failed parse is reported (ERROR, one error with the message) only for a usable id, and otherwise changes nothing |
| TaskProcessing.Task.constructor | test_engine_app/processing/task.py:56-91 | the task starts in its initial state with fresh unset arguments |
| TaskProcessing.Task.Cancel | test_engine_app/processing/task.py:93-111 | sets the cancel flag and terminates a stored process |
| TaskProcessing.Task.UpdateTaskProgress | test_engine_app/processing/task.py:579-596 | sets the percentage, then sends the metadata when there is a callback |
| TaskProcessing.Task.UpdateTaskStatus | test_engine_app/processing/task.py:598-615 | sets the status, then sends the metadata when there is a callback |
| TaskProcessing.Task.SetTaskFailure | test_engine_app/processing/task.py:517-534 | the state becomes Failed of the old one |
| TaskProcessing.Task.SetTaskCancelled | test_engine_app/processing/task.py:498-515 | the state becomes Cancelled of the old one |
| TaskProcessing.Task.SetTaskSuccess | test_engine_app/processing/task.py:546-558 | the state becomes Succeeded of the old one |
| TaskProcessing.Task.AddTerminatedError | test_engine_app/processing/task.py:438-445 | the terminated-task error is appended |
| TaskProcessing.Task.LoadTaskInstances | test_engine_app/processing/task.py:210-352 | outcome, message, instances and calls are LoadPlan's; nothing else changes |
| TaskProcessing.Task.StartRun | test_engine_app/processing/task.py:366-389 | after RUNNING is sent, loading and the cancel flag, the state is BeforeResults's; the load outcome and message are LoadPlan's |
| TaskProcessing.Task.ReadResults | test_engine_app/processing/task.py:371-423 | outcome and message are the Verdict: the load message on a failed load, "User cancelled" or the no-results text for an empty queue, the algorithm's error, the verification message; the results are stored only on success; nothing else changes |
| TaskProcessing.Task.Conclude | test_engine_app/processing/task.py:425-457 | the state becomes Concluded's and the message is replaced by Fallback on failure |
| TaskProcessing.Task.ProcessNewTask | test_engine_app/processing/task.py:354-457 | the new state and the returned pair are NewTaskRun's |
| TaskProcessing.Task.ProcessPendingTask | test_engine_app/processing/task.py:459-483 | the state becomes PendingRun's and the result is (True, "") |
| TaskProcessing.Task.Process | test_engine_app/processing/task.py:139-197 | the arguments are ParseEffect's; a parsed PENDING task is closed, a parsed NEW task runs; a failed parse is handled by ParseFailureRun (the corrected guard) |
| WorkerLoop.ServiceEntriesRaise | test_engine_app/worker.py:377-408 | a service read raises (KeyError) exactly when its first entry flags a kind and some entry lacks that kind's field |
| WorkerLoop.ServiceEntriesItems | test_engine_app/worker.py:377-408 | a service read yields one item per entry, in order, all of the kind the first entry flags (dataset before model), or nothing when the first entry flags neither |
| WorkerLoop.TaskEntriesRoute | test_engine_app/worker.py:414-424 | a task read yields one (message id, task) item per entry, in order, and raises exactly when some entry has no "task" field |
| WorkerLoop.RoutedMatchesWorker | test_engine_app/worker.py:364-426 | a service worker lists only service items and any other worker only task items |
| WorkerLoop.OtherStreamIgnored | test_engine_app/worker.py:381-422 | a read from another stream than the worker's lists nothing |
| WorkerLoop.BacklogJobs | test_engine_app/worker.py:161-204 | one pending job per pending item |
| WorkerLoop.NewJobs | test_engine_app/worker.py:266-314 | one new job per discovered item |
| WorkerLoop.JobsBuilt | test_engine_app/worker.py:161-314 | the backlog builds PENDING jobs without the update callback, discovery builds NEW jobs with the callback exactly for a Task; both keep the message id, the arguments and the kind (a model validation exactly for VALIDATE_MODEL, a dataset validation otherwise) |
| WorkerLoop.EmptyId | test_engine_app/utils/validation_checks.py:30-43 | `is_empty_string` of an id: true for None and for empty text (as ValidationChecks.IsEmptyString decides it: "None", "none" or blank), false for other text, and a raise for a dict or a number |
| WorkerLoop.SendUpdateEffect | test_engine_app/worker.py:461-489 | an empty id sends nothing and answers False; a non-empty text id is sent and the answer is the broker's; nothing else is recorded; it raises where the emptiness test raises |
| WorkerLoop.SendAckEffect | test_engine_app/worker.py:492-517 | an empty message id sends nothing and answers False; otherwise the acknowledgement is sent and the answer is the broker's |
| WorkerLoop.StepAckRule | test_engine_app/worker.py:213-238 | every job is recorded; a message is acknowledged only after its update under a non-empty text id went through; a job whose `process()` or `get_formatted_results()` raised sends neither; the item raises exactly when the job raised or its id is not text |
| WorkerLoop.RunAfterRaise | test_engine_app/worker.py:161-241 | once a job has raised, the jobs after it are never built |
| WorkerLoop.RunBuilt | test_engine_app/worker.py:161-241 | the jobs are built in order, a prefix of the list, all of it unless a job raised, and then the last job built is the one that raised (in `process()`, `get_formatted_results()` or the emptiness test of its id) |
| WorkerLoop.RunAckCount | test_engine_app/worker.py:230-238 | earlier records are kept and the loop never acknowledges more messages than it sent updates |
| WorkerLoop.RunAcksFromJobs | test_engine_app/worker.py:230-238 | every message acknowledged belongs to one of the loop's jobs |
| WorkerLoop.RaisedInBatch | test_engine_app/worker.py:266-349 | a job of a batch that raised ends the loop for the rest of the batch |
| WorkerLoop.ChannelsFor | test_engine_app/worker.py:556-569 | TASK_CANCEL is subscribed exactly by a process worker |
| WorkerLoop.StopDecision | test_engine_app/worker.py:428-458 | cancel is reached exactly for a non-empty id equal to the running job's id; for a Task it cancels, for a validation job it raises NotImplementedError; an empty id and no running job are told apart |
| WorkerLoop.CancelOnlyReachesTasks | test_engine_app/worker.py:556-569 | a stop message never reaches a validation job: only process workers subscribe, and every job they discover is a Task |
| WorkerLoop.Worker.constructor | test_engine_app/worker.py:30-41 | a worker of the given type starts with no running item and nothing sent |
| WorkerLoop.Worker.StreamName | test_engine_app/worker.py:81-85 | a service worker reads the service stream, every other worker the task stream |
| WorkerLoop.Worker.SetupRedis | test_engine_app/worker.py:532-592 | only a process worker subscribes, to the four channels; a failed pub/sub or stream connection raises, the pub/sub failure first |
| WorkerLoop.Worker.ProcessRedisMessage | test_engine_app/worker.py:364-426 | the result is Routed, whose properties are the lemmas above |
| WorkerLoop.Worker.ServiceLoop | test_engine_app/worker.py:377-408 | the loop over a service read gives ServiceEntries, or nothing for another stream |
| WorkerLoop.Worker.TaskLoop | test_engine_app/worker.py:414-424 | the loop over a task read gives TaskEntries, or nothing for another stream |
| WorkerLoop.Worker.SetRunningItem | test_engine_app/worker.py:520-529 | the running item is replaced and nothing else changes |
| WorkerLoop.Worker.SendUpdate | test_engine_app/worker.py:461-489 | the log and the answer are SendUpdateEffect's |
| WorkerLoop.Worker.SendAcknowledgement | test_engine_app/worker.py:492-517 | the log and the answer are SendAckEffect's |
| WorkerLoop.Worker.HandleItem | test_engine_app/worker.py:317-346 | the log and the raise are Step's: a job that raised sends nothing |
| WorkerLoop.Worker.ClearPendingItems | test_engine_app/worker.py:150-241 | the log is the loop Run over BacklogJobs, stopping at the first job that raises |
| WorkerLoop.Worker.DiscoverNewItems | test_engine_app/worker.py:243-349 | the log is Run over NewJobs of all batches; the running item is reset after each job, and left on the job that raised |
| WorkerLoop.Worker.DiscoverBatch | test_engine_app/worker.py:266-349 | one batch extends the Run over the earlier batches' jobs |
| WorkerLoop.Worker.ProcessTaskStopCallback | test_engine_app/worker.py:428-458 | the decision is StopDecision's and the running job is cancelled exactly when it is CancelCalled |
| JsValues.NameDefault | aiverify-plugin/src/plugin.mjs:145 | an unnamed component takes its id as name (so it is named whenever the id is truthy); a named one is unchanged; no other property changes |
| JsValues.Targets | aiverify-plugin/src/reportWidget.mjs:38-67 | one target property per key of the loop |
| JsValues.MergeSpec | aiverify-plugin/src/plugin.mjs:140-144 | with distinct targets, each listed key's property ends as the fill rule says (set from the command line when given and the property is falsy or `--force`), whatever the order of the keys; every other property is kept |
| JsValues.KeepsTruthy | aiverify-plugin/src/plugin.mjs:140-144 | without `--force` a truthy property is never overwritten |
| JsValues.ForceOverwrites | aiverify-plugin/src/plugin.mjs:140-144 | with `--force` every listed key given on the command line overwrites its property |
| JsValues.MergeKeys | aiverify-plugin/src/plugin.mjs:140-144 | the in-place key loop computes Merge |
| JsValues.MergeFrame | ai-verify-plugin/src/inputBlock.mjs:38-51 | a property no listed key targets keeps its value |
| JsValues.MergeUntouched | ai-verify-plugin/src/inputBlock.mjs:38-51 | when no listed key is given the meta is unchanged |
| PluginUtils.UnreadableHasNoProperty | aiverify-plugin/src/utils.mjs:12-20 | a file that cannot be read or parsed reads as `{}`: an object without any property, so without a `cid` |
| PluginUtils.IndexOf | aiverify-plugin/src/utils.mjs:27-29 | the first occurrence of the pattern, or none when it does not occur |
| PluginUtils.RenameRule | aiverify-plugin/src/utils.mjs:25-30 | a template whose name starts with the source base name is copied as the target base name plus the rest of its name; any other keeps its name |
| PluginUtils.RenameRoundTrip | aiverify-plugin/src/utils.mjs:25-30 | renaming a copied template back gives the template's own name |
| PluginUtils.OneCopyPerFile | aiverify-plugin/src/utils.mjs:22-35 | when every copy succeeds there is exactly one copy per listed template, in listing order, under its renamed name |
| PluginUtils.CopyAndRenameTemplates | aiverify-plugin/src/utils.mjs:22-35 | the copies are CopyRun's; a listing or copy failure ends in the TypeError of the missing `console.err` |
| PluginUtils.LinkOnce | aiverify-plugin/src/utils.mjs:40-45 | once ./node_modules exists, linking again creates nothing |
| PluginUtils.MetaFilesValid | aiverify-plugin/src/reportWidget.mjs:176-199 | the component loop answers true exactly when every "*.meta.json" file has a `cid` and passes the component validator |
| PluginUtils.MetaFilesChecked | aiverify-plugin/src/reportWidget.mjs:186-196 | the validator runs only on meta files with a `cid`, in listing order, and the loop stops at the first rejection |
| PluginUtils.ValidateComponents | aiverify-plugin/src/reportWidget.mjs:176-199 | true when the component directory is absent; otherwise the verdict and the validated files are MetaFilesRun's |
| PluginCli.MatchIdRest | ai-verify-plugin/src/index.mjs:21 | the tail of the id pattern accepts exactly the strings of letters, digits, `-`, `.` and `_` |
| PluginCli.ValidateID | ai-verify-plugin/src/index.mjs:20-22 | an id is valid exactly when it is non-empty, starts with a letter or digit, and continues with letters, digits, `-`, `.` or `_` |
| PluginCli.UuidIsValidID | ai-verify-plugin/src/index.mjs:62-67 | the random UUID used as the default gid always passes the gid check |
| PluginCli.JoinedIdIsValid | ai-verify-plugin/src/index.mjs:20-22 | two valid ids joined by `-`, `.` or `_` form a valid id |
| PluginCli.BadIdRejected | ai-verify-plugin/src/index.mjs:20-22 | an id with a character outside the set, or starting with a separator, is rejected |
| PluginCli.ValidateNumber | ai-verify-plugin/src/index.mjs:34-42 | only numbers pass; with non-zero bounds a number passes exactly when it lies between them |
| PluginCli.ZeroBoundsIgnored | ai-verify-plugin/src/index.mjs:37-40 | a bound of 0 is falsy and so never rejects |
| PluginCli.NonNumbersFail | ai-verify-plugin/src/index.mjs:35-36 | NaN, a string and a missing option never pass |
| PluginCli.CheckSizes | ai-verify-plugin/src/index.mjs:186-203 | the widget sizes are accepted exactly when each lies in its range (1-12 wide, 1-36 high) and each minimum is at most its maximum |
| PluginCli.SizeDefaultsPass | ai-verify-plugin/src/index.mjs:186-203 | the default sizes pass; a minimum above its maximum is reported with that error |
| PluginCli.Split | ai-verify-plugin/src/index.mjs:208 | `split(/,/)` gives at least one piece and no piece holds a comma |
| PluginCli.SplitJoin | ai-verify-plugin/src/index.mjs:208 | joining the pieces with commas gives the text back |
| PluginCli.SplitNoComma | ai-verify-plugin/src/index.mjs:208 | a text without commas is one piece |
| PluginCli.CheckDep | ai-verify-plugin/src/index.mjs:207-219 | a `--dep` entry is accepted exactly when it has 2 to 4 fields, type "Algorithm" or "InputBlock", and a valid version when it has 4; it is kept as its fields |
| PluginCli.CheckProp | ai-verify-plugin/src/index.mjs:225-234 | a `--prop` entry is accepted exactly when it has at most 3 fields; a lone key becomes its own helper text, otherwise the fields are kept |
| PluginCli.SplitNoCommaInverse | ai-verify-plugin/src/index.mjs:226-233 | a text that splits into one piece is that piece |
| PluginCli.CheckAllSpec | ai-verify-plugin/src/index.mjs:205-236 | the entry loop accepts exactly when every entry is accepted, keeping the fields of each in input order; otherwise it reports the first rejected entry |
| PluginCli.CheckEntries | ai-verify-plugin/src/index.mjs:205-236 | the loop computes CheckAll |
| PluginCli.PrefixRejected | ai-verify-plugin/src/index.mjs:207-220 | once a prefix of the entries is rejected the whole loop is |
| PluginCli.NearestRootSpec | ai-verify-plugin/src/index.mjs:44-54 | the root found is the nearest ancestor (or the directory itself) holding plugin.meta.json; none is found exactly when no ancestor holds it |
| PluginCli.FindPluginRoot | ai-verify-plugin/src/index.mjs:44-54 | the walk upwards returns NearestRoot and throws when no ancestor holds the meta file |
| PluginCli.CheckWidget | ai-verify-plugin/src/index.mjs:183-238 | the generate-widget check passes exactly when the plugin root is found, the sizes are in range and every `--dep` and `--prop` entry is well formed; the first failure is thrown; the parsed entries are kept in order |
| PluginCli.AlgorithmDefaults | ai-verify-plugin/src/index.mjs:332-335 | `name` defaults to the cid, then `description` to the name; nothing else changes |
| PluginCli.AlgorithmDefaultsNamed | ai-verify-plugin/src/index.mjs:332-335 | with a cid the algorithm always has a name and a description, and applying the defaults again changes nothing |
| ReportWidget.StartMeta | aiverify-plugin/src/reportWidget.mjs:30-37 | a new widget starts as its cid and an empty `widgetSize`; an existing one is read back as it is |
| ReportWidget.KeyLoopSpec | aiverify-plugin/src/reportWidget.mjs:38-67 | the interleaved loop equals the fill merge of the top-level keys followed by the fill merge of the size keys into `widgetSize` |
| ReportWidget.SizeKeyStep | aiverify-plugin/src/reportWidget.mjs:52-58 | a size key given on the command line extends the loop as the two-merge description says |
| ReportWidget.SizeKeyStepObject | aiverify-plugin/src/reportWidget.mjs:52-58 | the same step when `widgetSize` is an object |
| ReportWidget.TopKeyStep | aiverify-plugin/src/reportWidget.mjs:59-64 | a top-level key given on the command line extends the loop as the two-merge description says |
| ReportWidget.FillCommutes | aiverify-plugin/src/reportWidget.mjs:56-63 | filling a top-level property commutes with replacing `widgetSize` |
| ReportWidget.WidgetKeyLoop | aiverify-plugin/src/reportWidget.mjs:38-67 | the in-place loop computes KeyLoop |
| ReportWidget.ThrowsPersist | aiverify-plugin/src/reportWidget.mjs:38-67 | once the loop over a prefix of the keys throws, the whole loop throws the same error |
| ReportWidget.WidgetKeysSeparate | aiverify-plugin/src/reportWidget.mjs:38-49 | no key writes `widgetSize` itself and no two keys write the same property |
| ReportWidget.WidgetKeysLand | aiverify-plugin/src/reportWidget.mjs:38-67 | each top-level key lands under its target (`tag` under `tags`) by the fill rule, and every property no key targets is kept |
| ReportWidget.WidgetSizesLand | aiverify-plugin/src/reportWidget.mjs:52-58 | each size key given lands inside `widgetSize` by the fill rule |
| ReportWidget.BadWidgetSizeThrows | aiverify-plugin/src/reportWidget.mjs:56-57 | a size key given against a `widgetSize` that is neither object nor array makes the command throw a TypeError |
| ReportWidget.DependencyEntryShape | aiverify-plugin/src/reportWidget.mjs:76-88 | a dependency entry holds the cid, the gid when there are 3 fields or more, the version when there are 4, and nothing else |
| ReportWidget.MockEntryShape | aiverify-plugin/src/reportWidget.mjs:76-93 | a mock data entry holds exactly the type, the cid and the sample file `<cid>.sample.json` |
| ReportWidget.PropertyEntryShape | aiverify-plugin/src/reportWidget.mjs:105-110 | a property entry holds key, helper and a default that is defined only when the option had a third field |
| ReportWidget.SamplesWrittenSpec | aiverify-plugin/src/reportWidget.mjs:94-97 | every dependency ends with a sample file: it existed or it is written; each file written belonged to a dependency, did not exist, and is written once |
| ReportWidget.BuildDependencies | aiverify-plugin/src/reportWidget.mjs:71-101 | one dependency entry and one mock entry per `--dep` option, in order, and the sample files are SamplesWritten's |
| ReportWidget.BuildProperties | aiverify-plugin/src/reportWidget.mjs:103-113 | one property entry per `--prop` option, in order |
| ReportWidget.DependencyEntries | aiverify-plugin/src/reportWidget.mjs:74-99 | one dependency entry per option |
| ReportWidget.MockEntries | aiverify-plugin/src/reportWidget.mjs:74-100 | one mock entry per option |
| ReportWidget.PropertyEntries | aiverify-plugin/src/reportWidget.mjs:105-112 | one property entry per option |
| ReportWidget.GenerateWidget | aiverify-plugin/src/reportWidget.mjs:11-127 | the meta written is WidgetMeta; when the key loop throws nothing is written or copied; the sample files are written only when the lists are rebuilt; the template copies are CopyRun's, or the missing `console.err` TypeError |
| ReportWidget.SizeIndex | aiverify-plugin/src/reportWidget.mjs:44-47 | each size key has its place in the loop's keys |
| ReportWidget.NewWidgetKeys | aiverify-plugin/src/reportWidget.mjs:31-67 | the loop over a new widget's meta never throws, keeps the cid and sets each size given |
| ReportWidget.NewWidgetMeta | aiverify-plugin/src/reportWidget.mjs:31-69 | a new widget keeps its cid, is always named and has the sizes given on the command line |
| ReportWidget.ListsRebuilt | aiverify-plugin/src/reportWidget.mjs:71-113 | the dependency, mock data and property lists are replaced exactly when their option is given and the list is absent or `--force`; otherwise they are kept |
| InputBlock.StartMeta | ai-verify-plugin/src/inputBlock.mjs:31-37 | a new input block starts as its cid; an existing one is read back as it is |
| InputBlock.InputBlockKeysSeparate | ai-verify-plugin/src/inputBlock.mjs:38 | no two keys write the same property and none writes the cid |
| InputBlock.InputBlockKeysLand | ai-verify-plugin/src/inputBlock.mjs:38-53 | each key lands under its target (`tag` under `tags`) by the fill rule, `name` then falls back to the cid, and every other property is kept |
| InputBlock.NewInputBlockNamed | ai-verify-plugin/src/inputBlock.mjs:31-53 | a new input block keeps its cid and is always named |
| InputBlock.GenerateInputBlock | ai-verify-plugin/src/inputBlock.mjs:11-65 | a missing plugin directory exits before anything is written; otherwise the meta written is InputBlockMeta and the copies are CopyRun's, or the missing `console.err` TypeError |
| SampleInputBlock.CountItems | ai-verify-plugin/src/inputs/sample-input-block.ts:23-29 | the number of counted items is at most their number, equal to it exactly when all count, and 0 exactly when none does |
| SampleInputBlock.RoundedPercent | ai-verify-plugin/src/inputs/sample-input-block.ts:30 | the result is within one half of 100 n / 3 |
| SampleInputBlock.Progress | ai-verify-plugin/src/inputs/sample-input-block.ts:18-31 | 0 for missing data, otherwise the rounded share of the three expected values that count |
| SampleInputBlock.ProgressSteps | ai-verify-plugin/src/inputs/sample-input-block.ts:22-30 | 0 to 3 values give 0, 33, 67 and 100; more pass 100; 100 exactly for three |
| SampleInputBlock.Validate | ai-verify-plugin/src/inputs/sample-input-block.ts:36-39 | the data is complete exactly when it is present and exactly three of its values count |
| SampleInputBlock.ThreeFilledValues | ai-verify-plugin/src/inputs/sample-input-block.ts:23-38 | three filled values are complete; an empty string among three is not |
| SampleInputBlock.MissingDataSummary | ai-verify-plugin/src/inputs/sample-input-block.ts:8-13 | the summary is "No data" exactly for missing data, which then has progress 0 and is not complete |
| PluginProject.StartMeta | aiverify-plugin/src/plugin.mjs:133-139 | a new plugin starts as `{gid}`; an existing meta is read back as it is |
| PluginProject.GeneratePluginMeta | aiverify-plugin/src/plugin.mjs:140-145 | the in-place key loop and the name default compute PluginMeta |
| PluginProject.PluginKeysSeparate | aiverify-plugin/src/plugin.mjs:140 | each key is stored under its own name, no two alike, none of them the gid |
| PluginProject.PluginKeysLand | aiverify-plugin/src/plugin.mjs:133-145 | each key lands by the fill rule, `name` then falls back to the gid, and the gid and every unlisted property are kept |
| PluginProject.NewPluginNamed | aiverify-plugin/src/plugin.mjs:133-145 | a new plugin keeps the gid it was given and, when that gid is set, is always named |
| PluginProject.RegenerateUnchanged | aiverify-plugin/src/plugin.mjs:137-145 | re-running generation with the same options and without `--force` over the meta it wrote changes no property |
| PluginProject.LicenseTemplates | aiverify-plugin/src/plugin.mjs:155-171 | the five license choices pick the five templates and no other value picks one |
| PluginProject.LicenseTemplateInjective | aiverify-plugin/src/plugin.mjs:155-171 | two choices pick the same template only when they are the same choice |
| PluginProject.LicenseMissingThrows | aiverify-plugin/src/plugin.mjs:172-176 | as written, a chosen license whose template is missing throws a ReferenceError instead of exiting with the message |
| PluginProject.LicenseStepSpec | aiverify-plugin/src/plugin.mjs:149-191 | as intended, the LICENSE is written exactly when one of the five choices was given and its template exists and can be used; a missing template exits; the step never throws |
| PluginProject.LicenseStepAgrees | aiverify-plugin/src/plugin.mjs:172-176 | the step as written and as intended differ exactly where a license was given and its template is missing |
| PluginProject.ValidatePluginOnly | aiverify-plugin/src/plugin.mjs:245-270 | true exactly when the meta file exists and the schema validator accepts what `readJSON` gives without throwing |
| PluginProject.RunChecksVerdict | aiverify-plugin/src/plugin.mjs:201-243 | the verdict is true exactly when every check whose directory exists passes |
| PluginProject.RunChecksAllRan | aiverify-plugin/src/plugin.mjs:201-243 | when every applicable check passes, all of them ran, in order |
| PluginProject.RunChecksStop | aiverify-plugin/src/plugin.mjs:206-240 | at the first applicable check that fails the run answers false, having run exactly the applicable checks up to it |
| PluginProject.RunChecksCons | aiverify-plugin/src/plugin.mjs:206-240 | a check in front of the others is skipped, stops the run, or runs before them |
| PluginProject.ValidatePlugin | aiverify-plugin/src/plugin.mjs:201-243 | ./node_modules is linked first only in aiverify-plugin and only when absent; the stages run and the verdict are RunChecks' over meta, widgets, inputs, algorithms |
| PluginProject.ValidatePluginVerdict | aiverify-plugin/src/plugin.mjs:201-243 | the plugin is valid exactly when its meta is valid and each component directory that exists passes; an invalid meta stops before any component is looked at |
| PluginZip.JoinInjective | aiverify-plugin/src/plugin.mjs:283 | joining names to one directory gives the same path only for the same name |
| PluginZip.InputsEntryMisnamed | aiverify-plugin/src/plugin.mjs:286-289 | as written, an inputs directory is zipped with a "widgets/" directory entry and no "inputs/" entry |
| PluginZip.WidgetsLookedUpInWorkingDir | aiverify-plugin/src/plugin.mjs:281-284 | as written, zipping the plugin "p" from another working directory leaves out its widgets |
| PluginZip.AlgorithmsLookedUpInWorkingDir | aiverify-plugin/src/plugin.mjs:296-299 | as written, "algorithms" is tested in the working directory but listed under the plugin: ENOENT when only the working directory has one; the plugin's algorithms left out when only it has one, though the intended step lists them |
| PluginZip.AlgorithmsStepAgrees | aiverify-plugin/src/plugin.mjs:296-299 | the as-written and intended algorithms steps agree whenever the working directory and the plugin agree on having "algorithms" |
| PluginZip.DirEntriesSound | aiverify-plugin/src/plugin.mjs:281-294 | every directory entry belongs to a listed directory that exists under the plugin directory |
| PluginZip.FolderEntriesNameDir | aiverify-plugin/src/plugin.mjs:281-294 | a directory's entries name only that directory |
| PluginZip.DirEntriesSpec | aiverify-plugin/src/plugin.mjs:281-294 | a listed directory gets its directory entry, and its folder, exactly when it exists under the plugin directory |
| PluginZip.DirEntriesPresent | aiverify-plugin/src/plugin.mjs:281-294 | a listed directory that exists contributes all its entries |
| PluginZip.TopEntriesUnfold | aiverify-plugin/src/plugin.mjs:281-294 | the intended entries are those of widgets, inputs and templates, in that order, each when it exists |
| PluginZip.TopEntriesComplete | aiverify-plugin/src/plugin.mjs:281-294 | the intended entries name every component directory of the plugin under its own name, exactly when it exists |
| PluginZip.RequiredEntriesSpec | aiverify-plugin/src/plugin.mjs:310-323 | an algorithm's required files are added exactly when every included item is a string naming an existing path; each then has its file or folder entry |
| PluginZip.LicenseNeverAdded | aiverify-plugin/src/plugin.mjs:312 | aiverify-plugin never adds a LICENSE among an algorithm's required files |
| PluginZip.LicenseAddedWithoutSkip | ai-verify-plugin/src/plugin.mjs:262-273 | the older tool adds a listed LICENSE file like any other |
| PluginZip.AddRequiredFiles | aiverify-plugin/src/plugin.mjs:310-323 | the loop over `requiredFiles` computes RequiredEntries: LICENSE skipped when asked, a directory gets its own entry and its folder, a file is added as a file |
| PluginZip.ThrowsPersist | aiverify-plugin/src/plugin.mjs:311-322 | once a prefix of the required files throws, the whole loop throws the same |
| PluginZip.AlgorithmsRunSpec | aiverify-plugin/src/plugin.mjs:296-325 | the algorithm entries are built exactly when every subdirectory's are; a subdirectory with a meta file has its directory entry, one without contributes nothing |
| PluginZip.NoMetaNoEntries | aiverify-plugin/src/plugin.mjs:304-307 | an algorithm subdirectory without a meta file adds nothing |
| PluginZip.NullMetaThrows | aiverify-plugin/src/plugin.mjs:309-310 | an algorithm whose meta file holds `null` throws the TypeError of reading `requiredFiles` |
| PluginZip.AddAlgorithms | aiverify-plugin/src/plugin.mjs:301-324 | the loop over the subdirectories computes AlgorithmsRun |
| PluginZip.AlgorithmsThrowPersist | aiverify-plugin/src/plugin.mjs:301-324 | once a prefix of the subdirectories throws, so does the whole loop |
| PluginZip.ZipNameSpec | aiverify-plugin/src/plugin.mjs:333 | a meta with string gid and version names the zip `<gid>-<version>.zip`; an unreadable meta gives "undefined-undefined.zip" |
| PluginZip.ZipPlugin | aiverify-plugin/src/plugin.mjs:272-338 | dist is created exactly when absent and the algorithm entries are built; the zip holds the meta file, the intended directory entries and, when the algorithms directory exists, its entries or the error they throw, and is written to dist under ZipName; a plugin meta file holding `null` throws the TypeError of reading `gid` after dist is created |

## Left out

- Message broker: connections, stream reads, pending-entry bookkeeping and pub/sub threads (redis.py, redis_pubsub.py, redis_base.py). Stream reads are inputs. "Update sent" and "acknowledgement sent" are `Transport` predicates. They are fixed functions of the id, so a second send under the same id always gets the same answer as the first.
- Stream and channel names: they are constructor parameters of `WorkerLoop.Worker`, because redis_constants.py is not part of this model.
- Concurrency: locks, the pub/sub callback thread, the process pool, signals (`run_initializer`, `trigger_signal_handler`, `signal.pause`) and the algorithm's child process. The cancel race is the input "result channel empty / cancel flag set".
- The worker's outer `try`/`finally` in `run` and the `while not _to_stop` loop: `DiscoverNewItems` runs over a finite sequence of batches, because stop is only set by the signal handler.
- Dynamic import: glob, `importlib`, `sys.path` and module execution in plugins_manager.py. Discovery receives the list of modules found, with their kinds.
- `PluginControl`: `setup` is a discover on the core modules folder, and `get_printable_plugins` is log formatting; neither is modelled.
- The managers raise nothing but the RuntimeError path. Exceptions raised inside plugin code other than a failed deserialization or a failed load are not modelled.
- JSON: `json.loads`, `json.dumps`, JSON-schema validation and schema-file loading (`validate_json`, `load_schema_file`) are parameters or uninterpreted values.
- Versions and URLs: `semver.valid`, `semantic_version.Version`, `iscompatible` and the URL constructor are parameters. The generate-plugin check of version and URL is left out with them.
- File system: `is_file`, `is_folder`, `Path.is_dir`, `.env` loading, error-file writing (`write_error_to_file`, `get_error_filepath`), mkdir, copy and symlink are predicates or recorded effects. Path normalisation in `path.join` and `path.resolve` is not modelled.
- Subprocess and HTTP: `get_installed_packages`, `is_package_supported` and the requirements-check API. The package list is an input.
- Getters and printers: `get_error_list`, the `EnvironmentVariables` getters, `print_environment_variables`, the jobs' `get_id`, `get_formatted_results` and `cleanup`, and both `version_msg` printers.
- Validation jobs: `cancel` always raises NotImplementedError, which is modelled only as the decision `WorkerLoop.StopDecision` returns.
- Time: elapsed time, start time and the current year in the license template are inputs.
- Logging: every log call, and the `console.log`/`console.error` output of the JavaScript tool.
- Floating point: `Progress.Percent` is computed exactly (truncated integer division). `int(completed / total * 100.0)` in floating point can be one lower (29/100 gives 28), so only the bounds and monotonicity are claimed about the source.
- JavaScript numbers: `SampleInputBlock.RoundedPercent` rounds the exact share. `numberText` (JavaScript number formatting) is a parameter.
- JavaScript objects: property order and prototype properties are not modelled. A meta file that parses to a JSON value other than an object or `null` reads as an object with no properties. `null` is modelled only by `PluginZip.AlgorithmEntries` and `PluginZip.ZipPlugin`, where reading a property of it throws. `PluginUtils.MetaFilesRun` and `PluginUtils.ValidateComponents` (through `read`), and `ReportWidget.StartMeta`, `ReportWidget.GenerateWidget`, `InputBlock.StartMeta`, `InputBlock.GenerateInputBlock`, `PluginProject.StartMeta` and `PluginProject.GeneratePluginMeta` (through `metaFile`), cannot express a meta file holding `null`. On one the source throws a TypeError at its first property read, where these members answer false or write a meta. An Array `widgetSize` is kept unchanged.
- The license template's text substitutions (regular-expression replaces) and the cookiecutter-based algorithm generator.
- MDX bundling and per-component schema validation are the `valid` parameter of `PluginUtils.ValidateComponents`. `validateAllAlgorithms` is the verdict `algorithmsOk`.
- yargs: option parsing, defaults and `choices`. Options arrive as a `JsValues` object.
- AdmZip: the archive library. An entry records the call that adds it.
- Unicode: strings are sequences of characters, with no normalisation or case folding. `str.strip()` removes exactly the characters `ValidationChecks.IsSpace` lists, those of `str.isspace()`.
- Process (TaskProcessing.Task.Process): a failed parse goes through the corrected guard `TaskProcessing.ParseFailureGuard`, which reports the failure under a usable id. The guard as written is `TaskProcessing.ParseFailureGuardAsWritten`, and `TaskProcessing.ParseFailureNeverReported` shows that it never reports it (first row under Findings).
- ProcessNewService (ModelValidation.ValidateModel.ProcessNewService): runs the corrected `ModelValidation.NewServiceRun`. There an API model without a serializer ends VALID, and sending RUNNING never raises. The run as written is `ModelValidation.NewServiceRunAsWritten`: such a model ends ERROR, and with a callback sending RUNNING raises while the result is unset. `ModelValidation.RunsAgreeWithSerializer` states exactly when the two runs differ.
- Process (ModelValidation.ValidateModel.Process): a parsed NEW job runs the corrected `ModelValidation.NewServiceRun`, as under `ProcessNewService` above.
- NewServiceOutcome (ModelValidation.NewServiceOutcome): states the outcome of the corrected run. The as-written run differs as `ModelValidation.RunsAgreeWithSerializer` and `ModelValidation.ApiModelNeverValidAsWritten` state.
- SetAndSendServiceStatus (ModelValidation.ValidateModel.SetAndSendServiceStatus): sends the update as the corrected `ServiceFormat.Format` does, which never raises. As written, formatting an update while the result is unset raises (`ServiceFormat.FormatAsWritten`, second row under Findings); the dataset job models that raise. The worker builds both validation jobs without a callback (test_engine_app/worker.py:285-297), so no such update is sent there.
- ZipPlugin (PluginZip.ZipPlugin): looks up the component directories under the plugin directory and names each by its own directory entry, through `PluginZip.TopEntries`. It also uses the plugin's own "algorithms" directory, through the same test as `PluginZip.AlgorithmsStep`. The lookups as written are `PluginZip.TopEntriesAsWritten`, with `PluginZip.InputsEntryMisnamed` and `PluginZip.WidgetsLookedUpInWorkingDir`, and `PluginZip.AlgorithmsStepAsWritten`, with `PluginZip.AlgorithmsLookedUpInWorkingDir` (fourth and fifth rows under Findings).
- GenerateInputBlock (InputBlock.GenerateInputBlock): ai-verify-plugin/src/utils.mjs is not part of this model. Its `readJSON` and `copyAndRenameTemplates`, including the `console.err` TypeError, are taken to be those of aiverify-plugin/src/utils.mjs (`PluginUtils`).

## Findings

| source | as written | input that shows it | evidently intended | confidence | as-written member | corrected member |
|---|---|---|---|---|---|---|
| test_engine_app/processing/task.py:174-176 | the parse-failure guard is `not id and not is_empty_string(id)` | any task message that fails its schema, with id "task-1" or with no id | report the failure under the id whenever the id is not empty, i.e. `not is_empty_string(id)` | not executed | TaskProcessing.ParseFailureNeverReported (about TaskProcessing.ParseFailureGuardAsWritten) | TaskProcessing.ParseFailureReportedForKnownId (about TaskProcessing.ParseFailureGuard) |
| test_engine_app/processing/service_formatter.py:60 | the response of a job that is neither ERROR nor VALID reads `.name` of the validation result, which is None until a terminal setter runs | a dataset-validation job whose message fails parsing is formatted while its status is INIT and its result None | send the result as "none" (or no result) for a job that never started | not executed | ServiceFormat.ParseFailureNotFormattable (about ServiceFormat.FormatAsWritten) | ServiceFormat.FormatAgrees and ServiceFormat.ResponseKeys (about ServiceFormat.Format) |
| test_engine_app/processing/validate_model.py:197-202 | a VALID model records its serializer via `_serializer_instance.get_serializer_plugin_type()` | an API-mode model: the model manager always returns serializer None, so the job raises and ends ERROR | record no serializer type for an API model and end VALID | not executed | ModelValidation.ApiModelNeverValidAsWritten (about ModelValidation.NewServiceRunAsWritten) | ModelValidation.ApiModelValid (about ModelValidation.NewServiceRun) |
| aiverify-plugin/src/plugin.mjs:286-289 | the inputs branch adds the directory entry "widgets/" | a plugin with an inputs directory and no widgets directory: the zip has "widgets/" and no "inputs/" | add "inputs/" | not executed | PluginZip.InputsEntryMisnamed (about PluginZip.TopEntriesAsWritten) | PluginZip.TopEntriesComplete (about PluginZip.TopEntries) |
| aiverify-plugin/src/plugin.mjs:281-296 | the component directories are looked up with `fs.existsSync("widgets")`, relative to the working directory | `zip p` run from the parent of plugin directory "p" that holds "p/widgets": no widget is zipped; with "algorithms" only beside "p", listing "p/algorithms" throws ENOENT | look up `path.join(pluginDir, "widgets")` and likewise for the others | not executed | PluginZip.WidgetsLookedUpInWorkingDir (about PluginZip.TopEntriesAsWritten) and PluginZip.AlgorithmsLookedUpInWorkingDir (about PluginZip.AlgorithmsStepAsWritten) | PluginZip.DirEntriesSpec (about PluginZip.TopEntries, used by PluginZip.ZipPlugin) and PluginZip.AlgorithmsStepAgrees (about PluginZip.AlgorithmsStep) |
| test_engine_app/utils/requirements_checks.py:154 | `remove_empty` drops every falsy part of the version tuple, including the number 0 | installed versions 1.0.5 and 1.5.0 both reach the compatibility test as (1, 5) | drop only the empty label parts and keep the three numbers | not executed | Requirements.AsWrittenConflatesVersions (about Requirements.VersionTupleAsWritten) | Requirements.VersionTupleKeepsNumbers (about Requirements.VersionTuple) |
| test_engine_app/processing/plugin_controller.py:260-262 | the update callback re-discovers an already registered algorithm, and registration never overwrites an existing name | an ALGO_UPDATE for a registered id whose new module differs: the old module stays registered | replace the registered module with the newly discovered one | not executed | PluginControl.UpdateKeepsOldModule and PluginControl.UpdateDropsNewModule (about PluginControl.UpdateCallback) | PluginControl.TaggedDiscoveryRegistersLast (about PluginControl.UpdateCallbackReplacing) |
| aiverify-plugin/src/plugin.mjs:174 | the missing-template message interpolates `${license}`, a variable that does not exist | `generate-plugin --license MIT` with the MIT template missing: a ReferenceError instead of the message and exit | interpolate `argv.license`, then exit with -1 | not executed | PluginProject.LicenseMissingThrows (about PluginProject.LicenseStepAsWritten) | PluginProject.LicenseStepSpec (about PluginProject.LicenseStep) |
