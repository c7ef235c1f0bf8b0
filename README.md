# juju-spell command engine, modelled in Dafny

juju-spell runs one logical command against many Juju controllers and collects
one result per controller. This project models the core of that engine:

- the command lifecycle of `Command.__call__`. A cacheable command first looks
  in its per-controller cache file; on a miss it runs pre-process, execute and
  post-process, wraps the outcome in the `Result(success, output, error)`
  envelope, and writes the cache;
- the sequential and parallel command groups. In a sequential group each child
  sees the results of the children before it. In a parallel group every child
  sees the caller's `prev_results`;
- the cache hooks of the `ListModels` and `GetController` commands;
- the runners (`get_runner`, `task`, the sequential and parallel `run`, the
  batch runner's refusal) and `get_result`;
- the TTL file cache (`use_cache`, `FileCache.get/put/delete` and its private
  `_connect`, `_commit`, `_remove`);
- the grant command's ACL mapping and its grant loop with the `overwrite` rule;
- the config command (`apply_config`, `apply_file_config`, the branch
  precedence in `execute`);
- the CLI `KeyValue` action and `get_application_config`;
- the helpers `strtobool`, `humanize_list` and `merge_list_of_dict_by_key`.

## How the model is built

- A raised exception is an `Outcome` value, `Raised(error)`, and each Python
  exception class is a constructor of `Wrappers.Error`.
- Code that updates state step by step is a Dafny class with `modifies`
  clauses:
  - `Command` holds `_result`;
  - `CacheDir` holds the cache files;
  - `FileCache` holds its files;
  - `ParsedArgs` holds the argument mapping;
  - `Grant.Controller` holds the sequence of grant calls;
  - `JujuController` holds the configuration of every application of every
    model;
  - `Namespace` holds the argparse attributes.
- Every loop is a method with invariants. Each method is proved equal to a
  pure specification function, and the lemmas state what the source promises
  about those functions.
- A command's class is a tag (`CommandClass`). Its `pre_process`, `execute`
  and `post_process` are function values. `execute` is the remote call: an
  oracle that returns a value or raises.
- The cache clock is an integer parameter `now`. File-system failures are a
  `Fault` parameter: no fault, permission denied, or another error with its
  message.
- Modules follow the source files:

  | module | source |
  |---|---|
  | Commands, CommandProperties | `juju_spell/commands/base.py` |
  | ListModels | `juju_spell/commands/list_models.py` |
  | GetController | `juju_spell/commands/get_controller.py` |
  | Cache | `juju_spell/cache.py` |
  | Runner | `juju_spell/assignment/runner.py` |
  | Grant | `juju_spell/commands/grant.py` |
  | ConfigCommand | `juju_spell/commands/config.py` |
  | CliConfig | `juju_spell/cli/config.py` |
  | Utils | `juju_spell/utils.py` |

  Types, CacheFiles and Wrappers hold shared values: the `Result` envelope,
  JSON-like values, cache file texts, and options and outcomes.

### Where the model follows the code rather than its documentation

- `merge_list_of_dict_by_key`: the docstring example says group 2 merges to
  `{"index": 2, "v": "b", "u": "b"}`. The code gives `{"index": 2, "v": "a",
  "u": "b"}`, because the second dict of group 2 has no `"v"`. The model
  follows the code, and `Utils.MergeExample` proves the code's answer.
- `get_runner` maps `"batch"` to the sequential runner, so a batch run does not
  fail fast. `BatchRunner.run` still raises `NotImplementedError`, and
  `Runner.Runner.Run` models that for a runner built as a batch runner.
- The config command's unit tests pass `config_app`-style keys and import an
  `apply_configuration`. The code reads the keys `"config-app"`,
  `"config-file"`, `"config-get"` and `"config-set"`, and defines
  `apply_config`. The model follows the code: its options are a record with
  one field per key.

## Model

| member | source | states |
|---|---|---|
| Commands.LoadFromCache | juju_spell/commands/base.py:185-229 | A write command's hook raises NotImplementedError. The default read and read-write hooks return None, which is never a hit. ListModels and GetController return the shared read of the file, `ParsedOrEmpty`. |
| Commands.SaveSpec | juju_spell/commands/base.py:189-233 | A write command's save raises NotImplementedError and leaves the file alone. The default hooks write nothing. ListModels and GetController use their own save. |
| Commands.SaveToCache | juju_spell/commands/base.py:189-233 | The save returns `SaveSpec`'s outcome, rewrites only the target file, and leaves it as `SaveSpec` says. |
| Commands.Envelope | juju_spell/commands/base.py:110-114 | `success` holds iff the steps returned. A success carries the output and no error; a failure carries no output and the exception. |
| Commands.Command.Call | juju_spell/commands/base.py:78-123 | `__call__` returns or raises what `Lifecycle` says, leaves the cache directory as `Lifecycle` says, and stores the envelope in `_result` exactly when it builds one. |
| Commands.SequentialCommandGroup.Call | juju_spell/commands/base.py:50-56 | The group starts from the caller's list when it passed one, runs the children in order, and equals `SequentialSpec`, outcome and cache files both. |
| Commands.SequentialCommandGroup.RunFrom | juju_spell/commands/base.py:54-56 | The loop over the children, starting from any accumulated list, equals `SequentialSpec`. |
| Commands.ParallelCommandGroup.Call | juju_spell/commands/base.py:64-68 | Every child is given the caller's `prev_results`. The group equals `ParallelSpec`. |
| CommandProperties.CacheHitShortCircuits | juju_spell/commands/base.py:83-91 | On a truthy cached value with `refresh` off, the call returns `Result(True, cached, None)`, changes no file, and gives the same answer whatever pre_process, execute and post_process are. |
| CommandProperties.MissRunsTheSteps | juju_spell/commands/base.py:93-114 | On a miss (not cacheable, refresh set, or a falsy cached value), the stored result is the envelope of the three steps. A raising step yields `Result(False, None, error)` and leaves the cache untouched. |
| CommandProperties.DefaultStepsAreExecute | juju_spell/commands/base.py:149-169 | With the default pre_process and post_process, the steps return exactly what execute returns, called with no pre-process input. |
| CommandProperties.CacheWrittenOnlyAfterSuccess | juju_spell/commands/base.py:116-121 | The cache changes only when the command is cacheable and all three steps returned, and then `_result` is the success envelope. No file but the controller's uuid ever changes. |
| CommandProperties.SaveAfterSuccess | juju_spell/commands/base.py:93-121 | Conversely, on a miss (refresh set, or a falsy cached value) a cacheable command whose steps returned always stores the success envelope and rewrites the controller's file as its `save_to_cache` says. The call raises exactly when the save raises, with the save's error, because the save is outside the `try`. |
| CommandProperties.RefreshedListModelsWithoutFileRaises | juju_spell/commands/list_models.py:55-58 | `ListModels` with `refresh` and no cache file for the controller raises FileNotFoundError from the save's read-open, although all three steps succeeded. The directory is unchanged and the success envelope is stored. |
| CommandProperties.OnlyTheTargetFileMatters | juju_spell/commands/base.py:79-121 | Two cache directories that agree on the controller's uuid file give the same outcome, the same stored result and the same new content of that file. |
| CommandProperties.WriteCommandBypassesCache | juju_spell/commands/base.py:199-211 | A write command never calls its raising cache hooks. It returns the envelope of its steps and changes no file. |
| CommandProperties.DefaultHooksNeverHit | juju_spell/commands/base.py:185-191 | Read and read-write commands with the default hooks always run their steps and change no file. |
| CommandProperties.SequentialShape | juju_spell/commands/base.py:50-56 | A sequential group that returns has one result per child after the caller's list, which comes first unchanged. |
| CommandProperties.SequentialChildSeesEarlierResults | juju_spell/commands/base.py:54-55 | Child `i` is given exactly the caller's list plus the results of children 0..i-1, and result `i` is child `i`'s. |
| CommandProperties.ParallelShape | juju_spell/commands/base.py:64-68 | A parallel group that returns has one result per child, in child order. |
| CommandProperties.ParallelChildSeesCallerResults | juju_spell/commands/base.py:66-67 | Child `i` is given the caller's `prev_results` unchanged, and result `i` is child `i`'s. |
| CommandProperties.SequentialStep | juju_spell/commands/base.py:54-55 | A child that returns appends its result and hands the new cache directory to the rest of the group. |
| CommandProperties.RefreshedPipelineMergesOneFile | juju_spell/commands/list_models.py:55-77 | A refreshed `GetController` then `ListModels` run returns both results. The controller's file ends as uuid and name plus the listed models under "models". |
| CommandProperties.FirstRunWithoutRefreshNeverListsModels | juju_spell/commands/list_models.py:37-53 | Without refresh and with no cache file, `GetController` writes uuid and name. `ListModels` then takes that file, which has no "models" key, as a cache hit and never lists the models. |
| CommandProperties.CachedPipelineServesWholeFile | juju_spell/commands/get_controller.py:23-35 | Without refresh, when the cache file holds a truthy document, both commands return that whole document from the cache and no file changes. The document may be an object, a non-empty array or string, a non-zero number or `true`. |
| CommandProperties.NonObjectFileExample | juju_spell/commands/list_models.py:43-53 | A file holding the array `[1]` is a cache hit whose output is `[1]`. A file holding `[]` is a miss that runs the steps. |
| CacheFiles.ParsedOrEmpty | juju_spell/commands/list_models.py:37-53 | An absent file, or one `json.load` cannot read, gives `{}`. Otherwise the loaded document is returned whole, object or not. `GetController`'s loader (get_controller.py:23-35) and the first read of `ListModels.save_to_cache` do the same read. |
| ListModels.PreProcess | juju_spell/commands/list_models.py:13-25 | No `prev_results` raises ValueError. A failed last result re-raises its error. An empty list raises IndexError. Otherwise it returns only when the last output is a controller. |
| ListModels.SaveSpec | juju_spell/commands/list_models.py:55-77 | A missing file raises FileNotFoundError; otherwise the save never raises. A failed result leaves the file empty. So does an old document that is not an object, whose missing `update` raises a caught AttributeError. A success over an object merges the output under "models" and keeps every other key. An unserialisable output leaves the file malformed. |
| ListModels.SaveToCache | juju_spell/commands/list_models.py:55-77 | The save returns `SaveSpec`'s outcome and leaves the file as `SaveSpec` says. |
| ListModels.SaveThenLoad | juju_spell/commands/list_models.py:37-77 | Saving a successful serialisable listing over an object, or over a file that does not load, and then loading gives that listing under "models". |
| ListModels.SaveOverNonObjectEmpties | juju_spell/commands/list_models.py:58-77 | Saving over a document that is not an object leaves the file empty, so the next load gives `{}`. |
| GetController.SaveSpec | juju_spell/commands/get_controller.py:37-54 | The save never raises. A successful controller replaces the whole file with its uuid and name; anything else leaves the file empty. |
| GetController.SaveToCache | juju_spell/commands/get_controller.py:37-54 | The save returns `SaveSpec`'s outcome and leaves the file as `SaveSpec` says. |
| GetController.SaveDropsModels | juju_spell/commands/get_controller.py:47-51 | After a successful save the file has no "models" key, whatever it held before. |
| Cache.FailureError | juju_spell/cache.py:119-120 | Any other failure becomes a JujuSpellError whose message is the error text plus ".". |
| Cache.ConnectSpec | juju_spell/cache.py:122-133 | None exactly when no file exists for the key. Permission or other failures raise JujuSpellError with the source's messages. A blank file raises the wrapped `**None` TypeError, and an unloadable one its own wrapped error. A record gives its context, a missing timestamp defaulting to the clock at import and missing data to `{}`. |
| Cache.PartialRecordAgesFromImport | juju_spell/cache.py:77-81 | A record without a timestamp is dated at module import, so `get` returns it with that timestamp and `{}` for missing data until the import time plus the TTL has passed, and removes it after. |
| Cache.FileCache.Connect | juju_spell/cache.py:122-133 | `_connect` returns `ConnectSpec` and changes nothing. |
| Cache.RemoveSpec | juju_spell/cache.py:135-145 | The removal succeeds iff there is no fault and the file exists, and then only that file is gone. A missing file raises "does not exists."; permission errors raise their message. A failure changes nothing. |
| Cache.FileCache.Remove | juju_spell/cache.py:135-145 | `_remove` returns `RemoveSpec`'s outcome and leaves the files and policy as it says. |
| Cache.CommitSpec | juju_spell/cache.py:110-120 | The commit succeeds iff there is no fault and the data is serialisable, and then the file holds timestamp and data. A failed open changes nothing. A failed dump raises JujuSpellError with the dump error's text plus ".", and leaves the truncated file blank. |
| Cache.FileCache.Commit | juju_spell/cache.py:110-120 | `_commit` returns `CommitSpec`'s outcome and leaves the files as it says. |
| Cache.GetSpec | juju_spell/cache.py:88-96 | A connect error propagates. No file gives None. A fresh context is returned. An expired one is removed and gives None, or the removal's error. |
| Cache.FileCache.Get | juju_spell/cache.py:88-96 | `get` returns `GetSpec`'s outcome and leaves the files as it says, with the policy unchanged. |
| Cache.PutSpec | juju_spell/cache.py:98-100 | The put succeeds iff there is no fault and the value is serialisable, and then it stores value and time under the key. An unserialisable value raises the dump error and blanks the key's file. No other key changes. |
| Cache.FileCache.Put | juju_spell/cache.py:98-100 | `put` returns `PutSpec`'s outcome and leaves the files as it says. |
| Cache.FileCache.Delete | juju_spell/cache.py:102-104 | `delete` is `_remove`. |
| Cache.UseCacheError | juju_spell/cache.py:39-43 | Only "FileCache" is accepted. Any other backend raises JujuSpellError naming the supported backends. |
| Cache.UseCache | juju_spell/cache.py:39-43 | It raises exactly for an unknown backend; otherwise it returns a fresh FileCache with the default TTL of 3600. |
| Cache.FileCache.constructor | juju_spell/cache.py:56-62 | A new cache has the default policy and the directory's existing files. |
| Cache.PutThenGet | juju_spell/cache.py:88-108 | After a put, a get within the TTL returns the value and its time. After the TTL it removes the entry and returns None. |
| Cache.GetAbsent | juju_spell/cache.py:88-92 | A get of a key with no file returns None and changes nothing. |
| Cache.DeleteThenGet | juju_spell/cache.py:135-141 | After a delete the key is gone, a get returns None, and a second delete raises "does not exists.". |
| Cache.PutOverwrites | juju_spell/cache.py:98-100 | Two puts to one key leave the same files as the second put alone. |
| Cache.GetTouchesOnlyItsKey | juju_spell/cache.py:88-96 | Two directories that agree on the key's file give the same outcome and leave that file the same. A get never changes another key's file. |
| Cache.FailedPutBlanksTheFile | juju_spell/cache.py:98-133 | A put of an unserialisable value raises the dump error. The file it truncated then makes a get of that key raise the `FileCacheContext(**None)` TypeError, wrapped in JujuSpellError. |
| Runner.GetRunner | juju_spell/assignment/runner.py:38-45 | "parallel" selects the parallel runner. Every other run type, "batch" included, selects the sequential runner. The batch runner is never selected. |
| Runner.GetResult | juju_spell/assignment/runner.py:26-35 | The context holds exactly the uuid, name and customer of the controller. The envelope's fields are copied unchanged. |
| Runner.GetResultRoundTrip | juju_spell/assignment/runner.py:26-35 | The controller and the envelope can be read back from a task result. |
| Runner.Bound | juju_spell/assignment/runner.py:69-70 | A task's arguments are the shared arguments with `controller_config` bound to its controller, and nothing else changed. |
| Runner.Outcomes | juju_spell/assignment/runner.py:67-71 | Task `k` returns or raises what the command does with the shared arguments bound to controller `k`. There is one outcome per task. |
| Runner.Gather | juju_spell/assignment/runner.py:89-90 | The results are returned iff every task returned, one per task in task order. Otherwise the error raised is the first failing task's. |
| Runner.Results | juju_spell/assignment/runner.py:90 | Reading every task's result, in creation order, is `Gather`. |
| Runner.LastBound | juju_spell/assignment/runner.py:69-70 | After all tasks, the shared mapping is bound to the last controller, or unchanged when there are none. |
| Runner.SequentialRunIsGather | juju_spell/assignment/runner.py:107-115 | The sequential runner returns the gathered results of all tasks, or the first error. |
| Runner.SequentialRunLeavesLastBound | juju_spell/assignment/runner.py:67-71 | A sequential run that returns leaves the shared mapping bound to the last controller. |
| Runner.ParallelAgreesWithSequential | juju_spell/assignment/runner.py:82-115 | In the model, where each task runs to completion before the next starts, the parallel and sequential runners return the same outcome. |
| Runner.Runner.constructor | juju_spell/assignment/runner.py:49-55 | Building a runner builds one task per filtered controller. |
| Runner.Runner.BuildTasks | juju_spell/assignment/runner.py:57-60 | `build_tasks` appends one task per filtered controller, in filter order. |
| Runner.Runner.Task | juju_spell/assignment/runner.py:67-74 | A task binds its controller into the shared mapping and returns or raises what the command does. |
| Runner.Runner.Run | juju_spell/assignment/runner.py:82-115 | The batch runner raises NotImplementedError and changes nothing. The sequential runner equals `SequentialRun`. The parallel runner equals `Gather` of all tasks' outcomes. |
| Runner.Runner.RunSequential | juju_spell/assignment/runner.py:107-115 | Each task runs to completion in order. A raise ends the run. |
| Runner.Runner.RunParallel | juju_spell/assignment/runner.py:82-90 | All tasks run. The result is `Gather` of their outcomes, and the mapping is left bound to the last controller. |
| Grant.GetControllerAcl | juju_spell/commands/grant.py:35-41 | The result is always a controller ACL. It equals the input iff the input is one; otherwise it is "login". |
| Grant.GetModelAcl | juju_spell/commands/grant.py:43-51 | The result is always a model ACL. It equals the input iff the input is one; "superuser" maps to "admin"; anything else maps to "read". |
| Grant.AclChoices | juju_spell/commands/grant.py:26-29 | No controller ACL is a model ACL. `ACL_CHOICES` holds exactly the ACLs of both lists, and its length is the sum of theirs. |
| Grant.AclMappingIdempotent | juju_spell/commands/grant.py:35-51 | Mapping an already-mapped ACL changes nothing. |
| Grant.Controller.Grant | juju_spell/commands/grant.py:73 | A controller grant is recorded, and its error, if any, is returned. |
| Grant.Controller.GrantModel | juju_spell/commands/grant.py:88-92 | A model grant is recorded, and its error, if any, is returned. |
| Grant.Execute | juju_spell/commands/grant.py:53-96 | The calls made and the outcome equal `ExecuteSpec`: the controller grant first, then one model grant per model, in order. |
| Grant.GrantModelsAllPass | juju_spell/commands/grant.py:80-96 | When every model grant succeeds, or fails with a JujuError under `overwrite`, every model is granted in order and the loop returns True. |
| Grant.GrantModelsStopsAt | juju_spell/commands/grant.py:80-95 | The first model grant that fails and is not swallowed ends the loop with that error, after exactly the grants up to it. |
| Grant.ExecuteGrantsAll | juju_spell/commands/grant.py:62-96 | A successful run grants the mapped controller ACL, then the mapped model ACL on each model, and returns True. |
| Grant.ExecuteRaisesAt | juju_spell/commands/grant.py:80-95 | A non-JujuError failure, or any failure without `overwrite`, raises after the grants up to the failing model. |
| Grant.ExecuteControllerGrantFails | juju_spell/commands/grant.py:73 | A failing controller grant raises before any model grant. |
| Grant.ExecuteSuperuserExample | tests/unit/commands/test_grant.py:15-74 | "superuser" for "new-user" grants "superuser" on the controller, then "admin" on each of the two models. |
| ConfigCommand.SetConfigSpec | tests/unit/commands/test_cmd_config.py:21-22 | `set_config` overrides the given properties and keeps the others. |
| ConfigCommand.JujuController.SetConfig | tests/unit/commands/test_cmd_config.py:21-22 | Only the named application's configuration changes, and it becomes `SetConfigSpec`. |
| ConfigCommand.JujuController.GetConfig | tests/unit/commands/test_cmd_config.py:24-25 | `get_config` returns the application's current configuration. |
| ConfigCommand.ApplyConfigSpec | juju_spell/commands/config.py:68-77 | Properties, when given, are set; only that application changes. With `config-get` it returns a one-key map, or raises KeyError for a missing key. Otherwise it returns the whole configuration. |
| ConfigCommand.ApplyConfig | juju_spell/commands/config.py:68-77 | `apply_config` changes the remote state and returns what `ApplyConfigSpec` says. |
| ConfigCommand.ApplyFileConfig | juju_spell/commands/config.py:55-65 | `apply_file_config` changes the model and returns what `ApplyFileSpec` says. |
| ConfigCommand.ApplyFileConfigResult | juju_spell/commands/config.py:55-65 | Applications the model lacks are skipped. Each updated application is reported with its final configuration. No other application changes. |
| ConfigCommand.ExecuteSpec | juju_spell/commands/config.py:26-52 | A run keeps the set of models. |
| ConfigCommand.ConfigureModel | juju_spell/commands/config.py:34-50 | One model's step changes only that model. It returns what `ModelConfigSpec` says: `config-app` when given (skipped when the model lacks the application), else `config-file`, else `{}`. |
| ConfigCommand.Execute | juju_spell/commands/config.py:26-52 | `execute` changes the models and returns what `ExecuteSpec` says. |
| ConfigCommand.ExecuteReportsEveryModel | juju_spell/commands/config.py:29-52 | Each filtered model gets exactly one output entry, and models not filtered are unchanged. |
| ConfigCommand.ExecuteWithoutOptions | juju_spell/commands/config.py:34-50 | With neither `config-app` nor `config-file`, every model is reported as `{}` and nothing is set. |
| ConfigCommand.ConfigAppTakesPrecedence | juju_spell/commands/config.py:40-48 | When `config-app` is given, `config-file` makes no difference. |
| ConfigCommand.ApplyFileConfigExample | tests/unit/commands/test_cmd_config.py:110-120 | Setting hostname and cpu keeps "others" and reports the whole new configuration. |
| CliConfig.SplitFirst | juju_spell/cli/config.py:139 | A token splits iff it holds "=". The key has no "=", and key, "=" and value rebuild the token. Otherwise it raises ValueError "not enough values to unpack (expected 2, got 1)". |
| CliConfig.SplitJoin | juju_spell/cli/config.py:139 | Splitting `key=value` gives back key and value, whatever "=" the value holds. |
| CliConfig.FillLaterWins | juju_spell/cli/config.py:138-140 | When every token holds "=", the action returns. Each key maps to the value of the last token with that key, and keys no token names are kept. |
| CliConfig.FillStopsAt | juju_spell/cli/config.py:139 | The first token without "=" raises ValueError. The dictionary then holds exactly the pairs of the tokens before it. |
| CliConfig.KeyValue.Call | juju_spell/cli/config.py:129-140 | The attribute becomes a fresh `{}` even when no values are given. It then ends as `Fill` of the tokens, and the action returns or raises as `Fill` says. |
| CliConfig.KeyValue.Store | juju_spell/cli/config.py:137-140 | The loop stores each token's pair in the attribute's dictionary and stops at the first bad token. |
| CliConfig.KeyValueExample | tests/unit/cli/test_cli_config.py:84 | "a=3 b=2 c=z=2" gives a=3, b=2, c=z=2. |
| CliConfig.KeyValueQuotedExample | tests/unit/cli/test_cli_config.py:87 | `x="2=2" y=2` keeps the quoted value whole. |
| CliConfig.GetApplicationConfig | juju_spell/cli/config.py:115-122 | One ApplicationConfig per top-level entry, in the mapping's order: record `i` holds exactly entry `i`'s name and dictionary. |
| CliConfig.ApplicationConfigExample | tests/unit/cli/test_cli_config.py:12-26 | The two-application YAML gives the two expected records. |
| Utils.Lower | juju_spell/utils.py:40 | Lowering keeps the length and lowers each character. |
| Utils.LowerIdempotent | juju_spell/utils.py:40 | Lowering twice is lowering once. |
| Utils.StrToBool | juju_spell/utils.py:33-47 | True iff the lowered value is one of y, yes, t, true, on, 1. False iff it is one of n, no, f, false, off, 0. Otherwise ValueError "Invalid boolean value of" plus the repr. |
| Utils.StrToBoolIgnoresCase | juju_spell/utils.py:40-45 | Values that lower to the same string parse to the same boolean. |
| Utils.LexLeIsTotalOrder | juju_spell/utils.py:69-70 | The string order `sorted` uses is a total order. |
| Utils.InsertAdds | juju_spell/utils.py:69-70 | Insertion adds exactly the one item. |
| Utils.InsertSorted | juju_spell/utils.py:69-70 | Insertion keeps a list sorted. |
| Utils.SortStringsSorted | juju_spell/utils.py:69-70 | Sorting gives a sorted permutation of its input. |
| Utils.SortedUnique | juju_spell/utils.py:69-70 | Two sorted permutations of one list are equal, so the sorted list is unique. |
| Utils.Phrase | juju_spell/utils.py:72-80 | No items give "". One item gives itself. Two give "a and b". Three or more give a comma-separated list with a comma before the conjunction. |
| Utils.Formatted | juju_spell/utils.py:67 | Each item is formatted, in order. |
| Utils.HumanizeList | juju_spell/utils.py:50-80 | An empty input gives "". One item gives its formatted text. Unsorted output is the phrase of the formatted items; sorted output is the phrase of a sorted permutation of them. |
| Utils.HumanizeSortedDependsOnFormattedOnly | juju_spell/utils.py:67-70 | Sorted output depends only on the multiset of formatted items. |
| Utils.ThreeItemPhrase | juju_spell/utils.py:75-80 | Three items give "a, b, and c". |
| Utils.MergeListOfDictByKey | juju_spell/utils.py:83-103 | The loop equals `MergeSpec`, the fold of the defaultdict update over every element of every list. |
| Utils.FirstLookupError | juju_spell/utils.py:102 | There is no lookup error iff every element has the key with a hashable value. |
| Utils.FirstLookupErrorIsFirst | juju_spell/utils.py:100-102 | The error raised is the first bad element's: KeyError for a missing key, TypeError for a list or dict value. |
| Utils.Dedup | juju_spell/utils.py:99-103 | The group keys have the same members as the element keys, with no key repeated. |
| Utils.DedupFirstAppearance | juju_spell/utils.py:99-103 | Groups come in the order their keys first appear. |
| Utils.UnionOfFields | juju_spell/utils.py:102 | Every field of a merged group comes from an element of that group. |
| Utils.UnionOfLaterWins | juju_spell/utils.py:102 | For each field, the merged group holds the value of the last element of the group that has it. |
| Utils.UpdateCanon | juju_spell/utils.py:102 | One update takes the groups of a prefix to the groups of the prefix plus one element. |
| Utils.MergeFoldRaises | juju_spell/utils.py:100-102 | The merge raises iff some element is bad, and then with the first bad element's error. |
| Utils.MergeFoldCanon | juju_spell/utils.py:99-103 | A merge that returns gives the closed-form groups of all elements seen. |
| Utils.MergeMeaning | juju_spell/utils.py:83-103 | It raises iff some element lacks a hashable key value, with the first such element's error. Otherwise the result is one dict per distinct key, in first-appearance order, later elements' fields winning. |
| Utils.MergeExample | juju_spell/utils.py:86-97 | For the docstring's lists, group 2 merges to index 2, "v" "a", "u" "b". |

## Left out

- asyncio scheduling, the event loop and concurrency. `await` is a plain call, and the parallel runner's tasks run one after another. Only the result order, task order, is kept. Connection clean-up (`connect_manager.clean`) is left out.
- Runner.ParallelAgreesWithSequential: holds only under run-to-completion scheduling. Under real interleaving every `task` rebinds `controller_config` in the one shared `vars(parsed_args)` dictionary, and `execute` receives that same dictionary, so after an `await` a task can see a later task's controller. A group's child reads the uuid when it starts, so it can pick the wrong cache file. None of this is modelled.
- The Juju client is not modelled. `execute`, `get_controller` and `list_models` are oracles that return or raise. `grant` and `grant_model` answer through a function from call to error. The remote `set_config` and `get_config` behave as the unit tests' double does. They never fail.
- `get_filtered_models` and `get_filtered_config` are not part of this model. The filtered model names and the filter function are inputs.
- YAML and JSON text is not modelled. A `ListModels`/`GetController` cache file is empty, malformed, or a parsed JSON document of any top-level type; a `FileCache` file is a YAML record, blank, or unloadable with the error text. Serialisability is a predicate on values. `load_yaml_file` and its errors are left out: `get_application_config` starts from the loaded mapping.
- `mkdir`, `Path.exists` on the cache directory, and file permissions in the command hooks are left out. Permission and other failures are modelled for the file cache only.
- The float clock `time()` is an integer parameter. `FileCacheContext`'s default timestamp, taken when the module is imported, is the `importTime` parameter.
- Utils.Lower: lowers ASCII letters only; Unicode case mapping is left out.
- Utils.StrToBool: the message's `repr` adds quotes but does not escape characters inside the value.
- Python's cross-type key equality (`1 == True`) is not modelled, and only lists and dicts count as unhashable keys.
- `humanize_list` takes a list, not an arbitrary iterable. A generator, which is always truthy, is left out.
- A command group's children are commands. A group nested inside a group is left out.
- Commands.SequentialCommandGroup.Call: `prev_results` is either absent or a list of results, so the `isinstance(prev_results, list)` test is always decided by presence. A `prev_results` of another type, which the group would ignore, is not modelled; no caller passes one.
- Class-level state shared between instances (the `Cache.policy` default object) is left out. Each cache has its own policy.
- A `Result.output` that is not a JSON value, and `Result.__repr__`, are left out.
- Cache.CommitSpec: the text of the error raised when a record cannot be dumped is an input (`dumpError`). It comes from the deep copy in `dataclasses.asdict` or from PyYAML's `RepresenterError`, and it names the offending object, whose `repr` is not modelled.
- Runner.Outcomes: the runner's command returns a single `Result`. A command group given to the runner returns a list, and its children write the cache directory; neither is modelled at the runner's level. Command groups are modelled on their own in `Commands`.
- Commands built on `BaseJujuCommand` (grant, config) are modelled through their `execute` only. Their connection handling and the `JujuWriteCMD` CLI wiring (`fill_parser`) are left out.
- Logging is left out.
- Utils.MergeExample: proves the merged value of group 2, the group where the docstring and the code differ, not the whole result list.
- The YAML mapping given to `get_application_config` is a sequence of entries. It may repeat a name, which a real mapping cannot.
- Values of a configuration are strings, as `ApplicationConfig.config` is typed. Nested YAML values are left out.
