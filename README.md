# robo-composer-lock-diff, modelled in Dafny

`robo-composer-lock-diff` is a plugin for the Robo build tool. It has two parts.

- **Robo tasks.** They wrap the external composer-lock-diff library.
  - `LockDifferTask` runs a `LockDiffer` over a left/right pair of
    composer.lock documents and a pair of composer.json documents.
  - `ReportTask` is the report task.
  - Both share the `BaseTask` bookkeeping: the asset-name prefix, the result
    code and message, the assets returned with prefixed names, and the task
    name in the logging context.
- **The package's own `RoboFile`.** It does three things:
  - decides the environment type and name it runs in (developer machine,
    CI and which CI vendor);
  - runs the `prepare-commit-msg` git hook, which diffs every staged
    `*.lock` file;
  - builds the Codeception command lines, one per test suite and enabled
    PHP executable, with the report options the environment calls for.

The model follows the PHP source file by file.

- **php.dfy (`Php`)**: the PHP semantics the code relies on.
  - String truthiness: only "" and "0" are false.
  - `empty()`.
  - `strtoupper`, `str_replace`, `explode(...)[0]`, `implode`,
    `array_unique`, `array_diff`, and string-keyed ordered arrays.
- **lock_diff.dfy (`LockDiff`)**: the library types the tasks pass around.
  - A `LockDiffer` is an uninterpreted function of its four inputs.
- **task.dfy (`Task`)**: the three task classes as Dafny classes.
  - PHP inheritance becomes composition: a concrete task owns the `BaseTask`
    object that holds the inherited fields.
  - Setters and `setOptions` are methods whose contracts state the whole new
    configuration.
  - `getAssetsWithPrefixedNames` is a loop proved against the map
    `PrefixedAssets`. Lemmas show that map neither merges nor invents assets.
- **robo_env.dfy (`RoboEnv`)**: the environment-variable naming rules.
  - The environment detection is a decision table, `EnvironmentOf`, over the
    process environment.
- **robo_githook.dfy (`RoboGitHook`)**: the hook's path list and its loop
  over staged files.
  - `git show` and `json_decode` are function parameters.
- **robo_codecept.dfy (`RoboCodecept`)**: the Codeception part.
  - Enabled executables and report options per environment type.
  - One run's command: a `vsprintf` pattern with its arguments, built as a
    tree of clauses.
  - The fan-out over suites and executables, and suite-name validation.
  - `vsprintf`, `escapeshellarg` and `escapeshellcmd` are not evaluated.
    Every argument records which escaping it gets.
- **robo.dfy (`Robo`)**: the `RoboFile` object.
  - Its constructor and the imperative methods: environment settling, the
    hook command, building one run, the nested fan-out loops, and the suite
    name cache.
  - Each method is proved against the functions above.

What the PHP reads at run time is given to the model as inputs:

- the process environment (`map<string, string>`);
- the package name and bin directory from composer.json;
- the `paths` section of the Codeception configuration;
- `php.executables`;
- the staged file names;
- the suite file basenames;
- `file_exists`.

## Model

| member | source | states |
|---|---|---|
| Php.ToUpper | RoboFile.php:446 | `strtoupper` keeps the length and upper-cases exactly the ASCII letters, position by position |
| Php.ReplaceChar | RoboFile.php:446 | `str_replace('-', '_', …)` keeps the length and replaces exactly the `-` characters |
| Php.FirstSegment | RoboFile.php:794 | `explode('.', $s)[0]` is a prefix of `s` without any `.`, followed in `s` by `.` unless it is all of `s` |
| Php.Unique | RoboFile.php:173-180 | `array_unique` leaves no duplicates, keeps every value, and keeps the first element first |
| Php.UniqueKeepsFirstOccurrences | RoboFile.php:173-180 | `array_unique` is the front-to-back filter that keeps a value only where it has not been seen before, so the kept values are the first occurrences, in order |
| Php.Without | RoboFile.php:813 | `array_diff` keeps exactly the values not in the known list; nothing is dropped iff no value is known |
| Php.ArraySet | RoboFile.php:261 | `$a[$k] = $v` makes `k` map to `v`, leaves every other key's value alone, and appends `k` to the keys only if it is new |
| Php.JoinContains | RoboFile.php:816 | every part of an `implode` is spelled out in the joined string |
| RoboEnv.EnvVarNamePrefix | RoboFile.php:444-449 | the prefix is the package name with `-` turned into `_` and upper-cased: same length, no `-`, no lower-case ASCII letter |
| RoboEnv.EnvVarName | RoboFile.php:489-492 | a variable name is the prefix, `_`, then the upper-cased name |
| RoboEnv.CiVendor | RoboFile.php:468-476 | the CI vendor is gitlab if GITLAB_CI=true, else travis if TRAVIS=true, else circle if CIRCLECI=true, else none |
| RoboEnv.EnvironmentOf | RoboFile.php:451-487 | after detection both type and name are truthy, an explicitly configured type or name is kept, and an unnamed environment of a type other than "ci" is named "local" |
| RoboEnv.EnvironmentTypeDetection | RoboFile.php:456-466 | without a configured type, CI=true or a truthy JENKINS_HOME gives "ci", anything else "dev" |
| RoboEnv.JenkinsDetection | RoboFile.php:460-465 | JENKINS_HOME without CI=true gives type "ci" and, unless a name is configured, name "jenkins" |
| RoboEnv.CiVendorNaming | RoboFile.php:468-484 | an unnamed "ci" environment outside the Jenkins branch takes the CI vendor's name, or else "local" |
| RoboGitHook.StripLeadingDotSlash | RoboFile.php:162-166 | a leading `./` is removed and nothing else changes |
| RoboGitHook.JsonToLock | RoboFile.php:167-171 | a trailing `.json` becomes `.lock`, also before a final newline as PCRE's `$` allows; any other path is unchanged |
| RoboGitHook.StagedPathPatterns | RoboFile.php:173-180 | the path list has no duplicates, starts with composer.json and holds exactly the six candidate paths |
| RoboGitHook.ComposerJsonPath | RoboFile.php:162-166 | the json path is COMPOSER without a leading `./` when COMPOSER is truthy, and composer.json otherwise |
| RoboGitHook.ComposerLockPath | RoboFile.php:167-171 | the lock path has the json path's length, ends in `.lock` when the json path ends in `.json`, and is the json path itself when that has no `.json` ending |
| RoboGitHook.DefaultComposerPaths | RoboFile.php:162-171 | with COMPOSER unset, falsy or the default path, the paths are composer.json and composer.lock |
| RoboGitHook.DefaultStagedPathPatterns | RoboFile.php:162-180 | with the default paths the list is composer.json, composer.lock, composer.*.json, composer.*.lock, in that order |
| RoboGitHook.LockPathFollowsJsonPath | RoboFile.php:167-171 | the lock path is the json path with its `.json` ending replaced by `.lock` |
| RoboGitHook.PrepareCommitMsgPaths | RoboFile.php:154-180 | merge and squash commits get no listing; every other commit gets the staged path patterns |
| RoboGitHook.SafeJsonDecode | RoboFile.php:274-279 | missing content decodes to null; present content is handed to `json_decode` |
| RoboGitHook.LockId | RoboFile.php:251 | the id followed by `.lock` is the staged file name |
| RoboGitHook.LockFileDiff | RoboFile.php:250-258 | a staged lock file is diffed HEAD against the index: the lock documents are that file, the json documents its sibling with the `.json` ending |
| RoboGitHook.EntriesList | RoboFile.php:244-262 | the list the loop builds has at most one entry per staged file, and only staged `.lock` files appear in it |
| RoboGitHook.EntriesListStep | RoboFile.php:246-262 | one more staged file adds its diff under its name exactly when it is a `.lock` file with a non-empty diff |
| RoboGitHook.EntriesListLookup | RoboFile.php:246-262 | a file has entries in the list iff it was staged, ends in `.lock` and its diff is non-empty, and then they are its HEAD-vs-index diff |
| RoboGitHook.EntriesListKeysUnique | RoboFile.php:261 | every staged file appears in the list at most once |
| RoboGitHook.MakeQuartets | RoboFile.php:241-266 | the loop builds exactly the entries list of the staged files (none when the state key is missing) and returns 0 |
| RoboCodecept.EnabledPhpExecutables | RoboFile.php:848-857 | exactly the entries whose `enabled` is non-empty are kept; when all are enabled the list is unchanged |
| RoboCodecept.EnabledPhpExecutablesInOrder | RoboFile.php:848-857 | the enabled executables are exactly what a front-to-back filter on `enabled` keeps, so they keep their relative order |
| RoboCodecept.PatternMatchesArguments | RoboFile.php:689 | in a clause whose literal text has no `%`, the pattern has exactly one `%` per argument |
| RoboCodecept.EnvVarValues | RoboFile.php:601-609 | the arguments of the variables are quoted values, at most one per variable |
| RoboCodecept.EnvVarsClauseArgs | RoboFile.php:601-609 | the variables contribute exactly their non-null values as arguments, and no `%` when no name holds one |
| RoboCodecept.WithExecutableArgs | RoboFile.php:611-619 | the executable adds the command verbatim and `<binDir>/codecept` command-escaped, and no `%` of its own |
| RoboCodecept.ReportFlags | RoboFile.php:591-595 | HTML coverage and HTML JUnit iff "dev", XML coverage and XML JUnit iff "ci", serialized coverage iff either |
| RoboCodecept.FlagArgs | RoboFile.php:622-669 | each report option takes its report path, quoted, in option order |
| RoboCodecept.WithFlagsArgs | RoboFile.php:622-669 | the report options add exactly their quoted paths as arguments and no `%` of their own |
| RoboCodecept.FlagDirectoriesMembers | RoboFile.php:622-669 | a directory is created iff one of the selected report options writes into it |
| RoboCodecept.FlagDirectoriesUnderLogDir | RoboFile.php:622-669 | every report directory created lies inside the log directory |
| RoboCodecept.TailArgs | RoboFile.php:671-687 | after the options come the suite unless it is "all", then the env file name when the file exists; the Jenkins guard adds no argument |
| RoboCodecept.LogDir | RoboFile.php:769-776 | the configured log path is used when it is non-empty, else `tests/_log` |
| RoboCodecept.SuitePlan | RoboFile.php:587-720 | a run's process gets the executable's `envVars` (null when missing), and every directory it creates lies inside the log directory |
| RoboCodecept.PlaceholdersMatchArguments | RoboFile.php:599-689 | the pattern of every run has exactly as many placeholders as `vsprintf` gets arguments, when no variable name holds a `%` |
| RoboCodecept.SuitePlanArguments | RoboFile.php:599-682 | a run's arguments are: the variable values; the executable and codecept; one quoted path per report option; the suite unless "all"; the env file name if that file exists |
| RoboCodecept.SuitePlanDirectories | RoboFile.php:622-669 | "dev" creates the HTML coverage, serialized coverage and HTML JUnit directories, in that order. "ci" creates the serialized coverage and XML JUnit directories. Other types create none |
| RoboCodecept.EffectiveSuites | RoboFile.php:569-571 | no suite names means the single suite "all"; given names are used as they are |
| RoboCodecept.RunsLength | RoboFile.php:575-579 | there is one run per suite and executable |
| RoboCodecept.RunsIndex | RoboFile.php:575-579 | with `n` executables, run `i * n + j` is suite `i` with executable `j` (suite-major order) |
| RoboCodecept.PlansOfRunsIndex | RoboFile.php:575-579 | under any planner, with `n` executables, plan `i * n + j` is the plan of suite `i` with executable `j` |
| RoboCodecept.FanOutIndex | RoboFile.php:567-582 | with `n` executables, task `i * n + j` of the fan-out is the command plan of suite `i` with executable `j` |
| RoboCodecept.FirstSegments | RoboFile.php:793-796 | the loop collects the part before the first `.` of every suite file, in order |
| RoboCodecept.SuiteNamesOf | RoboFile.php:793-798 | the suite names have no duplicates, contain no `.`, and are exactly the first segments of the suite files |
| RoboCodecept.SuiteNamesCheck | RoboFile.php:807-820 | the names pass iff all are known; otherwise the error has code 1 and a message that lists the unknown names |
| RoboCodecept.InvalidSuiteNameReported | RoboFile.php:813-818 | an unknown suite name makes the check fail, and the message contains that name |
| RoboCodecept.ProcessCallbackTarget | RoboFile.php:826-842 | "out" goes to standard output iff it is not hidden; "err" goes to standard error iff it is not hidden |
| Robo.RoboFile.constructor | RoboFile.php:77-84 | the constructor sets the variable prefix from the package name and settles the environment by the decision table |
| Robo.RoboFile.InitEnvVarNamePrefix | RoboFile.php:444-449 | the stored prefix is the package name with `-` turned into `_` and upper-cased |
| Robo.RoboFile.GetEnvVarName | RoboFile.php:489-492 | a variable name starts with the stored prefix and `_`, followed by the upper-cased name |
| Robo.RoboFile.InitEnvironmentTypeAndName | RoboFile.php:451-487 | the step-by-step updates settle on exactly the type and name of the decision table `EnvironmentOf` |
| Robo.RoboFile.CmdGithookPrepareCommitMsgExecute | RoboFile.php:149-180 | merge and squash commits are left alone; otherwise the hook is recorded and the staged path patterns are listed |
| Robo.RoboFile.GetLogDir | RoboFile.php:769-776 | the configured `paths.log` when it is not empty, `tests/_log` otherwise |
| Robo.RoboFile.GetEnabledPhpExecutables | RoboFile.php:848-857 | exactly the configured executables whose `enabled` is not empty |
| Robo.RoboFile.GetTaskCodeceptRunSuite | RoboFile.php:587-721 | the pattern, arguments and directories built piece by piece are the command plan `SuitePlan` of the suite and executable |
| Robo.RoboFile.AddSuiteTasks | RoboFile.php:576-578 | the inner loop appends one plan per executable, in order |
| Robo.RoboFile.GetTaskCodeceptRunSuites | RoboFile.php:567-582 | the tasks are the plans of every (suite, enabled executable) pair, suite-major, with "all" when no suite is named |
| Robo.RoboFile.GetCodeceptionSuiteNames | RoboFile.php:781-802 | the suite names are computed from the suite files once and kept afterwards |
| Robo.RoboFile.ValidateArgCodeceptionSuiteNames | RoboFile.php:807-820 | an empty list passes without a scan; otherwise the outcome is the suite-name check against the known suites |
| Robo.RoboFile.Test | RoboFile.php:323-328 | the suite-name cache is filled from the suite files only when names are given and it is empty; a name not among the known suites stops the command with the check's error; otherwise the result is the fan-out of runs |
| Task.PrefixedAssets | src/Task/BaseTask.php:132-145 | a falsy prefix returns the assets unchanged; a truthy one stores each asset under `prefix + name`, and every returned name is such a name |
| Task.PrefixedAssetsCount | src/Task/BaseTask.php:139-144 | prefixing keeps the number of assets |
| Task.PrefixedAssetLookup | src/Task/BaseTask.php:134-144 | the asset stored under `k` is returned under the effective prefix plus `k`, and only when `k` is an asset |
| Task.BaseTask.constructor | src/Task/BaseTask.php:23-72 | a new task has no assets, an empty prefix, result code 0 and an empty message |
| Task.BaseTask.SetAssetNamePrefix | src/Task/BaseTask.php:38-48 | the getter returns the prefix just set |
| Task.BaseTask.SetOptions | src/Task/BaseTask.php:56-63 | the prefix changes only when the `assetNamePrefix` key is present |
| Task.BaseTask.RunInit | src/Task/BaseTask.php:94-100 | the result code becomes 0 and the message "" whatever a previous run left |
| Task.BaseTask.GetAssetsWithPrefixedNames | src/Task/BaseTask.php:132-145 | the loop returns exactly `PrefixedAssets` of the prefix and the assets |
| Task.BaseTask.RunReturn | src/Task/BaseTask.php:119-127 | the result carries the current code, the message and the prefixed assets |
| Task.BaseTask.GetTaskName | src/Task/BaseTask.php:147-150 | a truthy task name is used; otherwise the formatted class name is used |
| Task.BaseTask.GetTaskContext | src/Task/BaseTask.php:159-170 | `name` is set to the task name only when the context lacks a non-empty `name`; every other key is kept |
| Task.LockDifferTask.constructor | src/Task/LockDifferTask.php:11-99 | all five configurable fields start as null, along with the inherited state |
| Task.LockDifferTask.SetLockDiffer | src/Task/LockDifferTask.php:15-25 | the getter returns the value set, and no other setting changes |
| Task.LockDifferTask.SetLeftLock | src/Task/LockDifferTask.php:35-48 | the getter returns the value set, and no other setting changes |
| Task.LockDifferTask.SetRightLock | src/Task/LockDifferTask.php:58-71 | the getter returns the value set, and no other setting changes |
| Task.LockDifferTask.SetLeftJson | src/Task/LockDifferTask.php:81-94 | the getter returns the value set, and no other setting changes |
| Task.LockDifferTask.SetRightJson | src/Task/LockDifferTask.php:104-117 | the getter returns the value set, and no other setting changes |
| Task.LockDifferTask.SetOptions | src/Task/LockDifferTask.php:122-147 | exactly the present keys are applied, prefix included; a present null clears its field |
| Task.LockDifferTask.ActiveDiffer | src/Task/LockDifferTask.php:151 | the configured LockDiffer is used when set, a new default one otherwise |
| Task.LockDifferTask.RunDoIt | src/Task/LockDifferTask.php:149-160 | exactly the asset `composer_lock_differ.entries` is written: the diff of left lock, right lock, left json, right json |
| Task.LockDifferTask.Run | src/Task/BaseTask.php:84-92 | a run succeeds with an empty message, leaves the task's result code 0 and message empty, and returns every asset once, the entries under the prefixed asset name |
| Task.ReportTask.constructor | src/Task/ReportTask.php:7-9 | a report task starts with the report task name and the initial inherited state |
| Task.ReportTask.Run | src/Task/ReportTask.php:11-13 | with its no-op `runDoIt`, a run always exits 0 with the assets as they are, prefixed, and leaves the task's result code 0 and message empty |

## Left out

- The lock-diff algorithm and the Markdown and console-table reporters belong to the external composer-lock-diff library. `LockDiffer` is an uninterpreted function, and the reporter objects are not modelled.
- `gitReadFileContent` runs `git show` through Symfony's process helper. It is the `GitShow` parameter. `json_decode` is the `JsonDecode` parameter.
- Listing the staged files is an input: the file names under the state key, or None when the key is missing.
- The rest of the prepare-commit-msg hook is file and task I/O. That covers opening, writing and closing the commit message file, and the per-file report tasks of `taskForEach`. The model ends at the entries list those tasks consume.
- `initShell` and `initComposerInfo` read `SHELL` and composer.json. The package name and bin directory are constructor parameters instead.
- `initCodeceptionInfo` merges YAML files with `array_replace_recursive`. Its `paths` result is an input, `CodeceptionPaths`.
- The Finder scan of suite files is an input: the basenames in the order Finder yields them.
- `file_exists` for the environment file is a parameter. So is `TaskInfo::formatTaskName`, in `GetTaskName`.
- Running the Codeception command is left out. That covers printing the command, spawning the process, forwarding its output, and the `mkdir` tasks themselves. A run is modelled as its plan: directories to create, the command as a `vsprintf` pattern with its arguments, and the process environment.
- The exact text `vsprintf`, `escapeshellarg` and `escapeshellcmd` produce is left out. Each argument records which escaping it gets.
- `getProcessCallback` writes to the console. Only its routing decision is modelled.
- `runHeader` (`printTaskInfo`) only logs. `runProcessOutputs` does nothing. Neither appears in the modelled `run` pipelines.
- The Robo collection builder is not modelled. A fan-out's tasks are a list of plans.
- The host framework's own `getTaskContext` is not modelled. `GetTaskContext` returns the context handed to it.
- Fluent `return $this` chaining is not modelled. A setter is a method that changes its field.
- `setEntries` and `setReporter`, which the hook calls on the report task, are not part of this repository's `ReportTask` source.
- The other RoboFile commands are outside the modelled core: the pre-commit hook, composer validate, the CircleCI check, phpcs, phpstan and the configuration export.
- PHP floats and integer array keys are not modelled in decoded values. `mb_substr` and `mb_strlen` are treated as operations on characters.
- Inputs PHP rejects at run time are not representable. Under `strict_types`, a null `assetNamePrefix` option is a TypeError in `setAssetNamePrefix`, but `Options.assetNamePrefix` holds only strings. `safeJsonDecode` throws on a JSON scalar because it returns `?array`, but `JsonDecode` yields only documents or null. `array_unique` keeps the original keys (0, 1, 4, …), but the sequence here renumbers them.
