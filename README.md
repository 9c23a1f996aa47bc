# simbot bootstrap, configuration and log routing in Dafny

A model of the sequential core of discord-simbot's `src/simbot/` package:

- `simbot_bootstrap.py` holds three parts:
  - the default configuration template `_DEFAULT_CONFIG_DICT`;
  - `merge_default`, which fills in the keys a configuration file lacks;
  - `warn_extra_keys`, which buffers one warning per key the template does not know.

  It also holds the logging part of `setup_logging` (which records reach the log file and which reach standard error) and the control flow of `run`. That flow has two branches. With no file, `run` writes the defaults and returns 0. Otherwise it merges, warns, writes the merged file back, sets up logging, checks the restart flag, and runs the supervisor loop that relaunches the worker after a crash.
- `utils.py`: `str_parse_boolean`, the three-valued reading of a yes/no string.
- `utils_logging.py` holds three things:
  - `NameLevelFilter.filter`, a level threshold gated by the logger namespace;
  - the name rule of `get_new_logger`;
  - `safe_parse_logging_level`.

Modules, one per concern:

| module | file | contents |
|---|---|---|
| `Wrappers` | `wrappers.dfy` | `Option`, `Result`, and the Python exceptions raised (`TypeError`, `KeyError`, `AttributeError`) |
| `Text` | `text.dfy` | `str.strip`, `str.lower` and `str.upper` on strings, and how they commute |
| `Utils` | `utils.dfy` | `str_parse_boolean` |
| `UtilsLogging` | `utils_logging.dfy` | the filter, the logger-name rule and the level parser |
| `ConfigTree` | `config_tree.dfy` | the JSON document as an ordered, key-unique dict tree; key paths |
| `ConfigMerge` | `config_merge.dfy` | `_DEFAULT_CONFIG_DICT` and `merge_default` |
| `ConfigWarnings` | `config_warnings.dfy` | the walk of `warn_extra_keys` and its messages |
| `LoggingSetup` | `logging_setup.dfy` | the checks and the handler routing of `setup_logging` |
| `SimbotBootstrap` | `bootstrap.dfy` | the module's global state as a class whose methods follow `run` step by step; the worker oracle; the supervisor loop |

A dict is a sequence of `(key, value)` entries in insertion order, which is the order Python iterates in. So the merged document gets its new keys appended in template order, and warnings come out in document order. Every list holds leaves only, as the template's own comment requires.

The module's global `buffered_warnings` is a field of the class `Bootstrap`. So are the messages logged, the file last written, the installed handlers and the number of workers launched.

Some operations are stated both as a function and as a method. Each method is proved against its function, and the lemmas about what the source promises are stated over the functions:

- `merge_default`: the method `MergeDefault` and the function `Merged`.
- `warn_extra_keys`: the method `WarnExtraKeys` and the function `ExtraKeys`.
- the supervisor loop: the method `SuperviseLoop` and the function `StopIndex`.

Two points where the source's own comments or structure could suggest more than the code does:

- The comment at `simbot_bootstrap.py:33-35` says each key's expected type will be guaranteed by `config_type_checks()`. No such function exists. The code checks the type of only three configuration values, and only those three checks are modelled:
  - the log file path (`simbot_bootstrap.py:114`);
  - the restart flag (`simbot_bootstrap.py:192`);
  - the login token, inside the worker (`simbot.py:38`).
- `run` launches the worker before the login token is checked, because the check happens inside the worker (`simbot.py:37-39`). A token that is not a string makes each worker exit with code 1. With restarts on, it is relaunched for ever (`BadTokenNeverStops`). With restarts off, `run` returns 1 after one launch (`BadTokenRestartOff`).

## Model

| member | source | states |
|---|---|---|
| `Utils.TrueFalseDisjoint` | src/simbot/utils.py:18-20 | no spelling is in both the true set and the false set |
| `Utils.StrParseBoolean` | src/simbot/utils.py:22-35 | true exactly for the stripped, lower-cased true spellings; false exactly for the false spellings; None exactly for every other text |
| `Utils.StrParseBooleanNormalized` | src/simbot/utils.py:29 | the answer for `text` equals the answer for `strip(lower(text))` and for `lower(strip(text))` |
| `Utils.StrParseBooleanIgnoresCase` | src/simbot/utils.py:29-35 | under the ASCII case mapping, upper- or lower-casing the input never changes the answer |
| `Utils.StrParseBooleanPadding` | src/simbot/utils.py:29-35 | white space on either side never changes the answer |
| `Text.StripPadding` | src/simbot/utils.py:29 | `strip` ignores any white space added on either side |
| `Text.StripIdempotent` | src/simbot/utils.py:29 | stripping twice gives what stripping once gives |
| `Text.StripLower` | src/simbot/utils.py:29 | stripping and lower-casing commute, so the order in `text.strip().lower()` does not matter |
| `Text.StripUpper` | src/simbot/utils_logging.py:51 | stripping and upper-casing commute, for the lookup in `text.strip().upper()` |
| `UtilsLogging.NameLevelFilter.Filter` | src/simbot/utils_logging.py:24-28 | a plain filter passes a record inside its namespace iff its level is at least the threshold, and passes every record outside; an inverse filter does the same with inside and outside swapped |
| `UtilsLogging.LoggerName` | src/simbot/utils_logging.py:31-34 | the name is always in the `simbot` namespace; a name already there is kept; any other name gets the `simbot.` prefix |
| `UtilsLogging.LoggerNameIdempotent` | src/simbot/utils_logging.py:31-34 | mapping a name twice equals mapping it once |
| `UtilsLogging.LoggerNameExamples` | src/simbot/utils_logging.py:31-34 | `simbot` and `simbot.simbot` are kept; `simbotx` and `discord` are prefixed, so a name that only begins with the letters `simbot` is not in the namespace |
| `UtilsLogging.SafeParseLoggingLevel` | src/simbot/utils_logging.py:42-51 | Ok exactly when the stripped, upper-cased text is one of the five level names, and then the result is one of the five severities; otherwise KeyError of that key |
| `UtilsLogging.SafeParseLoggingLevelNames` | src/simbot/utils_logging.py:42-51 | each level name, in any case and with any surrounding white space, maps to its severity: CRITICAL 50, ERROR 40, WARNING 30, INFO 20, DEBUG 10 |
| `UtilsLogging.SafeParseLoggingLevelIgnoresCase` | src/simbot/utils_logging.py:51 | under the ASCII case mapping, lower- or upper-casing the input never changes the result |
| `ConfigMerge.Merged` | src/simbot/simbot_bootstrap.py:66-78 | a successful merge yields a dict; every failure is TypeError("Expecting a dict."); a config that is not a dict always fails |
| `ConfigMerge.MergeDefault` | src/simbot/simbot_bootstrap.py:66-78 | the loop over the template entries computes `Merged` |
| `ConfigMerge.MergeMembersFailed` | src/simbot/simbot_bootstrap.py:73-77 | once a nested merge raises, the rest of the loop cannot recover |
| `ConfigMerge.MergedSpec` | src/simbot/simbot_bootstrap.py:73-77 | the merge succeeds iff every nested merge at a shared dict-valued key succeeds; the result's keys are the config's keys, in order, followed by the template keys it lacked, in template order |
| `ConfigMerge.MergedGet` | src/simbot/simbot_bootstrap.py:73-77 | key by key: the result has exactly the keys of either input; a shared key with a dict template value holds the nested merge; a shared key with any other template value keeps the config's value; a missing key gets the template's value; a key only in the config is untouched |
| `ConfigMerge.MergedWellFormed` | src/simbot/simbot_bootstrap.py:73-77 | merging keeps keys unique and lists free of dicts |
| `ConfigMerge.MergedHasTemplatePaths` | src/simbot/simbot_bootstrap.py:73-77 | every key path of the template exists in the merged document, at every depth |
| `ConfigMerge.MergedKeepsValues` | src/simbot/simbot_bootstrap.py:74-77 | every key path of the config survives; its value is unchanged unless the template has a dict there |
| `ConfigMerge.MergedPathsFromInputs` | src/simbot/simbot_bootstrap.py:73-75 | every key path of the result comes from the config or from the template: nothing else is inserted |
| `ConfigMerge.MergedRejects` | src/simbot/simbot_bootstrap.py:71-72 | a config with a non-dict value at a key path where the template has a dict raises TypeError |
| `ConfigMerge.MergedAccepts` | src/simbot/simbot_bootstrap.py:71-77 | a config that has a dict at every shared key path where the template has one merges without error |
| `ConfigMerge.SelfMerge` | src/simbot/simbot_bootstrap.py:73-77 | merging the template into itself changes nothing |
| `ConfigMerge.EmptyMerge` | src/simbot/simbot_bootstrap.py:73-75 | merging into an empty dict yields the template |
| `ConfigMerge.MergeIdempotent` | src/simbot/simbot_bootstrap.py:73-77 | running the merge a second time with the same template changes nothing |
| `ConfigWarnings.FoldStep` | src/simbot/simbot_bootstrap.py:90-101 | one turn of the loop: an unknown key adds its path; a known key with a dict template value adds the nested walk's paths; any other known key adds nothing |
| `ConfigWarnings.WarningText` | src/simbot/simbot_bootstrap.py:96-99 | every message starts with `Extra key ` and is long enough to hold its fixed text |
| `ConfigWarnings.WarningTextOneKey` | src/simbot/simbot_bootstrap.py:96-99 | an unknown top-level key `colour` is reported as `Extra key "colour" in configuration file.` |
| `ConfigWarnings.ExtraKeysFoldStops` | src/simbot/simbot_bootstrap.py:87-93 | once a nested walk raises, no further entry is handled |
| `ConfigWarnings.ExtraKeysSound` | src/simbot/simbot_bootstrap.py:90-101 | every reported path is the key prefix followed by a key path of the config whose last key the template lacks at that place |
| `ConfigWarnings.ExtraKeysComplete` | src/simbot/simbot_bootstrap.py:90-101 | when the walk finishes, every such extra key path is reported |
| `ConfigWarnings.ExtraKeysDistinct` | src/simbot/simbot_bootstrap.py:90-101 | no path is reported twice |
| `ConfigWarnings.ExtraKeysFinished` | src/simbot/simbot_bootstrap.py:87-93 | the walk raises exactly when `merge_default` would raise on the same pair |
| `ConfigWarnings.MergedKeepsExtraPaths` | src/simbot/simbot_bootstrap.py:73-75 | merging neither adds nor removes an extra key path |
| `ConfigWarnings.ExtraKeysExample` | src/simbot/simbot_bootstrap.py:90-101 | against the default template, an unknown nested key and an unknown top-level key are reported in document order |
| `ConfigWarnings.HasPathUnquoted` | src/simbot/simbot_bootstrap.py:96-97 | in a document whose keys have no double quote, neither do the keys along any of its paths |
| `ConfigWarnings.WarningTextInjective` | src/simbot/simbot_bootstrap.py:96-99 | for keys without double quotes, different paths give different messages |
| `ConfigWarnings.WarningsDistinct` | src/simbot/simbot_bootstrap.py:96-101 | distinct paths of such keys give distinct messages |
| `ConfigWarnings.WarningTextAmbiguous` | src/simbot/simbot_bootstrap.py:97-99 | a key holding `":"` gives the same message as two separate keys |
| `LoggingSetup.RoutingHandler` | src/simbot/simbot_bootstrap.py:129-150 | a handler with the two paired filters emits a record iff its level reaches DEBUG and the project threshold (inside the `simbot` namespace) or the library threshold (outside it) |
| `LoggingSetup.RoutingLookalikeIsLibrary` | src/simbot/utils_logging.py:24-28 | a record from logger `simbotx` is routed by the library threshold |
| `LoggingSetup.LevelSetting` | src/simbot/simbot_bootstrap.py:117-121 | a configuration value parses iff it is a string whose stripped, upper-cased form is a name in the level table, and then gives that name's severity; any other string gives KeyError of that form; a non-string value gives AttributeError on `strip` |
| `LoggingSetup.ParseLevels` | src/simbot/simbot_bootstrap.py:117-121 | Ok iff all four level entries parse; otherwise the error of the first one that fails, in source order; on Ok the four thresholds in order |
| `LoggingSetup.SetupLogging` | src/simbot/simbot_bootstrap.py:104-150 | errors in source order (not a dict, log file path not a string, then the levels); Ok exactly when none applies; then the log file path, the file handler routing by the two logfile thresholds and the standard-error handler routing by the two stderr thresholds |
| `SimbotBootstrap.BadTokenRestartOff` | src/simbot/simbot.py:37-39 | with a login token that is not a string and restarts off, exactly one worker is launched, and it exits with 1, the code `run` returns |
| `SimbotBootstrap.GoodTokenExitCodes` | src/simbot/simbot.py:36-50 | with a string login token, every launch ends with its client's exit code |
| `SimbotBootstrap.StopIndex` | src/simbot/simbot_bootstrap.py:196-209 | the loop stops after the first launch that exits with 0 or, with restarts off, after the first launch; None iff every launch is followed by another |
| `SimbotBootstrap.StopIndexAt` | src/simbot/simbot_bootstrap.py:196-209 | the first launch that ends the loop is the one it stops at |
| `SimbotBootstrap.StopIndexNone` | src/simbot/simbot_bootstrap.py:196-209 | with restarts on and no clean exit, the loop never stops |
| `SimbotBootstrap.StopIndexRestartOff` | src/simbot/simbot_bootstrap.py:203-206 | with restarts off exactly one worker is launched, whatever its exit code |
| `SimbotBootstrap.StopIndexRestartOn` | src/simbot/simbot_bootstrap.py:196-209 | with restarts on the loop stops at a launch iff it is the first exiting with 0 |
| `SimbotBootstrap.BadTokenNeverStops` | src/simbot/simbot.py:37-39 | with restarts on, a worker whose login token is not a string is relaunched for ever |
| `SimbotBootstrap.SuperviseLoop` | src/simbot/simbot_bootstrap.py:196-209 | the loop launches exactly the workers up to the stop point, returns that launch's exit code, and sleeps 10 seconds before each relaunch |
| `SimbotBootstrap.DefaultConfigKeys` | src/simbot/simbot_bootstrap.py:38-64 | the template's six sections, in order, with distinct keys |
| `SimbotBootstrap.DefaultConfigWellFormed` | src/simbot/simbot_bootstrap.py:36-64 | the template has unique keys at every level and no dict inside a list |
| `SimbotBootstrap.DefaultConfigPaths` | src/simbot/simbot_bootstrap.py:38-64 | the template has the log file path, the four level entries, the restart flag and the login token |
| `SimbotBootstrap.MergedConfigFacts` | src/simbot/simbot_bootstrap.py:182-191 | after a successful merge, every entry `run` reads without checking exists, and the extra-key walk cannot raise |
| `SimbotBootstrap.RunWarnsExtraPaths` | src/simbot/simbot_bootstrap.py:182-183 | the warnings `run` buffers name exactly the extra key paths of the file as read, each once |
| `SimbotBootstrap.RunWarningsDistinct` | src/simbot/simbot_bootstrap.py:182-183 | when no key of the file holds a double quote, no buffered message repeats another |
| `SimbotBootstrap.MergedConfig` | src/simbot/simbot_bootstrap.py:182 | the document `run` continues with is the merge result, well formed and holding every entry it reads |
| `SimbotBootstrap.Bootstrap.constructor` | src/simbot/simbot_bootstrap.py:28-29 | nothing buffered, logged, written, installed or launched |
| `SimbotBootstrap.Bootstrap.WarnExtraKeys` | src/simbot/simbot_bootstrap.py:80-102 | appends the messages of `ExtraKeys` in order; Ok iff the walk finishes; otherwise TypeError("Expecting a dict.") after the messages issued before it |
| `SimbotBootstrap.Bootstrap.WarnEntry` | src/simbot/simbot_bootstrap.py:90-101 | one turn of the loop leaves the buffer as `ExtraKeysFold` says after one more entry |
| `SimbotBootstrap.Bootstrap.WarnNested` | src/simbot/simbot_bootstrap.py:92-93 | the recursive call appends the nested walk's messages after those already buffered |
| `SimbotBootstrap.Bootstrap.BufferWarning` | src/simbot/simbot_bootstrap.py:95-101 | exactly one message, for that path, is appended |
| `SimbotBootstrap.Bootstrap.FlushWarnings` | src/simbot/simbot_bootstrap.py:157-158 | every buffered message is logged as a warning, in order |
| `SimbotBootstrap.Bootstrap.InstallLogging` | src/simbot/simbot_bootstrap.py:104-160 | computes `SetupLogging`; on an error nothing changes; on success the handlers are installed, the buffered warnings are logged after the earlier ones and the buffer is dropped |
| `SimbotBootstrap.Bootstrap.Install` | src/simbot/simbot_bootstrap.py:157-159 | the handlers are recorded as installed, every buffered message is logged after the earlier ones, and the buffer is dropped |
| `SimbotBootstrap.Bootstrap.LaunchBot` | src/simbot/simbot_bootstrap.py:191-209 | a restart flag that is not a Boolean raises TypeError before any launch; otherwise the launches and the returned code are those `StopIndex` gives for the workers' exit codes, with a 10-second wait (`Slept`) before each relaunch |
| `SimbotBootstrap.Bootstrap.StartBot` | src/simbot/simbot_bootstrap.py:187-209 | logging setup first: its error is raised with nothing changed; else the warnings are flushed and the bot launched as in `LaunchBot` |
| `SimbotBootstrap.Bootstrap.RunMerged` | src/simbot/simbot_bootstrap.py:183-209 | buffers the extra-key warnings, writes the merged document, then starts the bot as `StartBot` states |
| `SimbotBootstrap.Bootstrap.Run` | src/simbot/simbot_bootstrap.py:174-225 | no file: the template is written, nothing is launched and 0 is returned; a merge error raises TypeError with nothing changed; otherwise the merged document is written, its extra-key warnings are buffered and then logged, and the loop runs as `LaunchBot` states; the ghost `waited` grows by the delay before each relaunch and not at all when nothing is launched |

## Left out

- File I/O. `os.path.isfile`, `json_read` and `json_write` become the inputs `configExists` and `loaded` of `Run` and its field `savedConfig`. Key sorting in `json.dumps` is not modelled.
- The worker process. `run_simbot_in_worker_proc` spawns and joins a process; the model replaces it with a sequence of client exit codes, one per launch. The discord client in `simbot.py` is represented only by its token check and its exit code. When that sequence runs out while the loop would relaunch, `Run` ends in `StillSupervising`.
- `deepcopy`. The model works on values, so there is no aliasing to copy away.
- `ConfigMerge.MergeDefault`: computes a new tree instead of updating the dict in place. It does not show the partial insertions a Python caller could see in a dict after a TypeError, because `run` never looks at them.
- `time.sleep(10)` is the ghost counter `waited`; no clock is modelled.
- `SimbotBootstrap.Bootstrap.Run`: requires the loaded document to be `WellFormed`, so a configuration file holding a dict inside a list is outside the model. The source accepts such a file: `json.loads` returns it and the merge, the warnings and the save go ahead (the list is kept whole as the user's value).
- `Utils.StrParseBooleanIgnoresCase`: holds for the ASCII case mapping of `Text.Lower` and `Text.Upper` only and does not hold for Python's. `"ſet".upper()` is `"SET"`, so `str_parse_boolean` gives None for `"ſet"` but True for its upper-cased form; likewise `"oﬀ".upper()` is `"OFF"`, giving None against False.
- `UtilsLogging.SafeParseLoggingLevelIgnoresCase`: holds for the ASCII case mapping only. In Python `"İnfo".lower()` is `"i̇nfo"` (an `i` followed by a combining dot), so `safe_parse_logging_level` raises a KeyError for a different key on the lower-cased input than on the original.
- `print`, `textwrap`, the `logger.info` lines, the warning lines of the loop, and the formatters are left out. These are messages, not decisions.
- `setup_logging` details: the `FileHandler`/`StreamHandler` objects, the root logger's DEBUG level and the logger swap are reduced to a `Setup` value of the two handlers' levels and filters.
- `get_project_parent_logger` and the logger objects `getLogger` returns are left out; only the name rule of `get_new_logger` is modelled.
- `Text.Lower`, `Text.Upper`: case mapping covers ASCII letters only. Python's full Unicode case mapping is not modelled. One visible effect: Python's `"warn\u0131ng".upper()` is `WARNING` (dotless i upper-cases to `I`), so `safe_parse_logging_level` returns 30 for it, where `UtilsLogging.SafeParseLoggingLevel` gives KeyError.
- `ConfigTree.Json`: numbers are integers (no floats); keys are strings, as `json.loads` produces them, so the `str(x)` branch for non-string keys at `simbot_bootstrap.py:97` never applies.
- `LoggingSetup.SetupLogging` and `SimbotBootstrap.Bootstrap.InstallLogging` require the log file path and the four level entries to exist. The KeyError a missing entry would raise is not modelled, because `run` calls `setup_logging` only after a merge with the template, which provides them (`MergedConfigFacts`). The same holds for the restart flag and the login token, which `LaunchBot` and `WorkerExitCode` require.
- `ConfigWarnings.WarningTextAmbiguous`: the message format does not escape quotes, so a key holding `":"` is reported like two nested keys. Distinct messages are therefore proved only for keys without double quotes (`WarningTextInjective`, `RunWarningsDistinct`).
- `buffered_warnings = None` after logging is set up is modelled as the empty buffer; a later append, which `run` never makes, would fail in Python but not in the model.
- `re_digits`, `mkdir_recursive` and `src/run.py` are not part of this model: the first is unused, the second is file I/O, the third is argument dispatch.
