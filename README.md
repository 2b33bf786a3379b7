# A verified model of the wrappers' dispatcher, logger and env-config loader

This project models three sequential cores of the `wrappers` repository in
Dafny and proves what they promise.

- **`AsyncerMp`** (`asyncermp.py`, module `Asyncer`). This is the bookkeeping of the
  multiprocessing task dispatcher: the FIFO submission queue `_task_queue`,
  the registry of futures `_futures`, the semaphore that bounds the worker
  processes, and the completion stream `completed_queue`. The event loop is
  cooperative and both queues are unbounded. So everything between two
  suspension points happens at once, and each such stretch is one step.
  Each step is a function on a `State` value. The `AsyncerMp` class holds
  the same state in fields, and each of its methods performs one step in
  place, proved equal to that function. A ghost invariant `Inv` ties the
  registry, the queue, the gate and the events together. Every step is
  proved to keep it. Lemmas about `Inv` give the promised properties:
  - the gate bound;
  - a future is set at most once, and each event matches its future;
  - tasks are dispatched in FIFO order;
  - nothing is left in the registry once everything has finished.
- **Logger configuration and registry** (`utils/logging/logging.py`, modules
  `Strings`, `Paths`, `LogConfig`, `LogFormat`, `LogRegistry`).
  - The `LoggerConfig` field validators are functions. This includes the
    POSIX path handling of `os.path` and `pathlib` that the log-file
    validator relies on.
  - The `SeverityFilter` and the branch choices of the JSON, coloured and
    level-aware formatters are functions too. A rendering records which
    branch produced it.
  - The `Logger` manager is a class whose methods update its registry and
    its shared handlers in place.
- **Environment configuration** (`validate_env.py`, module `EnvConfig`). The
  repository holds two byte-identical copies of this file:
  - `python_web/fastApiMiniWrapper/utils/validate_env.py`;
  - `python_web/wrappers/fastApi_mini_wrapper/utils/validate_env.py`.

  The one model covers both, and the table below cites either. The
  environment is a `map<string, string>` and `os.path.exists` is a
  predicate parameter. `check_env_keys` and `load_config` are methods with
  loops and step-by-step updates, proved against the functions
  `MissingKeys`, `PositiveSetting` and friends.

Things outside the process are parameters:
- the project root;
- whether a directory can be created and written;
- whether a file can be opened;
- a task's fresh `uuid4` id;
- whether a worker process starts.

### Behaviour of the code worth noting (the model follows the code)

- `JsonFormatter`'s docstring promises JSON for ERROR and CRITICAL. The code
  tests `levelno == ERROR`. So a CRITICAL record reaching a file formatter
  (which routes `>= ERROR` to it) is printed with the JSON formatter's
  default `%(message)s` layout through `logging.Formatter.format`: the
  message, plus any traceback or stack information the record carries, with
  no timestamp and no level (`LogFormat.FileRouting`).
- `validate_log_file` appends `.log` when pathlib sees no suffix. But an
  absolute name ending in `/` becomes `<dir>/.log`, which still has no
  suffix (`LogConfig.TrailingSeparatorLogFileHasNoSuffix`). A relative name
  ending in `/`, such as `logs/`, loses the separator when it is joined to
  the root and becomes `<root>/logs.log`. So every non-blank name gets a
  suffix except an absolute one ending in a separator, and a relative one
  that adds no component to the root `/` (such as `.`)
  (`LogConfig.LogFileHasSuffix`).
- `setup_logger` documents a fallback to a basic config when the config
  from the environment does not validate. The fallback is built and then
  dropped, and `None` is returned. It keeps the environment's
  `MAX_LOG_SIZE_MB` and `BACKUP_COUNT`, so when either of those is out of
  range the fallback raises `ValidationError` too, and the call fails with
  that error (`LogConfig.FallbackValidation`,
  `LogRegistry.ChosenConfigOutcomes`).
- `close_logger` tests `if logger_name:`. So closing a logger registered
  under the empty name closes everything, shared handlers included, and
  `close_all_loggers` does the same when such a logger exists
  (`LogRegistry.Logger.CloseAllLoggers`).
- Not every dispatched task gets a resolved future and an event. In
  `_run_task`, `mp.Pipe`, `mp.Process` and `process.start()` run inside
  `async with` but before the `try` (asyncermp.py:80-88). If one of them
  raises, the permit is released but the future stays pending and its
  `_futures` entry is never popped. `Asyncer.StartFailureLeaks` exhibits
  this, and `Inv` tracks such runs in `stranded`.
- `max_processes` goes to `asyncio.Semaphore` unchecked (asyncermp.py:29).
  `asyncio.Semaphore` rejects only negative values: with 0 every run waits
  forever. The constructor therefore requires `maxProcesses >= 0`.
- `_runner` is the dispatch loop (asyncermp.py:68-74), but the class itself
  never starts it. `AsyncerMp.RunnerWake` is one wake-up of that loop, for
  whoever runs it.
- A future cancelled by its caller is never resolved and gets no event. The
  `not done()` guard is what makes this safe (`Asyncer.CancelPreserves`,
  `Asyncer.ResolveEffects`).

## Model

| member | source | states |
|---|---|---|
| `Asyncer.WorkerMessage` | asyncermp.py:39-45 | A returned value becomes `Success(value)`; an exception becomes a `Failure` whose text starts with `Worker failed: `. |
| `Asyncer.WorkerFailureNonEmpty` | asyncermp.py:43-45 | A worker failure is never the same result as a receive failure with an empty message. |
| `Asyncer.CorrelationId` | asyncermp.py:65 | `uid or task_id`: the caller's uid unless it is missing or empty, else the task id; it is empty only when both are. |
| `Asyncer.Registry` | asyncermp.py:28 | `_futures` maps exactly the registered ids that have a future to that future. |
| `Asyncer.InitValid` | asyncermp.py:22-31 | A new dispatcher (semaphore value at least 0) satisfies the invariant, with an empty registry. |
| `Asyncer.SubmitPreserves` | asyncermp.py:62-66 | `submit` keeps the invariant, changes no existing future, and queues the fresh id last, under its correlation id. |
| `Asyncer.DispatchPreserves` | asyncermp.py:73-74 | Taking the head of the queue keeps the invariant; its id had no run before, and exactly one waiting run is created for it. |
| `Asyncer.DrainPreserves` | asyncermp.py:72-74 | Taking every queued task keeps the invariant. |
| `Asyncer.DrainShape` | asyncermp.py:72-74 | After a wake-up of `_runner` the queue is empty, the dispatched ids are extended by the queue in order, one waiting run exists per queued id, and nothing else changes. |
| `Asyncer.DrainUids` | asyncermp.py:73-74 | Each drained task's run carries the correlation id it was queued with. |
| `Asyncer.EnterPreserves` | asyncermp.py:80-86 | Entering `async with self._semaphore` with a free permit keeps the invariant. |
| `Asyncer.StrandPreserves` | asyncermp.py:80-86 | A run whose worker fails to start keeps the invariant: the permit is released, and the entry stays registered. |
| `Asyncer.AcquireEffects` | asyncermp.py:80-86 | With no permit a run stays waiting; with one it takes the permit and holds it, or gives it straight back when the start fails; no future and no registration changes. |
| `Asyncer.RecordPreserves` | asyncermp.py:88-98 | For a run inside the block, the guard `task_id in _futures` holds; the `try` body keeps the invariant, and afterwards that run's future is done. |
| `Asyncer.FinishPreserves` | asyncermp.py:99-102 | The `finally` and leaving the block keep the invariant once that run's future is done. |
| `Asyncer.ResolveEffects` | asyncermp.py:88-102 | A pending future is resolved with the result and exactly one `(uid, result)` event is put; a done future is left alone and no event is put; no other future changes; only this run's entry is popped; one permit is released. |
| `Asyncer.CancelPreserves` | asyncermp.py:90-91 | Cancelling keeps the invariant and changes only that future, only when it is pending, without an event. |
| `Asyncer.GateBound` | asyncermp.py:29 | No more than `max_processes` runs are ever inside the semaphore block. |
| `Asyncer.EventsBoundedByFutures` | asyncermp.py:92 | There are never more completion events than futures created. |
| `Asyncer.DispatchIsPrefix` | asyncermp.py:73 | The tasks `_runner` has taken are a prefix of the submissions, in order. |
| `Asyncer.EventsCarryCorrelationIds` | asyncermp.py:62-92 | Every event on `completed_queue` carries the `uid or task_id` its task was submitted with. |
| `Asyncer.OneEventPerTask` | asyncermp.py:90-92 | No task has two events. |
| `Asyncer.SubmitEffects` | asyncermp.py:62-65 | `submit` queues the fresh id last, under its correlation id, and settles no existing future. |
| `Asyncer.CancelEffects` | asyncermp.py:90 | Cancelling changes only that future, only when it is pending, and puts no event. |
| `Asyncer.RecordDone` | asyncermp.py:88-98 | After the `try` body the run's future is done, whichever branch ran. |
| `Asyncer.EventsMatchFutures` | asyncermp.py:90-98 | A future is resolved exactly when an event names its task, and then it holds that event's result. |
| `Asyncer.QuiescentRegistryEmpty` | asyncermp.py:99-102 | With nothing queued or running and no failed start, `_futures` is empty. |
| `Asyncer.StartFailureLeaks` | asyncermp.py:80-86 | One task, one permit, and a start that raises: afterwards nothing is queued or running, yet `_futures` still holds the pending future. |
| `Asyncer.AsyncerMp.constructor` | asyncermp.py:16-31 | The fields are the initial state, and the invariant holds. |
| `Asyncer.AsyncerMp.Submit` | asyncermp.py:50-66 | The fields change exactly as `SubmitStep` says, and the invariant is kept. |
| `Asyncer.AsyncerMp.Dispatch` | asyncermp.py:73-74 | The fields change exactly as `DispatchStep` says, and the invariant is kept. |
| `Asyncer.AsyncerMp.RunnerWake` | asyncermp.py:72-74 | The loop leaves the fields equal to `Drain` of the old state, and keeps the invariant. |
| `Asyncer.AsyncerMp.Acquire` | asyncermp.py:80-86 | It enters exactly when a permit is free; the fields change as `AcquireStep` says, and the invariant is kept. |
| `Asyncer.AsyncerMp.Resolve` | asyncermp.py:88-102 | The fields change as `ResolveStep` says, and the invariant is kept. |
| `Asyncer.AsyncerMp.Deliver` | asyncermp.py:89-92 | The worker's message resolves the run as `ResolveStep` with `WorkerMessage` says. |
| `Asyncer.AsyncerMp.FailReceive` | asyncermp.py:93-98 | A receive error resolves the run as `ResolveStep` with `ReceiveFailure` says. |
| `Asyncer.AsyncerMp.CancelFuture` | asyncermp.py:90 | Reports whether the future was pending; the fields change as `CancelStep` says, and the invariant is kept. |
| `Strings.StripSpec` | utils/logging/logging.py:64-67 | `strip()` leaves neither leading nor trailing white space, and leaves nothing exactly when the input is all white space. |
| `Strings.StripIdempotent` | utils/logging/logging.py:102 | Stripping twice is stripping once. |
| `Strings.UpperIdempotent` | utils/logging/logging.py:53 | Upper-casing twice changes nothing more. |
| `Paths.RootJoin` | utils/logging/logging.py:73 | `Path(root) / v` with an absolute root is absolute. |
| `Paths.RootJoinEnd` | utils/logging/logging.py:73 | Once there is a component to join, `str(Path(root) / v)` does not end with a separator. |
| `Paths.Suffix` | utils/logging/logging.py:75 | `Path(v).suffix` is empty, or a dot followed by at least one character. |
| `Paths.PathJoin` | utils/logging/logging.py:250 | `os.path.join`: an absolute first part stays absolute, and a relative second part keeps the first as a prefix. |
| `Paths.LogExtensionIsSuffix` | utils/logging/logging.py:75-76 | Appending `.log` to a path that does not end with a separator gives the suffix `.log`. |
| `Paths.TrailingSeparatorGetsNoSuffix` | utils/logging/logging.py:75-76 | Appending `.log` to a path that ends with a separator gives no suffix. |
| `Paths.DirectoryName` | utils/logging/logging.py:75 | A path written with a trailing separator is named after its last directory. |
| `LogConfig.LevelNumber` | utils/logging/logging.py:302-309 | `level_mapping` gives one of the five numeric levels. |
| `LogConfig.LevelNumberInjective` | utils/logging/logging.py:302-309 | No two level names share a number. |
| `LogConfig.ValidateLogLevel` | utils/logging/logging.py:50-58 | One is accepted exactly when its upper-case form is a level name, and that form is returned; anything else is the `Invalid LOG_LEVEL` error. |
| `LogConfig.ValidateLogLevelIdempotent` | utils/logging/logging.py:50-58 | A validated level validates to itself. |
| `LogConfig.ValidateLogLevelFixedPoints` | utils/logging/logging.py:50-58 | Exactly the five level names validate unchanged. |
| `LogConfig.ValidateLogFile` | utils/logging/logging.py:62-96 | None or a blank name gives None. A non-blank name is accepted exactly when the resolved path has no directory or a writable one, and is then the resolved path: stripped, rooted when relative, given `.log` when it has no suffix. A rejection names that path and its directory. |
| `LogConfig.LogFileIsAbsolute` | utils/logging/logging.py:69-73 | Under an absolute project root every accepted log file is absolute. |
| `LogConfig.LogFileHasSuffix` | utils/logging/logging.py:64-76 | A non-blank name always ends up with a suffix, unless it is absolute and ends in a separator, or it is relative and it and the root have no component between them. Relative names ending in a separator are included. |
| `LogConfig.TrailingSeparatorLogFileHasNoSuffix` | utils/logging/logging.py:75-76 | `"/var/log/"` becomes `"/var/log/.log"`, whose suffix is empty. |
| `LogConfig.DirectoryNameHasNoSuffix` | utils/logging/logging.py:75 | pathlib reads `/var/log/` as the directory `log`, which has no suffix. |
| `LogConfig.ValidateSeverityDir` | utils/logging/logging.py:100-109 | The stripped directory, joined to the root when relative; absolute under an absolute root. |
| `LogConfig.ValidateMaxLogSize` | utils/logging/logging.py:113-119 | Accepted, unchanged, exactly when `1 <= v <= 1000`. "Not positive" is the error for `v <= 0`, and "too large" for `v > 1000`. |
| `LogConfig.ValidateBackupCount` | utils/logging/logging.py:123-129 | Accepted, unchanged, exactly when `0 <= v <= 50`. "Negative" is the error for `v < 0`, and "too large" for `v > 50`. |
| `LogConfig.Validate` | utils/logging/logging.py:15-129 | A config exists exactly when every validator accepts; it holds each validator's output, and is well formed. Otherwise between one and four errors are reported. |
| `LogConfig.FallbackValidation` | utils/logging/logging.py:284-289 | The fallback config (INFO, no log file, no severity files, the rest as loaded) validates exactly when the size and the backup count are in range; otherwise its errors are exactly theirs. |
| `LogConfig.FallbackErrorsAreLast` | utils/logging/logging.py:278-289 | When the fallback fails, the first attempt failed too, and the fallback's errors are the last ones the first attempt reported. |
| `LogConfig.DefaultsValidate` | utils/logging/logging.py:19-42 | The defaults validate to level INFO, no log file, and `logs/severity` under the root. |
| `LogFormat.JsonFormat` | utils/logging/logging.py:146-194 | The JSON context exactly for an ERROR with an exception, the error line exactly for an ERROR without one, and the base format at every other level. |
| `LogFormat.ColoredJsonFormat` | utils/logging/logging.py:205-213 | Red exactly at ERROR, wrapping the JSON formatter's output; otherwise that output unchanged. |
| `LogFormat.ConsoleRouting` | utils/logging/logging.py:336-343 | The console colours exactly the ERROR records red, renders them with the error branches, and sends every other level to `colorlog`. |
| `LogFormat.FileRouting` | utils/logging/logging.py:360-365 | The file formatters give an error rendering exactly at ERROR; above it the bare message, below it the standard layout. |
| `LogFormat.OnlyErrorIsJson` | utils/logging/logging.py:148 | Console, file and severity handlers all produce the JSON block exactly for an ERROR with an exception. |
| `LogFormat.SeverityHandlerExact` | utils/logging/logging.py:139-140 | A severity handler receives exactly the records of its own level that the logger lets through. |
| `LogFormat.SeverityHandlersDisjoint` | utils/logging/logging.py:260-261 | Two severity handlers of different levels never receive the same record. |
| `LogFormat.SharedHandlersReceiveAll` | utils/logging/logging.py:345-405 | The console, log-file and complete-log handlers receive every record the logger lets through. |
| `LogFormat.SeverityFileContents` | utils/logging/logging.py:244-247 | The severity files hold WARNING and CRITICAL records in the standard layout, and ERROR records in the error renderings. |
| `LogRegistry.SeverityFilesDistinct` | utils/logging/logging.py:249-250 | WARNING, ERROR and CRITICAL handlers write to three different files, whatever the severity directory. |
| `LogRegistry.OpenedAreFor` | utils/logging/logging.py:249-263 | The k-th stored handler is the one built for the k-th level. |
| `LogRegistry.OpenedStep` | utils/logging/logging.py:249-263 | Stored from any level on: that level's handler followed by the later ones when its file opens, and none when it does not. |
| `LogRegistry.AllOpened` | utils/logging/logging.py:249-263 | When every file opens, one handler is stored per level. |
| `LogRegistry.AllSeverityFilesOpen` | utils/logging/logging.py:227-263 | When every file opens, exactly three handlers are stored: WARNING, ERROR, CRITICAL, in that order. |
| `LogRegistry.SeverityLevelsIncrease` | utils/logging/logging.py:227-231 | The severity levels strictly increase. |
| `LogRegistry.SeverityHandlersDistinctLevels` | utils/logging/logging.py:249-263 | Whatever fails, the stored handlers are severity handlers of distinct levels. |
| `LogRegistry.ChosenConfig` | utils/logging/logging.py:276-290 | A given config is used as it is. Without one, a config loaded from the settings is well formed. |
| `LogRegistry.ChosenConfigOutcomes` | utils/logging/logging.py:276-289 | Without a given config: an error exactly when the size or the backup count is out of range, and then exactly their errors; `None` exactly when they are in range but the level or the log file is not; otherwise the validated settings. |
| `LogRegistry.CompleteSetup` | utils/logging/logging.py:374-401 | An existing complete-log handler is kept. Without one, a handler is created exactly when the log directory can be made and the file opened; it is the complete-log file, sized by the creating config. |
| `LogRegistry.NewLoggerHandlers` | utils/logging/logging.py:345-409 | A new logger's handlers start with the console and end with the severity handlers. |
| `LogRegistry.NewLoggerHandlerPositions` | utils/logging/logging.py:345-409 | After the console come the logger's own file handler, exactly when it has a `LOG_FILE` that opens, then the complete-log handler, exactly when it exists, then the severity handlers. |
| `LogRegistry.NewLoggerHandlerKinds` | utils/logging/logging.py:349-405 | A new logger has a log-file handler exactly when its `LOG_FILE` is non-empty and opens, and a complete-log handler exactly when the shared one exists. |
| `LogRegistry.Without` | utils/logging/logging.py:427 | Removing a name never lengthens the list. |
| `LogRegistry.WithoutMembers` | utils/logging/logging.py:427 | After the removal exactly the other names remain. |
| `LogRegistry.WithoutDistinct` | utils/logging/logging.py:427 | Removing a name from a list without repeats leaves one without repeats. |
| `LogRegistry.Logger.constructor` | utils/logging/logging.py:217-220 | Nothing is registered, and there are no shared handlers. |
| `LogRegistry.Logger.ListLoggers` | utils/logging/logging.py:451-453 | Lists each registered name exactly once. |
| `LogRegistry.Logger.SetupSeverityHandlers` | utils/logging/logging.py:222-267 | The severity handlers become `SeveritySetup` of the old ones: unchanged when disabled or already present, none when the directory cannot be prepared, otherwise those opened. Nothing else changes. |
| `LogRegistry.Logger.OpenSeverityFiles` | utils/logging/logging.py:249-263 | The loop stores exactly `OpenedHandlers`, after the handlers already there. |
| `LogRegistry.Logger.SetupLogger` | utils/logging/logging.py:269-416 | A known name gets its logger back, and nothing changes. When the settings do not validate, the call either raises the fallback's `ValidationError` or returns None, as `ChosenConfig` says, and nothing changes. Otherwise the shared handlers are set up, and a logger with the configured level and `NewLoggerHandlers` is registered last. |
| `LogRegistry.Logger.CreateLogger` | utils/logging/logging.py:291-416 | With a settled config, the severity handlers become `SeveritySetup` and the complete-log handler `CompleteSetup` of the old ones, and a logger with the configured level and `NewLoggerHandlers` is registered last under the name. |
| `LogRegistry.Logger.SetupCompleteLog` | utils/logging/logging.py:374-401 | The complete-log handler becomes `CompleteSetup` of the old one. Nothing else changes. |
| `LogRegistry.Logger.Register` | utils/logging/logging.py:412 | A new name is added to the registry and listed last; the registry stays valid. |
| `LogRegistry.Logger.CloseLogger` | utils/logging/logging.py:418-443 | A non-empty name removes only that logger and keeps the shared handlers. No name, or the empty one, empties the registry and drops the shared handlers. |
| `LogRegistry.Logger.CloseAllLoggers` | utils/logging/logging.py:445-448 | Afterwards `list_loggers()` is empty. The shared handlers survive unless a logger had the empty name. |
| `EnvConfig.BoolWordsDisjoint` | python_web/fastApiMiniWrapper/utils/validate_env.py:31-33 | No word is both true and false. |
| `EnvConfig.ParseBoolWords` | python_web/fastApiMiniWrapper/utils/validate_env.py:29-36 | True exactly for the five true words, false exactly for the five false words (case-insensitive), and the `ValueError` for anything else. |
| `EnvConfig.ParseBoolIgnoresCase` | python_web/wrappers/fastApi_mini_wrapper/utils/validate_env.py:31-33 | Lower-casing a value never changes what it parses to. |
| `EnvConfig.ParseBoolRoundTrip` | python_web/wrappers/fastApi_mini_wrapper/utils/validate_env.py:29-34 | `str(True)` and `str(False)` parse back to themselves. |
| `EnvConfig.DigitRunSpec` | python_web/fastApiMiniWrapper/utils/validate_env.py:38 | The digit check accepts exactly digits and underscores with no two underscores in a row. |
| `EnvConfig.ParseIntRoundTrip` | python_web/fastApiMiniWrapper/utils/validate_env.py:37-38 | `int(str(n)) == n` for every integer of at most 4300 digits. |
| `EnvConfig.ParseIntRejectsLong` | python_web/fastApiMiniWrapper/utils/validate_env.py:37-44 | `str(n)` of more than 4300 digits does not convert: `int()` raises `ValueError`. |
| `EnvConfig.ParseIntIgnoresPadding` | python_web/wrappers/fastApi_mini_wrapper/utils/validate_env.py:38 | `int()` ignores surrounding white space of the kinds it skips: every `str.isspace()` character except U+001C..U+001F. |
| `EnvConfig.SeparatorIsNotPadding` | python_web/wrappers/fastApi_mini_wrapper/utils/validate_env.py:38-44 | U+001C is white space to `strip()`, yet `int()` rejects it next to a number. |
| `EnvConfig.GetEnvVar` | python_web/fastApiMiniWrapper/utils/validate_env.py:5-44 | An unset variable gives the default. A string is returned raw. A bool is the parsed word, an int the value `int()` gives (padding, sign, underscores and the 4300-digit limit included), or the default when that raises. |
| `EnvConfig.EmptyValueIsNotAbsent` | python_web/wrappers/fastApi_mini_wrapper/utils/validate_env.py:23-26 | A variable set to `""` is returned as `""` by the string path and falls back in the others, unlike an unset one. |
| `EnvConfig.GetEnvVarKeepsKind` | python_web/wrappers/fastApi_mini_wrapper/utils/validate_env.py:28-44 | With a default of the requested kind, the result has that kind. |
| `EnvConfig.ValidatePath` | python_web/fastApiMiniWrapper/utils/validate_env.py:47-67 | A missing models path gives the default; any other path or kind is returned as given. |
| `EnvConfig.ValidatePositive` | python_web/fastApiMiniWrapper/utils/validate_env.py:70-76 | The value when it is above zero, else the default; with a positive default, always positive. |
| `EnvConfig.MissingKeys` | python_web/fastApiMiniWrapper/utils/validate_env.py:77-84 | Never longer than the required keys. |
| `EnvConfig.MissingKeysCount` | python_web/fastApiMiniWrapper/utils/validate_env.py:80-83 | A missing key is reported as often as it is required, and a present key never. |
| `EnvConfig.MissingKeysMembership` | python_web/wrappers/fastApi_mini_wrapper/utils/validate_env.py:80-83 | A key is reported exactly when it is required and unset. |
| `EnvConfig.MissingKeysEmpty` | python_web/wrappers/fastApi_mini_wrapper/utils/validate_env.py:77-84 | Nothing is reported exactly when every required key is set. |
| `EnvConfig.CheckEnvKeys` | python_web/wrappers/fastApi_mini_wrapper/utils/validate_env.py:77-84 | The loop returns exactly `MissingKeys` in input order, repeats kept. |
| `EnvConfig.IntLookup` | python_web/fastApiMiniWrapper/utils/validate_env.py:116-125 | An int lookup gives the parsed value when there is one, else its default. |
| `EnvConfig.PositiveLookup` | python_web/fastApiMiniWrapper/utils/validate_env.py:109-114 | An int lookup followed by `validate_positive` is the rule `PositiveSetting` states. |
| `EnvConfig.BoolLookup` | python_web/fastApiMiniWrapper/utils/validate_env.py:152-155 | A bool lookup gives the parsed word when there is one, else its default. |
| `EnvConfig.LoadConfig` | python_web/fastApiMiniWrapper/utils/validate_env.py:85-157 | Missing keys are returned, and nothing else, exactly when some are missing. Otherwise every entry is given by its rule, and GPU layers >= -1, threads None or > 0, and context, tuning time and minimum size > 0. |

## Left out

- `EnvConfig.LoadConfig`: the float setting `TARGET_TOKENS_PER_SECOND` (validate_env.py:130-135) is not in the `Config` record, because floating point is not modelled.
- `EnvConfig.ParseInt`: only ASCII digits are accepted. Python's `int()` also accepts other Unicode decimal digits; these are not modelled.
- `Paths.Suffix`: the model follows pathlib's suffix rule of Python 3.11 to 3.13, under which a name ending in a single dot (`app.`) has no suffix. From Python 3.14 on its suffix is `.`, so `validate_log_file` keeps `app.` where `LogConfig.ResolveLogFile` gives `app..log`; that rule is not modelled.
- `EnvConfig.ParseInt`: the 4300-digit limit is Python's default from 3.11 on. Changing it (`PYTHONINTMAXSTRDIGITS`, `sys.set_int_max_str_digits`) and older Python versions without the limit are not modelled.
- `EnvConfig.ValidatePath`: the `os.makedirs` calls are left out; existence is a predicate parameter. The exceptions `os.makedirs` can raise (for example `FileNotFoundError` for `TUNING_DIR=""`, or a permission error) are not modelled either.
- The `logger.info`, `logger.warning` and `logger.error` calls of `validate_env.py` and `asyncermp.py`, the `print` calls of `logging.py`, and the `logger.warning` that `setup_logger` emits through the new console handler when the log file cannot be opened (logging.py:371), are output only and are left out.
- File-system effects in `logging.py` are `FileSystem` parameters: creating directories, the `.write_test` file, and opening a `RotatingFileHandler`. The modelled `Path(__file__).parent.parent` is the `root` parameter. Rotation and the file contents are not modelled.
- Handlers are values, so `logging.getLogger`, `handlers.clear()`, `propagate`, `handler.close()` and `removeHandler` are not modelled. `LoggerEntry` records the level and the handlers in order.
- Formatted text is not modelled: timestamps, `json.dumps`, the ANSI escape codes and `colorlog`. A `Rendering` records only the branch taken. `JsonFormatter`'s `try`/`except` fallback to the base format is not modelled either, because it depends on the formatting succeeding.
- `LoggerConfig` loading from `.env` and the process environment (pydantic-settings) is not modelled: `LogConfig.Validate` takes the raw field values, already of the declared types. Pydantic's own type-coercion errors (say `MAX_LOG_SIZE_MB=abc`) are therefore not modelled.
- `Strings.Upper` and `Strings.Lower`: only the characters that matter for the compared words are modelled. This is ASCII, plus the two letters whose upper case is an ASCII letter.
- The internals of `mp.Pipe`, `mp.Process`, the event loop in the worker, `run_in_executor` and `process.join()` are not modelled. A run is told what arrived: a `WorkerOutcome`, or a receive error. The traceback text is a parameter.
- Consumers of `completed_queue` are outside the core: the model records what is put on it and never takes anything off.
- `Asyncer.AsyncerMp.Acquire`: which waiting run gets a free permit is up to the caller. Any waiting run may be chosen, which includes the semaphore's FIFO wake order.
- Starting `_runner` is not modelled: the class never starts it.
- `Asyncer.AsyncerMp.Submit`: `uuid4` freshness is the precondition `taskId !in handles`.
- `utils/filesystemwatcher/file_watcher.py`, `main.py`, `utils/logger.py` and `example.py` are not part of this model.
