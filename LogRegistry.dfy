/** The `Logger` manager of `utils/logging/logging.py`: a registry of named
    loggers, a shared map of severity handlers and a shared complete-log
    handler. Loggers and handlers are values (`LoggerEntry`, `Handler`);
    whether the file system lets a directory be created, written to, or a
    log file be opened is a `FileSystem` parameter. */
module LogRegistry {
  import opened Wrappers
  import opened Strings
  import opened Paths
  import opened LogConfig
  import opened LogFormat

  /** The outcome of the file-system calls the manager makes. */
  datatype FileSystem = FileSystem(
    makeDirs: string -> bool,  // `os.makedirs(d, exist_ok=True)` succeeds
    canWrite: string -> bool,  // writing and removing `d/.write_test` succeeds
    canOpen: string -> bool)   // a `RotatingFileHandler` can open the file

  /** A logger as the registry holds it: its name, level and handlers in
      the order they were added. */
  datatype LoggerEntry = LoggerEntry(name: string, level: int, handlers: seq<Handler>)

  /** The levels that get their own file, in the order they are set up. */
  const SeverityLevels: seq<(string, int)> := [("WARNING", WARNING), ("ERROR", ERROR), ("CRITICAL", CRITICAL)]

  /** `MAX_LOG_SIZE_MB * 1024 * 1024`. */
  function MaxBytes(c: LoggerConfig): int
  {
    c.maxLogSizeMb * 1024 * 1024
  }

  /** The handler `_setup_severity_handlers` builds for one level: the file
      `<level in lower case>.log` in the severity directory. */
  function SeverityHandlerFor(c: LoggerConfig, level: (string, int)): (h: Handler)
    ensures h.SeverityHandler? && h.levelName == level.0 && h.level == level.1
    ensures h.path == PathJoin(c.severityFilesDir, Lower(level.0) + ".log")
    ensures h.maxBytes == c.maxLogSizeMb * 1024 * 1024 && h.backupCount == c.backupCount
  {
    SeverityHandler(level.0, level.1, PathJoin(c.severityFilesDir, Lower(level.0) + ".log"), MaxBytes(c), c.backupCount)
  }

  /** The handlers the loop over `levels` has stored when it ends: one per
      level, up to the first file that cannot be opened, whose exception
      ends the loop. */
  function OpenedHandlers(c: LoggerConfig, fs: FileSystem, levels: seq<(string, int)>): (hs: seq<Handler>)
    ensures |hs| <= |levels|
  {
    if levels == [] then []
    else
      var h := SeverityHandlerFor(c, levels[0]);
      if fs.canOpen(h.path) then [h] + OpenedHandlers(c, fs, levels[1..]) else []
  }

  /** The `k`-th stored handler is the one built for the `k`-th level. */
  lemma {:induction false} OpenedAreFor(c: LoggerConfig, fs: FileSystem, levels: seq<(string, int)>, k: int)
    requires 0 <= k < |OpenedHandlers(c, fs, levels)|
    ensures OpenedHandlers(c, fs, levels)[k] == SeverityHandlerFor(c, levels[k])
  {
    if k > 0 {
      assert levels[1..][k - 1] == levels[k];
      OpenedAreFor(c, fs, levels[1..], k - 1);
    }
  }

  /** One turn of the loop: the handlers stored from level `i` on are its
      own followed by the later ones when its file opens, and none when it
      does not. */
  lemma OpenedStep(c: LoggerConfig, fs: FileSystem, levels: seq<(string, int)>, i: int)
    requires 0 <= i < |levels|
    ensures var h := SeverityHandlerFor(c, levels[i]);
      OpenedHandlers(c, fs, levels[i..])
        == if fs.canOpen(h.path) then [h] + OpenedHandlers(c, fs, levels[i + 1..]) else []
  {
    assert levels[i..][0] == levels[i];
    assert levels[i..][1..] == levels[i + 1..];
  }

  /** The handler map `_setup_severity_handlers` leaves behind, given the one
      it found: unchanged when severity files are disabled or handlers
      already exist; empty when the directory cannot be prepared; otherwise
      the handlers that could be opened. */
  function SeveritySetup(current: seq<Handler>, c: LoggerConfig, fs: FileSystem): seq<Handler>
  {
    if !c.enableSeverityFiles || current != [] then current
    else if !(fs.makeDirs(c.severityFilesDir) && fs.canWrite(c.severityFilesDir)) then []
    else OpenedHandlers(c, fs, SeverityLevels)
  }

  /** When every file of `levels` opens, the loop stores one handler for
      each of them. */
  lemma {:induction false} AllOpened(c: LoggerConfig, fs: FileSystem, levels: seq<(string, int)>)
    requires forall k :: 0 <= k < |levels| ==> fs.canOpen(SeverityHandlerFor(c, levels[k]).path)
    ensures |OpenedHandlers(c, fs, levels)| == |levels|
  {
    if levels != [] {
      assert fs.canOpen(SeverityHandlerFor(c, levels[0]).path);
      forall k | 0 <= k < |levels[1..]| ensures fs.canOpen(SeverityHandlerFor(c, levels[1..][k]).path) {
        assert levels[1..][k] == levels[k + 1];
      }
      AllOpened(c, fs, levels[1..]);
    }
  }

  /** When every file opens, there are exactly three handlers, for WARNING,
      ERROR and CRITICAL in that order, each with the level of its name and
      the file named after it. */
  lemma AllSeverityFilesOpen(c: LoggerConfig, fs: FileSystem)
    requires forall k :: 0 <= k < |SeverityLevels| ==> fs.canOpen(SeverityHandlerFor(c, SeverityLevels[k]).path)
    ensures var hs := OpenedHandlers(c, fs, SeverityLevels);
      && |hs| == 3
      && hs[0] == SeverityHandlerFor(c, ("WARNING", WARNING))
      && hs[1] == SeverityHandlerFor(c, ("ERROR", ERROR))
      && hs[2] == SeverityHandlerFor(c, ("CRITICAL", CRITICAL))
  {
    AllOpened(c, fs, SeverityLevels);
    OpenedAreFor(c, fs, SeverityLevels, 0);
    OpenedAreFor(c, fs, SeverityLevels, 1);
    OpenedAreFor(c, fs, SeverityLevels, 2);
  }

  /** The levels of the severity files strictly increase. */
  lemma SeverityLevelsIncrease(i: int, j: int)
    requires 0 <= i < j < |SeverityLevels|
    ensures SeverityLevels[i].1 < SeverityLevels[j].1
  {
    assert SeverityLevels[0].1 == WARNING && SeverityLevels[1].1 == ERROR && SeverityLevels[2].1 == CRITICAL;
  }

  /** A relative file name joined to one directory gives paths whose
      lengths differ as the names' lengths do. */
  lemma PathJoinLength(dir: string, file: string)
    requires file != [] && file[0] != '/'
    ensures |PathJoin(dir, file)| == |dir| + |file| + (if dir == "" || dir[|dir| - 1] == '/' then 0 else 1)
  {
  }

  /** Two levels whose names differ in length write to different files. */
  lemma SeverityPathsDiffer(c: LoggerConfig, a: (string, int), b: (string, int))
    requires a.0 != [] && a.0[0] != '/' && b.0 != [] && b.0[0] != '/'
    requires |a.0| != |b.0|
    ensures SeverityHandlerFor(c, a).path != SeverityHandlerFor(c, b).path
  {
    var fa := Lower(a.0) + ".log";
    var fb := Lower(b.0) + ".log";
    assert fa[0] == LowerChar(a.0[0]) && fb[0] == LowerChar(b.0[0]);
    PathJoinLength(c.severityFilesDir, fa);
    PathJoinLength(c.severityFilesDir, fb);
  }

  /** The level names are relative and have the lengths 7, 5 and 8. */
  lemma SeverityNameShapes(i: int)
    requires 0 <= i < |SeverityLevels|
    ensures SeverityLevels[i].0 != [] && SeverityLevels[i].0[0] != '/'
    ensures |SeverityLevels[i].0| == if i == 0 then 7 else if i == 1 then 5 else 8
  {
    assert SeverityLevels[0].0 == "WARNING" && SeverityLevels[1].0 == "ERROR" && SeverityLevels[2].0 == "CRITICAL";
  }

  /** WARNING, ERROR and CRITICAL records go to three different files in the
      severity directory, whatever that directory is. */
  lemma SeverityFilesDistinct(c: LoggerConfig, i: int, j: int)
    requires 0 <= i < j < |SeverityLevels|
    ensures SeverityHandlerFor(c, SeverityLevels[i]).path != SeverityHandlerFor(c, SeverityLevels[j]).path
  {
    SeverityNameShapes(i);
    SeverityNameShapes(j);
    SeverityPathsDiffer(c, SeverityLevels[i], SeverityLevels[j]);
  }

  /** Whatever fails, the stored handlers are severity handlers of distinct
      levels, each with its own exact-level filter, so no record is written
      to two severity files. */
  lemma SeverityHandlersDistinctLevels(c: LoggerConfig, fs: FileSystem, i: int, j: int)
    requires 0 <= i < j < |OpenedHandlers(c, fs, SeverityLevels)|
    ensures var hs := OpenedHandlers(c, fs, SeverityLevels);
      hs[i].SeverityHandler? && hs[j].SeverityHandler? && hs[i].level != hs[j].level
  {
    OpenedAreFor(c, fs, SeverityLevels, i);
    OpenedAreFor(c, fs, SeverityLevels, j);
    SeverityLevelsIncrease(i, j);
  }

  /** Where the shared complete log lives under the project root. */
  function CompleteLogPath(root: string): string
  {
    root + "/logs/complete_log.log"
  }

  /** The shared complete-log handler after `setup_logger` has looked at it:
      created once, sized by the config of the first logger that created it,
      and left unset when its directory or file cannot be prepared. */
  function CompleteSetup(current: Option<Handler>, c: LoggerConfig, root: string, fs: FileSystem): (h: Option<Handler>)
    ensures current.Some? ==> h == current
    ensures h.Some? && current.None? ==> h.value == CompleteLogHandler(CompleteLogPath(root), MaxBytes(c), c.backupCount)
    ensures current.None? ==> (h.Some? <==> fs.makeDirs(Dirname(CompleteLogPath(root))) && fs.canOpen(CompleteLogPath(root)))
  {
    if current.Some? then current
    else
      var path := CompleteLogPath(root);
      if fs.makeDirs(Dirname(path)) && fs.canOpen(path) then Some(CompleteLogHandler(path, MaxBytes(c), c.backupCount))
      else None
  }

  /** Whether `setup_logger` gives the logger a file handler of its own:
      only for a non-empty `LOG_FILE` that can be opened. */
  predicate HasLogFile(c: LoggerConfig, fs: FileSystem)
  {
    c.logFile.Some? && c.logFile.value != "" && fs.canOpen(c.logFile.value)
  }

  /** The handlers of a newly set up logger, in the order `setup_logger`
      adds them: console, its own file, the complete log, the severity files. */
  function NewLoggerHandlers(c: LoggerConfig, fs: FileSystem, complete: Option<Handler>, severity: seq<Handler>)
    : (hs: seq<Handler>)
    ensures |hs| >= 1 + |severity| && hs[0] == ConsoleHandler
    ensures hs[|hs| - |severity|..] == severity
  {
    [ConsoleHandler]
    + (if HasLogFile(c, fs) then [LogFileHandler(c.logFile.value, MaxBytes(c), c.backupCount)] else [])
    + (if complete.Some? then [complete.value] else [])
    + severity
  }

  /** Between the console and the severity handlers come the logger's own
      file handler, exactly when it has a `LOG_FILE` that opens, and then the
      shared complete-log handler, exactly when that exists. */
  lemma NewLoggerHandlerPositions(c: LoggerConfig, fs: FileSystem, complete: Option<Handler>, severity: seq<Handler>)
    ensures var hs := NewLoggerHandlers(c, fs, complete, severity);
      && |hs| == 1 + (if HasLogFile(c, fs) then 1 else 0) + (if complete.Some? then 1 else 0) + |severity|
      && (HasLogFile(c, fs) ==> hs[1] == LogFileHandler(c.logFile.value, MaxBytes(c), c.backupCount))
      && (complete.Some? ==> hs[if HasLogFile(c, fs) then 2 else 1] == complete.value)
  {
  }

  /** With only severity handlers shared and a complete-log handler as the
      shared one, a new logger has a log-file handler exactly when it has a
      `LOG_FILE` that opens, and a complete-log handler exactly when the
      shared one exists. */
  lemma NewLoggerHandlerKinds(c: LoggerConfig, fs: FileSystem, complete: Option<Handler>, severity: seq<Handler>)
    requires complete.Some? ==> complete.value.CompleteLogHandler?
    requires forall k :: 0 <= k < |severity| ==> severity[k].SeverityHandler?
    ensures var hs := NewLoggerHandlers(c, fs, complete, severity);
      && ((exists k :: 0 <= k < |hs| && hs[k].LogFileHandler?) <==> HasLogFile(c, fs))
      && ((exists k :: 0 <= k < |hs| && hs[k].CompleteLogHandler?) <==> complete.Some?)
  {
    NewLoggerHandlerPositions(c, fs, complete, severity);
    var hs := NewLoggerHandlers(c, fs, complete, severity);
    var n := |hs| - |severity|;
    assert forall k :: n <= k < |hs| ==> hs[k] == severity[k - n];
    if complete.Some? {
      assert hs[if HasLogFile(c, fs) then 2 else 1].CompleteLogHandler?;
    }
    if HasLogFile(c, fs) {
      assert hs[1].LogFileHandler?;
    }
  }

  /** The directory test `validate_log_file` makes: `os.makedirs`, then
      writing and removing `.write_test`. */
  function Writable(fs: FileSystem): string -> bool
  {
    d => fs.makeDirs(d) && fs.canWrite(d)
  }

  /** How `setup_logger` settles its configuration: the one passed in; else
      the one built from the settings, when it validates; else nothing, once
      the basic fallback has validated (`return None`), or the fallback's
      own `ValidationError`, which leaves `setup_logger`. */
  function ChosenConfig(config: Option<LoggerConfig>, settings: RawConfig, root: string, fs: FileSystem)
    : (r: Result<Option<LoggerConfig>, seq<ConfigError>>)
    ensures config.Some? ==> r == Success(config)
    ensures config.None? && r.Success? && r.value.Some? ==> WellFormed(r.value.value)
  {
    if config.Some? then Success(config)
    else
      var loaded := Validate(settings, root, Writable(fs));
      if loaded.Success? then Success(Some(loaded.value))
      else
        var basic := Validate(Fallback(settings), root, Writable(fs));
        if basic.Failure? then Failure(basic.error) else Success(None)
  }

  /** Without a config passed in, `setup_logger` raises exactly when the
      size or the backup count is out of range, with those fields' errors;
      it gives up with `None` exactly when the default config fails on the
      level or the log file alone; and it goes on with the default config
      when that validates. */
  lemma ChosenConfigOutcomes(settings: RawConfig, root: string, fs: FileSystem)
    ensures ChosenConfig(None, settings, root, fs).Failure? <==>
      !(ValidateMaxLogSize(settings.maxLogSizeMb).Success? && ValidateBackupCount(settings.backupCount).Success?)
    ensures ChosenConfig(None, settings, root, fs).Failure? ==>
      ChosenConfig(None, settings, root, fs).error
        == ErrorOf(ValidateMaxLogSize(settings.maxLogSizeMb)) + ErrorOf(ValidateBackupCount(settings.backupCount))
    ensures ChosenConfig(None, settings, root, fs) == Success(None) <==>
      && ValidateMaxLogSize(settings.maxLogSizeMb).Success? && ValidateBackupCount(settings.backupCount).Success?
      && !(ValidateLogLevel(settings.logLevel).Success? && ValidateLogFile(settings.logFile, root, Writable(fs)).Success?)
    ensures ChosenConfig(None, settings, root, fs).Success? && ChosenConfig(None, settings, root, fs).value.Some? ==>
      ChosenConfig(None, settings, root, fs).value.value == Validate(settings, root, Writable(fs)).value
  {
    FallbackValidation(settings, root, Writable(fs));
  }

  /** `xs` with every occurrence of `x` taken out, the others in order. */
  function Without(xs: seq<string>, x: string): (r: seq<string>)
    ensures |r| <= |xs|
  {
    if xs == [] then []
    else (if xs[0] == x then [] else [xs[0]]) + Without(xs[1..], x)
  }

  /** Taking a name out of a list keeps exactly the other names. */
  lemma {:induction false} WithoutMembers(xs: seq<string>, x: string, y: string)
    ensures y in Without(xs, x) <==> y in xs && y != x
  {
    if xs != [] {
      WithoutMembers(xs[1..], x, y);
    }
  }

  /** Taking a name out of a list without repeats leaves one without repeats. */
  lemma {:induction false} WithoutDistinct(xs: seq<string>, x: string)
    requires Distinct(xs)
    ensures Distinct(Without(xs, x))
  {
    if xs != [] {
      WithoutDistinct(xs[1..], x);
      var rest := Without(xs[1..], x);
      if xs[0] != x {
        WithoutMembers(xs[1..], x, xs[0]);
        assert xs[0] !in rest;
        assert forall i, j :: 0 <= i < j < |[xs[0]] + rest| ==> ([xs[0]] + rest)[i] != ([xs[0]] + rest)[j] by {
          forall i, j | 0 <= i < j < |[xs[0]] + rest|
            ensures ([xs[0]] + rest)[i] != ([xs[0]] + rest)[j]
          {
            if i == 0 {
              assert ([xs[0]] + rest)[j] == rest[j - 1];
            }
          }
        }
      } else {
        assert [] + rest == rest;
      }
    }
  }

  lemma FirstIsMember(xs: seq<string>)
    ensures xs != [] ==> xs[0] in xs
  {
  }

  class Logger {
    /** `_logger_instances`: name to logger. */
    var instances: map<string, LoggerEntry>
    /** The registry's keys in insertion order, as `list_loggers` lists them. */
    var names: seq<string>
    /** `_complete_log_handler`. */
    var completeLog: Option<Handler>
    /** `_severity_handlers`, in insertion order; each keyed by its level name. */
    var severityHandlers: seq<Handler>

    ghost predicate Valid()
      reads this
    {
      && Distinct(names)
      && (forall n :: n in names <==> n in instances)
      && (forall n :: n in instances ==> instances[n].name == n)
    }

    /** `Logger()`: nothing registered, no shared handlers. */
    constructor ()
      ensures Valid()
      ensures instances == map[] && names == [] && completeLog == None && severityHandlers == []
    {
      instances := map[];
      names := [];
      completeLog := None;
      severityHandlers := [];
    }

    /** `list_loggers`: the registered names, each once, in registration order. */
    function ListLoggers(): (r: seq<string>)
      reads this
      requires Valid()
      ensures Distinct(r)
      ensures forall n :: n in r <==> n in instances
    {
      names
    }

    /** `_setup_severity_handlers`. */
    method SetupSeverityHandlers(c: LoggerConfig, fs: FileSystem)
      modifies this
      ensures severityHandlers == SeveritySetup(old(severityHandlers), c, fs)
      ensures instances == old(instances) && names == old(names) && completeLog == old(completeLog)
    {
      if !c.enableSeverityFiles || severityHandlers != [] {
        return;
      }
      if !(fs.makeDirs(c.severityFilesDir) && fs.canWrite(c.severityFilesDir)) {
        return;
      }
      assert [] + OpenedHandlers(c, fs, SeverityLevels) == OpenedHandlers(c, fs, SeverityLevels);
      OpenSeverityFiles(c, fs, SeverityLevels);
    }

    /** The loop of `_setup_severity_handlers`: one handler per level, stored
        as soon as its file is open, until a file fails to open. */
    method OpenSeverityFiles(c: LoggerConfig, fs: FileSystem, levels: seq<(string, int)>)
      modifies this
      ensures severityHandlers == old(severityHandlers) + OpenedHandlers(c, fs, levels)
      ensures instances == old(instances) && names == old(names) && completeLog == old(completeLog)
    {
      ghost var start := severityHandlers;
      var i := 0;
      while i < |levels|
        invariant 0 <= i <= |levels|
        invariant severityHandlers + OpenedHandlers(c, fs, levels[i..]) == start + OpenedHandlers(c, fs, levels)
        invariant instances == old(instances) && names == old(names) && completeLog == old(completeLog)
      {
        var handler := SeverityHandlerFor(c, levels[i]);
        OpenedStep(c, fs, levels, i);
        if !fs.canOpen(handler.path) {
          assert severityHandlers + [] == severityHandlers;
          return;
        }
        var stored := severityHandlers;
        var rest := OpenedHandlers(c, fs, levels[i + 1..]);
        assert (stored + [handler]) + rest == stored + ([handler] + rest);
        severityHandlers := stored + [handler];
        i := i + 1;
      }
      assert severityHandlers + [] == severityHandlers;
    }

    /** `setup_logger(config, logger_name)`, with `settings` the values
        `LoggerConfig()` reads. A name already registered gets its stored
        logger back and nothing changes. Without a config, when the default
        one fails validation, nothing changes: the result is `None`, or the
        fallback config's errors when it fails too. Otherwise the shared
        handlers are set up if needed and a new logger is registered under
        the name. A config passed in must have one of the five level names,
        as `level_mapping` has no others. */
    method SetupLogger(config: Option<LoggerConfig>, name: string, settings: RawConfig, root: string, fs: FileSystem)
      returns (r: Result<Option<LoggerEntry>, seq<ConfigError>>)
      requires Valid()
      requires config.Some? ==> config.value.logLevel in LevelNames
      modifies this
      ensures Valid()
      ensures old(name in instances) ==>
        && r == Success(Some(old(instances[name])))
        && instances == old(instances) && names == old(names)
        && completeLog == old(completeLog) && severityHandlers == old(severityHandlers)
      ensures !old(name in instances) && ChosenConfig(config, settings, root, fs).Failure? ==>
        && r == Failure(ChosenConfig(config, settings, root, fs).error)
        && instances == old(instances) && names == old(names)
        && completeLog == old(completeLog) && severityHandlers == old(severityHandlers)
      ensures !old(name in instances) && ChosenConfig(config, settings, root, fs) == Success(None) ==>
        && r == Success(None)
        && instances == old(instances) && names == old(names)
        && completeLog == old(completeLog) && severityHandlers == old(severityHandlers)
      ensures !old(name in instances) && ChosenConfig(config, settings, root, fs).Success?
              && ChosenConfig(config, settings, root, fs).value.Some? ==>
        var c := ChosenConfig(config, settings, root, fs).value.value;
        && severityHandlers == SeveritySetup(old(severityHandlers), c, fs)
        && completeLog == CompleteSetup(old(completeLog), c, root, fs)
        && r == Success(Some(LoggerEntry(name, LevelNumber(c.logLevel),
                                         NewLoggerHandlers(c, fs, completeLog, severityHandlers))))
        && instances == old(instances)[name := r.value.value]
        && names == old(names) + [name]
    {
      if name in instances {
        return Success(Some(instances[name]));
      }
      var chosen := ChosenConfig(config, settings, root, fs);
      if chosen.Failure? {
        return Failure(chosen.error);
      } else if chosen.value.None? {
        return Success(None);
      }
      var entry := CreateLogger(chosen.value.value, name, root, fs);
      r := Success(Some(entry));
    }

    /** The part of `setup_logger` once the config is settled: the shared
        handlers are set up if needed, and a new logger with the configured
        level is built from the console, its own file, the complete log and
        the severity files, and registered under the name. */
    method CreateLogger(c: LoggerConfig, name: string, root: string, fs: FileSystem) returns (entry: LoggerEntry)
      requires Valid() && name !in instances && c.logLevel in LevelNames
      modifies this
      ensures Valid()
      ensures severityHandlers == SeveritySetup(old(severityHandlers), c, fs)
      ensures completeLog == CompleteSetup(old(completeLog), c, root, fs)
      ensures entry == LoggerEntry(name, LevelNumber(c.logLevel), NewLoggerHandlers(c, fs, completeLog, severityHandlers))
      ensures instances == old(instances)[name := entry] && names == old(names) + [name]
    {
      SetupSeverityHandlers(c, fs);
      var level := LevelNumber(c.logLevel);
      var handlers := [ConsoleHandler];
      if c.logFile.Some? && c.logFile.value != "" && fs.canOpen(c.logFile.value) {
        handlers := handlers + [LogFileHandler(c.logFile.value, MaxBytes(c), c.backupCount)];
      }
      ghost var withFile := handlers;
      SetupCompleteLog(c, root, fs);
      if completeLog.Some? {
        handlers := handlers + [completeLog.value];
      }
      handlers := handlers + severityHandlers;
      assert handlers == NewLoggerHandlers(c, fs, completeLog, severityHandlers) by {
        assert withFile == [ConsoleHandler]
          + (if HasLogFile(c, fs) then [LogFileHandler(c.logFile.value, MaxBytes(c), c.backupCount)] else []);
      }
      entry := LoggerEntry(name, level, handlers);
      Register(entry);
    }

    /** The complete-log part of `setup_logger`: the shared handler is
        created on first use, when its directory and file can be prepared. */
    method SetupCompleteLog(c: LoggerConfig, root: string, fs: FileSystem)
      modifies this
      ensures completeLog == CompleteSetup(old(completeLog), c, root, fs)
      ensures instances == old(instances) && names == old(names) && severityHandlers == old(severityHandlers)
    {
      if completeLog.None? {
        var path := CompleteLogPath(root);
        if fs.makeDirs(Dirname(path)) && fs.canOpen(path) {
          completeLog := Some(CompleteLogHandler(path, MaxBytes(c), c.backupCount));
        }
      }
    }

    /** `self._logger_instances[logger_name] = logger` for a new name. */
    method Register(entry: LoggerEntry)
      requires Valid() && entry.name !in instances
      modifies this
      ensures Valid()
      ensures instances == old(instances)[entry.name := entry] && names == old(names) + [entry.name]
      ensures completeLog == old(completeLog) && severityHandlers == old(severityHandlers)
    {
      assert entry.name !in names;
      instances := instances[entry.name := entry];
      names := names + [entry.name];
    }

    /** `close_logger(logger_name)`. A non-empty name removes just that
        logger (if registered) and leaves the shared handlers; no name, or
        the empty one, empties the registry and drops the shared handlers. */
    method CloseLogger(name: Option<string>)
      requires Valid()
      modifies this
      ensures Valid()
      ensures name.Some? && name.value != "" ==>
        && instances == old(instances) - {name.value}
        && names == Without(old(names), name.value)
        && completeLog == old(completeLog) && severityHandlers == old(severityHandlers)
      ensures name.None? || name.value == "" ==>
        instances == map[] && names == [] && completeLog == None && severityHandlers == []
    {
      if name.Some? && name.value != "" {
        var n := name.value;
        if n in instances {
          instances := instances - {n};
        }
        WithoutDistinct(names, n);
        forall m ensures m in Without(names, n) <==> m in names && m != n {
          WithoutMembers(names, n, m);
        }
        names := Without(names, n);
      } else {
        instances := map[];
        names := [];
        completeLog := None;
        severityHandlers := [];
      }
    }

    /** `close_all_loggers`: closes each listed name in turn. Afterwards the
        registry is empty; the shared handlers survive unless a logger was
        registered under the empty name, whose closing closes everything. */
    method CloseAllLoggers()
      requires Valid()
      modifies this
      ensures Valid()
      ensures instances == map[] && names == [] && ListLoggers() == []
      ensures "" !in old(names) ==> completeLog == old(completeLog) && severityHandlers == old(severityHandlers)
      ensures "" in old(names) ==> completeLog == None && severityHandlers == []
    {
      var snapshot := ListLoggers();
      var i := 0;
      while i < |snapshot|
        invariant 0 <= i <= |snapshot|
        invariant Valid()
        invariant forall n :: n in instances ==> n in snapshot[i..]
        invariant "" !in snapshot[..i] ==> completeLog == old(completeLog) && severityHandlers == old(severityHandlers)
        invariant "" in snapshot[..i] ==> completeLog == None && severityHandlers == []
      {
        assert snapshot[..i + 1] == snapshot[..i] + [snapshot[i]];
        CloseLogger(Some(snapshot[i]));
        forall n | n in instances ensures n in snapshot[i + 1..] {
          assert n in snapshot[i..] && n != snapshot[i];
        }
        i := i + 1;
      }
      assert snapshot[..i] == snapshot;
      assert instances == map[];
      if names != [] {
        FirstIsMember(names);
        assert false;
      }
    }
  }
}
