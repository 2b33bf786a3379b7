/** The `LoggerConfig` settings class of `utils/logging/logging.py`: its six
    fields with their defaults and the field validators that normalise or
    reject them. The project root (`Path(__file__).parent.parent.absolute()`)
    is a parameter, and so is whether a log directory can be created and
    written to. */
module LogConfig {
  import opened Wrappers
  import opened Strings
  import opened Paths

  /** The numeric levels of Python's `logging` module. */
  const DEBUG := 10
  const INFO := 20
  const WARNING := 30
  const ERROR := 40
  const CRITICAL := 50

  /** The level names `LOG_LEVEL` may take. */
  const LevelNames: set<string> := {"DEBUG", "INFO", "WARNING", "ERROR", "CRITICAL"}

  /** The `level_mapping` table `setup_logger` looks the configured level up in. */
  function LevelNumber(name: string): (n: int)
    requires name in LevelNames
    ensures n in {DEBUG, INFO, WARNING, ERROR, CRITICAL}
  {
    if name == "DEBUG" then DEBUG
    else if name == "INFO" then INFO
    else if name == "WARNING" then WARNING
    else if name == "ERROR" then ERROR
    else CRITICAL
  }

  /** The level table is one-to-one: no two names share a number. */
  lemma LevelNumberInjective(a: string, b: string)
    requires a in LevelNames && b in LevelNames
    ensures LevelNumber(a) == LevelNumber(b) <==> a == b
  {
  }

  /** The `ValueError`s the validators raise. */
  datatype ConfigError =
    | InvalidLevel(given: string)
    | InvalidLogFile(path: string, dir: string)
    | SizeNotPositive
    | SizeTooLarge
    | BackupNegative
    | BackupTooLarge

  /** `validate_log_level`: the upper-cased name when it is a level name. */
  function ValidateLogLevel(v: string): (r: Result<string, ConfigError>)
    ensures r.Success? <==> Upper(v) in LevelNames
    ensures r.Success? ==> r.value == Upper(v) && r.value in LevelNames
    ensures r.Failure? ==> r.error == InvalidLevel(v)
  {
    var upper := Upper(v);
    if upper !in LevelNames then Failure(InvalidLevel(v)) else Success(upper)
  }

  /** A validated level validates to itself. */
  lemma ValidateLogLevelIdempotent(v: string)
    requires ValidateLogLevel(v).Success?
    ensures ValidateLogLevel(ValidateLogLevel(v).value) == ValidateLogLevel(v)
  {
    UpperIdempotent(v);
  }

  /** The level names are the only strings that validate unchanged. */
  lemma ValidateLogLevelFixedPoints(v: string)
    ensures ValidateLogLevel(v) == Success(v) <==> v in LevelNames
  {
    if v in LevelNames {
      assert forall k :: 0 <= k < |v| ==> 'A' <= v[k] <= 'Z';
      UpperKeepsCapitals(v);
    }
  }

  /** Where `validate_log_file` puts a non-blank name: stripped, then joined
      to the project root when it is relative, then given a `.log`
      extension when pathlib sees no suffix. */
  function ResolveLogFile(v: string, root: string): (f: string)
  {
    var s := Strip(v);
    var p := if IsAbsolute(s) then s else RootJoin(root, s);
    if Suffix(p) == "" then p + ".log" else p
  }

  /** `validate_log_file`: `None` for a missing or blank name; otherwise the
      resolved path, provided its directory (when it has one) can be created
      and written to. */
  function ValidateLogFile(v: Option<string>, root: string, writable: string -> bool)
    : (r: Result<Option<string>, ConfigError>)
    ensures v.None? || Strip(v.value) == "" ==> r == Success(None)
    ensures r.Success? && r.value.Some? ==>
              v.Some? && r.value.value == ResolveLogFile(v.value, root)
    ensures r.Success? && r.value.Some? && Dirname(r.value.value) != "" ==> writable(Dirname(r.value.value))
    ensures r.Failure? ==> v.Some? && r.error == InvalidLogFile(ResolveLogFile(v.value, root),
                                                                Dirname(ResolveLogFile(v.value, root)))
    ensures v.Some? && Strip(v.value) != "" ==>
              (r.Success? <==> Dirname(ResolveLogFile(v.value, root)) == "" || writable(Dirname(ResolveLogFile(v.value, root))))
    ensures v.Some? && Strip(v.value) != "" && r.Success? ==> r.value == Some(ResolveLogFile(v.value, root))
  {
    if v.None? || Strip(v.value) == "" then Success(None)
    else
      var f := ResolveLogFile(v.value, root);
      var dir := Dirname(f);
      if dir != "" && !writable(dir) then Failure(InvalidLogFile(f, dir))
      else Success(Some(f))
  }

  /** Relative log files are anchored at an absolute project root, so every
      accepted log file is absolute. */
  lemma LogFileIsAbsolute(v: Option<string>, root: string, writable: string -> bool)
    requires IsAbsolute(root)
    requires ValidateLogFile(v, root, writable).Success?
    requires ValidateLogFile(v, root, writable).value.Some?
    ensures IsAbsolute(ValidateLogFile(v, root, writable).value.value)
  {
    var s := Strip(v.value);
    var p := if IsAbsolute(s) then s else RootJoin(root, s);
    assert IsAbsolute(p);
  }

  /** A non-blank name ends up with a suffix, either its own or the `.log`
      that is appended, unless it is absolute and ends in a path separator,
      or it is relative and it and the root together have no component
      (such as "." under the root `/`). A relative name such as "logs/"
      loses its separator when it is joined to the root. */
  lemma LogFileHasSuffix(v: string, root: string)
    requires Strip(v) != ""
    requires IsAbsolute(Strip(v)) ==> Strip(v)[|Strip(v)| - 1] != '/'
    requires !IsAbsolute(Strip(v)) ==> Parts(root) + Parts(Strip(v)) != []
    ensures Suffix(ResolveLogFile(v, root)) != ""
  {
    var s := Strip(v);
    var p := if IsAbsolute(s) then s else RootJoin(root, s);
    if Suffix(p) == "" {
      if !IsAbsolute(s) {
        RootJoinEnd(root, s);
      }
      LogExtensionIsSuffix(p);
    }
  }

  /** An absolute name ending in a separator is the one case where the
      appended `.log` becomes a hidden file name, which pathlib does not
      count as a suffix: "/var/log/" becomes "/var/log/.log". */
  lemma TrailingSeparatorLogFileHasNoSuffix(root: string)
    ensures ResolveLogFile("/var/log/", root) == "/var/log/" + ".log"
    ensures Suffix(ResolveLogFile("/var/log/", root)) == ""
  {
    var s := "/var/log/";
    StripNoop(s);
    DirectoryNameHasNoSuffix();
    TrailingSeparatorGetsNoSuffix(s);
  }

  /** pathlib reads "/var/log/" as the directory `log`, which has no suffix. */
  lemma DirectoryNameHasNoSuffix()
    ensures Suffix("/var/log/") == ""
  {
    assert "/var/log/" == "/var" + "/" + "log" + "/";
    DirectoryName("/var", "log");
    assert '.' !in "log";
  }

  /** `validate_severity_dir`: the stripped directory, joined to the project
      root when it is relative. */
  function ValidateSeverityDir(v: string, root: string): (r: string)
    ensures IsAbsolute(Strip(v)) ==> r == Strip(v)
    ensures !IsAbsolute(Strip(v)) ==> r == RootJoin(root, Strip(v))
    ensures IsAbsolute(root) ==> IsAbsolute(r)
  {
    var s := Strip(v);
    if IsAbsolute(s) then s else RootJoin(root, s)
  }

  /** `validate_max_log_size`: between 1 and 1000 megabytes, never clamped. */
  function ValidateMaxLogSize(v: int): (r: Result<int, ConfigError>)
    ensures r.Success? <==> 1 <= v <= 1000
    ensures r.Success? ==> r.value == v
    ensures r.Failure? ==> (r.error == SizeNotPositive <==> v <= 0)
    ensures r.Failure? ==> (r.error == SizeTooLarge <==> v > 1000)
  {
    if v <= 0 then Failure(SizeNotPositive)
    else if v > 1000 then Failure(SizeTooLarge)
    else Success(v)
  }

  /** `validate_backup_count`: between 0 and 50 backups, never clamped. */
  function ValidateBackupCount(v: int): (r: Result<int, ConfigError>)
    ensures r.Success? <==> 0 <= v <= 50
    ensures r.Success? ==> r.value == v
    ensures r.Failure? ==> (r.error == BackupNegative <==> v < 0)
    ensures r.Failure? ==> (r.error == BackupTooLarge <==> v > 50)
  {
    if v < 0 then Failure(BackupNegative)
    else if v > 50 then Failure(BackupTooLarge)
    else Success(v)
  }

  /** The settings as they are read, before validation. */
  datatype RawConfig = RawConfig(
    logLevel: string,
    logFile: Option<string>,
    enableSeverityFiles: bool,
    severityFilesDir: string,
    maxLogSizeMb: int,
    backupCount: int)

  /** The field defaults (pydantic validates defaults too, so the default
      severity directory is resolved against the root as well). */
  const DefaultRaw := RawConfig("INFO", None, true, "logs/severity", 10, 5)

  /** A validated `LoggerConfig`. */
  datatype LoggerConfig = LoggerConfig(
    logLevel: string,
    logFile: Option<string>,
    enableSeverityFiles: bool,
    severityFilesDir: string,
    maxLogSizeMb: int,
    backupCount: int)

  /** What every validated config satisfies. */
  predicate WellFormed(c: LoggerConfig)
  {
    && c.logLevel in LevelNames
    && 1 <= c.maxLogSizeMb <= 1000
    && 0 <= c.backupCount <= 50
  }

  /** The error a field validator reported, if any, as a list. */
  function ErrorOf<T>(r: Result<T, ConfigError>): (es: seq<ConfigError>)
    ensures |es| <= 1
    ensures es == [] <==> r.Success?
  {
    if r.Success? then [] else [r.error]
  }

  /** Building a `LoggerConfig`: every field is validated, the errors are
      collected in field order, and the config exists only when there are
      none. */
  function Validate(raw: RawConfig, root: string, writable: string -> bool)
    : (r: Result<LoggerConfig, seq<ConfigError>>)
    ensures r.Success? <==>
      && ValidateLogLevel(raw.logLevel).Success?
      && ValidateLogFile(raw.logFile, root, writable).Success?
      && ValidateMaxLogSize(raw.maxLogSizeMb).Success?
      && ValidateBackupCount(raw.backupCount).Success?
    ensures r.Success? ==> r.value == LoggerConfig(
      Upper(raw.logLevel),
      ValidateLogFile(raw.logFile, root, writable).value,
      raw.enableSeverityFiles,
      ValidateSeverityDir(raw.severityFilesDir, root),
      raw.maxLogSizeMb,
      raw.backupCount)
    ensures r.Success? ==> WellFormed(r.value)
    ensures r.Failure? ==> 1 <= |r.error| <= 4
  {
    var level := ValidateLogLevel(raw.logLevel);
    var file := ValidateLogFile(raw.logFile, root, writable);
    var size := ValidateMaxLogSize(raw.maxLogSizeMb);
    var backups := ValidateBackupCount(raw.backupCount);
    var errors := ErrorOf(level) + ErrorOf(file) + ErrorOf(size) + ErrorOf(backups);
    if errors != [] then Failure(errors)
    else Success(LoggerConfig(level.value, file.value, raw.enableSeverityFiles,
                              ValidateSeverityDir(raw.severityFilesDir, root), size.value, backups.value))
  }

  /** The defaults always validate: no log file, level INFO, and the
      severity directory `logs/severity` under the project root. */
  lemma DefaultsValidate(root: string, writable: string -> bool)
    ensures Validate(DefaultRaw, root, writable).Success?
    ensures Validate(DefaultRaw, root, writable).value.logLevel == "INFO"
    ensures Validate(DefaultRaw, root, writable).value.logFile == None
    ensures Validate(DefaultRaw, root, writable).value.severityFilesDir == RootJoin(root, "logs/severity")
  {
    assert Upper("INFO") == "INFO";
    StripNoop("logs/severity");
  }

  /** The basic config `setup_logger` builds when the default one fails:
      level INFO, no log file and no severity files are given explicitly,
      while the severity directory, the size and the backup count are read
      from the settings as before. */
  function Fallback(raw: RawConfig): RawConfig
  {
    raw.(logLevel := "INFO", logFile := None, enableSeverityFiles := false)
  }

  /** The errors `Validate` reports are the field validators' errors, in
      field order. */
  lemma ValidateErrors(raw: RawConfig, root: string, writable: string -> bool)
    ensures var es := ErrorOf(ValidateLogLevel(raw.logLevel)) + ErrorOf(ValidateLogFile(raw.logFile, root, writable))
                      + ErrorOf(ValidateMaxLogSize(raw.maxLogSizeMb)) + ErrorOf(ValidateBackupCount(raw.backupCount));
      && (Validate(raw, root, writable).Success? <==> es == [])
      && (Validate(raw, root, writable).Failure? ==> Validate(raw, root, writable).error == es)
  {
  }

  lemma InfoIsValid()
    ensures ValidateLogLevel("INFO") == Success("INFO")
  {
    assert Upper("INFO") == "INFO";
  }

  /** The fallback fails exactly when the size or the backup count is out
      of range, with those fields' errors. */
  lemma FallbackValidation(raw: RawConfig, root: string, writable: string -> bool)
    ensures Validate(Fallback(raw), root, writable).Success? <==>
      ValidateMaxLogSize(raw.maxLogSizeMb).Success? && ValidateBackupCount(raw.backupCount).Success?
    ensures Validate(Fallback(raw), root, writable).Failure? ==>
      Validate(Fallback(raw), root, writable).error
        == ErrorOf(ValidateMaxLogSize(raw.maxLogSizeMb)) + ErrorOf(ValidateBackupCount(raw.backupCount))
  {
    var f := Fallback(raw);
    InfoIsValid();
    ValidateErrors(f, root, writable);
    var size, backups := ErrorOf(ValidateMaxLogSize(raw.maxLogSizeMb)), ErrorOf(ValidateBackupCount(raw.backupCount));
    assert ErrorOf(ValidateLogLevel(f.logLevel)) + ErrorOf(ValidateLogFile(f.logFile, root, writable)) == [];
    assert [] + size + backups == size + backups;
  }

  /** When the fallback fails, the first attempt failed too, and the
      fallback's errors are the last ones the first attempt reported. */
  lemma FallbackErrorsAreLast(raw: RawConfig, root: string, writable: string -> bool)
    requires Validate(Fallback(raw), root, writable).Failure?
    ensures Validate(raw, root, writable).Failure?
    ensures var es := Validate(raw, root, writable).error;
      var fs := Validate(Fallback(raw), root, writable).error;
      |fs| <= |es| && es[|es| - |fs|..] == fs
  {
    FallbackValidation(raw, root, writable);
    ValidateErrors(raw, root, writable);
    var tail := ErrorOf(ValidateMaxLogSize(raw.maxLogSizeMb)) + ErrorOf(ValidateBackupCount(raw.backupCount));
    var head := ErrorOf(ValidateLogLevel(raw.logLevel)) + ErrorOf(ValidateLogFile(raw.logFile, root, writable));
    assert head + ErrorOf(ValidateMaxLogSize(raw.maxLogSizeMb)) + ErrorOf(ValidateBackupCount(raw.backupCount))
        == head + tail;
    assert (head + tail)[|head + tail| - |tail|..] == tail;
  }
}
