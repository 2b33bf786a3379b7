/** The environment-variable configuration loader of the FastAPI wrapper
    (`utils/validate_env.py`; the repository carries two byte-identical
    copies, and this one model covers both). The process environment is a
    `map<string, string>` parameter and `os.path.exists` a predicate
    parameter; logging calls are left out. */
module EnvConfig {
  import opened Wrappers
  import opened Strings

  /** The conversions `get_env_var` is called with (the float one is left out). */
  datatype VarType = BoolType | IntType | StrType

  /** A Python value as `get_env_var` and the config dict hold it. */
  datatype EnvValue = BoolVal(b: bool) | IntVal(i: int) | StrVal(s: string) | NoneVal

  const TrueWords: set<string> := {"true", "1", "t", "y", "yes"}
  const FalseWords: set<string> := {"false", "0", "f", "n", "no"}

  lemma BoolWordsDisjoint()
    ensures TrueWords !! FalseWords
  {
  }

  /** The boolean branch of `get_env_var`: case-insensitive membership in the
      two word lists; anything else is the `ValueError` that falls back. */
  function ParseBool(s: string): Option<bool>
  {
    if Lower(s) in TrueWords then Some(true)
    else if Lower(s) in FalseWords then Some(false)
    else None
  }

  /** Each word list decides its own value, and the lists do not overlap,
      so every string means true, false, or neither. */
  lemma ParseBoolWords(s: string)
    ensures ParseBool(s) == Some(true) <==> Lower(s) in TrueWords
    ensures ParseBool(s) == Some(false) <==> Lower(s) in FalseWords
    ensures ParseBool(s) == None <==> Lower(s) !in TrueWords + FalseWords
  {
    BoolWordsDisjoint();
  }

  lemma LowerIdempotent(s: string)
    ensures Lower(Lower(s)) == Lower(s)
  {
  }

  /** Changing the case of ASCII letters never changes what a value parses to. */
  lemma ParseBoolIgnoresCase(s: string)
    ensures ParseBool(Lower(s)) == ParseBool(s)
  {
    LowerIdempotent(s);
  }

  /** Python's `str(b)` parses back to `b`. */
  lemma ParseBoolRoundTrip(b: bool)
    ensures ParseBool(if b then "True" else "False") == Some(b)
  {
    assert Lower("True") == "true";
    assert Lower("False") == "false";
  }

  predicate IsDigit(c: char)
  {
    '0' <= c <= '9'
  }

  /** The digit part `int()` accepts in base 10: digits, with single
      underscores allowed between two digits. */
  predicate WellFormedDigits(s: string)
  {
    |s| > 0 && IsDigit(s[0]) && IsDigit(s[|s| - 1]) && DigitRun(s)
  }

  /** Digits and underscores, no two underscores in a row, checked one
      character at a time. */
  predicate DigitRun(s: string)
  {
    s == [] || ((IsDigit(s[0]) || (s[0] == '_' && (|s| > 1 ==> s[1] != '_'))) && DigitRun(s[1..]))
  }

  /** The character-by-character check is the rule as stated over all
      positions. */
  lemma {:induction false} DigitRunSpec(s: string)
    ensures DigitRun(s) <==>
      && (forall k :: 0 <= k < |s| ==> IsDigit(s[k]) || s[k] == '_')
      && (forall k :: 0 <= k < |s| - 1 ==> !(s[k] == '_' && s[k + 1] == '_'))
  {
    if s != [] {
      DigitRunSpec(s[1..]);
      assert forall k :: 1 <= k < |s| ==> s[k] == s[1..][k - 1];
    }
  }

  /** The decimal value of the digits of `s`, underscores skipped. */
  function DigitsValue(s: string): (n: nat)
  {
    if s == [] then 0
    else if s[|s| - 1] == '_' then DigitsValue(s[..|s| - 1])
    else DigitsValue(s[..|s| - 1]) * 10 + (s[|s| - 1] as int - '0' as int) % 10
  }

  /** How many digits `s` holds, underscores not counted. */
  function DigitCount(s: string): (n: nat)
    ensures n <= |s|
  {
    if s == [] then 0 else DigitCount(s[..|s| - 1]) + (if IsDigit(s[|s| - 1]) then 1 else 0)
  }

  /** The most digits `int()` converts from a decimal string: the default of
      `sys.set_int_max_str_digits` since Python 3.11; a longer digit run
      raises `ValueError`. */
  const MaxStrDigits := 4300

  /** The white space `int()` skips around the number. It strips less than
      `str.strip()`: a non-ASCII white-space character is first turned into a
      space, but of the ASCII ones only the space and tab to carriage return
      are skipped, so the separators U+001C..U+001F are not. */
  predicate IsIntSpace(c: char)
  {
    IsSpace(c) && !('\U{1c}' <= c <= '\U{1f}')
  }

  /** `int()` skipping the white space before the number. */
  function SkipLeading(s: string): (r: string)
    ensures |r| <= |s|
  {
    if s != [] && IsIntSpace(s[0]) then SkipLeading(s[1..]) else s
  }

  /** `int()` skipping the white space after the number. */
  function SkipTrailing(s: string): (r: string)
    ensures |r| <= |s|
  {
    if s != [] && IsIntSpace(s[|s| - 1]) then SkipTrailing(s[..|s| - 1]) else s
  }

  /** `int(s)` for a `str` argument: surrounding white space is skipped, then
      an optional sign and well-formed digits, at most `MaxStrDigits` of them;
      anything else raises `ValueError`, modelled as `None`. */
  function ParseInt(s: string): Option<int>
  {
    ParseStrippedInt(SkipTrailing(SkipLeading(s)))
  }

  /** `int()` after the white space is gone. */
  function ParseStrippedInt(t: string): Option<int>
  {
    if t == [] then None
    else
      var body := if t[0] == '-' || t[0] == '+' then t[1..] else t;
      var magnitude: int := DigitsValue(body);
      if !WellFormedDigits(body) || DigitCount(body) > MaxStrDigits then None
      else if t[0] == '-' then Some(-magnitude)
      else Some(magnitude)
  }

  /** Python's `str(n)` for a natural number. */
  function NatToString(n: nat): (s: string)
    ensures |s| > 0 && forall k :: 0 <= k < |s| ==> IsDigit(s[k])
  {
    var d := [('0' as int + n % 10) as char];
    if n < 10 then d else NatToString(n / 10) + d
  }

  /** Python's `str(n)` for an integer. */
  function IntToString(n: int): string
  {
    if n < 0 then "-" + NatToString(-n) else NatToString(n)
  }

  lemma {:induction false} NatToStringValue(n: nat)
    ensures DigitsValue(NatToString(n)) == n
  {
    var s := NatToString(n);
    if n >= 10 {
      NatToStringValue(n / 10);
      assert s[..|s| - 1] == NatToString(n / 10);
    }
  }

  /** In a string of digits every character counts. */
  lemma {:induction false} AllDigitsCount(s: string)
    requires forall k :: 0 <= k < |s| ==> IsDigit(s[k])
    ensures DigitCount(s) == |s|
  {
    if s != [] {
      AllDigitsCount(s[..|s| - 1]);
    }
  }

  /** `str(n)` has no white space to skip and reads as its sign and digits. */
  lemma IntToStringShape(n: int)
    ensures var s := IntToString(n);
      var digits := NatToString(if n < 0 then -n else n);
      && SkipTrailing(SkipLeading(s)) == s
      && s != [] && (s[0] == '-' <==> n < 0) && s[0] != '+'
      && (if s[0] == '-' then s[1..] else s) == digits
  {
    var s := IntToString(n);
    var digits := NatToString(if n < 0 then -n else n);
    assert s[|s| - 1] == digits[|digits| - 1];
    if n < 0 {
      assert s[1..] == digits;
    }
  }

  /** An integer of at most `MaxStrDigits` digits, written out with `str`,
      reads back as itself. */
  lemma ParseIntRoundTrip(n: int)
    requires |NatToString(if n < 0 then -n else n)| <= MaxStrDigits
    ensures ParseInt(IntToString(n)) == Some(n)
  {
    var digits := NatToString(if n < 0 then -n else n);
    IntToStringShape(n);
    NatToStringValue(if n < 0 then -n else n);
    DigitRunSpec(digits);
    AllDigitsCount(digits);
  }

  /** An integer with more digits than that does not read back: `int()`
      raises and the lookup falls back to its default. */
  lemma ParseIntRejectsLong(n: int)
    requires |NatToString(if n < 0 then -n else n)| > MaxStrDigits
    ensures ParseInt(IntToString(n)) == None
  {
    var digits := NatToString(if n < 0 then -n else n);
    IntToStringShape(n);
    AllDigitsCount(digits);
  }

  /** Skipping leading white space passes over any white prefix. */
  lemma {:induction false} SkipLeadingPrefix(pre: string, t: string)
    requires forall k :: 0 <= k < |pre| ==> IsIntSpace(pre[k])
    ensures SkipLeading(pre + t) == SkipLeading(t)
  {
    if pre != [] {
      assert (pre + t)[1..] == pre[1..] + t;
      SkipLeadingPrefix(pre[1..], t);
    } else {
      assert pre + t == t;
    }
  }

  /** Skipping trailing white space passes over any white suffix. */
  lemma {:induction false} SkipTrailingSuffix(t: string, post: string)
    requires forall k :: 0 <= k < |post| ==> IsIntSpace(post[k])
    ensures SkipTrailing(t + post) == SkipTrailing(t)
  {
    if post != [] {
      var u := t + post;
      assert u[..|u| - 1] == t + post[..|post| - 1];
      SkipTrailingSuffix(t, post[..|post| - 1]);
    } else {
      assert t + post == t;
    }
  }

  /** Skipping leading white space before a white suffix: the suffix stays
      behind what is left, or everything goes when nothing is left. */
  lemma {:induction false} SkipLeadingAppend(t: string, post: string)
    requires forall k :: 0 <= k < |post| ==> IsIntSpace(post[k])
    ensures SkipLeading(t) != [] ==> SkipLeading(t + post) == SkipLeading(t) + post
    ensures SkipLeading(t) == [] ==> SkipLeading(t + post) == []
  {
    if t != [] && IsIntSpace(t[0]) {
      assert (t + post)[1..] == t[1..] + post;
      SkipLeadingAppend(t[1..], post);
    } else if t == [] {
      SkipLeadingPrefix(post, []);
      assert post + [] == post && t + post == post;
    }
  }

  /** `int()` ignores any white space it skips around a value. */
  lemma ParseIntIgnoresPadding(pre: string, s: string, post: string)
    requires forall k :: 0 <= k < |pre| ==> IsIntSpace(pre[k])
    requires forall k :: 0 <= k < |post| ==> IsIntSpace(post[k])
    ensures ParseInt(pre + s + post) == ParseInt(s)
  {
    assert pre + s + post == pre + (s + post);
    SkipLeadingPrefix(pre, s + post);
    SkipLeadingAppend(s, post);
    if SkipLeading(s) != [] {
      SkipTrailingSuffix(SkipLeading(s), post);
    }
  }

  /** The file separator U+001C is stripped by `str.strip()` but makes
      `int()` raise. */
  lemma SeparatorIsNotPadding()
    ensures Strip("\U{1c}5") == "5"
    ensures ParseInt("\U{1c}5") == None
  {
    var s := "\U{1c}5";
    assert s[1..] == "5";
    assert TrimStart(s) == "5";
    assert SkipLeading(s) == s;
    assert s[..1] == "\U{1c}";
    assert SkipTrailing(s) == s;
  }

  /** `get_env_var(name, default, var_type)`: the default when the variable
      is unset; otherwise the converted value, or the default when the
      conversion raises `ValueError`. */
  function GetEnvVar(env: map<string, string>, name: string, default: EnvValue, varType: VarType): (r: EnvValue)
    ensures name !in env ==> r == default
    ensures name in env && varType == StrType ==> r == StrVal(env[name])
    ensures name in env && varType == BoolType ==>
              r == (if ParseBool(env[name]).Some? then BoolVal(ParseBool(env[name]).value) else default)
    ensures name in env && varType == IntType ==>
              r == (if ParseInt(env[name]).Some? then IntVal(ParseInt(env[name]).value) else default)
  {
    if name !in env then default
    else
      var value := env[name];
      match varType
      case BoolType => (match ParseBool(value) case Some(b) => BoolVal(b) case None => default)
      case IntType => (match ParseInt(value) case Some(n) => IntVal(n) case None => default)
      case StrType => StrVal(value)
  }

  /** A variable that is set to the empty string is not "absent": the string
      conversion returns it, the others fall back because it does not parse. */
  lemma EmptyValueIsNotAbsent(env: map<string, string>, name: string, default: EnvValue)
    requires name in env && env[name] == ""
    ensures GetEnvVar(env, name, default, StrType) == StrVal("")
    ensures GetEnvVar(env, name, default, IntType) == default
    ensures GetEnvVar(env, name, default, BoolType) == default
  {
    assert ParseInt("") == None;
    assert Lower("") == "";
    assert ParseBool("") == None;
  }

  /** A bool or int lookup with a default of the same kind yields that kind. */
  lemma GetEnvVarKeepsKind(env: map<string, string>, name: string, default: EnvValue, varType: VarType)
    requires varType == BoolType ==> default.BoolVal?
    requires varType == IntType ==> default.IntVal?
    requires varType == StrType ==> default.StrVal?
    ensures varType == BoolType ==> GetEnvVar(env, name, default, varType).BoolVal?
    ensures varType == IntType ==> GetEnvVar(env, name, default, varType).IntVal?
    ensures varType == StrType ==> GetEnvVar(env, name, default, varType).StrVal?
  {
  }

  /** The `path_type` argument of `validate_path`: `'models'`, `'tuning'`,
      or any other string. */
  datatype PathKind = ModelsPath | TuningPath | OtherPath

  /** `validate_path`: a missing models directory is replaced by the default;
      a tuning directory (which the source creates) and any other kind is
      returned as given. */
  function ValidatePath(path: string, kind: PathKind, default: string, pathExists: string -> bool): (r: string)
    ensures kind == ModelsPath && !pathExists(path) ==> r == default
    ensures kind != ModelsPath || pathExists(path) ==> r == path
  {
    if kind == ModelsPath && !pathExists(path) then default
    else if kind == TuningPath then path
    else path
  }

  /** `validate_positive`: the value if it is above zero, else the default. */
  function ValidatePositive(value: int, default: int): (r: int)
    ensures value > 0 ==> r == value
    ensures value <= 0 ==> r == default
    ensures default > 0 ==> r > 0
  {
    if value <= 0 then default else value
  }

  /** The keys of `keys` that `env` lacks, in order, repeats kept. */
  function MissingKeys(env: map<string, string>, keys: seq<string>): (missing: seq<string>)
    ensures |missing| <= |keys|
  {
    if keys == [] then []
    else
      var key := keys[|keys| - 1];
      MissingKeys(env, keys[..|keys| - 1]) + (if key !in env then [key] else [])
  }

  /** Every key is reported as often as it is required if it is missing,
      and never if it is present. */
  lemma {:induction false} MissingKeysCount(env: map<string, string>, keys: seq<string>, key: string)
    ensures multiset(MissingKeys(env, keys))[key] == if key in env then 0 else multiset(keys)[key]
  {
    if keys != [] {
      var init := keys[..|keys| - 1];
      MissingKeysCount(env, init, key);
      assert keys == init + [keys[|keys| - 1]];
    }
  }

  lemma MissingKeysMembership(env: map<string, string>, keys: seq<string>, key: string)
    ensures key in MissingKeys(env, keys) <==> key in keys && key !in env
  {
    MissingKeysCount(env, keys, key);
  }

  /** Nothing is missing exactly when every required key is set. */
  lemma MissingKeysEmpty(env: map<string, string>, keys: seq<string>)
    ensures MissingKeys(env, keys) == [] <==> forall k :: k in keys ==> k in env
  {
    if MissingKeys(env, keys) != [] {
      MissingKeysMembership(env, keys, MissingKeys(env, keys)[0]);
    }
    forall k | k in keys && k !in env ensures MissingKeys(env, keys) != [] {
      MissingKeysMembership(env, keys, k);
    }
  }

  /** `check_env_keys`: the loop collecting the required keys the
      environment does not define. */
  method CheckEnvKeys(env: map<string, string>, requiredKeys: seq<string>) returns (missing: seq<string>)
    ensures missing == MissingKeys(env, requiredKeys)
  {
    missing := [];
    var i := 0;
    while i < |requiredKeys|
      invariant 0 <= i <= |requiredKeys|
      invariant missing == MissingKeys(env, requiredKeys[..i])
    {
      var key := requiredKeys[i];
      assert requiredKeys[..i + 1][..i] == requiredKeys[..i];
      if key !in env {
        missing := missing + [key];
      }
      i := i + 1;
    }
    assert requiredKeys[..i] == requiredKeys;
  }

  /** The dict `load_config` builds, one field per key (the float entry
      `target_tokens_per_second` is left out); a `None` thread count is
      `Option.None`. */
  datatype Config = Config(
    modelsDirectory: string,
    tuningDirectory: string,
    defaultNCtx: int,
    defaultNGpuLayers: int,
    defaultNThreads: Option<int>,
    maxTuningTime: int,
    minContextSize: int,
    useMmap: bool,
    useMlock: bool,
    verboseLlama: bool,
    autoTuneEnabled: bool)

  /** What `load_config` returns: the list of missing keys, or the config dict. */
  datatype LoadResult = Missing(keys: seq<string>) | Loaded(config: Config)

  /** The integer a variable holds, when it is set and parses. */
  function IntSetting(env: map<string, string>, name: string): Option<int>
  {
    if name in env then ParseInt(env[name]) else None
  }

  /** The boolean a variable holds, or `default` when unset or not a boolean word. */
  function BoolSetting(env: map<string, string>, name: string, default: bool): bool
  {
    if name in env && ParseBool(env[name]).Some? then ParseBool(env[name]).value else default
  }

  /** `os.getenv(name, default)`. */
  function GetEnv(env: map<string, string>, name: string, default: string): string
  {
    if name in env then env[name] else default
  }

  /** An integer setting that must be positive: its value when it parses to
      a positive number, else the default. */
  function PositiveSetting(env: map<string, string>, name: string, default: int): int
  {
    var n := IntSetting(env, name);
    if n.Some? && n.value > 0 then n.value else default
  }

  /** `load_config`: reports the missing required keys if there are any;
      otherwise fills the config dict entry by entry, overwriting the values
      that fail their range checks. */
  method LoadConfig(env: map<string, string>, requiredKeys: seq<string>, pathExists: string -> bool)
    returns (r: LoadResult)
    ensures r.Missing? <==> MissingKeys(env, requiredKeys) != []
    ensures r.Missing? ==> r.keys == MissingKeys(env, requiredKeys)
    ensures r.Loaded? ==>
      var c := r.config;
      && c.modelsDirectory ==
           (var p := GetEnv(env, "MODELS_DIR", "./models"); if pathExists(p) then p else "./models")
      && c.tuningDirectory == GetEnv(env, "TUNING_DIR", "./tuning")
      && c.defaultNCtx == PositiveSetting(env, "DEFAULT_N_CTX", 4096)
      && c.defaultNGpuLayers ==
           (var n := IntSetting(env, "DEFAULT_N_GPU_LAYERS"); if n.Some? && n.value >= -1 then n.value else -1)
      && c.defaultNThreads ==
           (var n := IntSetting(env, "DEFAULT_N_THREADS"); if n.Some? && n.value > 0 then n else None)
      && c.maxTuningTime == PositiveSetting(env, "MAX_TUNING_TIME_SECONDS", 300)
      && c.minContextSize == PositiveSetting(env, "MIN_CONTEXT_SIZE", 8000)
      && c.useMmap == BoolSetting(env, "USE_MMAP", true)
      && c.useMlock == BoolSetting(env, "USE_MLOCK", true)
      && c.verboseLlama == BoolSetting(env, "VERBOSE", false)
      && c.autoTuneEnabled == BoolSetting(env, "AUTO_TUNE_ENABLED", true)
    ensures r.Loaded? ==> ConfigInRange(r.config)
  {
    var missing := CheckEnvKeys(env, requiredKeys);
    if missing != [] {
      return Missing(missing);
    }
    var modelsDir := ValidatePath(GetEnv(env, "MODELS_DIR", "./models"), ModelsPath, "./models", pathExists);
    var tuningDir := ValidatePath(GetEnv(env, "TUNING_DIR", "./tuning"), TuningPath, "./tuning", pathExists);

    var ctx := GetEnvVar(env, "DEFAULT_N_CTX", IntVal(4096), IntType);
    PositiveLookup(env, "DEFAULT_N_CTX", 4096);
    var nCtx := ValidatePositive(ctx.i, 4096);

    var layers := GetEnvVar(env, "DEFAULT_N_GPU_LAYERS", IntVal(-1), IntType);
    IntLookup(env, "DEFAULT_N_GPU_LAYERS", IntVal(-1));
    var gpuLayers := layers.i;
    if gpuLayers < -1 {
      gpuLayers := -1;
    }

    var count := GetEnvVar(env, "DEFAULT_N_THREADS", NoneVal, IntType);
    IntLookup(env, "DEFAULT_N_THREADS", NoneVal);
    var threads := if count == NoneVal then None else Some(count.i);
    if count != NoneVal && count.i <= 0 {
      threads := None;
    }

    var time := GetEnvVar(env, "MAX_TUNING_TIME_SECONDS", IntVal(300), IntType);
    PositiveLookup(env, "MAX_TUNING_TIME_SECONDS", 300);
    var tuningTime := ValidatePositive(time.i, 300);
    var minSize := GetEnvVar(env, "MIN_CONTEXT_SIZE", IntVal(8000), IntType);
    PositiveLookup(env, "MIN_CONTEXT_SIZE", 8000);
    var minContext := ValidatePositive(minSize.i, 8000);

    var useMmapValue := GetEnvVar(env, "USE_MMAP", BoolVal(true), BoolType);
    BoolLookup(env, "USE_MMAP", true);
    var useMmap := useMmapValue.b;
    var useMlockValue := GetEnvVar(env, "USE_MLOCK", BoolVal(true), BoolType);
    BoolLookup(env, "USE_MLOCK", true);
    var useMlock := useMlockValue.b;
    var verboseValue := GetEnvVar(env, "VERBOSE", BoolVal(false), BoolType);
    BoolLookup(env, "VERBOSE", false);
    var verbose := verboseValue.b;
    var autoTuneValue := GetEnvVar(env, "AUTO_TUNE_ENABLED", BoolVal(true), BoolType);
    BoolLookup(env, "AUTO_TUNE_ENABLED", true);
    var autoTune := autoTuneValue.b;

    var config := Config(modelsDir, tuningDir, nCtx, gpuLayers, threads, tuningTime, minContext,
                         useMmap, useMlock, verbose, autoTune);
    return Loaded(config);
  }

  /** An integer lookup yields the parsed value when there is one, else its default. */
  lemma IntLookup(env: map<string, string>, name: string, default: EnvValue)
    ensures GetEnvVar(env, name, default, IntType) ==
      var n := IntSetting(env, name); if n.Some? then IntVal(n.value) else default
  {
  }

  /** An integer lookup followed by `validate_positive` with the same default
      is the positive-setting rule. */
  lemma PositiveLookup(env: map<string, string>, name: string, default: int)
    ensures GetEnvVar(env, name, IntVal(default), IntType).IntVal?
    ensures ValidatePositive(GetEnvVar(env, name, IntVal(default), IntType).i, default)
            == PositiveSetting(env, name, default)
  {
  }

  /** A boolean lookup yields the parsed word when there is one, else its default. */
  lemma BoolLookup(env: map<string, string>, name: string, default: bool)
    ensures GetEnvVar(env, name, BoolVal(default), BoolType) == BoolVal(BoolSetting(env, name, default))
  {
  }

  /** The range guarantees of a loaded config. */
  predicate ConfigInRange(c: Config)
  {
    && c.defaultNGpuLayers >= -1
    && (c.defaultNThreads.Some? ==> c.defaultNThreads.value > 0)
    && c.defaultNCtx > 0
    && c.maxTuningTime > 0
    && c.minContextSize > 0
  }
}
