/**
 * config_loader.py: the settings come from the first candidate config file
 * that loads, the `OPENAI_API_KEY` environment variable overrides the key
 * found there, and each getter falls back from the environment to the file
 * to a built-in default.
 *
 * The file system is abstract: each candidate path (next to the program,
 * its parent directory, the working directory, in that order) is missing,
 * present but unreadable as JSON, or present with a JSON object. The
 * environment is a map, taken after the `.env` file has been applied.
 */
module Config {

  import opened Wrappers
  import opened Values
  import opened Strings

  /** What one candidate config path holds. */
  datatype ConfigFile = Missing | Unreadable | Loaded(settings: map<string, Value>)

  const ApiKeyName: string := "openai_api_key"
  const ApiKeyEnv: string := "OPENAI_API_KEY"
  const DefaultPort: int := 5001
  const DefaultEnv: string := "production"
  const DefaultVersion: string := "1.0.0"
  const ApiKeyPrefix: string := "sk-"
  const ApiKeyMinLength: int := 20

  /** The settings of the first path that loads, if any. */
  function FirstLoaded(files: seq<ConfigFile>): (r: Option<map<string, Value>>)
    ensures r.None? <==> forall i :: 0 <= i < |files| ==> !files[i].Loaded?
    ensures r.Some? ==> exists i :: 0 <= i < |files| && files[i] == Loaded(r.value)
                          && forall j :: 0 <= j < i ==> !files[j].Loaded?
  {
    if files == [] then None
    else if files[0].Loaded? then Some(files[0].settings)
    else
      var r := FirstLoaded(files[1..]);
      if r.Some? then
        var i :| 0 <= i < |files[1..]| && files[1..][i] == Loaded(r.value)
                 && forall j :: 0 <= j < i ==> !files[1..][j].Loaded?;
        assert files[i + 1] == Loaded(r.value);
        r
      else r
  }

  /** `os.getenv(name)`: the variable's value, or None. */
  function GetEnv(env: map<string, string>, name: string): (r: Value)
    ensures name in env <==> r.Str?
    ensures name in env ==> r == Str(env[name])
    ensures name !in env ==> r == Null
  {
    if name in env then Str(env[name]) else Null
  }

  /** Step 3 of `load_config`: a non-empty `OPENAI_API_KEY` replaces the file's key. */
  function WithEnvKey(settings: map<string, Value>, env: map<string, string>): (r: map<string, Value>)
    ensures ApiKeyEnv in env && env[ApiKeyEnv] != "" ==> r == settings[ApiKeyName := Str(env[ApiKeyEnv])]
    ensures !(ApiKeyEnv in env && env[ApiKeyEnv] != "") ==> r == settings
  {
    if Truthy(GetEnv(env, ApiKeyEnv)) then settings[ApiKeyName := Str(env[ApiKeyEnv])] else settings
  }

  /** The settings after `load_config`, starting from `current`. */
  function LoadedSettings(current: map<string, Value>, files: seq<ConfigFile>, env: map<string, string>): map<string, Value>
  {
    var base := match FirstLoaded(files) case Some(s) => s case None => current;
    WithEnvKey(base, env)
  }

  /** `int(x)` for the JSON values a config can hold: bools count as 0/1, a str is parsed, anything else is a TypeError. */
  function IntOf(v: Value): (r: Result<int, Fault>)
    ensures v.Int? ==> r == Ok(v.i)
    ensures r.Err? && !v.Str? ==> r.error == TypeError("int")
    ensures v.Null? || v.Arr? || v.Obj? ==> r.Err?
  {
    match v
    case Int(i) => Ok(i)
    case Bool(b) => Ok(if b then 1 else 0)
    case Str(s) => (match ParseInt(s) case Some(n) => Ok(n) case None => Err(ValueError("int")))
    case _ => Err(TypeError("int"))
  }

  /** `get_openai_api_key`: the file's key when truthy, otherwise the environment variable (or None). */
  function ApiKey(settings: map<string, Value>, env: map<string, string>): (r: Value)
    ensures ApiKeyName in settings && Truthy(settings[ApiKeyName]) ==> r == settings[ApiKeyName]
    ensures !(ApiKeyName in settings && Truthy(settings[ApiKeyName])) ==> r == GetEnv(env, ApiKeyEnv)
  {
    var v := GetOr(settings, ApiKeyName, Null);
    if Truthy(v) then v else GetEnv(env, ApiKeyEnv)
  }

  /** `get_flask_port`: `FLASK_PORT` when set (even to ""), else the file's `flask_port`, else 5001, through `int`. */
  function FlaskPort(settings: map<string, Value>, env: map<string, string>): (r: Result<int, Fault>)
    ensures "FLASK_PORT" in env ==> r == IntOf(Str(env["FLASK_PORT"]))
    ensures "FLASK_PORT" !in env && "flask_port" in settings ==> r == IntOf(settings["flask_port"])
    ensures "FLASK_PORT" !in env && "flask_port" !in settings ==> r == Ok(DefaultPort)
  {
    if "FLASK_PORT" in env then IntOf(Str(env["FLASK_PORT"]))
    else IntOf(GetOr(settings, "flask_port", Int(DefaultPort)))
  }

  /** `get_flask_env`: `FLASK_ENV`, else the file's `flask_env`, else "production". */
  function FlaskEnv(settings: map<string, Value>, env: map<string, string>): (r: Value)
    ensures "FLASK_ENV" in env ==> r == Str(env["FLASK_ENV"])
    ensures "FLASK_ENV" !in env && "flask_env" in settings ==> r == settings["flask_env"]
    ensures "FLASK_ENV" !in env && "flask_env" !in settings ==> r == Str(DefaultEnv)
  {
    if "FLASK_ENV" in env then Str(env["FLASK_ENV"]) else GetOr(settings, "flask_env", Str(DefaultEnv))
  }

  /** `get_app_version`: the file's `app_version`, else "1.0.0"; the environment plays no part. */
  function AppVersion(settings: map<string, Value>): (r: Value)
    ensures "app_version" in settings ==> r == settings["app_version"]
    ensures "app_version" !in settings ==> r == Str(DefaultVersion)
  {
    GetOr(settings, "app_version", Str(DefaultVersion))
  }

  /**
   * `is_api_key_valid`, as the truthiness of `api_key and len(api_key) > 20
   * and api_key.startswith('sk-')`. A falsy key short-circuits; `len` of a
   * number or bool and `startswith` of a list or dict raise.
   */
  function KeyValid(key: Value): (r: Result<bool, Fault>)
    ensures key.Str? ==> r == Ok(|key.s| > ApiKeyMinLength && StartsWith(key.s, ApiKeyPrefix))
    ensures !Truthy(key) ==> r == Ok(false)
  {
    if !Truthy(key) then Ok(false)
    else match key
      case Str(s) => Ok(|s| > ApiKeyMinLength && StartsWith(s, ApiKeyPrefix))
      case Arr(items) => if |items| > ApiKeyMinLength then Err(AttributeError("startswith")) else Ok(false)
      case Obj(fields) => if |fields| > ApiKeyMinLength then Err(AttributeError("startswith")) else Ok(false)
      case _ => Err(TypeError("len"))
  }

  // ---------------------------------------------------------------------
  // The loader object
  // ---------------------------------------------------------------------

  class ConfigLoader {
    var settings: map<string, Value>

    /** `__init__`: an empty config, then `load_config`. */
    constructor (files: seq<ConfigFile>, env: map<string, string>)
      ensures settings == LoadedSettings(map[], files, env)
    {
      settings := map[];
      new;
      LoadConfig(files, env);
    }

    /** `load_config`: the candidate paths in order, stopping at the first that loads. */
    method LoadConfig(files: seq<ConfigFile>, env: map<string, string>)
      modifies this
      ensures settings == LoadedSettings(old(settings), files, env)
    {
      var i := 0;
      while i < |files|
        invariant 0 <= i <= |files|
        invariant settings == old(settings)
        invariant forall j :: 0 <= j < i ==> !files[j].Loaded?
      {
        match files[i]
        case Loaded(s) =>
          settings := s;
          FirstLoadedAt(files, i);
          break;
        case _ =>
        i := i + 1;
      }
      if ApiKeyEnv in env && env[ApiKeyEnv] != "" {
        settings := settings[ApiKeyName := Str(env[ApiKeyEnv])];
      }
    }

    function GetOpenAiApiKey(env: map<string, string>): Value
      reads this
    {
      ApiKey(settings, env)
    }

    function GetFlaskPort(env: map<string, string>): Result<int, Fault>
      reads this
    {
      FlaskPort(settings, env)
    }

    function GetFlaskEnv(env: map<string, string>): Value
      reads this
    {
      FlaskEnv(settings, env)
    }

    function GetAppVersion(): Value
      reads this
    {
      AppVersion(settings)
    }

    function IsApiKeyValid(env: map<string, string>): Result<bool, Fault>
      reads this
    {
      KeyValid(ApiKey(settings, env))
    }
  }

  // ---------------------------------------------------------------------
  // Properties
  // ---------------------------------------------------------------------

  /** The first loadable path decides; whatever follows it is never consulted. */
  lemma {:induction false} FirstLoadedAt(files: seq<ConfigFile>, i: nat)
    requires i < |files| && files[i].Loaded?
    requires forall j :: 0 <= j < i ==> !files[j].Loaded?
    ensures FirstLoaded(files) == Some(files[i].settings)
    decreases i
  {
    if i > 0 {
      FirstLoadedAt(files[1..], i - 1);
    }
  }

  /** Paths after the first loadable one make no difference, whatever they hold. */
  lemma LaterPathsIgnored(files: seq<ConfigFile>, later: seq<ConfigFile>)
    requires exists i :: 0 <= i < |files| && files[i].Loaded?
    ensures FirstLoaded(files + later) == FirstLoaded(files)
  {
    var r := FirstLoaded(files);
    var i :| 0 <= i < |files| && files[i] == Loaded(r.value) && forall j :: 0 <= j < i ==> !files[j].Loaded?;
    FirstLoadedAt(files + later, i);
  }

  /** With no loadable file, the settings are what they were (empty for a new loader) plus the environment key. */
  lemma NothingLoadedKeepsCurrent(current: map<string, Value>, files: seq<ConfigFile>, env: map<string, string>)
    requires forall i :: 0 <= i < |files| ==> !files[i].Loaded?
    ensures LoadedSettings(current, files, env) == WithEnvKey(current, env)
  {
  }

  /** A non-empty `OPENAI_API_KEY` is the key the loader reports, whatever the file says. */
  lemma EnvKeyWins(current: map<string, Value>, files: seq<ConfigFile>, env: map<string, string>)
    requires ApiKeyEnv in env && env[ApiKeyEnv] != ""
    ensures ApiKey(LoadedSettings(current, files, env), env) == Str(env[ApiKeyEnv])
  {
  }

  /** Without the variable, the key is the loaded file's key when truthy, otherwise None. */
  lemma FileKeyWithoutEnv(settings: map<string, Value>, env: map<string, string>)
    requires ApiKeyEnv !in env
    ensures ApiKey(settings, env) == (if ApiKeyName in settings && Truthy(settings[ApiKeyName]) then settings[ApiKeyName] else Null)
  {
  }

  /** The key check accepts exactly the str keys longer than 20 characters that start with "sk-". */
  lemma KeyValidIff(key: Value)
    ensures KeyValid(key) == Ok(true) <==> key.Str? && |key.s| > ApiKeyMinLength && StartsWith(key.s, ApiKeyPrefix)
  {
  }

  /** The port written in the environment wins over the file, and a decimal port reads back as itself. */
  lemma EnvPortWins(settings: map<string, Value>, env: map<string, string>, port: nat)
    requires "FLASK_PORT" in env && env["FLASK_PORT"] == Decimal(port)
    ensures FlaskPort(settings, env) == Ok(port)
  {
    ParseIntDecimal(port);
  }

  /** With nothing configured, the getters give the built-in defaults. */
  lemma Defaults(env: map<string, string>)
    requires "FLASK_PORT" !in env && "FLASK_ENV" !in env && ApiKeyEnv !in env
    ensures FlaskPort(map[], env) == Ok(5001)
    ensures FlaskEnv(map[], env) == Str("production")
    ensures AppVersion(map[]) == Str("1.0.0")
    ensures ApiKey(map[], env) == Null
    ensures KeyValid(ApiKey(map[], env)) == Ok(false)
  {
  }
}
