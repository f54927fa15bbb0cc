/**
 * Configuration of the Coder backend (`ccg_mcp.config`): the config file is
 * preferred over the environment, the environment the Coder CLI runs in is
 * built from it, the configuration is validated, and the loaded
 * configuration is cached.
 */
module Config {
  import opened Basics
  import opened Text

  // ---------------------------------------------------------------------------
  // The configuration document
  // ---------------------------------------------------------------------------

  /** A value of the `[coder.env]` table. `Other` stands for the remaining TOML
      types (floats, dates, arrays, tables) with their Python `str`. */
  datatype TomlValue = Str(s: string) | Int(i: int) | Bool(b: bool) | Other(rendered: string)

  /** Python's `str(value)`. */
  function PyStr(v: TomlValue): (s: string)
    ensures v.Str? ==> s == v.s
    ensures v.Int? ==> s == IntToString(v.i)
    ensures v.Bool? ==> s == (if v.b then "True" else "False")
  {
    match v
    case Str(s) => s
    case Int(i) => IntToString(i)
    case Bool(b) => if b then "True" else "False"
    case Other(rendered) => rendered
  }

  /** An integer value reaches the environment as its decimal digits, behind
      a minus sign when negative, and reads back as the same number. */
  lemma {:induction false} PyStrIntReadsBack(i: int)
    ensures var s := PyStr(Int(i));
      && (i >= 0 ==> (forall k :: 0 <= k < |s| ==> IsDigit(s[k])) && DigitsValue(s) == i)
      && (i < 0 ==> |s| >= 2 && s[0] == '-' && (forall k :: 1 <= k < |s| ==> IsDigit(s[k]))
                    && DigitsValue(s[1..]) == -i)
  {
    if i >= 0 {
      NatToStringValue(i);
    } else {
      var digits := NatToString(-i);
      NatToStringValue(-i);
      assert PyStr(Int(i))[1..] == digits;
    }
  }

  /** The `[coder]` table: its three string keys (None when absent) and its
      `env` sub-table (empty when absent). */
  datatype CoderTable = CoderTable(
    apiToken: Option<string>,
    baseUrl: Option<string>,
    model: Option<string>,
    env: map<string, TomlValue>)

  /** A configuration document; other top-level tables are not read here. */
  datatype Config = Config(coder: Option<CoderTable>)

  /** `config.get("coder", {})`. */
  function CoderOf(config: Config): (t: CoderTable)
    ensures config.coder.None? ==> t == CoderTable(None, None, None, map[])
    ensures config.coder.Some? ==> t == config.coder.value
  {
    if config.coder.Some? then config.coder.value else CoderTable(None, None, None, map[])
  }

  /** What the config file path holds: nothing, text that is not TOML (with
      the decoder's reason), or a parsed document. */
  datatype ConfigFile = Missing | Malformed(reason: string) | Parsed(doc: Config)

  datatype ConfigError = InvalidToml(reason: string) | NoConfiguration | MissingApiToken | MissingBaseUrl

  const DefaultBaseUrl: string := "https://open.bigmodel.cn/api/anthropic"
  const DefaultModel: string := "glm-4.7"

  /** `os.environ.get(name, default)`. */
  function EnvOr(env: map<string, string>, name: string, default: string): (v: string)
    ensures name in env ==> v == env[name]
    ensures name !in env ==> v == default
  {
    if name in env then env[name] else default
  }

  // ---------------------------------------------------------------------------
  // Loading and validation
  // ---------------------------------------------------------------------------

  /** `load_config`: an existing config file wins, whether or not it parses
      and whatever the environment says; without one, a non-empty
      CODER_API_TOKEN builds the `[coder]` table from the environment, with
      defaults for the endpoint and the model; otherwise there is no
      configuration. */
  function LoadConfig(file: ConfigFile, env: map<string, string>): (r: Result<Config, ConfigError>)
    ensures file.Parsed? ==> r == Ok(file.doc)
    ensures file.Malformed? ==> r == Err(InvalidToml(file.reason))
    ensures file.Missing? ==>
      (r.Ok? <==> "CODER_API_TOKEN" in env && env["CODER_API_TOKEN"] != "")
    ensures file.Missing? && r.Err? ==> r.error == NoConfiguration
    ensures file.Missing? && r.Ok? ==>
      && r.value.coder.Some?
      && r.value.coder.value.apiToken == Some(env["CODER_API_TOKEN"])
      && r.value.coder.value.baseUrl == Some(EnvOr(env, "CODER_BASE_URL", DefaultBaseUrl))
      && r.value.coder.value.model == Some(EnvOr(env, "CODER_MODEL", DefaultModel))
      && r.value.coder.value.env == map[]
  {
    match file
    case Parsed(doc) => Ok(doc)
    case Malformed(reason) => Err(InvalidToml(reason))
    case Missing =>
      if "CODER_API_TOKEN" in env && env["CODER_API_TOKEN"] != "" then
        Ok(Config(Some(CoderTable(
          Some(env["CODER_API_TOKEN"]),
          Some(EnvOr(env, "CODER_BASE_URL", DefaultBaseUrl)),
          Some(EnvOr(env, "CODER_MODEL", DefaultModel)),
          map[]))))
      else Err(NoConfiguration)
  }

  /** A string option that Python treats as true: present and non-empty. */
  predicate Truthy(v: Option<string>) {
    v.Some? && v.value != ""
  }

  /** `validate_config`: the token is checked first, then the endpoint; an
      absent key and an empty string both fail. */
  function ValidateConfig(config: Config): (r: Option<ConfigError>)
    ensures r == None <==> Truthy(CoderOf(config).apiToken) && Truthy(CoderOf(config).baseUrl)
    ensures r == Some(MissingApiToken) <==> !Truthy(CoderOf(config).apiToken)
    ensures r == Some(MissingBaseUrl) <==> Truthy(CoderOf(config).apiToken) && !Truthy(CoderOf(config).baseUrl)
  {
    var coder := CoderOf(config);
    if !Truthy(coder.apiToken) then Some(MissingApiToken)
    else if !Truthy(coder.baseUrl) then Some(MissingBaseUrl)
    else None
  }

  /** A configuration taken from the environment always has its token, and
      fails validation exactly when CODER_BASE_URL is set to the empty
      string (an unset one falls back to the default endpoint). */
  lemma EnvironmentConfigValid(env: map<string, string>)
    requires LoadConfig(Missing, env).Ok?
    ensures Truthy(CoderOf(LoadConfig(Missing, env).value).apiToken)
    ensures ValidateConfig(LoadConfig(Missing, env).value) == None <==>
      !("CODER_BASE_URL" in env && env["CODER_BASE_URL"] == "")
  {
    assert DefaultBaseUrl != "";
  }

  /** The two loading cases of the configuration tests: a parsed file is
      returned as it is, and the environment supplies token, endpoint and
      model when no file exists. */
  lemma LoadConfigExamples()
    ensures var doc := Config(Some(CoderTable(Some("test-token"), Some("https://test.example.com"),
                                              Some("test-model"), map[])));
      LoadConfig(Parsed(doc), map["CODER_API_TOKEN" := "env-test-token"]) == Ok(doc)
    ensures var env := map["CODER_API_TOKEN" := "env-test-token",
                           "CODER_BASE_URL" := "https://env-test.example.com",
                           "CODER_MODEL" := "env-test-model"];
      LoadConfig(Missing, env) == Ok(Config(Some(CoderTable(Some("env-test-token"),
        Some("https://env-test.example.com"), Some("env-test-model"), map[]))))
  {
  }

  // ---------------------------------------------------------------------------
  // The environment of the Coder CLI
  // ---------------------------------------------------------------------------

  /** The variables `build_coder_env` sets from the `[coder]` table before the
      user's extra variables: the token (empty when absent), the endpoint
      (the default when absent), and the configured model (default "glm-4.7")
      for every model alias. */
  function Fixed(coder: CoderTable): (m: map<string, string>)
    ensures m.Keys == {"ANTHROPIC_AUTH_TOKEN", "ANTHROPIC_BASE_URL", "ANTHROPIC_DEFAULT_OPUS_MODEL",
                       "ANTHROPIC_DEFAULT_SONNET_MODEL", "ANTHROPIC_DEFAULT_HAIKU_MODEL",
                       "CLAUDE_CODE_SUBAGENT_MODEL"}
    ensures m["ANTHROPIC_AUTH_TOKEN"] == (if coder.apiToken.Some? then coder.apiToken.value else "")
    ensures m["ANTHROPIC_BASE_URL"] == (if coder.baseUrl.Some? then coder.baseUrl.value else DefaultBaseUrl)
    ensures var model := if coder.model.Some? then coder.model.value else DefaultModel;
      && m["ANTHROPIC_DEFAULT_OPUS_MODEL"] == model && m["ANTHROPIC_DEFAULT_SONNET_MODEL"] == model
      && m["ANTHROPIC_DEFAULT_HAIKU_MODEL"] == model && m["CLAUDE_CODE_SUBAGENT_MODEL"] == model
  {
    var model := if coder.model.Some? then coder.model.value else DefaultModel;
    map["ANTHROPIC_AUTH_TOKEN" := if coder.apiToken.Some? then coder.apiToken.value else "",
        "ANTHROPIC_BASE_URL" := if coder.baseUrl.Some? then coder.baseUrl.value else DefaultBaseUrl,
        "ANTHROPIC_DEFAULT_OPUS_MODEL" := model,
        "ANTHROPIC_DEFAULT_SONNET_MODEL" := model,
        "ANTHROPIC_DEFAULT_HAIKU_MODEL" := model,
        "CLAUDE_CODE_SUBAGENT_MODEL" := model]
  }

  /** `build_coder_env`: a copy of the process environment `base`, the fixed
      variables over it, and the `[coder.env]` values, stringified, over both.
      The keys of a table are distinct, so the order in which they are applied
      does not change the result. */
  method BuildCoderEnv(config: Config, base: map<string, string>) returns (env: map<string, string>)
    ensures env.Keys == base.Keys + Fixed(CoderOf(config)).Keys + CoderOf(config).env.Keys
    ensures forall k :: k in CoderOf(config).env ==> env[k] == PyStr(CoderOf(config).env[k])
    ensures forall k :: k in Fixed(CoderOf(config)) && k !in CoderOf(config).env ==>
      env[k] == Fixed(CoderOf(config))[k]
    ensures forall k :: k in base && k !in Fixed(CoderOf(config)) && k !in CoderOf(config).env ==>
      env[k] == base[k]
  {
    var coder := CoderOf(config);
    var fixed := Fixed(coder);
    env := base + fixed;
    var remaining := coder.env.Keys;
    while remaining != {}
      invariant remaining <= coder.env.Keys
      invariant env.Keys == base.Keys + fixed.Keys + (coder.env.Keys - remaining)
      invariant forall k :: k in coder.env && k !in remaining ==> env[k] == PyStr(coder.env[k])
      invariant forall k :: k in fixed && (k !in coder.env || k in remaining) ==> env[k] == fixed[k]
      invariant forall k :: k in base && k !in fixed && (k !in coder.env || k in remaining) ==>
        env[k] == base[k]
      decreases remaining
    {
      var key :| key in remaining;
      env := env[key := PyStr(coder.env[key])];
      remaining := remaining - {key};
    }
  }

  // ---------------------------------------------------------------------------
  // The cache
  // ---------------------------------------------------------------------------

  /** The module-level `_config_cache`. */
  class ConfigCache {
    var cache: Option<Config>

    /** Every configuration the cache holds has passed validation; the
        corrected `GetValidConfig` keeps this, `GetConfig` does not. */
    predicate Valid()
      reads this
    {
      cache.Some? ==> ValidateConfig(cache.value) == None
    }

    constructor()
      ensures cache == None && Valid()
    {
      cache := None;
    }

    /** `get_config`: the first call loads and validates, later calls return
        the cached configuration untouched. The loaded configuration is cached
        before it is validated, so one that fails validation stays cached. */
    method GetConfig(file: ConfigFile, env: map<string, string>) returns (r: Result<Config, ConfigError>)
      modifies this
      ensures old(cache).Some? ==> r == Ok(old(cache).value) && cache == old(cache)
      ensures old(cache).None? && LoadConfig(file, env).Err? ==>
        r == Err(LoadConfig(file, env).error) && cache == None
      ensures old(cache).None? && LoadConfig(file, env).Ok? ==>
        && cache == Some(LoadConfig(file, env).value)
        && r == (if ValidateConfig(LoadConfig(file, env).value).Some?
                 then Err(ValidateConfig(LoadConfig(file, env).value).value)
                 else Ok(LoadConfig(file, env).value))
    {
      if cache.None? {
        var loaded := LoadConfig(file, env);
        if loaded.Err? {
          return Err(loaded.error);
        }
        cache := Some(loaded.value);
        var invalid := ValidateConfig(loaded.value);
        if invalid.Some? {
          return Err(invalid.value);
        }
      }
      r := Ok(cache.value);
    }

    /** `get_config` with the validation done before the configuration is
        cached: every configuration it returns or caches is valid. */
    method GetValidConfig(file: ConfigFile, env: map<string, string>) returns (r: Result<Config, ConfigError>)
      requires Valid()
      modifies this
      ensures Valid()
      ensures r.Ok? ==> ValidateConfig(r.value) == None
      ensures old(cache).Some? ==> r == Ok(old(cache).value) && cache == old(cache)
      ensures old(cache).None? && LoadConfig(file, env).Err? ==>
        r == Err(LoadConfig(file, env).error) && cache == None
      ensures old(cache).None? && LoadConfig(file, env).Ok? ==>
        && r == (if ValidateConfig(LoadConfig(file, env).value).Some?
                 then Err(ValidateConfig(LoadConfig(file, env).value).value)
                 else Ok(LoadConfig(file, env).value))
        && cache == (if r.Ok? then Some(r.value) else None)
    {
      if cache.None? {
        var loaded := LoadConfig(file, env);
        if loaded.Err? {
          return Err(loaded.error);
        }
        var invalid := ValidateConfig(loaded.value);
        if invalid.Some? {
          return Err(invalid.value);
        }
        cache := Some(loaded.value);
      }
      r := Ok(cache.value);
    }

    /** `reset_config_cache`. */
    method Reset()
      modifies this
      ensures cache == None && Valid()
    {
      cache := None;
    }
  }

  /** A config file without `api_token`, read through `get_config` twice:
      the first call reports the missing token, the second returns the same
      invalid configuration as if it were valid. */
  method InvalidConfigServedAfterError() returns (first: Result<Config, ConfigError>,
                                                  second: Result<Config, ConfigError>)
    ensures first == Err(MissingApiToken)
    ensures second.Ok? && ValidateConfig(second.value) == Some(MissingApiToken)
  {
    var doc := Config(Some(CoderTable(None, Some(DefaultBaseUrl), None, map[])));
    var cache := new ConfigCache();
    first := cache.GetConfig(Parsed(doc), map[]);
    second := cache.GetConfig(Parsed(doc), map[]);
  }

  /** The corrected cache on the same file reports the missing token on
      every call. */
  method InvalidConfigRejectedEachTime() returns (first: Result<Config, ConfigError>,
                                                  second: Result<Config, ConfigError>)
    ensures first == Err(MissingApiToken) && second == Err(MissingApiToken)
  {
    var doc := Config(Some(CoderTable(None, Some(DefaultBaseUrl), None, map[])));
    var cache := new ConfigCache();
    first := cache.GetValidConfig(Parsed(doc), map[]);
    second := cache.GetValidConfig(Parsed(doc), map[]);
  }
}
