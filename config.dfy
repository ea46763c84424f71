/** `APIConfig`: the API key and base URL, taken either from keyword data
    or from the environment. The environment is a parameter (a map from
    variable names to values), standing for `os.getenv`. */
module Config {

  const ApiKeyVariable := "OPENAI_API_KEY"
  const ApiBaseVariable := "OPENAI_API_BASE"

  /** The declared field defaults. */
  const DefaultApiKey := ""
  const DefaultApiBase := "https://api.openai.com/v1"

  /** `os.getenv(name, default)` */
  function GetEnv(env: map<string, string>, name: string, default: string): (v: string)
    ensures name in env ==> v == env[name]
    ensures name !in env ==> v == default
  {
    if name in env then env[name] else default
  }

  /** Python truthiness of a string. */
  predicate Truthy(s: string) {
    s != ""
  }

  /** Python's `a and b` on strings: `a` when it is falsy, otherwise `b`. */
  function PyAnd(a: string, b: string): string {
    if Truthy(a) then b else a
  }

  /** A keyword argument given to the constructor, or the declared default. */
  function FieldOr(data: map<string, string>, field: string, default: string): string {
    if field in data then data[field] else default
  }

  class APIConfig {
    var apiKey: string
    var apiBase: string

    /** `APIConfig(**data)`: the keyword data over the declared defaults,
        and, only when no data at all is given, both fields re-read from the
        environment, a missing variable giving "". */
    constructor (data: map<string, string>, env: map<string, string>)
      ensures |data| == 0 ==> apiKey == GetEnv(env, ApiKeyVariable, "")
      ensures |data| == 0 ==> apiBase == GetEnv(env, ApiBaseVariable, "")
      ensures |data| > 0 ==> apiKey == FieldOr(data, "api_key", DefaultApiKey)
      ensures |data| > 0 ==> apiBase == FieldOr(data, "api_base", DefaultApiBase)
    {
      apiKey := FieldOr(data, "api_key", DefaultApiKey);
      apiBase := FieldOr(data, "api_base", DefaultApiBase);
      new;
      if |data| == 0 {
        RefreshFromEnv(env);
      }
    }

    /** Overwrites both fields from the environment. */
    method RefreshFromEnv(env: map<string, string>)
      modifies this
      ensures apiKey == GetEnv(env, ApiKeyVariable, "")
      ensures apiBase == GetEnv(env, ApiBaseVariable, "")
    {
      apiKey := GetEnv(env, ApiKeyVariable, "");
      apiBase := GetEnv(env, ApiBaseVariable, "");
    }

    /** `bool(self.api_key and self.api_base)` */
    function ValidateConfig(): (ok: bool)
      reads this
      ensures ok <==> apiKey != "" && apiBase != ""
    {
      Truthy(PyAnd(apiKey, apiBase))
    }
  }

  /** A configuration built with no keyword data in an environment where
      `OPENAI_API_BASE` is missing is invalid, whatever the key: the
      environment's "" replaces the declared default base URL. */
  method NoDataWithoutBaseVariableIsInvalid(env: map<string, string>) returns (ok: bool)
    requires ApiBaseVariable !in env
    ensures !ok
  {
    var config := new APIConfig(map[], env);
    ok := config.ValidateConfig();
  }

  /** Keyword data, even data that names only the key, keeps the declared
      default base URL and never consults the environment. */
  method KeyOnlyDataKeepsDefaultBase(key: string, env: map<string, string>) returns (base: string, ok: bool)
    ensures base == DefaultApiBase
    ensures ok <==> key != ""
  {
    var config := new APIConfig(map["api_key" := key], env);
    base := config.apiBase;
    ok := config.ValidateConfig();
  }
}
