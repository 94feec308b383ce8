/**
  The service's configuration (internal/config). The process environment is
  an explicit map and `strconv.Atoi` is a parameter, so loading is a pure
  function of both.
 */
module Config {
  import opened GoLib

  /** The process environment: variable name to value. */
  type Env = map<string, string>

  /** `strconv.Atoi`: a value when the text is a decimal integer that fits in
      an `int`, `None` when Go would return an error. */
  type Atoi = string -> Option<Int>

  datatype Config = Config(
    port: string,
    geocodingApiUrl: string,
    weatherApiUrl: string,
    apiTimeoutSeconds: Int)

  const DefaultPort: string := "9090"
  const DefaultGeocodingApiUrl: string := "https://geocoding-api.open-meteo.com"
  const DefaultWeatherApiUrl: string := "https://api.open-meteo.com"
  const DefaultApiTimeoutSeconds: Int := 10

  /** `time.Second`, in nanoseconds. */
  const Second: Int := 1_000_000_000

  /** `os.Getenv`: the empty string for a variable that is not set. */
  function Getenv(env: Env, key: string): string
  {
    if key in env then env[key] else ""
  }

  /** A variable's value when it is set to something non-empty, else the default. */
  function GetEnv(env: Env, key: string, default: string): (v: string)
    ensures key in env && env[key] != "" ==> v == env[key]
    ensures key !in env || env[key] == "" ==> v == default
  {
    var value := Getenv(env, key);
    if value != "" then value else default
  }

  /** A variable's value read as an integer, falling back to the default when
      the variable is unset, empty, or not an integer. */
  function GetEnvInt(env: Env, atoi: Atoi, key: string, default: Int): (v: Int)
    ensures key in env && env[key] != "" && atoi(env[key]).Some? ==> v == atoi(env[key]).value
    ensures key !in env || env[key] == "" || atoi(env[key]).None? ==> v == default
  {
    var value := Getenv(env, key);
    if value != "" then
      match atoi(value)
      case Some(n) => n
      case None => default
    else default
  }

  function LoadConfig(env: Env, atoi: Atoi): (c: Config)
    ensures c.port != "" && c.geocodingApiUrl != "" && c.weatherApiUrl != ""
  {
    Config(
      GetEnv(env, "PORT", DefaultPort),
      GetEnv(env, "GEOCODING_API_URL", DefaultGeocodingApiUrl),
      GetEnv(env, "WEATHER_API_URL", DefaultWeatherApiUrl),
      GetEnvInt(env, atoi, "API_TIMEOUT_SECONDS", DefaultApiTimeoutSeconds))
  }

  /** `time.Duration(seconds) * time.Second`: nanoseconds as a 64-bit integer,
      which wraps around when the product does not fit. */
  function GetAPITimeout(c: Config): (d: Int)
    ensures MinInt64 <= c.apiTimeoutSeconds * Second <= MaxInt64 ==> d == c.apiTimeoutSeconds * Second
    ensures (d - c.apiTimeoutSeconds * Second) % TwoTo64 == 0
  {
    Wrap64(c.apiTimeoutSeconds * Second)
  }

  /** With nothing set, every field takes its default and the timeout is ten seconds. */
  lemma LoadConfigDefaults(atoi: Atoi)
    ensures LoadConfig(map[], atoi) ==
      Config(DefaultPort, DefaultGeocodingApiUrl, DefaultWeatherApiUrl, DefaultApiTimeoutSeconds)
    ensures GetAPITimeout(LoadConfig(map[], atoi)) == 10_000_000_000
  {
  }

  /** Loading reads only the four variables it names. */
  lemma LoadConfigReadsOnlyItsVariables(env1: Env, env2: Env, atoi: Atoi)
    requires forall k :: k in {"PORT", "GEOCODING_API_URL", "WEATHER_API_URL", "API_TIMEOUT_SECONDS"} ==>
      Getenv(env1, k) == Getenv(env2, k)
    ensures LoadConfig(env1, atoi) == LoadConfig(env2, atoi)
  {
    assert Getenv(env1, "PORT") == Getenv(env2, "PORT");
    assert Getenv(env1, "GEOCODING_API_URL") == Getenv(env2, "GEOCODING_API_URL");
    assert Getenv(env1, "WEATHER_API_URL") == Getenv(env2, "WEATHER_API_URL");
    assert Getenv(env1, "API_TIMEOUT_SECONDS") == Getenv(env2, "API_TIMEOUT_SECONDS");
  }

  /** Each field is read from its own variable: a set, non-empty value lands
      in that field and no other. */
  lemma LoadConfigReadsEachVariable(env: Env, atoi: Atoi)
    ensures Getenv(env, "PORT") != "" ==> LoadConfig(env, atoi).port == env["PORT"]
    ensures Getenv(env, "GEOCODING_API_URL") != "" ==>
      LoadConfig(env, atoi).geocodingApiUrl == env["GEOCODING_API_URL"]
    ensures Getenv(env, "WEATHER_API_URL") != "" ==>
      LoadConfig(env, atoi).weatherApiUrl == env["WEATHER_API_URL"]
    ensures Getenv(env, "API_TIMEOUT_SECONDS") != "" && atoi(env["API_TIMEOUT_SECONDS"]).Some? ==>
      LoadConfig(env, atoi).apiTimeoutSeconds == atoi(env["API_TIMEOUT_SECONDS"]).value
  {
  }

  /** Setting a variable to text that parses makes its value win; text that
      does not parse, an empty value, or removing the variable restores the
      default. */
  lemma GetEnvIntOverride(env: Env, atoi: Atoi, key: string, value: string, default: Int)
    ensures value != "" && atoi(value).Some? ==> GetEnvInt(env[key := value], atoi, key, default) == atoi(value).value
    ensures atoi(value).None? ==> GetEnvInt(env[key := value], atoi, key, default) == default
    ensures GetEnvInt(env[key := ""], atoi, key, default) == default
    ensures GetEnvInt(env - {key}, atoi, key, default) == default
  {
  }

  /** A set, non-empty value always wins over the default, and an empty value
      counts as unset. */
  lemma GetEnvOverride(env: Env, key: string, value: string, default: string)
    ensures value != "" ==> GetEnv(env[key := value], key, default) == value
    ensures GetEnv(env[key := ""], key, default) == default
    ensures GetEnv(env - {key}, key, default) == default
  {
  }

  /** The timeout is exact for every non-negative number of seconds up to the
      largest that fits, and the next one wraps around to a negative duration. */
  lemma TimeoutOverflowBoundary(c: Config)
    ensures 0 <= c.apiTimeoutSeconds <= 9_223_372_036 ==> GetAPITimeout(c) == c.apiTimeoutSeconds * Second >= 0
    ensures c.apiTimeoutSeconds == 9_223_372_037 ==> GetAPITimeout(c) == -9_223_372_036_709_551_616 < 0
  {
  }
}
