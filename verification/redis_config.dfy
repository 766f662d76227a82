/** Resolution of the Redis connection settings from the environment, and the
    keyword arguments handed to the connection pool (`initialize` in
    backend/services/redis.py). */
module RedisConfig {
  import opened Base

  const HostVar := "REDIS_HOST"
  const PortVar := "REDIS_PORT"
  const PasswordVar := "REDIS_PASSWORD"
  const SslVar := "REDIS_SSL"
  const MaxConnectionsVar := "REDIS_MAX_CONNECTIONS"
  const RetryOnTimeoutVar := "REDIS_RETRY_ON_TIMEOUT"

  /** The environment variables the resolution reads, and no others. */
  const ConfigVars: set<string> :=
    {HostVar, PortVar, PasswordVar, SslVar, MaxConnectionsVar, RetryOnTimeoutVar}

  const DefaultHost := "redis"
  const DefaultPort: nat := 6379
  const DefaultMaxConnections: nat := 2048
  const HealthCheckInterval: nat := 30
  const SocketTimeout: real := 20.0
  const SocketConnectTimeout: real := 20.0

  /** The resolved settings of one initialization. */
  datatype Config = Config(
    host: string,
    port: nat,
    password: Option<string>,
    ssl: bool,
    maxConnections: nat,
    retryOnTimeout: bool)

  /** The settings with every variable unset. */
  const DefaultConfig := Config(DefaultHost, DefaultPort, None, false, DefaultMaxConnections, true)

  /** `int(...)` succeeds on both numeric settings: each is unset or a digit string. */
  predicate WellFormedNumerals(env: Env)
  {
    && (PortVar in env ==> IsNumeral(env[PortVar]))
    && (MaxConnectionsVar in env ==> IsNumeral(env[MaxConnectionsVar]))
  }

  function NumberSetting(env: Env, name: string, fallback: nat): nat
    requires name in env ==> IsNumeral(env[name])
  {
    if name in env then NumeralValue(env[name]) else fallback
  }

  /** The settings `initialize` derives from the environment. */
  function ResolveConfig(env: Env): (c: Config)
    requires WellFormedNumerals(env)
    ensures HostVar in env ==> c.host == env[HostVar]
    ensures HostVar !in env ==> c.host == DefaultHost
    ensures PortVar in env ==> c.port == NumeralValue(env[PortVar])
    ensures PortVar !in env ==> c.port == DefaultPort
    ensures MaxConnectionsVar in env ==> c.maxConnections == NumeralValue(env[MaxConnectionsVar])
    ensures MaxConnectionsVar !in env ==> c.maxConnections == DefaultMaxConnections
    ensures c.password.Some? <==> PasswordVar in env
    ensures c.password.Some? ==> c.password.value == env[PasswordVar]
    ensures c.ssl <==> SslVar in env && SpellsTrue(env[SslVar])
    ensures c.retryOnTimeout <==> RetryOnTimeoutVar !in env || SpellsTrue(env[RetryOnTimeoutVar])
  {
    IsTrueSettingIff(GetenvOr(env, SslVar, "false"));
    IsTrueSettingIff(GetenvOr(env, RetryOnTimeoutVar, "true"));
    Config(
      GetenvOr(env, HostVar, DefaultHost),
      NumberSetting(env, PortVar, DefaultPort),
      Getenv(env, PasswordVar),
      IsTrueSetting(GetenvOr(env, SslVar, "false")),
      NumberSetting(env, MaxConnectionsVar, DefaultMaxConnections),
      IsTrueSetting(GetenvOr(env, RetryOnTimeoutVar, "true")))
  }

  /** With none of the variables set, the documented defaults apply. */
  lemma DefaultsWhenUnset(env: Env)
    requires forall v :: v in ConfigVars ==> v !in env
    ensures ResolveConfig(env) == DefaultConfig
  {
  }

  /** A numeric setting written as the decimal numeral of `n` resolves to `n`. */
  lemma NumbersFromEnv(env: Env, port: nat, maxConnections: nat)
    requires env[PortVar := Numeral(port)][MaxConnectionsVar := Numeral(maxConnections)] == env
    ensures WellFormedNumerals(env)
    ensures ResolveConfig(env).port == port
    ensures ResolveConfig(env).maxConnections == maxConnections
  {
    assert env[PortVar] == Numeral(port) && env[MaxConnectionsVar] == Numeral(maxConnections);
    NumeralRoundTrip(port);
    NumeralRoundTrip(maxConnections);
  }

  /** The resolution reads only the six Redis variables. */
  lemma ResolveReadsOnlyConfigVars(env1: Env, env2: Env)
    requires WellFormedNumerals(env1) && WellFormedNumerals(env2)
    requires forall v :: v in ConfigVars ==> (v in env1 <==> v in env2)
    requires forall v :: v in ConfigVars && v in env1 ==> env1[v] == env2[v]
    ensures ResolveConfig(env1) == ResolveConfig(env2)
  {
  }

  // ---------------------------------------------------------------------------
  // Pool keyword arguments

  /** The Python values that occur among the pool's keyword arguments. */
  datatype KwValue = Str(s: string) | Int(i: int) | Bool(b: bool) | Seconds(r: real) | NoneValue

  const BaseKeys: set<string> := {
    "host", "port", "password", "decode_responses", "socket_timeout",
    "socket_connect_timeout", "retry_on_timeout", "health_check_interval", "max_connections"}

  const TlsKeys: set<string> := {"ssl", "ssl_check_hostname", "ssl_cert_reqs"}

  function PasswordValue(p: Option<string>): KwValue
  {
    match p
    case Some(v) => Str(v)
    case None => NoneValue
  }

  /** The dictionary `pool_kwargs` after the optional TLS update. */
  function PoolKwargs(c: Config): (kw: map<string, KwValue>)
    ensures kw.Keys == BaseKeys + (if c.ssl then TlsKeys else {})
    ensures kw["decode_responses"] == Bool(true)
    ensures kw["health_check_interval"] == Int(HealthCheckInterval)
    ensures kw["socket_timeout"] == Seconds(SocketTimeout)
    ensures kw["socket_connect_timeout"] == Seconds(SocketConnectTimeout)
    ensures ("ssl" in kw) <==> c.ssl
    ensures ("ssl_check_hostname" in kw) <==> c.ssl
    ensures ("ssl_cert_reqs" in kw) <==> c.ssl
    ensures c.ssl ==> kw["ssl"] == Bool(true)
    ensures c.ssl ==> kw["ssl_check_hostname"] == Bool(false)
    ensures c.ssl ==> kw["ssl_cert_reqs"] == NoneValue
  {
    var base := map[
      "host" := Str(c.host),
      "port" := Int(c.port),
      "password" := PasswordValue(c.password),
      "decode_responses" := Bool(true),
      "socket_timeout" := Seconds(SocketTimeout),
      "socket_connect_timeout" := Seconds(SocketConnectTimeout),
      "retry_on_timeout" := Bool(c.retryOnTimeout),
      "health_check_interval" := Int(HealthCheckInterval),
      "max_connections" := Int(c.maxConnections)];
    var tls := map["ssl" := Bool(true), "ssl_check_hostname" := Bool(false), "ssl_cert_reqs" := NoneValue];
    assert base.Keys == BaseKeys && tls.Keys == TlsKeys;
    assert "decode_responses" !in tls && "health_check_interval" !in tls;
    assert "socket_timeout" !in tls && "socket_connect_timeout" !in tls;
    if c.ssl then base + tls else base
  }

  /** Recovers the settings a pool was built with from its keyword arguments. */
  function ReadBack(kw: map<string, KwValue>): Option<Config>
  {
    if && "host" in kw && kw["host"].Str?
       && "port" in kw && kw["port"].Int? && kw["port"].i >= 0
       && "password" in kw && (kw["password"].Str? || kw["password"].NoneValue?)
       && "retry_on_timeout" in kw && kw["retry_on_timeout"].Bool?
       && "max_connections" in kw && kw["max_connections"].Int? && kw["max_connections"].i >= 0
    then
      Some(Config(
        kw["host"].s,
        kw["port"].i,
        if kw["password"].Str? then Some(kw["password"].s) else None,
        "ssl" in kw && kw["ssl"] == Bool(true),
        kw["max_connections"].i,
        kw["retry_on_timeout"].b))
    else
      None
  }

  /** The pool arguments carry every resolved setting: nothing is lost or altered. */
  lemma PoolKwargsRoundTrip(c: Config)
    ensures ReadBack(PoolKwargs(c)) == Some(c)
  {
  }
}
