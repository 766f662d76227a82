# Redis connection lifecycle, start-up check and deployment gate — a Dafny model

This project models the sequential logic around the backend's Redis helper:

- **Connection settings** (`RedisConfig`). The Redis settings are resolved from the process environment. Defaults apply to unset variables. Boolean settings are true when their value, lower-cased, is `"true"`. The result is the keyword-argument dictionary given to the connection pool. TLS keys are added only when TLS is on, and that TLS setup switches off hostname and certificate checking.
- **Connection state** (`RedisClient`). The module globals `client`, `pool` and `_initialized` become an immutable `State`. `initialize`, `initialize_async`, `close` and `get_client` become pure transitions on it. Each transition takes as parameters the outcomes that the network decides: whether the server answers a ping, and whether `aclose` raises. How the store call ends, with its reply or with a raised fault, is a parameter as well. A `built` counter gives each pool an identity, so that "a fresh pool" can be stated. The data facade is `Get`, which substitutes the default, and `Forward`, which covers every other operation.
- **Production start-up** (`InitProduction`). This part covers the bounded Redis health check: 5 attempts, a fixed 2-second sleep, and no sleep after the last failure. It also covers the ordered enabling of three feature flags and the script's exit code. Each attempt and each flag outcome is given as a boolean.
- **Deployment** (`Deploy`). This part covers the required-variable check and the short-circuiting backend and frontend stages. A failing production-initialisation script is ignored. The exit code is modelled too. Command outcomes come from an oracle `Command -> CommandOutcome`.
- **Shared pieces.** `Pipeline.Run` is the generic "run steps in order, stop at the first failure" pattern. `Base` holds ASCII case folding, decimal numerals, `Option` and the exit-code rule.

Three behaviours of the code, proved below:

- A failed ping clears `client` but keeps the pool it had. A later initialization replaces that pool without closing it (`InitializeAsync`).
- In `close`, an `aclose` that raises propagates, and the rest of the reset does not happen: the pool and `_initialized` stay as they were (`Close`).
- Suppose the client closes but the pool's `aclose` raises. Then `_initialized` stays true with no client. The next initialization skips `initialize()`, calls `ping` on `None`, and so wastes one attempt (`PartialCloseWastesOneAttempt`).

## Model

| member | source | states |
|---|---|---|
| Base.Lower | backend/services/redis.py:30-32 | `str.lower()` keeps the length and folds each character on its own: A–Z to a–z, every other character unchanged |
| Base.IsTrueSettingIff | backend/services/redis.py:30-32 | `value.lower() == "true"` holds exactly for the 4-letter spellings of "true" in any letter case |
| Base.NumeralValue | backend/services/redis.py:28-31 | `int()` of an ASCII digit string, read most significant digit first: a k-digit numeral is below 10^k, and at least 10^(k-1) when it does not start with 0 |
| Base.NumeralRoundTrip | backend/services/redis.py:28-31 | parsing the decimal numeral of n with `int()` gives back n |
| Base.LeadingZeroIgnored | backend/services/redis.py:28-31 | a leading zero does not change the parsed value |
| Base.ExitCode | backend/init_production.py:80-82 | the exit status is 0 iff the run succeeded, otherwise 1 |
| RedisConfig.ResolveConfig | backend/services/redis.py:27-32 | host is the variable's value or "redis"; port and max_connections are the values of their decimal numerals when set, and 6379 and 2048 when unset; the password is present iff the variable is set; ssl is true iff REDIS_SSL is set and spells "true" in any case; retry_on_timeout is true iff REDIS_RETRY_ON_TIMEOUT is unset or spells "true" |
| RedisConfig.DefaultsWhenUnset | backend/services/redis.py:27-32 | with none of the six variables set, the config is host "redis", port 6379, no password, no TLS, 2048 connections, retry on timeout |
| RedisConfig.NumbersFromEnv | backend/services/redis.py:28-31 | REDIS_PORT and REDIS_MAX_CONNECTIONS set to the numerals of p and m resolve to p and m |
| RedisConfig.ResolveReadsOnlyConfigVars | backend/services/redis.py:27-32 | two environments that agree on the six Redis variables give the same config |
| RedisConfig.PoolKwargs | backend/services/redis.py:39-57 | the pool arguments always hold decode_responses=True, health_check_interval=30 and both 20-second timeouts; `ssl`, `ssl_check_hostname` and `ssl_cert_reqs` are present iff TLS is on, with values True, False and None |
| RedisConfig.PoolKwargsRoundTrip | backend/services/redis.py:39-49 | every resolved setting can be read back unchanged from the pool arguments |
| RedisClient.StartIsCoherent | backend/services/redis.py:10-12 | the import-time state (no client, no pool, not initialized) satisfies the state invariant and is not ready |
| RedisClient.Initialize | backend/services/redis.py:19-64 | builds one new pool, never seen before, from exactly the pool arguments of the resolved settings (so decode_responses, the health-check interval, both timeouts and the TLS keys are as `PoolKwargs` states), which read back to those settings, plus a client on that pool; `_initialized` is untouched |
| RedisClient.InitializeAsync | backend/services/redis.py:67-86 | builds only when not initialized, and then from exactly the pool arguments of the resolved settings; success iff the ping is answered and a client exists; success leaves the state ready with the client returned; failure clears the client and the flag, raises, and keeps the pool; an initialized state keeps its pool, and on success nothing changes at all; any well-formed state ends coherent |
| RedisClient.RetryInitialize | backend/services/redis.py:109-110 | repeated `initialize_async` calls succeed iff some attempt's ping is answered (the first attempt also needs a client when the flag is set); failure leaves no client and the flag down; starting uninitialized always leaves a freshly built pool |
| RedisClient.GetClient | backend/services/redis.py:106-111 | a ready state returns its client with no state change; with the flag down at least one fresh pool is built; a returned client is the state's client and the state is ready; a failure leaves no client and the flag down |
| RedisClient.GetClientPreservesInvariants | backend/services/redis.py:106-111 | `get_client` keeps a well-formed state well-formed and a coherent state coherent |
| RedisClient.GetClientSucceedsIff | backend/services/redis.py:106-111 | on a coherent state `get_client` succeeds iff the state was ready or some attempt's ping is answered |
| RedisClient.Close | backend/services/redis.py:89-103 | succeeds iff every present handle closes; success leaves no client, no pool and the flag down, whatever the prior state; a raising `aclose` leaves pool and flag as they were; a raising client `aclose` changes nothing at all, while a raising pool `aclose` leaves the client cleared and everything else as it was |
| RedisClient.CloseIdempotent | backend/services/redis.py:89-103 | a second close after a successful one cannot fail and changes nothing |
| RedisClient.CloseBeforeInitialize | backend/services/redis.py:89-103 | closing a never-initialized module succeeds and leaves it in its import-time state |
| RedisClient.FreshPoolAfterClose | backend/services/redis.py:89-111 | after a successful close the next `get_client` builds a pool distinct from every earlier pool |
| RedisClient.PartialCloseWastesOneAttempt | backend/services/redis.py:71-102 | if the client closes but the pool's `aclose` raises, the flag stays set with no client; the next `get_client` fails its first attempt whatever the ping, and succeeds iff a later ping is answered |
| RedisClient.Get | backend/services/redis.py:121-125 | `get` changes state only through `get_client` and propagates its failure; it succeeds iff `get_client` and the store call both succeed; a raising store call propagates unchanged, with no default substituted; on success it returns the store's value when there is one, otherwise the caller's default |
| RedisClient.GetScenarios | backend/services/redis.py:121-125 | on a ready connection a stored value wins over the default, a missing key yields the default (None when none is given), a raising store call is not masked by the default, and the state is unchanged |
| RedisClient.Forward | backend/services/redis.py:114-165 | set, delete, publish, create_pubsub, rpush, lrange and keys return how the store call ends, its value or its raised fault, unchanged when `get_client` succeeds; otherwise they propagate `get_client`'s failure; they change state only through it |
| RedisClient.KeyTtlIsOneDay | backend/services/redis.py:16 | the key TTL is 86400 seconds, one day |
| Pipeline.Run | backend/init_production.py:29-40 | steps run in order; the result is true iff every step succeeds; the steps started form a prefix that ends at the first failure, and every earlier step succeeded |
| Pipeline.StartedOnlyAfterSuccesses | deploy.py:59-68 | step k is started iff every step before it succeeded |
| InitProduction.VerifyRedisConnection | backend/init_production.py:42-61 | at most 5 attempts; true iff one of the first five attempts succeeds; no attempt after the first success; every attempt before the last one failed; total failure makes exactly 5 attempts; there is one 2-second sleep after each failed attempt except the last, so total failure sleeps exactly 4 times |
| InitProduction.InitProductionFlags | backend/init_production.py:27-40 | true iff all three `enable_flag` calls complete; the flags attempted are always a prefix of the three, in order; on success all three flags were attempted in order; the first failure ends the run and is the last flag attempted |
| InitProduction.ProductionFlagOrder | backend/init_production.py:31-33 | the flags are custom_agents, agent_workflows and mcp_integrations, in that order, with the descriptions "Enable custom agents functionality", "Enable agent workflows" and "Enable MCP integrations" |
| InitProduction.RunMain | backend/init_production.py:63-82 | when verification fails, no flag is attempted and the result is false; the result is true iff verification and flag initialization both succeed; the exit code is 0 iff the result is true, else 1 |
| Deploy.RunCommand | deploy.py:13-27 | a command succeeds iff it raised nothing and exited with code 0 |
| Deploy.MissingMembers | deploy.py:41-44 | a variable is reported missing iff it is required and unset or empty |
| Deploy.MissingInOrder | deploy.py:41-44 | the missing variables keep their declaration order |
| Deploy.CollectMissing | deploy.py:41-44 | the loop's list equals the missing variables of the list it walks |
| Deploy.CheckEnvironment | deploy.py:29-51 | the missing list holds exactly those of the 7 required variables that are unset or empty, in declaration order; the check passes iff that list is empty, i.e. iff every required variable is set and non-empty |
| Deploy.DeployFrontend | deploy.py:53-68 | `npm ci` runs first, and `npm run build` runs only if it succeeded; true iff both succeed; both run in the frontend directory |
| Deploy.DeployBackend | deploy.py:70-85 | true iff the docker build succeeds; the init script runs iff the build succeeded; both run in the backend directory |
| Deploy.BackendIgnoresInitScript | deploy.py:77-85 | the backend's result and commands do not depend on how the init script ends |
| Deploy.RunMain | deploy.py:87-117 | environment check, backend, frontend, stopping at the first failure; nothing runs when the environment check fails; true iff all required variables are set and the docker build, `npm ci` and `npm run build` succeed; the exit code is 0 iff true, else 1 |

## Left out

- Concurrency: the `asyncio.Lock` and concurrent callers. The lock-guarded block of `initialize_async` is one atomic step, so "one construction under N concurrent callers" is not stated.
- The Redis library and server: ping, connection pooling and the server-side meaning of get/set/delete/publish/rpush/lrange/keys. Ping answers, `aclose` outcomes and store-call outcomes (reply or raised fault) are parameters.
- `utils.retry` is not part of this model. `RetryInitialize` takes one ping outcome per attempt, stops at the first success and raises the last failure. No claim is made about how many attempts the policy makes or how long it waits. The outcome list must be non-empty: the policy makes at least one attempt.
- GetClient: it takes the retry's ping outcomes even when the state is ready, and ignores them in that case.
- The health-check attempts of `verify_redis_connection` are independent booleans. They are not tied to the `RedisClient` state machine, because each attempt hides a retried `get_client` plus a ping.
- InitProduction.VerifyRedisConnection: it needs one outcome per possible attempt (at least five). The unreachable `return False` after the loop has no counterpart.
- Time: sleeps are recorded as their durations. No clock is modelled.
- The 20.0-second socket timeouts are kept as plain `real` constants.
- ResolveConfig: it requires REDIS_PORT and REDIS_MAX_CONNECTIONS to be unset or non-empty ASCII digit strings. Python's `int()` also accepts surrounding whitespace, a sign, underscores and non-ASCII Unicode decimal digits (such as full-width digits), and raises ValueError on other text. Neither behaviour is modelled.
- Base.Lower: case folding covers the ASCII letters A–Z only, not Python's full Unicode `str.lower()`.
- The truthiness of the client and pool objects in `close` is taken to mean "not None".
- `load_dotenv`, logging, `print` output, `subprocess` execution, the working-directory paths and `enable_flag` itself are not modelled. An `enable_flag` call is modelled only by whether it raises, since its return value is ignored.
- The `sys.path` set-up and the import-failure exit of backend/init_production.py:13-22 are not modelled.
- The environment is a map. REDIS_HOST set to "" gives host "" because `os.getenv` returns it. The deployment check, by contrast, counts an empty variable as missing.
