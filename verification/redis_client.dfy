/** The process-wide Redis connection state of backend/services/redis.py: the
    globals `client`, `pool` and `_initialized`, the operations that change
    them (`initialize`, `initialize_async`, `close`, `get_client`) and the
    data facade built on `get_client`.

    The module's globals become an immutable `State`; each operation maps a
    state to its successor. The lock-guarded block of `initialize_async` is
    one atomic step. Everything the network decides (the answer to a ping, the
    success of `aclose`, the store's reply) is a parameter. */
module RedisClient {
  import opened Base
  import opened RedisConfig

  /** Time-to-live callers apply to ephemeral keys, in seconds. */
  const KeyTtl: nat := 3600 * 24

  /** A connection pool; `serial` is its identity: the number of pools built before it. */
  datatype Pool = Pool(serial: nat, kwargs: map<string, KwValue>)

  /** A client bound to a pool. */
  datatype Client = Client(pool: Pool)

  /** The module globals; `built` counts the pools constructed so far. */
  datatype State = State(client: Option<Client>, pool: Option<Pool>, initialized: bool, built: nat)

  /** The state when the module is imported. */
  const Start := State(None, None, false, 0)

  /** Why an operation raised. */
  datatype Fault =
    | PingFailed     // the ping raised (timeout, refused connection, authentication, ...)
    | ClientMissing  // `client.ping()` on `None`: an AttributeError
    | CloseFailed    // `aclose` raised
    | StoreFailed    // the store call on a live client raised (wrong type, timeout, ...)

  datatype Result<T> = Ok(value: T) | Err(fault: Fault)

  /** The state after an operation and what the operation returned or raised. */
  datatype Step<T> = Step(state: State, result: Result<T>)

  /** `get_client` returns the existing client without initializing. */
  predicate Ready(s: State)
  {
    s.initialized && s.client.Some?
  }

  /** The client, if any, uses the current pool, and every pool is one already built. */
  predicate WellFormed(s: State)
  {
    && (s.client.Some? ==> s.pool == Some(s.client.value.pool))
    && (s.pool.Some? ==> s.pool.value.serial < s.built)
  }

  /** A well-formed state in which `_initialized` implies a client. */
  predicate Coherent(s: State)
  {
    WellFormed(s) && (s.initialized ==> s.client.Some?)
  }

  lemma StartIsCoherent()
    ensures Coherent(Start) && !Ready(Start)
  {
  }

  // ---------------------------------------------------------------------------
  // initialize / initialize_async

  /** `initialize()`: build a new pool from the environment and a client on it.
      The readiness flag is left alone. */
  function Initialize(s: State, env: Env): (r: State)
    requires WellFormedNumerals(env)
    ensures r.pool.Some? && r.client == Some(Client(r.pool.value))
    ensures r.pool.value.serial == s.built && r.built == s.built + 1
    ensures r.pool.value.kwargs == PoolKwargs(ResolveConfig(env))
    ensures ReadBack(r.pool.value.kwargs) == Some(ResolveConfig(env))
    ensures r.initialized == s.initialized
    ensures WellFormed(r)
  {
    PoolKwargsRoundTrip(ResolveConfig(env));
    var pool := Pool(s.built, PoolKwargs(ResolveConfig(env)));
    State(Some(Client(pool)), Some(pool), s.initialized, s.built + 1)
  }

  /** `initialize_async()`: under the lock, build only when not initialized,
      then always ping; a failed ping clears the client and the flag and raises.
      `pingOk` is whether the server answers the ping. */
  function InitializeAsync(s: State, env: Env, pingOk: bool): (r: Step<Client>)
    requires WellFormedNumerals(env)
    // success needs an answered ping and a client to ping
    ensures r.result.Ok? <==> pingOk && (s.initialized ==> s.client.Some?)
    ensures r.result.Ok? ==> Ready(r.state) && r.state.client == Some(r.result.value)
    ensures r.result.Err? ==> r.state.client.None? && !r.state.initialized
    // an initialized state is never rebuilt: the pool stays, and on success nothing changes
    ensures s.initialized ==> r.state.pool == s.pool && r.state.built == s.built
    ensures s.initialized && r.result.Ok? ==> r.state == s
    // otherwise exactly one fresh pool is built and kept even when the ping fails
    ensures !s.initialized ==> r.state.built == s.built + 1
    ensures !s.initialized ==> r.state.pool.Some? && r.state.pool.value.serial == s.built
    ensures !s.initialized ==> r.state.pool.value.kwargs == PoolKwargs(ResolveConfig(env))
    ensures !s.initialized ==> ReadBack(r.state.pool.value.kwargs) == Some(ResolveConfig(env))
    ensures WellFormed(s) ==> Coherent(r.state)
  {
    var t := if s.initialized then s else Initialize(s, env);
    if pingOk && t.client.Some? then
      Step(t.(initialized := true), Ok(t.client.value))
    else
      Step(t.(client := None, initialized := false), Err(if t.client.Some? then PingFailed else ClientMissing))
  }

  /** `retry(lambda: initialize_async())`: the retry policy is not part of this
      model, so `pings` stands for the ping outcome of each attempt it makes.
      Attempts stop at the first success; the last failure is raised. */
  function RetryInitialize(s: State, env: Env, pings: seq<bool>): (r: Step<Client>)
    requires WellFormedNumerals(env)
    requires |pings| > 0
    ensures r.result.Ok? <==>
      exists i :: 0 <= i < |pings| && pings[i] && (i == 0 ==> (s.initialized ==> s.client.Some?))
    ensures r.result.Ok? ==> Ready(r.state) && r.state.client == Some(r.result.value)
    ensures r.result.Err? ==> r.state.client.None? && !r.state.initialized
    ensures r.state.built >= s.built
    ensures !s.initialized ==> r.state.pool.Some? && r.state.pool.value.serial >= s.built
    ensures WellFormed(s) ==> Coherent(r.state)
    decreases |pings|
  {
    var first := InitializeAsync(s, env, pings[0]);
    if first.result.Ok? || |pings| == 1 then
      first
    else
      var rest := RetryInitialize(first.state, env, pings[1..]);
      assert forall i :: 1 <= i < |pings| ==> pings[i] == pings[1..][i - 1];
      rest
  }

  /** `get_client()`: initialize (with retry) when there is no client or the
      flag is down; otherwise hand out the existing client. */
  function GetClient(s: State, env: Env, pings: seq<bool>): (r: Step<Client>)
    requires WellFormedNumerals(env)
    requires |pings| > 0
    ensures Ready(s) ==> r == Step(s, Ok(s.client.value))
    ensures !s.initialized ==> r.state.built > s.built
    ensures r.result.Ok? ==> Ready(r.state) && r.state.client == Some(r.result.value)
    ensures r.result.Err? ==> r.state.client.None? && !r.state.initialized
  {
    if s.client.None? || !s.initialized then RetryInitialize(s, env, pings) else Step(s, Ok(s.client.value))
  }

  /** `get_client` keeps both state invariants. */
  lemma GetClientPreservesInvariants(s: State, env: Env, pings: seq<bool>)
    requires WellFormedNumerals(env) && |pings| > 0
    ensures WellFormed(s) ==> WellFormed(GetClient(s, env, pings).state)
    ensures Coherent(s) ==> Coherent(GetClient(s, env, pings).state)
  {
  }

  /** On a coherent state `get_client` succeeds iff it is ready or some attempt's ping is answered. */
  lemma GetClientSucceedsIff(s: State, env: Env, pings: seq<bool>)
    requires WellFormedNumerals(env) && |pings| > 0
    requires Coherent(s)
    ensures GetClient(s, env, pings).result.Ok? <==> Ready(s) || true in pings
  {
  }

  // ---------------------------------------------------------------------------
  // close

  /** `close()`: close the client if present, then the pool if present, then
      drop the flag. An `aclose` that raises ends the call: what has been reset
      so far stays reset and nothing else is. */
  function Close(s: State, clientCloses: bool, poolCloses: bool): (r: Step<()>)
    ensures r.result.Ok? <==> (s.client.Some? ==> clientCloses) && (s.pool.Some? ==> poolCloses)
    ensures r.result.Ok? ==> r.state == State(None, None, false, s.built)
    ensures r.result.Err? ==> r.state.pool == s.pool && r.state.initialized == s.initialized
    // a raising client `aclose` comes first and changes nothing at all
    ensures s.client.Some? && !clientCloses ==> r == Step(s, Err(CloseFailed))
    // once the client is closed (or absent) it is cleared, whatever the pool does
    ensures (s.client.Some? ==> clientCloses) ==> r.state.client.None?
    ensures (s.client.Some? ==> clientCloses) && s.pool.Some? && !poolCloses ==>
      r == Step(s.(client := None), Err(CloseFailed))
    ensures r.state.built == s.built
    ensures WellFormed(s) ==> WellFormed(r.state)
  {
    if s.client.Some? && !clientCloses then
      Step(s, Err(CloseFailed))
    else
      var t := s.(client := None);
      if t.pool.Some? && !poolCloses then
        Step(t, Err(CloseFailed))
      else
        Step(t.(pool := None, initialized := false), Ok(()))
  }

  /** A second `close` finds nothing to close: it cannot fail and changes nothing. */
  lemma CloseIdempotent(s: State, a: bool, b: bool, c: bool, d: bool)
    requires Close(s, a, b).result.Ok?
    ensures Close(Close(s, a, b).state, c, d) == Close(s, a, b)
  {
  }

  /** Closing a never-initialized module succeeds and leaves it as imported. */
  lemma CloseBeforeInitialize(a: bool, b: bool)
    ensures Close(Start, a, b) == Step(Start, Ok(()))
  {
  }

  /** After a successful close the next `get_client` builds a new pool,
      distinct from every pool that existed before. */
  lemma FreshPoolAfterClose(s: State, a: bool, b: bool, env: Env, pings: seq<bool>)
    requires WellFormed(s)
    requires WellFormedNumerals(env) && |pings| > 0
    requires Close(s, a, b).result.Ok?
    ensures var r := GetClient(Close(s, a, b).state, env, pings);
      r.state.pool.Some? && r.state.pool.value.serial >= s.built
      && (s.pool.Some? ==> r.state.pool != s.pool)
  {
  }

  /** When the client closes but the pool's `aclose` raises, `_initialized`
      stays true with no client. The next `get_client` then skips `initialize`
      and its first attempt pings `None`, failing whatever the server does. */
  lemma PartialCloseWastesOneAttempt(s: State, env: Env, ping: bool, pings: seq<bool>)
    requires Ready(s) && Coherent(s)
    requires WellFormedNumerals(env)
    ensures var t := Close(s, true, false).state;
      && t.initialized && t.client.None? && !Coherent(t)
      && GetClient(t, env, [ping]).result == Err(ClientMissing)
      && (GetClient(t, env, [ping] + pings).result.Ok? <==> true in pings)
  {
  }

  // ---------------------------------------------------------------------------
  // Data facade

  /** `get(key, default)`: obtain a client, read the key and substitute the
      default for a missing value. `reply` is how the store call ends: its
      value (`None` for a missing key), or the fault it raised. */
  function Get(s: State, env: Env, pings: seq<bool>, reply: Result<Option<string>>, default: Option<string>)
    : (r: Step<Option<string>>)
    requires WellFormedNumerals(env) && |pings| > 0
    ensures r.state == GetClient(s, env, pings).state
    ensures r.result.Ok? <==> GetClient(s, env, pings).result.Ok? && reply.Ok?
    // a failing get_client propagates and the store is never consulted
    ensures GetClient(s, env, pings).result.Err? ==> r.result == Err(GetClient(s, env, pings).result.fault)
    // a raising store call propagates unchanged: no default is substituted
    ensures GetClient(s, env, pings).result.Ok? && reply.Err? ==> r.result == Err(reply.fault)
    ensures r.result.Ok? && reply.value.Some? ==> r.result.value == reply.value
    ensures r.result.Ok? && reply.value.None? ==> r.result.value == default
  {
    var c := GetClient(s, env, pings);
    match c.result
    case Err(f) => Step(c.state, Err(f))
    case Ok(_) =>
      match reply
      case Err(f) => Step(c.state, Err(f))
      case Ok(v) => Step(c.state, Ok(if v.Some? then v else default))
  }

  /** The documented scenarios of `get`: a stored value wins over the default,
      a missing key yields the default, a raising store call is not masked by
      the default, and on a ready connection nothing changes. */
  lemma GetScenarios(s: State, env: Env, pings: seq<bool>, v: string, default: Option<string>)
    requires Ready(s) && WellFormedNumerals(env) && |pings| > 0
    ensures Get(s, env, pings, Ok(Some(v)), default) == Step(s, Ok(Some(v)))
    ensures Get(s, env, pings, Ok(None), default) == Step(s, Ok(default))
    ensures Get(s, env, pings, Ok(None), None) == Step(s, Ok(None))
    ensures Get(s, env, pings, Err(StoreFailed), default) == Step(s, Err(StoreFailed))
  {
  }

  /** Every other facade operation (`set`, `delete`, `publish`, `create_pubsub`,
      `rpush`, `lrange`, `keys`): obtain a client and return how the store
      call ends, its value or its fault, unchanged. */
  function Forward<T>(s: State, env: Env, pings: seq<bool>, reply: Result<T>): (r: Step<T>)
    requires WellFormedNumerals(env) && |pings| > 0
    ensures r.state == GetClient(s, env, pings).state
    ensures GetClient(s, env, pings).result.Ok? ==> r.result == reply
    ensures GetClient(s, env, pings).result.Err? ==> r.result == Err(GetClient(s, env, pings).result.fault)
  {
    var c := GetClient(s, env, pings);
    match c.result
    case Err(f) => Step(c.state, Err(f))
    case Ok(_) => Step(c.state, reply)
  }

  /** The time-to-live convention is one day. */
  lemma KeyTtlIsOneDay()
    ensures KeyTtl == 24 * 60 * 60 == 86400
  {
  }
}
