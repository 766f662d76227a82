/** The production start-up script backend/init_production.py: a bounded
    health check of Redis, then the default feature flags, then the exit code.
    Each health-check attempt (`get_client()` followed by `ping()`) and each
    `enable_flag` call is an outcome supplied from outside. */
module InitProduction {
  import opened Base
  import Pipeline

  const MaxRetries: nat := 5
  /** Seconds slept after a failed attempt that is not the last. */
  const RetryDelay: nat := 2

  /** One of the first `MaxRetries` health-check attempts succeeds. */
  predicate RedisReachable(attempt: seq<bool>)
    requires |attempt| >= MaxRetries
  {
    exists i :: 0 <= i < MaxRetries && attempt[i]
  }

  /** `verify_redis_connection()`: `attempt[i]` is whether attempt `i` reaches
      Redis and gets an answer to its ping. Returns the verdict, the number of
      attempts made and the durations slept, in order. */
  method VerifyRedisConnection(attempt: seq<bool>) returns (ok: bool, attempts: nat, sleeps: seq<nat>)
    requires |attempt| >= MaxRetries
    ensures 1 <= attempts <= MaxRetries
    ensures ok <==> RedisReachable(attempt)
    ensures forall j :: 0 <= j < attempts - 1 ==> !attempt[j]
    ensures ok ==> attempt[attempts - 1]
    ensures !ok ==> attempts == MaxRetries
    ensures |sleeps| == attempts - 1
    ensures forall k :: 0 <= k < |sleeps| ==> sleeps[k] == RetryDelay
  {
    sleeps := [];
    var i := 0;
    while true
      invariant 0 <= i < MaxRetries
      invariant forall j :: 0 <= j < i ==> !attempt[j]
      invariant |sleeps| == i
      invariant forall k :: 0 <= k < |sleeps| ==> sleeps[k] == RetryDelay
      decreases MaxRetries - i
    {
      if attempt[i] {
        return true, i + 1, sleeps;
      }
      if i < MaxRetries - 1 {
        sleeps := sleeps + [RetryDelay];
      } else {
        return false, i + 1, sleeps;
      }
      i := i + 1;
    }
  }

  /** A feature flag and the description it is enabled with. */
  datatype Flag = Flag(name: string, description: string)

  const ProductionFlags: seq<Flag> := [
    Flag("custom_agents", "Enable custom agents functionality"),
    Flag("agent_workflows", "Enable agent workflows"),
    Flag("mcp_integrations", "Enable MCP integrations")]

  /** `init_production_flags()`: enable the flags in order; the first
      `enable_flag` that raises skips the rest and the result is false.
      `enables(f)` is whether enabling `f` completes without raising. */
  function InitProductionFlags(enables: Flag -> bool): (r: Pipeline.Report<Flag>)
    ensures r.ok <==> enables(ProductionFlags[0]) && enables(ProductionFlags[1]) && enables(ProductionFlags[2])
    ensures r.attempted <= ProductionFlags
    ensures r.ok ==> r.attempted == ProductionFlags
    ensures !enables(ProductionFlags[0]) ==> r.attempted == ProductionFlags[..1]
    ensures enables(ProductionFlags[0]) && !enables(ProductionFlags[1]) ==> r.attempted == ProductionFlags[..2]
    ensures !r.ok ==> |r.attempted| > 0 && !enables(r.attempted[|r.attempted| - 1])
  {
    var r := Pipeline.Run(ProductionFlags, enables);
    assert forall i :: 0 <= i < |ProductionFlags| ==> ProductionFlags[i] in ProductionFlags;
    r
  }

  /** The flags are enabled in this order. */
  lemma ProductionFlagOrder()
    ensures |ProductionFlags| == 3
    ensures ProductionFlags[0].name == "custom_agents"
    ensures ProductionFlags[1].name == "agent_workflows"
    ensures ProductionFlags[2].name == "mcp_integrations"
    ensures ProductionFlags[0].description == "Enable custom agents functionality"
    ensures ProductionFlags[1].description == "Enable agent workflows"
    ensures ProductionFlags[2].description == "Enable MCP integrations"
  {
  }

  /** `main()` and the exit status of the script: verify Redis, and only then
      enable the flags. */
  method RunMain(attempt: seq<bool>, enables: Flag -> bool) returns (ok: bool, flagsAttempted: seq<Flag>, code: int)
    requires |attempt| >= MaxRetries
    ensures !RedisReachable(attempt) ==> !ok && flagsAttempted == []
    ensures RedisReachable(attempt) ==> flagsAttempted == InitProductionFlags(enables).attempted
    ensures ok <==> RedisReachable(attempt) && InitProductionFlags(enables).ok
    ensures code == 0 <==> ok
    ensures code == 1 <==> !ok
  {
    var redisUp, _, _ := VerifyRedisConnection(attempt);
    if !redisUp {
      return false, [], ExitCode(false);
    }
    var flags := InitProductionFlags(enables);
    if !flags.ok {
      return false, flags.attempted, ExitCode(false);
    }
    return true, flags.attempted, ExitCode(true);
  }
}
