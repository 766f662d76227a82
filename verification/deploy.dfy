/** The deployment script deploy.py: an environment check, then the backend,
    then the frontend, each stage stopping the deployment when it fails.
    Shell commands are not run; `run(c)` is how command `c` ends when it is run. */
module Deploy {
  import opened Base
  import Pipeline

  /** How `subprocess.run` ended: it raised, or the process exited with a code. */
  datatype CommandOutcome = Raised | Exited(code: int)

  /** `run_command(cmd)`: success iff the command raised nothing and exited with 0. */
  function RunCommand(o: CommandOutcome): (ok: bool)
    ensures ok <==> o.Exited? && o.code == 0
    ensures o.Raised? ==> !ok
  {
    match o
    case Raised => false
    case Exited(code) => code == 0
  }

  /** The two working directories commands run in: backend/ and frontend/. */
  datatype Directory = BackendDir | FrontendDir

  /** The four commands the script can run. */
  datatype Command =
    | DockerBuild           // `docker build -t suna-backend .`
    | InitProductionScript  // `python init_production.py`
    | NpmCi                 // `npm ci`
    | NpmBuild              // `npm run build`
  {
    /** The directory the command is run in. */
    function Cwd(): Directory
    {
      if this == DockerBuild || this == InitProductionScript then BackendDir else FrontendDir
    }
  }

  // ---------------------------------------------------------------------------
  // check_environment

  const RequiredVars: seq<string> := [
    "SUPABASE_URL",
    "SUPABASE_ANON_KEY",
    "SUPABASE_SERVICE_ROLE_KEY",
    "REDIS_URL",
    "FERNET_KEY",
    "DAYTONA_URL",
    "DAYTONA_API_KEY"]

  /** `not os.getenv(var)`: the variable is unset or empty. */
  predicate Unset(env: Env, v: string)
  {
    v !in env || env[v] == ""
  }

  /** Every required variable is set to a non-empty value. */
  predicate AllRequiredSet(env: Env)
  {
    forall v :: v in RequiredVars ==> v in env && env[v] != ""
  }

  /** `a` is `b` with some elements left out, the rest kept in order. */
  ghost predicate Subsequence<T>(a: seq<T>, b: seq<T>)
  {
    if a == [] then true
    else if b == [] then false
    else (a[0] == b[0] && Subsequence(a[1..], b[1..])) || Subsequence(a, b[1..])
  }

  /** The variables of `vars` that are unset or empty, in the order of `vars`. */
  function Missing(env: Env, vars: seq<string>): seq<string>
  {
    if vars == [] then [] else (if Unset(env, vars[0]) then [vars[0]] else []) + Missing(env, vars[1..])
  }

  /** A variable is reported missing iff it is listed and unset or empty. */
  lemma {:induction false} MissingMembers(env: Env, vars: seq<string>)
    ensures forall v :: v in Missing(env, vars) <==> v in vars && Unset(env, v)
  {
    if vars != [] {
      MissingMembers(env, vars[1..]);
      assert vars == [vars[0]] + vars[1..];
    }
  }

  /** The missing variables keep their declaration order. */
  lemma {:induction false} MissingInOrder(env: Env, vars: seq<string>)
    ensures Subsequence(Missing(env, vars), vars)
  {
    if vars != [] {
      var rest := Missing(env, vars[1..]);
      MissingInOrder(env, vars[1..]);
      if Unset(env, vars[0]) {
        assert ([vars[0]] + rest)[1..] == rest;
      } else {
        assert Missing(env, vars) == rest;
      }
    }
  }

  lemma MissingStep(env: Env, vars: seq<string>, i: nat)
    requires i < |vars|
    ensures Missing(env, vars[i..]) == (if Unset(env, vars[i]) then [vars[i]] else []) + Missing(env, vars[i + 1..])
  {
  }

  /** The loop of `check_environment()`: append each unset variable of `vars`, in order. */
  method CollectMissing(env: Env, vars: seq<string>) returns (missing: seq<string>)
    ensures missing == Missing(env, vars)
  {
    missing := [];
    var i := 0;
    while i < |vars|
      invariant 0 <= i <= |vars|
      invariant missing + Missing(env, vars[i..]) == Missing(env, vars)
    {
      MissingStep(env, vars, i);
      if Unset(env, vars[i]) {
        assert (missing + [vars[i]]) + Missing(env, vars[i + 1..]) == missing + ([vars[i]] + Missing(env, vars[i + 1..]));
        missing := missing + [vars[i]];
      } else {
        assert missing + Missing(env, vars[i + 1..]) == missing + ([] + Missing(env, vars[i + 1..]));
      }
      i := i + 1;
    }
    assert vars[i..] == [];
    assert missing + [] == missing;
  }

  /** `check_environment()`: the required variables that are unset, in
      declaration order; the check passes iff there are none. */
  method CheckEnvironment(env: Env) returns (ok: bool, missing: seq<string>)
    ensures forall v :: v in missing <==> v in RequiredVars && Unset(env, v)
    ensures Subsequence(missing, RequiredVars)
    ensures ok <==> missing == []
    ensures ok <==> AllRequiredSet(env)
  {
    missing := CollectMissing(env, RequiredVars);
    MissingMembers(env, RequiredVars);
    MissingInOrder(env, RequiredVars);
    ok := missing == [];
    if !ok {
      assert missing[0] in missing;
    }
  }

  // ---------------------------------------------------------------------------
  // Deployment stages

  /** The frontend's commands, in order. */
  const FrontendCommands: seq<Command> := [NpmCi, NpmBuild]

  /** `deploy_frontend()`: `npm ci` then `npm run build`, stopping at the first failure. */
  function DeployFrontend(run: Command -> CommandOutcome): (r: Pipeline.Report<Command>)
    ensures r.ok <==> RunCommand(run(NpmCi)) && RunCommand(run(NpmBuild))
    ensures !RunCommand(run(NpmCi)) ==> r.attempted == [NpmCi]
    ensures RunCommand(run(NpmCi)) ==> r.attempted == [NpmCi, NpmBuild]
    ensures forall i :: 0 <= i < |r.attempted| ==> r.attempted[i].Cwd() == FrontendDir
  {
    Pipeline.Run(FrontendCommands, c => RunCommand(run(c)))
  }

  /** `deploy_backend()`: build the image; if that worked, run the production
      initialization, whose failure is reported but ignored. */
  function DeployBackend(run: Command -> CommandOutcome): (r: Pipeline.Report<Command>)
    ensures r.ok <==> RunCommand(run(DockerBuild))
    ensures r.ok ==> r.attempted == [DockerBuild, InitProductionScript]
    ensures !r.ok ==> r.attempted == [DockerBuild]
    ensures forall i :: 0 <= i < |r.attempted| ==> r.attempted[i].Cwd() == BackendDir
  {
    if !RunCommand(run(DockerBuild)) then
      Pipeline.Report(false, [DockerBuild])
    else
      Pipeline.Report(true, [DockerBuild, InitProductionScript])
  }

  /** The backend's verdict does not depend on how the initialization script ends. */
  lemma BackendIgnoresInitScript(run1: Command -> CommandOutcome, run2: Command -> CommandOutcome)
    requires run1(DockerBuild) == run2(DockerBuild)
    ensures DeployBackend(run1) == DeployBackend(run2)
  {
  }

  /** `main()` and the exit status of the script: the environment check, then
      the backend, then the frontend, stopping at the first failing stage.
      Returns the verdict, the commands run in order, and the exit code. */
  method RunMain(env: Env, run: Command -> CommandOutcome) returns (ok: bool, ran: seq<Command>, code: int)
    ensures ok <==> && AllRequiredSet(env)
                    && RunCommand(run(DockerBuild))
                    && RunCommand(run(NpmCi)) && RunCommand(run(NpmBuild))
    ensures !AllRequiredSet(env) ==> ran == []
    ensures AllRequiredSet(env) && !RunCommand(run(DockerBuild)) ==> ran == [DockerBuild]
    ensures AllRequiredSet(env) && RunCommand(run(DockerBuild)) ==>
      ran == [DockerBuild, InitProductionScript] + DeployFrontend(run).attempted
    ensures code == 0 <==> ok
    ensures code == 1 <==> !ok
  {
    var envOk, _ := CheckEnvironment(env);
    if !envOk {
      return false, [], ExitCode(false);
    }
    var backend := DeployBackend(run);
    if !backend.ok {
      return false, backend.attempted, ExitCode(false);
    }
    var frontend := DeployFrontend(run);
    if !frontend.ok {
      return false, backend.attempted + frontend.attempted, ExitCode(false);
    }
    return true, backend.attempted + frontend.attempted, ExitCode(true);
  }
}
