/** Short-circuiting step sequences: the shape of `init_production_flags` in
    backend/init_production.py and of `deploy_frontend` in deploy.py, which run
    their steps in order and give up at the first one that fails. */
module Pipeline {

  /** Whether every step succeeded, and the steps that were started, in order. */
  datatype Report<S> = Report(ok: bool, attempted: seq<S>)

  /** Runs `steps` in order; `succeeds` tells whether a step succeeds when run. */
  function Run<S(==)>(steps: seq<S>, succeeds: S -> bool): (r: Report<S>)
    ensures r.ok <==> forall i :: 0 <= i < |steps| ==> succeeds(steps[i])
    ensures |r.attempted| <= |steps|
    ensures forall i :: 0 <= i < |r.attempted| ==> r.attempted[i] == steps[i]
    ensures r.ok ==> r.attempted == steps
    ensures !r.ok ==> |r.attempted| > 0 && !succeeds(r.attempted[|r.attempted| - 1])
    ensures forall i :: 0 <= i < |r.attempted| - 1 ==> succeeds(r.attempted[i])
  {
    if steps == [] then
      Report(true, [])
    else if !succeeds(steps[0]) then
      Report(false, [steps[0]])
    else
      var rest := Run(steps[1..], succeeds);
      Report(rest.ok, [steps[0]] + rest.attempted)
  }

  /** A step is started only if every step before it succeeded. */
  lemma StartedOnlyAfterSuccesses<S>(steps: seq<S>, succeeds: S -> bool, k: nat)
    requires k < |steps|
    ensures (|Run(steps, succeeds).attempted| > k) <==> forall j :: 0 <= j < k ==> succeeds(steps[j])
  {
  }
}
