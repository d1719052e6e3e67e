/**
 The pre-flight check of the deploy script: every contract the flags file
 says to reuse must already have an address in the manifest. Passing it
 means no materialisation of the run can fail for want of an address.
 */
module Precheck {
  import opened Base
  import opened Manifest
  import D = Deployer
  import O = Orchestrator
  import opened Plan
  import Tron
  import OwnerActions

  /** Every contract flagged for reuse has an address in the manifest. */
  predicate AddressesKnown(config: Config, deployment: Deployment) {
    forall n :: n in config && !config[n].deploy ==> ExistingAddress(deployment, n) != ""
  }

  /** The names the flags file says to reuse (`deploy` falsy) whose manifest
      entry is missing or has no address. */
  function MissingDeployments(config: Config, deployment: Deployment): (r: set<string>)
    ensures r <= config.Keys
    ensures forall n :: n in r <==> n in config && !config[n].deploy && ExistingAddress(deployment, n) == ""
    ensures r == {} <==> AddressesKnown(config, deployment)
  {
    var r := set n | n in config && !config[n].deploy && ExistingAddress(deployment, n) == "";
    assert r != {} ==> !AddressesKnown(config, deployment) by {
      if r != {} {
        var n :| n in r;
        assert n in config && !config[n].deploy && ExistingAddress(deployment, n) == "";
      }
    }
    r
  }

  /** The exception the check throws: the network, the names, and the
      manifest file it looked in. */
  datatype Missing = Missing(network: string, names: set<string>, deploymentFile: string)

  function Check(config: Config, deployment: Deployment, network: string, deploymentFile: string): (r: Result<(), Missing>)
    ensures r.Ok? <==> AddressesKnown(config, deployment)
    ensures r.Err? ==> r.error.names != {} && r.error.network == network
                       && forall n :: n in r.error.names <==> n in config && !config[n].deploy && ExistingAddress(deployment, n) == ""
  {
    var missing := MissingDeployments(config, deployment);
    if missing == {} then Ok(()) else Err(Missing(network, missing, deploymentFile))
  }

  /** Against a manifest that passes the check, the deployer never fails for
      want of an existing address. */
  lemma CheckRulesOutNoAddress(
    req: D.Request, config: Config, compiled: map<string, D.Compiled>, deployment: Deployment,
    registry: D.Registry, chain: Tron.Chain, link: D.Linker, client: D.Client, network: string, file: string)
    requires Check(config, deployment, network, file).Ok?
    ensures !D.Deploy(req, config, compiled, deployment, registry, chain, link, client).result.Err?
            || !D.Deploy(req, config, compiled, deployment, registry, chain, link, client).result.error.NoExistingAddress?
  {
  }

  predicate NoAddressFailure(e: O.End) {
    e.Aborted? && e.failure.DeployFailed? && e.failure.error.NoExistingAddress?
  }

  /** One item keeps every reused contract's address in the manifest, and so
      never fails for want of one. */
  lemma ItemKeepsAddresses(item: Item, st: O.RunState, env: O.Env)
    requires O.SaneClient(env.client)
    requires AddressesKnown(env.config, st.deployment)
    ensures var r := O.RunItem(item, st, env);
            !NoAddressFailure(r.end) && AddressesKnown(env.config, r.state.deployment)
  {
    var r := O.RunItem(item, st, env);
    if O.Test(item.guard, st, env) == Ok(true) && item.action.Materialize? {
      var a := item.action;
      if O.EvalAll(a.args, st, env).Ok? {
        var req := D.Request(a.name, a.source, O.EvalAll(a.args, st, env).value, a.deps, a.force);
        O.MaterializedAddress(req, st, env);
        var res := O.DeployContract(req, st, env);
        if res.Err? {
          CheckRulesOutNoAddress(req, env.config, env.compiled, st.deployment, st.registry, st.chain,
                                 env.link, env.client, env.network, "");
        }
        if res.Ok? && res.value.0.Some? {
          var st' := res.value.1;
          forall n | n in env.config && !env.config[n].deploy
            ensures ExistingAddress(st'.deployment, n) != ""
          {
            if n != req.name {
              assert ExistingAddress(st.deployment, n) != "";
            }
          }
        }
      }
    }
  }

  lemma {:induction false} RunKeepsAddresses(items: seq<Item>, st: O.RunState, env: O.Env)
    requires O.SaneClient(env.client)
    requires AddressesKnown(env.config, st.deployment)
    ensures !NoAddressFailure(O.RunAll(items, st, env).end)
    decreases |items|
  {
    if |items| > 0 {
      ItemKeepsAddresses(items[0], st, env);
      var first := O.RunItem(items[0], st, env);
      if first.end == O.Continue {
        RunKeepsAddresses(items[1..], first.state, env);
      }
    }
  }

  /** The check is enough: a run started from a manifest that passed it
      never ends with a missing-address failure, whatever the plan. */
  lemma CheckedRunFindsAddresses(
    env: O.Env, deployment: Deployment, chain: Tron.Chain, queue: map<string, OwnerActions.Entry>,
    queueFile: string, deploymentFile: string, items: seq<Item>)
    requires O.SaneClient(env.client)
    requires Check(env.config, deployment, env.network, deploymentFile).Ok?
    ensures !NoAddressFailure(O.RunAll(items, O.Start(env, deployment, chain, queue, queueFile), env).end)
  {
    RunKeepsAddresses(items, O.Start(env, deployment, chain, queue, queueFile), env);
  }
}
