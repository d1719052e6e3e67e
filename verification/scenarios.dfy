/**
 Whole runs of small plans: a first run on a fresh network, then a second
 run started from the files the first one left, as the operator does after
 a success or after an interruption.
 */
module Scenarios {
  import opened Base
  import opened Js
  import opened Tron
  import opened Manifest
  import opened Plan
  import D = Deployer
  import R = Reconciler
  import O = Orchestrator
  import DeployPlan
  import OwnerActions

  const DeployA: Item := DeployPlan.DeployItem("A", "A", [], [])
  const DeployB: Item := DeployPlan.DeployItem("B", "B", ["A"], [])
  const DeployC: Item := DeployPlan.DeployItem("C", "C", ["B"], [])
  /** B's `target` set to A, once both have handles. */
  const LinkBA: Item := DeployPlan.Link("A", "B", "B", "B", "target", AddressOf("A"), "setTarget")

  /** Component A, component B depending on A, and B's `target` set to A. */
  function TwoComponentPlan(): seq<Item> {
    [DeployA, DeployB, LinkBA]
  }

  /** A, B depending on A, and C depending on B. */
  function ThreeComponentPlan(): seq<Item> {
    [DeployA, DeployB, DeployC]
  }

  /** The flags file of the first run: both components to deploy. */
  function FreshConfig(): Config {
    map["A" := ConfigEntry(true), "B" := ConfigEntry(true)]
  }

  /** The flags file of the interrupted run: all three to deploy. */
  function FreshConfig3(): Config {
    map["A" := ConfigEntry(true), "B" := ConfigEntry(true), "C" := ConfigEntry(true)]
  }

  lemma FlagsAfterTwo()
    ensures FreshConfig()["A" := ConfigEntry(false)]["B" := ConfigEntry(false)]
         == map["A" := ConfigEntry(false), "B" := ConfigEntry(false)]
    ensures FreshConfig3()["A" := ConfigEntry(false)]["B" := ConfigEntry(false)]
         == map["A" := ConfigEntry(false), "B" := ConfigEntry(false), "C" := ConfigEntry(true)]
  {
  }

  /** The state a run on `env` resumes from after `previous`: the flags file
      and manifest on disk, the owner-action queue on disk, the chain as left. */
  function Restart(previous: O.RunState, env: O.Env): (O.Env, O.RunState) {
    var env' := env.(config := previous.configFile);
    (env', O.Start(env', previous.deploymentFile, previous.chain, previous.queue.saved, previous.queue.file))
  }

  lemma NoLibrariesLinked(compiled: map<string, D.Compiled>, source: string, registry: D.Registry, link: D.Linker)
    requires source in compiled
    requires "SafeDecimalMath" !in registry && "Math" !in registry
    ensures D.LinkLibraries(compiled[source].bytecode, source + ".sol", D.Libraries, registry, link) == compiled[source].bytecode
  {
    D.LinkingWithoutLibraries(compiled[source].bytecode, source + ".sol", D.Libraries, registry, link);
  }

  /** A flagged contract with no library to link is created where the
      client says, and recorded; off the local network it is flagged for reuse. */
  lemma CreatesFlagged(name: string, deps: seq<string>, st: O.RunState, env: O.Env, address: string, c: Contract)
    requires name in env.config && env.config[name].deploy
    requires name in env.compiled
    requires forall d :: d in deps ==> d in st.registry
    requires "SafeDecimalMath" !in st.registry && "Math" !in st.registry
    requires env.client.create(st.chain, env.compiled[name].bytecode, []) == D.Created(address, c)
    requires env.network != "local"
    ensures var r := O.RunItem(DeployPlan.DeployItem(name, name, deps, []), st, env);
            r.end == O.Continue
            && r.state.registry == st.registry[name := D.Handle(address, env.compiled[name].abi, true)]
            && r.state.chain == Create(st.chain, address, c)
            && r.state.updatedConfig == st.updatedConfig[name := ConfigEntry(false)]
            && r.state.configFile == r.state.updatedConfig
            && r.state.deploymentFile == r.state.deployment
            && name in r.state.deployment.targets
            && r.state.deployment.targets == st.deployment.targets[name := r.state.deployment.targets[name]]
            && r.state.deployment.targets[name].address == address
            && r.state.newlyDeployed == st.newlyDeployed + [O.Deployed(name, address)]
            && r.state.queue == st.queue
  {
    NoLibrariesLinked(env.compiled, name, st.registry, env.link);
    var req := D.Request(name, name, [], deps, false);
    assert O.EvalAll([], st, env) == Ok([]);
    var out := D.Deploy(req, env.config, env.compiled, st.deployment, st.registry, st.chain, env.link, env.client);
    assert out.result.Ok? && out.result.value.Some?;
  }

  /** A linking step whose target is owned by the deploying account and does
      not yet answer the value is sent, and changes nothing but the chain. */
  lemma LinkSends(first: string, second: string, contract: string, target: string, read: string,
                  value: string, write: string, st: O.RunState, env: O.Env)
    requires target == first || target == second
    requires first in st.registry && second in st.registry
    requires st.registry[target].address in st.chain.contracts
    requires value in st.registry
    requires var c := st.chain.contracts[st.registry[target].address];
             c.owner == Str(env.accountHex) && Call(read, []) in c.views
             && c.views[Call(read, [])] != Str(st.registry[value].address)
    requires read != ""
    ensures var r := O.RunItem(DeployPlan.Link(first, second, contract, target, read, AddressOf(value), write), st, env);
            r.end == O.Continue
            && r.state == st.(chain := Send(st.chain, st.registry[target].address,
                                            Call(write, [Str(st.registry[value].address)]), env.effect))
  {
    var item := DeployPlan.Link(first, second, contract, target, read, AddressOf(value), write);
    var v := Str(st.registry[value].address);
    var step := R.Step(contract, st.registry[target].address, read, Undefined, R.StrictlyEquals(v), write, v);
    assert O.Test(item.guard, st, env) == Ok(true);
    assert O.StepOf(item.action, st, env) == Ok(step);
    assert R.ReadCall(step) == Call(read, []);
    assert R.WriteCall(step) == Call(write, [v]);
  }

  /** One unfolding of the plan fold. */
  lemma RunAllStep(items: seq<Item>, st: O.RunState, env: O.Env)
    requires |items| > 0
    ensures var first := O.RunItem(items[0], st, env);
            O.RunAll(items, st, env)
              == if first.end != O.Continue then first else O.RunAll(items[1..], first.state, env)
  {
  }

  /** A contract flagged `deploy: false` whose address is in the manifest is
      attached there, with no creation, and recorded again. */
  lemma ReusesFlagged(name: string, deps: seq<string>, st: O.RunState, env: O.Env)
    requires name in env.config && !env.config[name].deploy
    requires name in env.compiled
    requires ExistingAddress(st.deployment, name) != ""
    requires forall d :: d in deps ==> d in st.registry
    requires env.network != "local"
    ensures var r := O.RunItem(DeployPlan.DeployItem(name, name, deps, []), st, env);
            r.end == O.Continue
            && r.state.registry == st.registry[name := D.Handle(st.deployment.targets[name].address,
                                                                env.compiled[name].abi, env.client.attachDeployed)]
            && r.state.chain == st.chain
            && r.state.updatedConfig == st.updatedConfig[name := ConfigEntry(false)]
            && r.state.configFile == r.state.updatedConfig
            && r.state.deployment.targets == st.deployment.targets[name := r.state.deployment.targets[name]]
            && r.state.deployment.targets[name].address == st.deployment.targets[name].address
            && r.state.newlyDeployed == st.newlyDeployed
                 + (if env.client.attachDeployed then [O.Deployed(name, st.deployment.targets[name].address)] else [])
  {
    var req := D.Request(name, name, [], deps, false);
    assert O.EvalAll([], st, env) == Ok([]);
    D.ReuseNeedsNoCreation(req, env.config, env.compiled, st.deployment, st.registry, st.chain, env.link, env.client, env.client);
  }

  /** A linking step whose read already answers the value is skipped and
      changes nothing. */
  lemma LinkSkips(first: string, second: string, contract: string, target: string, read: string,
                  value: string, write: string, st: O.RunState, env: O.Env)
    requires target == first || target == second
    requires first in st.registry && second in st.registry
    requires value in st.registry
    requires read != ""
    requires View(st.chain, st.registry[target].address, Call(read, [])) == Some(Str(st.registry[value].address))
    ensures O.RunItem(DeployPlan.Link(first, second, contract, target, read, AddressOf(value), write), st, env)
         == O.Run(st, O.Continue)
  {
    var item := DeployPlan.Link(first, second, contract, target, read, AddressOf(value), write);
    var v := Str(st.registry[value].address);
    var step := R.Step(contract, st.registry[target].address, read, Undefined, R.StrictlyEquals(v), write, v);
    assert O.Test(item.guard, st, env) == Ok(true);
    assert O.StepOf(item.action, st, env) == Ok(step);
    assert R.ReadCall(step) == Call(read, []);
  }

  // ---------------------------------------------------------------------
  // First run on a fresh network: A and B created, B wired to A.
  // ---------------------------------------------------------------------

  /** B's `setTarget(A)` in a first run, on the state A and B's creations left. */
  lemma FirstRunWires(s2: O.RunState, env: O.Env, chain: Chain, addrA: string, addrB: string, a: Contract, b: Contract)
    requires s2.registry.Keys == {"A", "B"}
    requires s2.registry["A"].address == addrA && s2.registry["B"].address == addrB
    requires s2.chain == Create(Create(chain, addrA, a), addrB, b)
    requires b.owner == Str(env.accountHex)
    requires Call("target", []) in b.views && b.views[Call("target", [])] != Str(addrA)
    ensures O.RunAll([LinkBA], s2, env)
         == O.Run(s2.(chain := Send(s2.chain, addrB, Call("setTarget", [Str(addrA)]), env.effect)), O.Continue)
  {
    assert s2.chain.contracts[addrB] == b;
    LinkSends("A", "B", "B", "B", "target", "A", "setTarget", s2, env);
    RunAllStep([LinkBA], s2, env);
    assert [LinkBA][1..] == [];
  }

  /** What a first run needs of the state A's creation left. */
  predicate AfterA(s1: O.RunState, env: O.Env, chain: Chain, addrA: string, addrB: string, a: Contract, b: Contract) {
    && env.network == "shasta"
    && "B" in env.config && env.config["B"].deploy
    && "A" in env.compiled && "B" in env.compiled
    && env.client.create(Create(chain, addrA, a), env.compiled["B"].bytecode, []) == D.Created(addrB, b)
    && s1.registry == map["A" := D.Handle(addrA, env.compiled["A"].abi, true)]
    && s1.chain == Create(chain, addrA, a)
    && s1.newlyDeployed == [O.Deployed("A", addrA)]
    && "A" in s1.deployment.targets && s1.deployment.targets["A"].address == addrA
    && b.owner == Str(env.accountHex)
    && Call("target", []) in b.views && b.views[Call("target", [])] != Str(addrA)
  }

  /** The rest of a first run once A is created: B is created, then wired
      to A; the handles and the chain. */
  lemma FirstRunFromB(s1: O.RunState, env: O.Env, chain: Chain, addrA: string, addrB: string, a: Contract, b: Contract)
    requires AfterA(s1, env, chain, addrA, addrB, a, b)
    ensures var r := O.RunAll([DeployB, LinkBA], s1, env);
            && r.end == O.Continue
            && r.state.registry.Keys == {"A", "B"}
            && r.state.registry["A"].address == addrA && r.state.registry["B"].address == addrB
            && r.state.chain == Send(Create(Create(chain, addrA, a), addrB, b), addrB,
                                     Call("setTarget", [Str(addrA)]), env.effect)
  {
    CreatesFlagged("B", ["A"], s1, env, addrB, b);
    var s2 := O.RunItem(DeployB, s1, env).state;
    assert s2.registry == map["A" := D.Handle(addrA, env.compiled["A"].abi, true),
                              "B" := D.Handle(addrB, env.compiled["B"].abi, true)];
    FirstRunWires(s2, env, chain, addrA, addrB, a, b);
  }

  /** The same: the files on disk and the list of new deployments. */
  lemma FirstRunFromBFiles(s1: O.RunState, env: O.Env, chain: Chain, addrA: string, addrB: string, a: Contract, b: Contract)
    requires AfterA(s1, env, chain, addrA, addrB, a, b)
    ensures var r := O.RunAll([DeployB, LinkBA], s1, env);
            && r.state.configFile == s1.updatedConfig["B" := ConfigEntry(false)]
            && r.state.newlyDeployed == [O.Deployed("A", addrA), O.Deployed("B", addrB)]
            && "A" in r.state.deploymentFile.targets && "B" in r.state.deploymentFile.targets
            && r.state.deploymentFile.targets["A"].address == addrA
            && r.state.deploymentFile.targets["B"].address == addrB
  {
    CreatesFlagged("B", ["A"], s1, env, addrB, b);
    var s2 := O.RunItem(DeployB, s1, env).state;
    assert s2.registry == map["A" := D.Handle(addrA, env.compiled["A"].abi, true),
                              "B" := D.Handle(addrB, env.compiled["B"].abi, true)];
    FirstRunWires(s2, env, chain, addrA, addrB, a, b);
  }

  /** The first run deploys A and B and sends B's `setTarget(A)`, as the
      deploying account owns B and B's target is not yet A. */
  lemma FirstRunDeploysAndWires(
    env: O.Env, deployment: Deployment, chain: Chain, queue: map<string, OwnerActions.Entry>, queueFile: string,
    addrA: string, addrB: string, a: Contract, b: Contract)
    requires env.network == "shasta" && env.config == FreshConfig()
    requires "A" in env.compiled && "B" in env.compiled
    requires env.client.create(chain, env.compiled["A"].bytecode, []) == D.Created(addrA, a)
    requires env.client.create(Create(chain, addrA, a), env.compiled["B"].bytecode, []) == D.Created(addrB, b)
    requires b.owner == Str(env.accountHex)
    requires Call("target", []) in b.views && b.views[Call("target", [])] != Str(addrA)
    ensures var first := O.RunAll(TwoComponentPlan(), O.Start(env, deployment, chain, queue, queueFile), env);
            first.end == O.Continue
            && first.state.registry.Keys == {"A", "B"}
            && first.state.registry["A"].address == addrA && first.state.registry["B"].address == addrB
            && first.state.chain == Send(Create(Create(chain, addrA, a), addrB, b), addrB,
                                         Call("setTarget", [Str(addrA)]), env.effect)
            && first.state.configFile == map["A" := ConfigEntry(false), "B" := ConfigEntry(false)]
            && first.state.newlyDeployed == [O.Deployed("A", addrA), O.Deployed("B", addrB)]
            && "A" in first.state.deploymentFile.targets && "B" in first.state.deploymentFile.targets
            && first.state.deploymentFile.targets["A"].address == addrA
            && first.state.deploymentFile.targets["B"].address == addrB
  {
    var st0 := O.Start(env, deployment, chain, queue, queueFile);
    CreatesFlagged("A", [], st0, env, addrA, a);
    var s1 := O.RunItem(DeployA, st0, env).state;
    assert s1.registry == map["A" := D.Handle(addrA, env.compiled["A"].abi, true)];
    FirstRunFromB(s1, env, chain, addrA, addrB, a, b);
    FirstRunFromBFiles(s1, env, chain, addrA, addrB, a, b);
    FlagsAfterTwo();
    RunAllStep(TwoComponentPlan(), st0, env);
    assert TwoComponentPlan()[1..] == [DeployB, LinkBA];
  }

  // ---------------------------------------------------------------------
  // Second run from the files the first one left: nothing created or sent.
  // ---------------------------------------------------------------------

  /** The rest of a second run once A is attached: B is attached where the
      manifest has it, and B's target is found in place. */
  lemma SecondRunFromB(s1: O.RunState, env: O.Env, addrA: string, addrB: string)
    requires env.network == "shasta"
    requires "B" in env.config && !env.config["B"].deploy
    requires "B" in env.compiled
    requires s1.registry.Keys == {"A"} && s1.registry["A"].address == addrA
    requires "B" in s1.deployment.targets && s1.deployment.targets["B"].address == addrB
    requires addrB != ""
    requires View(s1.chain, addrB, Call("target", [])) == Some(Str(addrA))
    ensures var r := O.RunAll([DeployB, LinkBA], s1, env);
            && r.end == O.Continue
            && r.state.chain == s1.chain
            && r.state.registry.Keys == {"A", "B"}
            && r.state.registry["A"].address == addrA && r.state.registry["B"].address == addrB
  {
    ReusesFlagged("B", ["A"], s1, env);
    var s2 := O.RunItem(DeployB, s1, env).state;
    assert s2.registry.Keys == {"A", "B"};
    LinkSkips("A", "B", "B", "B", "target", "A", "setTarget", s2, env);
    RunAllStep([LinkBA], s2, env);
    assert [LinkBA][1..] == [];
    RunAllStep([DeployB, LinkBA], s1, env);
    assert [DeployB, LinkBA][1..] == [LinkBA];
  }

  /** The second run, from any state that has A and B recorded at their
      addresses, flagged for reuse, with B's target already A on chain. */
  lemma SecondRunFrom(st1: O.RunState, env: O.Env, addrA: string, addrB: string)
    requires env.network == "shasta"
    requires "A" in env.compiled && "B" in env.compiled
    requires st1.configFile == map["A" := ConfigEntry(false), "B" := ConfigEntry(false)]
    requires "A" in st1.deploymentFile.targets && "B" in st1.deploymentFile.targets
    requires st1.deploymentFile.targets["A"].address == addrA && st1.deploymentFile.targets["B"].address == addrB
    requires addrA != "" && addrB != ""
    requires View(st1.chain, addrB, Call("target", [])) == Some(Str(addrA))
    ensures var (env', st') := Restart(st1, env);
            var second := O.RunAll(TwoComponentPlan(), st', env');
            second.end == O.Continue
            && second.state.chain == st1.chain
            && second.state.registry.Keys == {"A", "B"}
            && second.state.registry["A"].address == addrA && second.state.registry["B"].address == addrB
  {
    var (env', st') := Restart(st1, env);
    ReusesFlagged("A", [], st', env');
    var s1 := O.RunItem(DeployA, st', env').state;
    assert s1.registry.Keys == {"A"};
    SecondRunFromB(s1, env', addrA, addrB);
    RunAllStep(TwoComponentPlan(), st', env');
    assert TwoComponentPlan()[1..] == [DeployB, LinkBA];
  }

  /** No redundant deploys, no repeated wiring: run again from the files the
      first run left, on the chain as it left it, the plan attaches to A and B
      where they are, finds B's target in place, and changes nothing on
      chain. */
  lemma SecondRunReusesAndSkips(
    env: O.Env, deployment: Deployment, chain: Chain, queue: map<string, OwnerActions.Entry>, queueFile: string,
    addrA: string, addrB: string, a: Contract, b: Contract)
    requires env.network == "shasta" && env.config == FreshConfig()
    requires "A" in env.compiled && "B" in env.compiled
    requires env.client.create(chain, env.compiled["A"].bytecode, []) == D.Created(addrA, a)
    requires env.client.create(Create(chain, addrA, a), env.compiled["B"].bytecode, []) == D.Created(addrB, b)
    requires addrA != "" && addrB != ""
    requires b.owner == Str(env.accountHex)
    requires Call("target", []) in b.views && b.views[Call("target", [])] != Str(addrA)
    // `setTarget(A)` makes `target()` answer A
    requires var after := env.effect(b, Call("setTarget", [Str(addrA)]));
             Call("target", []) in after.views && after.views[Call("target", [])] == Str(addrA)
    ensures var first := O.RunAll(TwoComponentPlan(), O.Start(env, deployment, chain, queue, queueFile), env);
            var (env', st') := Restart(first.state, env);
            var second := O.RunAll(TwoComponentPlan(), st', env');
            second.end == O.Continue
            && second.state.chain == first.state.chain
            && second.state.registry.Keys == first.state.registry.Keys == {"A", "B"}
            && second.state.registry["A"].address == first.state.registry["A"].address
            && second.state.registry["B"].address == first.state.registry["B"].address
  {
    FirstRunDeploysAndWires(env, deployment, chain, queue, queueFile, addrA, addrB, a, b);
    var st1 := O.RunAll(TwoComponentPlan(), O.Start(env, deployment, chain, queue, queueFile), env).state;
    var c2 := Create(Create(chain, addrA, a), addrB, b);
    assert c2.contracts[addrB] == b;
    assert View(st1.chain, addrB, Call("target", [])) == Some(Str(addrA));
    SecondRunFrom(st1, env, addrA, addrB);
  }

  // ---------------------------------------------------------------------
  // An interrupted run, and the run that resumes it.
  // ---------------------------------------------------------------------

  /** A flagged contract whose creation the chain rejects ends the run, and
      the run's records stay as the items before it left them. */
  lemma RejectedCreation(name: string, deps: seq<string>, st: O.RunState, env: O.Env, reason: string)
    requires name in env.config && env.config[name].deploy
    requires name in env.compiled
    requires forall d :: d in deps ==> d in st.registry
    requires "SafeDecimalMath" !in st.registry && "Math" !in st.registry
    requires env.client.create(st.chain, env.compiled[name].bytecode, []) == D.Rejected(reason)
    ensures O.RunItem(DeployPlan.DeployItem(name, name, deps, []), st, env)
         == O.Run(st, O.Aborted(O.DeployFailed(D.DeploymentFailed(name, reason))))
  {
    NoLibrariesLinked(env.compiled, name, st.registry, env.link);
    assert O.EvalAll([], st, env) == Ok([]);
  }

  /** C's rejected creation, on the state A and B left: the run stops there. */
  lemma InterruptedAtC(s2: O.RunState, env: O.Env, reason: string)
    requires "C" in env.config && env.config["C"].deploy
    requires "C" in env.compiled
    requires s2.registry.Keys == {"A", "B"}
    requires env.client.create(s2.chain, env.compiled["C"].bytecode, []) == D.Rejected(reason)
    ensures O.RunAll([DeployC], s2, env) == O.Run(s2, O.Aborted(O.DeployFailed(D.DeploymentFailed("C", reason))))
  {
    RejectedCreation("C", ["B"], s2, env, reason);
    RunAllStep([DeployC], s2, env);
  }

  /** What the interrupted run needs of the state A's creation left. */
  predicate InterruptedAfterA(s1: O.RunState, env: O.Env, chain: Chain, addrA: string, addrB: string, a: Contract, b: Contract, reason: string) {
    && env.network == "shasta"
    && "B" in env.config && env.config["B"].deploy && "C" in env.config && env.config["C"].deploy
    && "A" in env.compiled && "B" in env.compiled && "C" in env.compiled
    && env.client.create(Create(chain, addrA, a), env.compiled["B"].bytecode, []) == D.Created(addrB, b)
    && env.client.create(Create(Create(chain, addrA, a), addrB, b), env.compiled["C"].bytecode, []) == D.Rejected(reason)
    && s1.registry == map["A" := D.Handle(addrA, env.compiled["A"].abi, true)]
    && s1.chain == Create(chain, addrA, a)
    && "A" in s1.deployment.targets && s1.deployment.targets["A"].address == addrA
  }

  /** The rest of the interrupted run once A is created: B is created, then
      C's creation is rejected; how the run ends and the chain. */
  lemma InterruptedFromB(s1: O.RunState, env: O.Env, chain: Chain, addrA: string, addrB: string, a: Contract, b: Contract, reason: string)
    requires InterruptedAfterA(s1, env, chain, addrA, addrB, a, b, reason)
    ensures var r := O.RunAll([DeployB, DeployC], s1, env);
            && r.end == O.Aborted(O.DeployFailed(D.DeploymentFailed("C", reason)))
            && r.state.chain == Create(Create(chain, addrA, a), addrB, b)
  {
    CreatesFlagged("B", ["A"], s1, env, addrB, b);
    var s2 := O.RunItem(DeployB, s1, env).state;
    assert s2.registry.Keys == {"A", "B"};
    InterruptedAtC(s2, env, reason);
  }

  /** The same: the files on disk hold A's and B's records. */
  lemma InterruptedFromBFiles(s1: O.RunState, env: O.Env, chain: Chain, addrA: string, addrB: string, a: Contract, b: Contract, reason: string)
    requires InterruptedAfterA(s1, env, chain, addrA, addrB, a, b, reason)
    ensures var r := O.RunAll([DeployB, DeployC], s1, env);
            && r.state.configFile == s1.updatedConfig["B" := ConfigEntry(false)]
            && "A" in r.state.deploymentFile.targets && "B" in r.state.deploymentFile.targets
            && r.state.deploymentFile.targets["A"].address == addrA
            && r.state.deploymentFile.targets["B"].address == addrB
  {
    CreatesFlagged("B", ["A"], s1, env, addrB, b);
    var s2 := O.RunItem(DeployB, s1, env).state;
    assert s2.registry.Keys == {"A", "B"};
    InterruptedAtC(s2, env, reason);
  }

  /** The interrupted run: A and B are created and recorded, C's creation is
      rejected and the run stops there, with A and B already on disk. */
  lemma InterruptedRun(
    env: O.Env, deployment: Deployment, chain: Chain, queue: map<string, OwnerActions.Entry>, queueFile: string,
    addrA: string, addrB: string, a: Contract, b: Contract, reason: string)
    requires env.network == "shasta" && env.config == FreshConfig3()
    requires "A" in env.compiled && "B" in env.compiled && "C" in env.compiled
    requires env.client.create(chain, env.compiled["A"].bytecode, []) == D.Created(addrA, a)
    requires env.client.create(Create(chain, addrA, a), env.compiled["B"].bytecode, []) == D.Created(addrB, b)
    requires env.client.create(Create(Create(chain, addrA, a), addrB, b), env.compiled["C"].bytecode, []) == D.Rejected(reason)
    ensures var first := O.RunAll(ThreeComponentPlan(), O.Start(env, deployment, chain, queue, queueFile), env);
            && first.end == O.Aborted(O.DeployFailed(D.DeploymentFailed("C", reason)))
            && first.state.chain == Create(Create(chain, addrA, a), addrB, b)
            && first.state.configFile == map["A" := ConfigEntry(false), "B" := ConfigEntry(false), "C" := ConfigEntry(true)]
            && "A" in first.state.deploymentFile.targets && "B" in first.state.deploymentFile.targets
            && first.state.deploymentFile.targets["A"].address == addrA
            && first.state.deploymentFile.targets["B"].address == addrB
  {
    var st0 := O.Start(env, deployment, chain, queue, queueFile);
    CreatesFlagged("A", [], st0, env, addrA, a);
    var s1 := O.RunItem(DeployA, st0, env).state;
    assert s1.registry == map["A" := D.Handle(addrA, env.compiled["A"].abi, true)];
    InterruptedFromB(s1, env, chain, addrA, addrB, a, b, reason);
    InterruptedFromBFiles(s1, env, chain, addrA, addrB, a, b, reason);
    FlagsAfterTwo();
    RunAllStep(ThreeComponentPlan(), st0, env);
    assert ThreeComponentPlan()[1..] == [DeployB, DeployC];
  }

  /** The rest of the resumed run once A is attached: B attached where the
      manifest has it, and C created. */
  lemma ResumeFromB(s1: O.RunState, env: O.Env, addrA: string, addrB: string, addrC: string, c: Contract)
    requires env.network == "shasta"
    requires "B" in env.config && !env.config["B"].deploy && "C" in env.config && env.config["C"].deploy
    requires "B" in env.compiled && "C" in env.compiled
    requires s1.registry.Keys == {"A"} && s1.registry["A"].address == addrA
    requires "B" in s1.deployment.targets && s1.deployment.targets["B"].address == addrB
    requires addrB != ""
    requires env.client.create(s1.chain, env.compiled["C"].bytecode, []) == D.Created(addrC, c)
    ensures var r := O.RunAll([DeployB, DeployC], s1, env);
            && r.end == O.Continue
            && r.state.chain == Create(s1.chain, addrC, c)
            && r.state.registry.Keys == {"A", "B", "C"}
            && r.state.registry["A"].address == addrA && r.state.registry["B"].address == addrB
            && r.state.registry["C"].address == addrC
  {
    ReusesFlagged("B", ["A"], s1, env);
    var s2 := O.RunItem(DeployB, s1, env).state;
    assert s2.registry.Keys == {"A", "B"};
    CreatesFlagged("C", ["B"], s2, env, addrC, c);
    RunAllStep([DeployC], s2, env);
    RunAllStep([DeployB, DeployC], s1, env);
    assert [DeployB, DeployC][1..] == [DeployC];
  }

  /** The resumed run, from any state that has A and B recorded and flagged
      for reuse and C still flagged for deployment. */
  lemma ResumeFrom(st1: O.RunState, env: O.Env, addrA: string, addrB: string, addrC: string, c: Contract)
    requires env.network == "shasta"
    requires "A" in env.compiled && "B" in env.compiled && "C" in env.compiled
    requires st1.configFile == map["A" := ConfigEntry(false), "B" := ConfigEntry(false), "C" := ConfigEntry(true)]
    requires "A" in st1.deploymentFile.targets && "B" in st1.deploymentFile.targets
    requires st1.deploymentFile.targets["A"].address == addrA && st1.deploymentFile.targets["B"].address == addrB
    requires addrA != "" && addrB != ""
    requires env.client.create(st1.chain, env.compiled["C"].bytecode, []) == D.Created(addrC, c)
    ensures var (env', st') := Restart(st1, env);
            var second := O.RunAll(ThreeComponentPlan(), st', env');
            && second.end == O.Continue
            && second.state.chain == Create(st1.chain, addrC, c)
            && second.state.registry.Keys == {"A", "B", "C"}
            && second.state.registry["A"].address == addrA && second.state.registry["B"].address == addrB
            && second.state.registry["C"].address == addrC
  {
    var (env', st') := Restart(st1, env);
    ReusesFlagged("A", [], st', env');
    var s1 := O.RunItem(DeployA, st', env').state;
    assert s1.registry.Keys == {"A"};
    ResumeFromB(s1, env', addrA, addrB, addrC, c);
    RunAllStep(ThreeComponentPlan(), st', env');
    assert ThreeComponentPlan()[1..] == [DeployB, DeployC];
  }

  /** Resuming after the interruption: with the chain now accepting C's
      creation, the restarted run attaches to A and B where the first run put
      them and creates C alone; A and B are not deployed twice. */
  lemma ResumeCreatesOnlyTheRest(
    env: O.Env, deployment: Deployment, chain: Chain, queue: map<string, OwnerActions.Entry>, queueFile: string,
    addrA: string, addrB: string, addrC: string, a: Contract, b: Contract, c: Contract, reason: string,
    client': D.Client)
    requires env.network == "shasta" && env.config == FreshConfig3()
    requires "A" in env.compiled && "B" in env.compiled && "C" in env.compiled
    requires env.client.create(chain, env.compiled["A"].bytecode, []) == D.Created(addrA, a)
    requires env.client.create(Create(chain, addrA, a), env.compiled["B"].bytecode, []) == D.Created(addrB, b)
    requires env.client.create(Create(Create(chain, addrA, a), addrB, b), env.compiled["C"].bytecode, []) == D.Rejected(reason)
    requires addrA != "" && addrB != ""
    // the operator's second attempt, on a client that now accepts C
    requires client'.create(Create(Create(chain, addrA, a), addrB, b), env.compiled["C"].bytecode, []) == D.Created(addrC, c)
    ensures var first := O.RunAll(ThreeComponentPlan(), O.Start(env, deployment, chain, queue, queueFile), env);
            var (env', st') := Restart(first.state, env.(client := client'));
            var second := O.RunAll(ThreeComponentPlan(), st', env');
            && second.end == O.Continue
            && second.state.chain == Create(first.state.chain, addrC, c)
            && second.state.registry.Keys == {"A", "B", "C"}
            && second.state.registry["A"].address == addrA && second.state.registry["B"].address == addrB
            && second.state.registry["C"].address == addrC
  {
    InterruptedRun(env, deployment, chain, queue, queueFile, addrA, addrB, a, b, reason);
    var st1 := O.RunAll(ThreeComponentPlan(), O.Start(env, deployment, chain, queue, queueFile), env).state;
    ResumeFrom(st1, env.(client := client'), addrA, addrB, addrC, c);
  }
}
