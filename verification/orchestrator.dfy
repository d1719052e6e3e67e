/**
 The deploy script as a fold over its plan. The run state holds the handles
 materialised so far (the deployer's registry), the manifest and the contract
 flags in memory and as last written to disk, the owner-action queue, the
 chain, and the values earlier steps read. Each item of the plan is guarded by
 a condition; an item that throws ends the run with what is already written.
 */
module Orchestrator {
  import opened Base
  import opened Js
  import opened Tron
  import opened Manifest
  import opened Plan
  import D = Deployer
  import R = Reconciler
  import OwnerActions

  /** What the run is given and never changes: the network, the account (in
      TronWeb form for arguments and in hex form for the owner check), the
      flags file as loaded, the compiled artifacts, the explorer prefix, the
      time of the run, TronWeb's `address.fromHex`, the linker, the chain
      client, what writes do, and what the operator answers to a prompt. */
  datatype Env = Env(
    network: string,
    account: string,
    accountHex: string,
    config: Config,
    compiled: map<string, D.Compiled>,
    prefix: string,
    now: string,
    fromHex: string -> string,
    link: D.Linker,
    client: D.Client,
    effect: Effect,
    answer: string -> string)

  /** An entry of `newContractsDeployed`. */
  datatype Deployed = Deployed(name: string, address: string)

  datatype RunState = RunState(
    registry: D.Registry,
    deployment: Deployment,
    deploymentFile: Deployment,
    updatedConfig: Config,
    configFile: Config,
    newlyDeployed: seq<Deployed>,
    chain: Chain,
    queue: OwnerActions.Queue,
    vars: map<string, Value>)

  datatype Failure =
    | DeployFailed(error: D.Error)
    | StepFailed(failure: R.Failure)
    | NoHandle(name: string)          // a property read on an undefined handle
    | NoConfigEntry(name: string)     // `config[name].deploy` with no entry for `name`
    | ReadFailed(address: string, call: Call)

  /** How an item, or the whole run, ended: carry on, the operator refused a
      confirmation, or an exception ended the run. */
  datatype End = Continue | Cancelled | Aborted(failure: Failure)

  datatype Run = Run(state: RunState, end: End)

  /** The state a run starts from: the files as loaded, no handles, nothing
      deployed yet. */
  function Start(env: Env, deployment: Deployment, chain: Chain, queue: map<string, OwnerActions.Entry>, queueFile: string): (st: RunState)
    ensures Durable(st) && Resumable(st, env)
    ensures st.registry == map[] && st.newlyDeployed == []
  {
    RunState(map[], deployment, deployment, env.config, env.config, [], chain,
             OwnerActions.Queue(queue, queueFile, queue), map[])
  }

  /** Everything the run has changed so far is already on disk. */
  predicate Durable(st: RunState) {
    st.deploymentFile == st.deployment
    && st.configFile == st.updatedConfig
    && st.queue.saved == st.queue.entries
  }

  /** Every handle of the run is recorded, at its address, in the manifest on
      disk, and off the local network it is flagged `deploy: false` in the
      flags file on disk, so that a later run attaches to it. */
  predicate Resumable(st: RunState, env: Env) {
    forall n :: n in st.registry ==>
      n in st.deploymentFile.targets
      && st.deploymentFile.targets[n].address == st.registry[n].address
      && st.registry[n].address != ""
      && (env.network != "local" ==> n in st.configFile && !st.configFile[n].deploy)
  }

  /** The chain never reports a contract created at the empty address. */
  ghost predicate SaneClient(client: D.Client) {
    forall c, b, a {:trigger client.create(c, b, a)} ::
      client.create(c, b, a).Created? ==> client.create(c, b, a).address != ""
  }

  /** What a run only ever adds to: handles, manifest entries, queued
      actions, contracts on chain, the chain's height, the deployed list. */
  predicate Grows(st: RunState, st': RunState) {
    st.registry.Keys <= st'.registry.Keys
    && st.deployment.targets.Keys <= st'.deployment.targets.Keys
    && st.queue.entries.Keys <= st'.queue.entries.Keys
    && st.chain.contracts.Keys <= st'.chain.contracts.Keys
    && st.chain.height <= st'.chain.height
    && |st.newlyDeployed| <= |st'.newlyDeployed|
    && st.newlyDeployed == st'.newlyDeployed[..|st.newlyDeployed|]
  }

  /** The explorer link recorded for a target. */
  function TronscanLink(network: string, tronAddress: string): string {
    "https://" + (if network != "mainnet" then network + "." else "") + "tronscan.org/#/address/" + tronAddress
  }

  /** The contract was reused: its flags entry exists and says `deploy: false`. */
  predicate Reused(env: Env, name: string) {
    name in env.config && !env.config[name].deploy
  }

  /** `deployContract`: run the deployer, then record the contract in the
      manifest and persist it, flag it `deploy: false` off the local network
      and persist the flags, and list it when it was newly deployed. */
  function DeployContract(req: D.Request, st: RunState, env: Env): (r: Result<(Option<D.Handle>, RunState), D.Error>)
    // the deployer's failures come through unchanged
    ensures r.Err? <==> D.Deploy(req, env.config, env.compiled, st.deployment, st.registry, st.chain, env.link, env.client).result.Err?
    ensures r.Err? ==> r.error == D.Deploy(req, env.config, env.compiled, st.deployment, st.registry, st.chain, env.link, env.client).result.error
    // a skipped contract leaves every record as it was
    ensures r.Ok? && r.value.0.None? <==> req.name !in env.config && !req.force
    ensures r.Ok? && r.value.0.None? ==> r.value.1 == st
    ensures r.Ok? && r.value.0.Some? ==>
              var h := r.value.0.value;
              var st' := r.value.1;
              req.source in env.compiled
              && st'.registry == st.registry[req.name := h]
              // the target entry, with the timestamp and transaction of the reused entry
              && (Reused(env, req.name) ==> req.name in st.deployment.targets
                                             && h.address == st.deployment.targets[req.name].address
                                             && st'.chain == st.chain)
              && st'.deployment.targets == st.deployment.targets[req.name := Target(
                   req.name, h.address, req.source, TronscanLink(env.network, env.fromHex(h.address)),
                   if Reused(env, req.name) then st.deployment.targets[req.name].timestamp else Str(env.now),
                   if Reused(env, req.name) then st.deployment.targets[req.name].txn else Str(""),
                   env.network)]
              // the artifact as compiled, before linking
              && st'.deployment.sources == st.deployment.sources[req.source :=
                   SourceEntry(env.compiled[req.source].bytecode, env.compiled[req.source].abi)]
              && st'.deploymentFile == st'.deployment
              // off the local network the contract is flagged as no longer needing deployment
              && (env.network != "local" ==> st'.updatedConfig == st.updatedConfig[req.name := ConfigEntry(false)]
                                             && st'.configFile == st'.updatedConfig)
              && (env.network == "local" ==> st'.updatedConfig == st.updatedConfig && st'.configFile == st.configFile)
              && st'.newlyDeployed == st.newlyDeployed + (if h.deployed then [Deployed(req.name, h.address)] else [])
              && st'.queue == st.queue && st'.vars == st.vars
  {
    var out := D.Deploy(req, env.config, env.compiled, st.deployment, st.registry, st.chain, env.link, env.client);
    match out.result
    case Err(e) => Err(e)
    case Ok(None) => Ok((None, st))
    case Ok(Some(m)) =>
      var h := m.handle;
      var previous := if Reused(env, req.name) then Some(st.deployment.targets[req.name]) else None;
      var timestamp := if previous.Some? then previous.value.timestamp else Str(env.now);
      var txn := if previous.Some? then previous.value.txn else Str("");
      var target := Target(req.name, h.address, req.source, TronscanLink(env.network, env.fromHex(h.address)),
                           timestamp, txn, env.network);
      var artifact := env.compiled[req.source];
      var deployment := Deployment(st.deployment.targets[req.name := target],
                                   st.deployment.sources[req.source := SourceEntry(artifact.bytecode, artifact.abi)]);
      var config := if env.network != "local" then st.updatedConfig[req.name := ConfigEntry(false)] else st.updatedConfig;
      var configFile := if env.network != "local" then config else st.configFile;
      var newly := if h.deployed then st.newlyDeployed + [Deployed(req.name, h.address)] else st.newlyDeployed;
      Ok((Some(h), st.(registry := out.registry, deployment := deployment, deploymentFile := deployment,
                       updatedConfig := config, configFile := configFile, newlyDeployed := newly,
                       chain := out.chain)))
  }

  /** A materialised contract's handle is never at the empty address: a reuse
      needs a manifest address and a creation one the client reports. */
  lemma MaterializedAddress(req: D.Request, st: RunState, env: Env)
    ensures var r := DeployContract(req, st, env);
            SaneClient(env.client) && r.Ok? && r.value.0.Some? ==> r.value.0.value.address != ""
  {
    var r := DeployContract(req, st, env);
    if SaneClient(env.client) && r.Ok? && r.value.0.Some? {
      var out := D.Deploy(req, env.config, env.compiled, st.deployment, st.registry, st.chain, env.link, env.client);
      var m := out.result.value.value;
      if m.created {
        var answer := env.client.create(st.chain, m.bytecode, req.args);
        assert answer.Created?;
      }
    }
  }

  lemma DeployContractResumes(req: D.Request, st: RunState, env: Env)
    ensures var r := DeployContract(req, st, env);
            Durable(st) && SaneClient(env.client) && Resumable(st, env) && r.Ok? ==> Resumable(r.value.1, env)
  {
    var r := DeployContract(req, st, env);
    if Durable(st) && SaneClient(env.client) && Resumable(st, env) && r.Ok? && r.value.0.Some? {
      MaterializedAddress(req, st, env);
      var st' := r.value.1;
      forall n | n in st'.registry
        ensures n in st'.deploymentFile.targets
                && st'.deploymentFile.targets[n].address == st'.registry[n].address
                && st'.registry[n].address != ""
                && (env.network != "local" ==> n in st'.configFile && !st'.configFile[n].deploy)
      {
        if n != req.name {
          assert n in st.registry;
        }
      }
    }
  }

  /** The value of an operand when its step runs. */
  function Eval(o: Operand, st: RunState, env: Env): (r: Result<Value, Failure>)
    ensures r.Err? ==> o.AddressOf? && r.error == NoHandle(o.name)
    ensures r.Err? <==> o.AddressOf? && o.name !in st.registry
    ensures (o.AddressOf? || o.AddressOr?) && o.name in st.registry ==> r == Ok(Str(st.registry[o.name].address))
    ensures o.AddressOr? && o.name !in st.registry ==> r == Ok(Str(""))
  {
    match o
    case Account => Ok(Str(env.account))
    case Lit(v) => Ok(v)
    case AddressOr(n) => Ok(Str(if n in st.registry then st.registry[n].address else ""))
    case AddressOf(n) => if n in st.registry then Ok(Str(st.registry[n].address)) else Err(NoHandle(n))
    case Var(n) => Ok(if n in st.vars then st.vars[n] else Undefined)
  }

  /** An array literal of operands, evaluated left to right. */
  function EvalAll(os: seq<Operand>, st: RunState, env: Env): (r: Result<seq<Value>, Failure>)
    ensures r.Err? ==> r.error.NoHandle?
    ensures r.Ok? <==> forall i :: 0 <= i < |os| ==> Eval(os[i], st, env).Ok?
    ensures r.Ok? ==> |r.value| == |os| && forall i :: 0 <= i < |os| ==> Eval(os[i], st, env) == Ok(r.value[i])
  {
    if |os| == 0 then Ok([])
    else
      match Eval(os[0], st, env)
      case Err(f) => Err(f)
      case Ok(v) =>
        var rest := EvalAll(os[1..], st, env);
        assert forall i :: 1 <= i < |os| ==> os[i] == os[1..][i - 1];
        match rest
        case Err(f) => Err(f)
        case Ok(vs) => Ok([v] + vs)
  }

  function EvalArg(a: Arg, st: RunState, env: Env): (r: Result<Value, Failure>)
    ensures r.Err? ==> r.error.NoHandle?
  {
    match a
    case NoArg => Ok(Undefined)
    case One(o) => Eval(o, st, env)
    case Many(os) => match EvalAll(os, st, env) { case Err(f) => Err(f) case Ok(vs) => Ok(List(vs)) }
  }

  function EvalExpect(e: Expect, st: RunState, env: Env): (r: Result<R.Expectation, Failure>)
    ensures r.Err? ==> r.error.NoHandle?
  {
    match e
    case IsValue(o) => match Eval(o, st, env) { case Err(f) => Err(f) case Ok(v) => Ok(R.StrictlyEquals(v)) }
    case IsNumber(n) => Ok(R.NumberIs(n))
  }

  /** An `if` condition, with JavaScript's short-circuit evaluation: the right
      operand of `&&` is evaluated only when the left one holds. */
  function Test(c: Cond, st: RunState, env: Env): (r: Result<bool, Failure>)
    ensures r.Err? ==> r.error.NoConfigEntry?
    ensures c.Has? ==> r == Ok(c.name in st.registry)
    ensures c.Flagged? ==> (r.Err? <==> c.name !in env.config)
    ensures c.And? ==> (r == Ok(true) <==> Test(c.a, st, env) == Ok(true) && Test(c.b, st, env) == Ok(true))
    ensures c.And? && Test(c.a, st, env) == Ok(false) ==> r == Ok(false)
    ensures c.Or? ==> (r == Ok(false) <==> Test(c.a, st, env) == Ok(false) && Test(c.b, st, env) == Ok(false))
    ensures c.Or? && Test(c.a, st, env) == Ok(true) ==> r == Ok(true)
  {
    match c
    case Always => Ok(true)
    case Has(n) => Ok(n in st.registry)
    case Flagged(n) => if n in env.config then Ok(env.config[n].deploy) else Err(NoConfigEntry(n))
    case FlagSet(n) => Ok(n in env.config && env.config[n].deploy)
    case OnNetwork(network) => Ok(env.network == network)
    case Not(a) => match Test(a, st, env) { case Err(f) => Err(f) case Ok(b) => Ok(!b) }
    case And(a, b) =>
      match Test(a, st, env) {
        case Err(f) => Err(f)
        case Ok(x) => if x then Test(b, st, env) else Ok(false)
      }
    case Or(a, b) =>
      match Test(a, st, env) {
        case Err(f) => Err(f)
        case Ok(x) => if x then Ok(true) else Test(b, st, env)
      }
  }

  /** The options of a wiring step: its arguments are evaluated when the
      options are built, and the target handle must be defined. */
  function StepOf(w: Action, st: RunState, env: Env): (r: Result<R.Step, Failure>)
    requires w.Wire?
    ensures r.Ok? ==> w.target in st.registry && r.value.target == st.registry[w.target].address
                      && r.value.contract == w.contract && r.value.read == w.read && r.value.write == w.write
    ensures w.target !in st.registry ==> r.Err?
    ensures r.Err? ==> r.error.NoHandle?
  {
    match EvalArg(w.readArg, st, env)
    case Err(f) => Err(f)
    case Ok(readArg) =>
      match EvalArg(w.writeArg, st, env)
      case Err(f) => Err(f)
      case Ok(writeArg) =>
        if w.target !in st.registry then Err(NoHandle(w.target))
        else
          match EvalExpect(w.expected, st, env)
          case Err(f) => Err(f)
          case Ok(expected) =>
            Ok(R.Step(w.contract, st.registry[w.target].address, w.read, readArg, expected, w.write, writeArg))
  }

  /** The properties every action keeps: a failing action leaves the state
      as it was, what was durable stays durable, what a later run can resume
      from stays resumable, and nothing recorded is dropped. */
  ghost predicate Sound(st: RunState, r: Run, env: Env) {
    (r.end != Continue ==> r.state == st)
    && (Durable(st) ==> Durable(r.state))
    && (Durable(st) && SaneClient(env.client) && Resumable(st, env) ==> Resumable(r.state, env))
    && Grows(st, r.state)
  }

  /** A `deployContract` call with its arguments evaluated. */
  function MaterializeStep(a: Action, st: RunState, env: Env): (r: Run)
    requires a.Materialize?
    ensures Sound(st, r, env)
    ensures r.end != Cancelled
    ensures r.end.Aborted? ==> r.end.failure.DeployFailed? || r.end.failure.NoHandle?
    ensures r.state.queue == st.queue && r.state.vars == st.vars
  {
    match EvalAll(a.args, st, env)
    case Err(f) => Run(st, Aborted(f))
    case Ok(vs) =>
      var req := D.Request(a.name, a.source, vs, a.deps, a.force);
      match DeployContract(req, st, env)
      case Err(e) => Run(st, Aborted(DeployFailed(e)))
      case Ok(res) =>
        DeployContractResumes(req, st, env);
        Run(res.1, Continue)
  }

  /** A `runStep` call: the reconciler, with the run's owner-action queue. */
  function WireStep(a: Action, st: RunState, env: Env): (r: Run)
    requires a.Wire?
    ensures Sound(st, r, env)
    ensures r.end != Cancelled
    ensures r.end.Aborted? ==> r.end.failure.StepFailed? || r.end.failure.NoHandle?
    ensures r.state.registry == st.registry && r.state.deployment == st.deployment
            && r.state.deploymentFile == st.deploymentFile
            && r.state.updatedConfig == st.updatedConfig && r.state.configFile == st.configFile
            && r.state.newlyDeployed == st.newlyDeployed && r.state.vars == st.vars
  {
    match StepOf(a, st, env)
    case Err(f) => Run(st, Aborted(f))
    case Ok(step) =>
      match R.Reconcile(step, env.accountHex, st.chain, Some(st.queue), env.prefix, env.answer(R.Action(step)), env.effect)
      case Err(f) => Run(st, Aborted(StepFailed(f)))
      case Ok(report) =>
        assert report.queue.Some?;
        Run(st.(chain := report.chain, queue := report.queue.value), Continue)
  }

  /** The actions that only read, record a value, or ask the operator. */
  function LocalStep(a: Action, st: RunState, env: Env): (r: Run)
    requires !a.Materialize? && !a.Wire?
    ensures r.end != Continue ==> r.state == st
    ensures r.state == st.(vars := r.state.vars)
    ensures a.Confirm? ==> r.state == st && (r.end == Cancelled <==> !ContainsYes(env.answer(a.message)))
    ensures r.end == Cancelled ==> a.Confirm?
    ensures r.end.Aborted? ==> !r.end.failure.DeployFailed?
  {
    match a
    case ReadInto(variable, handle, call) =>
      if handle !in st.registry then Run(st, Aborted(NoHandle(handle)))
      else
        var address := st.registry[handle].address;
        match View(st.chain, address, Call(call, [])) {
          case None => Run(st, Aborted(ReadFailed(address, Call(call, []))))
          case Some(v) => Run(st.(vars := st.vars[variable := v]), Continue)
        }
    case ReadExisting(variable, contract, call) =>
      // `getExistingContract`, inside a `try` that rethrows off the local network
      if contract !in st.deployment.targets then Run(st, Continue)
      else
        var t := st.deployment.targets[contract];
        var answer := if t.source in st.deployment.sources then View(st.chain, t.address, Call(call, [])) else None;
        if answer.Some? then Run(st.(vars := st.vars[variable := answer.value]), Continue)
        else if env.network != "local" then Run(st, Aborted(ReadFailed(t.address, Call(call, []))))
        else Run(st, Continue)
    case SetVar(variable, o) =>
      match Eval(o, st, env) {
        case Err(f) => Run(st, Aborted(f))
        case Ok(v) => Run(st.(vars := st.vars[variable := v]), Continue)
      }
    case Confirm(message) =>
      if ContainsYes(env.answer(message)) then Run(st, Continue) else Run(st, Cancelled)
  }

  /** One action, its guard already passed. */
  function Perform(a: Action, st: RunState, env: Env): (r: Run)
    ensures Sound(st, r, env)
    // only materialising changes the handles, the manifest and the flags
    ensures !a.Materialize? ==> r.state.registry == st.registry && r.state.deployment == st.deployment
                                && r.state.updatedConfig == st.updatedConfig && r.state.newlyDeployed == st.newlyDeployed
    // only wiring steps touch the chain and the queue
    ensures !a.Wire? && !a.Materialize? ==> r.state.chain == st.chain && r.state.queue == st.queue
    ensures a.Confirm? ==> (r.end == Cancelled <==> !ContainsYes(env.answer(a.message)))
    ensures r.end == Cancelled ==> a.Confirm?
    ensures r.end.Aborted? && r.end.failure.DeployFailed? ==> a.Materialize?
  {
    if a.Materialize? then MaterializeStep(a, st, env)
    else if a.Wire? then WireStep(a, st, env)
    else LocalStep(a, st, env)
  }

  /** One item: its guard decides whether the action runs at all. */
  function RunItem(item: Item, st: RunState, env: Env): (r: Run)
    ensures Test(item.guard, st, env) == Ok(false) ==> r == Run(st, Continue)
    ensures Test(item.guard, st, env).Err? ==> r == Run(st, Aborted(Test(item.guard, st, env).error))
    ensures r.end.Aborted? && r.end.failure.DeployFailed? ==>
              item.action.Materialize? && Test(item.guard, st, env) == Ok(true)
    ensures Sound(st, r, env)
  {
    match Test(item.guard, st, env)
    case Err(f) => Run(st, Aborted(f))
    case Ok(b) => if b then Perform(item.action, st, env) else Run(st, Continue)
  }

  /** The plan, item after item, until one of them ends the run. */
  function RunAll(items: seq<Item>, st: RunState, env: Env): (r: Run)
    ensures Durable(st) ==> Durable(r.state)
    ensures Durable(st) && SaneClient(env.client) && Resumable(st, env) ==> Resumable(r.state, env)
    ensures Grows(st, r.state)
    decreases |items|
  {
    if |items| == 0 then Run(st, Continue)
    else
      var first := RunItem(items[0], st, env);
      if first.end != Continue then first else RunAll(items[1..], first.state, env)
  }

  /** The plan can be run in pieces: running `a + b` is running `a` and, if
      it did not end the run, running `b` on the state it left. */
  lemma {:induction false} RunAllAppend(a: seq<Item>, b: seq<Item>, st: RunState, env: Env)
    ensures RunAll(a + b, st, env)
         == (var r := RunAll(a, st, env); if r.end == Continue then RunAll(b, r.state, env) else r)
    decreases |a|
  {
    if |a| == 0 {
      assert a + b == b;
    } else {
      assert (a + b)[0] == a[0];
      assert (a + b)[1..] == a[1..] + b;
      var first := RunItem(a[0], st, env);
      if first.end == Continue {
        RunAllAppend(a[1..], b, first.state, env);
      }
    }
  }

  /** A wiring step guarded by two handles does nothing, and cannot fail,
      unless both handles are defined. */
  lemma GuardedWireNeedsBothHandles(x: string, y: string, w: Action, st: RunState, env: Env)
    requires w.Wire?
    requires x !in st.registry || y !in st.registry
    ensures RunItem(Item(And(Has(x), Has(y)), w), st, env) == Run(st, Continue)
  {
  }

  /** Resuming after an interruption off the local network: a contract the
      interrupted run materialised is flagged `deploy: false` and recorded in
      the manifest on disk, so a run started from those files attaches to it
      at the same address without creating anything, whatever the chain
      client would answer to a creation. */
  lemma ResumeAttaches(st: RunState, env: Env, env': Env, req: D.Request, st': RunState)
    requires env.network != "local"
    requires Durable(st) && Resumable(st, env)
    requires env'.config == st.configFile
    requires req.name in st.registry
    requires ExistingAddress(st'.deployment, req.name) == st.deploymentFile.targets[req.name].address
    requires req.source in env'.compiled
    requires forall d :: d in req.deps ==> d in st'.registry
    ensures var r := DeployContract(req, st', env');
            r.Ok? && r.value.0.Some?
            && r.value.0.value.address == st.registry[req.name].address
            && r.value.1.chain == st'.chain
            && (r.value.0.value.deployed <==> env'.client.attachDeployed)
  {
    assert req.name in env'.config && !env'.config[req.name].deploy;
    D.ReuseNeedsNoCreation(req, env'.config, env'.compiled, st'.deployment, st'.registry, st'.chain,
                           env'.link, env'.client, env'.client);
  }
}
