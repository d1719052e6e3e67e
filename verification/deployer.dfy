/**
 The component deployer, `Deployer.deploy`: skip a contract the flags file
 does not mention, refuse one whose dependencies are not yet materialised or
 whose artifact is missing, link the shared libraries into its bytecode, and
 then either deploy it afresh or attach to the address the manifest already
 holds, recording the handle in the run's registry (`deployedContracts`).
 */
module Deployer {
  import opened Base
  import opened Js
  import opened Tron
  import opened Manifest

  /** `compiled[source]`: its ABI and `evm.bytecode.object`. */
  datatype Compiled = Compiled(abi: string, bytecode: string)

  /** A contract handle: its address, ABI, and TronWeb's `deployed` flag. */
  datatype Handle = Handle(address: string, abi: string, deployed: bool)

  /** The options of one `deploy` call. */
  datatype Request = Request(name: string, source: string, args: seq<Value>, deps: seq<string>, force: bool)

  /** What the chain client answers to a contract creation. */
  datatype Creation = Created(address: string, contract: Contract) | Rejected(reason: string)

  /** The chain client as the deployer uses it: `contract().new(...)` answers
      a creation from the chain, the linked bytecode and the constructor
      arguments; `attachDeployed` is the `deployed` flag TronWeb reports on a
      handle attached to an existing address. */
  datatype Client = Client(create: (Chain, string, seq<Value>) -> Creation, attachDeployed: bool)

  /** `linker.linkBytecode(bytecode, {[file]: {[library]: address}})`. */
  type Linker = (string, string, string, string) -> string

  /** `deployedContracts`: the handles materialised so far in this run. */
  type Registry = map<string, Handle>

  datatype Error =
    | MissingDependencies(name: string, missing: seq<string>)
    | MissingArtifact(name: string, source: string)
    | NoExistingAddress(name: string)
    | DeploymentFailed(name: string, reason: string)

  /** A materialised contract: its handle, the linked bytecode, and whether a
      creation was submitted for it. */
  datatype Materialized = Materialized(handle: Handle, bytecode: string, created: bool)

  /** `Ok(None)` is the skip (`deploy` returns `undefined`). */
  datatype Outcome = Outcome(result: Result<Option<Materialized>, Error>, registry: Registry, chain: Chain)

  /** The libraries linked into every deployed contract, in this order. */
  const Libraries: seq<string> := ["SafeDecimalMath", "Math"]

  /** `deps.filter(d => !this.deployedContracts[d])`. */
  function MissingDeps(deps: seq<string>, registry: Registry): (r: seq<string>)
    ensures forall d :: d in r <==> d in deps && d !in registry
    ensures |r| <= |deps|
    ensures (forall d :: d in deps ==> d !in registry) ==> r == deps
    ensures (forall d :: d in deps ==> d in registry) ==> r == []
  {
    if |deps| == 0 then []
    else (if deps[0] in registry then [] else [deps[0]]) + MissingDeps(deps[1..], registry)
  }

  /** `let deploy = force; if (this.config[name]) deploy = this.config[name].deploy`. */
  function DeployFlag(config: Config, req: Request): bool {
    if req.name in config then config[req.name].deploy else req.force
  }

  /** `addr.replace(/^41/, '0x')`, the form solc's linker accepts. */
  function LibraryAddress(address: string): string {
    ReplaceLeading41(address)
  }

  /** The linking loop over `libs`: each library already in the registry is
      linked at its rewritten address; the others are passed over. */
  function LinkLibraries(bytecode: string, file: string, libs: seq<string>, registry: Registry, link: Linker): string
    decreases |libs|
  {
    if |libs| == 0 then bytecode
    else
      var linked := if libs[0] in registry
                    then link(bytecode, file, libs[0], LibraryAddress(registry[libs[0]].address))
                    else bytecode;
      LinkLibraries(linked, file, libs[1..], registry, link)
  }

  /** `Deployer.deploy`. `deployment` is the manifest as it stands in this run. */
  function Deploy(
    req: Request, config: Config, compiled: map<string, Compiled>, deployment: Deployment,
    registry: Registry, chain: Chain, link: Linker, client: Client): (r: Outcome)
    // skipped, before any other check, exactly when the contract is unflagged and not forced
    ensures r.result == Ok(None) <==> req.name !in config && !req.force
    ensures r.result.Ok? ==> r.result == Ok(None) || r.result.value.Some?
    // every failure, and the skip, leave the registry and the chain as they were
    ensures r.result.Err? || r.result == Ok(None) ==> r.registry == registry && r.chain == chain
    // missing dependencies come next, all of them named, before the artifact check
    ensures (req.name in config || req.force) && MissingDeps(req.deps, registry) != [] <==>
              r.result == Err(MissingDependencies(req.name, MissingDeps(req.deps, registry)))
    ensures r.result.Err? && r.result.error.MissingArtifact? <==>
              (req.name in config || req.force) && MissingDeps(req.deps, registry) == []
              && req.source !in compiled
    ensures r.result.Err? && r.result.error.DeploymentFailed? <==>
              (req.name in config || req.force) && MissingDeps(req.deps, registry) == []
              && req.source in compiled && DeployFlag(config, req)
              && client.create(chain, LinkLibraries(compiled[req.source].bytecode, req.source + ".sol", Libraries, registry, link), req.args).Rejected?
    ensures r.result.Err? && r.result.error.NoExistingAddress? <==>
              (req.name in config || req.force) && MissingDeps(req.deps, registry) == []
              && req.source in compiled && !DeployFlag(config, req)
              && ExistingAddress(deployment, req.name) == ""
    // a materialised contract had its dependencies and artifact, and joins the registry
    ensures r.result.Ok? && r.result.value.Some? ==>
              var m := r.result.value.value;
              (forall d :: d in req.deps ==> d in registry)
              && req.source in compiled
              && r.registry == registry[req.name := m.handle]
              && m.handle.abi == compiled[req.source].abi
              && m.bytecode == LinkLibraries(compiled[req.source].bytecode, req.source + ".sol", Libraries, registry, link)
              && m.created == DeployFlag(config, req)
    // reuse: the manifest's address, no creation, no chain change
    ensures r.result.Ok? && r.result.value.Some? && !r.result.value.value.created ==>
              var m := r.result.value.value;
              req.name in deployment.targets
              && m.handle.address == deployment.targets[req.name].address
              && m.handle.address != ""
              && m.handle.deployed == client.attachDeployed
              && r.chain == chain
    // deployment: the client's creation is mined
    ensures r.result.Ok? && r.result.value.Some? && r.result.value.value.created ==>
              var m := r.result.value.value;
              var answer := client.create(chain, m.bytecode, req.args);
              answer.Created? && m.handle.address == answer.address && m.handle.deployed
              && r.chain == Create(chain, answer.address, answer.contract)
  {
    if req.name !in config && !req.force then
      Outcome(Ok(None), registry, chain)
    else
      var missing := MissingDeps(req.deps, registry);
      if missing != [] then
        Outcome(Err(MissingDependencies(req.name, missing)), registry, chain)
      else
        var deploy := DeployFlag(config, req);
        var existing := ExistingAddress(deployment, req.name);
        if req.source !in compiled then
          Outcome(Err(MissingArtifact(req.name, req.source)), registry, chain)
        else
          var artifact := compiled[req.source];
          var bytecode := LinkLibraries(artifact.bytecode, req.source + ".sol", Libraries, registry, link);
          if deploy then
            match client.create(chain, bytecode, req.args)
            case Rejected(reason) =>
              Outcome(Err(DeploymentFailed(req.name, reason)), registry, chain)
            case Created(address, contract) =>
              var handle := Handle(address, artifact.abi, true);
              Outcome(Ok(Some(Materialized(handle, bytecode, true))), registry[req.name := handle],
                      Create(chain, address, contract))
          else if existing != "" then
            var handle := Handle(existing, artifact.abi, client.attachDeployed);
            Outcome(Ok(Some(Materialized(handle, bytecode, false))), registry[req.name := handle], chain)
          else
            Outcome(Err(NoExistingAddress(req.name)), registry, chain)
  }

  /** With none of the libraries materialised, linking leaves the bytecode
      as compiled. */
  lemma {:induction false} LinkingWithoutLibraries(bytecode: string, file: string, libs: seq<string>, registry: Registry, link: Linker)
    requires forall l :: l in libs ==> l !in registry
    ensures LinkLibraries(bytecode, file, libs, registry, link) == bytecode
    decreases |libs|
  {
    if |libs| > 0 {
      LinkingWithoutLibraries(bytecode, file, libs[1..], registry, link);
    }
  }

  /** Linking is speculative: bytecode without a placeholder for any library
      (the linker leaves it as it is) comes out unchanged. */
  lemma {:induction false} LinkingWithoutPlaceholders(bytecode: string, file: string, libs: seq<string>, registry: Registry, link: Linker)
    requires forall l, a :: link(bytecode, file, l, a) == bytecode
    ensures LinkLibraries(bytecode, file, libs, registry, link) == bytecode
    decreases |libs|
  {
    if |libs| > 0 {
      LinkingWithoutPlaceholders(bytecode, file, libs[1..], registry, link);
    }
  }

  /** The loop links SafeDecimalMath first and Math second, each only once it
      is materialised, at its address with `41` rewritten to `0x`. */
  lemma LinkingOrder(bytecode: string, file: string, registry: Registry, link: Linker)
    ensures var sdm := "SafeDecimalMath" in registry;
            var math := "Math" in registry;
            var afterSdm := if sdm then link(bytecode, file, "SafeDecimalMath", LibraryAddress(registry["SafeDecimalMath"].address))
                            else bytecode;
            LinkLibraries(bytecode, file, Libraries, registry, link)
              == if math then link(afterSdm, file, "Math", LibraryAddress(registry["Math"].address)) else afterSdm
  {
    var libs := Libraries;
    assert libs[1..] == ["Math"];
    assert libs[1..][1..] == [];
  }

  /** No redundant deploy: a contract flagged `deploy: false` whose address is
      in the manifest is attached there, whatever the chain client would have
      answered to a creation, and the chain is left as it was. */
  lemma ReuseNeedsNoCreation(
    req: Request, config: Config, compiled: map<string, Compiled>, deployment: Deployment,
    registry: Registry, chain: Chain, link: Linker, client: Client, client': Client)
    requires req.name in config && !config[req.name].deploy
    requires ExistingAddress(deployment, req.name) != ""
    requires req.source in compiled
    requires forall d :: d in req.deps ==> d in registry
    requires client'.attachDeployed == client.attachDeployed
    ensures var r := Deploy(req, config, compiled, deployment, registry, chain, link, client);
            r == Deploy(req, config, compiled, deployment, registry, chain, link, client')
            && r.result.Ok? && r.result.value.Some? && !r.result.value.value.created
            && r.result.value.value.handle.address == deployment.targets[req.name].address
            && r.chain == chain
  {
  }

  /** Dependency order: a request naming a dependency not yet materialised
      fails; once every dependency is in the registry it no longer fails for
      that reason. */
  lemma DependenciesFirst(
    req: Request, config: Config, compiled: map<string, Compiled>, deployment: Deployment,
    registry: Registry, registry': Registry, chain: Chain, link: Linker, client: Client)
    requires req.name in config || req.force
    requires exists d :: d in req.deps && d !in registry
    requires forall d :: d in req.deps ==> d in registry'
    ensures Deploy(req, config, compiled, deployment, registry, chain, link, client).result.Err?
    ensures Deploy(req, config, compiled, deployment, registry, chain, link, client).result.error.MissingDependencies?
    ensures !Deploy(req, config, compiled, deployment, registry', chain, link, client).result.Err?
            || !Deploy(req, config, compiled, deployment, registry', chain, link, client).result.error.MissingDependencies?
  {
    var d :| d in req.deps && d !in registry;
    assert d in MissingDeps(req.deps, registry);
  }
}
