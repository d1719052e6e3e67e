/**
 The deploy command: its entry checks (network name, connections, the
 pre-flight address check, the supply schedule) and then its fixed plan,
 core contracts and their wiring, one block per synth, the Depot, the
 ArbRewarder and DappMaintenance, run as a fold.
 */
module DeployPlan {
  import opened Base
  import opened Js
  import opened Manifest
  import opened Plan
  import Network
  import Inflation
  import Precheck
  import Synths
  import O = Orchestrator
  import Tron
  import OwnerActions

  /** The options and earlier reads the plan depends on, as they stand once
      the entry reads are done: `oracleExrates` is the option, the old
      ExchangeRates' oracle, or the account, whichever the reads settled on.
      `zeroAddress` is `ZERO_ADDRESS` (the constants file is not part of this
      model); `toBytes32` and `isAddress` are the helpers of the same names. */
  datatype Options = Options(
    addNewSynths: bool,
    yes: bool,
    zeroAddress: string,
    oracleExrates: Value,
    currentSynthetixPrice: Value,
    currentExchangeFee: Value,
    toBytes32: string -> string,
    isAddress: string -> bool)

  /** `toWei('100000000')`, the token state balance a redeployment resets. */
  const InitialIssuance: string := "100000000000000000000000000"
  /** The stale period set on a fresh ExchangeRates on mainnet: 30 minutes. */
  const RateStalePeriod: int := 60 * 30
  const UniswapExchange: string := "0xe9Cf7887b93150D4F2Da7dFc6D502B216438F244"

  /** An unconditional `deployContract` call without `force`. */
  function DeployItem(name: string, source: string, deps: seq<string>, args: seq<Operand>): Item {
    Item(Always, Materialize(name, source, deps, args, false))
  }

  /** The shape of most wiring steps: when both handles are defined, make
      `target.read()` answer `value`, writing `target.write(value)` if not. */
  function Link(first: string, second: string, contract: string, target: string, read: string, value: Operand, write: string): (item: Item)
    requires target == first || target == second
    ensures item.action.Wire? && item.action.target == target
    ensures item.guard == And(Has(first), Has(second))
  {
    Item(And(Has(first), Has(second)), Wire(contract, target, read, NoArg, IsValue(value), write, One(value)))
  }

  /** A linking step runs only when both handles are defined, and then never
      fails for want of its target handle. */
  lemma LinkNeedsBothHandles(first: string, second: string, contract: string, target: string, read: string, value: Operand, write: string, st: O.RunState, env: O.Env)
    requires target == first || target == second
    ensures var r := O.RunItem(Link(first, second, contract, target, read, value, write), st, env);
            (first !in st.registry || second !in st.registry ==> r == O.Run(st, O.Continue))
            && r.end != O.Aborted(O.NoHandle(target))
  {
    var item := Link(first, second, contract, target, read, value, write);
    if first in st.registry && second in st.registry {
      assert O.Test(item.guard, st, env) == Ok(true);
      var step := O.StepOf(item.action, st, env);
      assert step.Ok? || step.error != O.NoHandle(target) by {
        match value
        case AddressOf(n) =>
        case _ =>
      }
    }
  }

  /** A wiring step guarded by its own handle only (`if (arbRewarder)`). */
  function SetOn(target: string, read: string, value: Operand, write: string): (item: Item)
    ensures item.action.Wire? && item.action.target == target && item.guard == Has(target)
  {
    Item(Has(target), Wire(target, target, read, NoArg, IsValue(value), write, One(value)))
  }

  /** Contracts and wiring before the synths. */
  function CoreItems(o: Options, schedule: Inflation.Schedule): seq<Item> {
    var zero := Lit(Str(o.zeroAddress));
    [ DeployItem("SafeDecimalMath", "SafeDecimalMath", [], []),
      DeployItem("ExchangeRates", "ExchangeRates", [],
             [Account, Lit(o.oracleExrates), Lit(List([Str(o.toBytes32("OKS"))])), Lit(List([o.currentSynthetixPrice]))]),
      Item(And(And(Has("ExchangeRates"), Flagged("ExchangeRates")), OnNetwork("mainnet")),
           Wire("ExchangeRates", "ExchangeRates", "rateStalePeriod", NoArg, IsNumber(RateStalePeriod),
                "setRateStalePeriod", One(Lit(Num(RateStalePeriod))))),
      DeployItem("RewardEscrow", "RewardEscrow", [], [Account, zero, zero]),
      DeployItem("SynthetixEscrow", "SynthetixEscrow", [], [Account, zero]),
      DeployItem("SynthetixState", "SynthetixState", [], [Account, Account]),
      DeployItem("ProxyFeePool", "Proxy", [], [Account]),
      DeployItem("DelegateApprovals", "DelegateApprovals", [], [Account, zero]),
      DeployItem("FeePoolEternalStorage", "FeePoolEternalStorage", [], [Account, zero]),
      DeployItem("FeePool", "FeePool", ["ProxyFeePool"],
             [AddressOr("ProxyFeePool"), Account, zero, zero, AddressOr("FeePoolEternalStorage"),
              AddressOr("SynthetixState"), AddressOr("RewardEscrow"), zero, Lit(o.currentExchangeFee)]),
      Link("ProxyFeePool", "FeePool", "ProxyFeePool", "ProxyFeePool", "target", AddressOr("FeePool"), "setTarget"),
      Link("FeePoolEternalStorage", "FeePool", "FeePoolEternalStorage", "FeePoolEternalStorage",
           "associatedContract", AddressOr("FeePool"), "setAssociatedContract"),
      Link("DelegateApprovals", "FeePool", "FeePool", "FeePool", "delegates", AddressOf("DelegateApprovals"), "setDelegateApprovals"),
      Link("DelegateApprovals", "FeePool", "DelegateApprovals", "DelegateApprovals",
           "associatedContract", AddressOr("FeePool"), "setAssociatedContract"),
      DeployItem("FeePoolState", "FeePoolState", ["FeePool"], [Account, AddressOr("FeePool")]),
      Link("FeePool", "FeePoolState", "FeePool", "FeePool", "feePoolState", AddressOf("FeePoolState"), "setFeePoolState"),
      Link("FeePool", "FeePoolState", "FeePoolState", "FeePoolState", "feePool", AddressOr("FeePool"), "setFeePool"),
      DeployItem("RewardsDistribution", "RewardsDistribution", ["RewardEscrow", "ProxyFeePool"],
             [Account, zero, zero, AddressOr("RewardEscrow"), AddressOr("ProxyFeePool")]),
      Link("RewardsDistribution", "FeePool", "FeePool", "FeePool", "rewardsAuthority",
           AddressOf("RewardsDistribution"), "setRewardsAuthority"),
      DeployItem("SupplySchedule", "SupplySchedule", [], [Account, Lit(Num(schedule.lastMint)), Lit(Num(schedule.week))]),
      DeployItem("ProxySynthetix", "Proxy", [], [Account]),
      DeployItem("TokenStateSynthetix", "TokenState", [], [Account, Account]),
      DeployItem("Synthetix", "Synthetix",
             ["ProxySynthetix", "TokenStateSynthetix", "SynthetixState", "ExchangeRates", "FeePool",
              "SupplySchedule", "RewardEscrow", "SynthetixEscrow", "RewardsDistribution"],
             [AddressOr("ProxySynthetix"), AddressOr("TokenStateSynthetix"), AddressOr("SynthetixState"), Account,
              AddressOr("ExchangeRates"), AddressOr("FeePool"), AddressOr("SupplySchedule"), AddressOr("RewardEscrow"),
              AddressOr("SynthetixEscrow"), AddressOr("RewardsDistribution"), Lit(Str(IntString(schedule.supply)))]),
      Link("ProxySynthetix", "Synthetix", "ProxySynthetix", "ProxySynthetix", "target", AddressOr("Synthetix"), "setTarget"),
      Link("Synthetix", "FeePool", "Synthetix", "Synthetix", "feePool", AddressOr("FeePool"), "setFeePool"),
      Link("Synthetix", "FeePool", "FeePool", "FeePool", "synthetix", AddressOr("Synthetix"), "setSynthetix"),
      Link("Synthetix", "ExchangeRates", "Synthetix", "Synthetix", "exchangeRates", AddressOr("ExchangeRates"), "setExchangeRates"),
      Item(And(Has("TokenStateSynthetix"), Flagged("TokenStateSynthetix")),
           Wire("TokenStateSynthetix", "TokenStateSynthetix", "balanceOf", One(Account), IsValue(Lit(Str(InitialIssuance))),
                "setBalanceOf", Many([Account, Lit(Str(InitialIssuance))]))),
      Link("TokenStateSynthetix", "Synthetix", "TokenStateSynthetix", "TokenStateSynthetix",
           "associatedContract", AddressOr("Synthetix"), "setAssociatedContract"),
      Link("SynthetixState", "Synthetix", "SynthetixState", "SynthetixState",
           "associatedContract", AddressOr("Synthetix"), "setAssociatedContract"),
      Item(Has("SynthetixEscrow"), Materialize("EscrowChecker", "EscrowChecker", ["SynthetixEscrow"], [AddressOf("SynthetixEscrow")], false)),
      Link("RewardEscrow", "Synthetix", "RewardEscrow", "RewardEscrow", "synthetix", AddressOr("Synthetix"), "setSynthetix"),
      Link("RewardEscrow", "FeePool", "RewardEscrow", "RewardEscrow", "feePool", AddressOr("FeePool"), "setFeePool"),
      EscrowWiring,
      SynthetixProxyRead,
      Link("SupplySchedule", "Synthetix", "SupplySchedule", "SupplySchedule", "synthetixProxy",
           Var("synthetixProxyAddress"), "setSynthetixProxy"),
      DeployItem("ProxyERC20", "ProxyERC20", ["Synthetix"], [Account]),
      Link("Synthetix", "ProxyERC20", "ProxyERC20", "ProxyERC20", "target", AddressOr("Synthetix"), "setTarget"),
      Link("Synthetix", "ProxyERC20", "Synthetix", "Synthetix", "integrationProxy", AddressOr("ProxyERC20"), "setIntegrationProxy"),
      Link("Synthetix", "RewardsDistribution", "RewardsDistribution", "RewardsDistribution", "authority",
           AddressOr("Synthetix"), "setAuthority"),
      Link("Synthetix", "RewardsDistribution", "RewardsDistribution", "RewardsDistribution", "synthetixProxy",
           AddressOr("ProxyERC20"), "setSynthetixProxy") ]
  }

  /** Pointing SynthetixEscrow at Synthetix, guarded only by the two flags
      entries: `config[...].deploy` throws when an entry is missing, and the
      step throws when SynthetixEscrow has no handle. */
  const EscrowWiring: Item :=
    Item(Or(Flagged("Synthetix"), Flagged("SynthetixEscrow")),
         Wire("SynthetixEscrow", "SynthetixEscrow", "synthetix", NoArg, IsValue(AddressOr("Synthetix")),
              "setSynthetix", One(AddressOr("Synthetix"))))

  /** `synthetix.methods.proxy().call()`, unguarded. */
  const SynthetixProxyRead: Item := Item(Always, ReadInto("synthetixProxyAddress", "Synthetix", "proxy"))

  /** The block of one synth. */
  function SynthItems(o: Options, s: Synths.SynthSpec): seq<Item> {
    var k := s.name;
    var keyBytes := Lit(Str(o.toBytes32(k)));
    var synth := "Synth" + k;
    var source := Synths.SourceContract(s.subclass);
    [ Item(Always, Materialize("TokenState" + k, "TokenState", [], [Account, Lit(Str(o.zeroAddress))], o.addNewSynths)),
      Item(Always, Materialize("Proxy" + k, "ProxyERC20", [], [Account], o.addNewSynths)) ]
    + (if k == "sTRX" then [Item(Always, SetVar("proxysTRXAddress", AddressOf("Proxy" + k)))] else [])
    + [ Item(Always, SetVar("originalTotalSupply", Lit(Num(0)))),
        Item(FlagSet(synth), ReadExisting("originalTotalSupply", synth, "totalSupply")) ]
    + (if o.yes then [] else [Item(FlagSet(synth), Confirm(synth + " totalSupply"))])
    + [ Item(Always, Materialize(synth, source, ["TokenState" + k, "Proxy" + k, "Synthetix", "FeePool"],
                                 Synths.SynthConstructorArgs(k, o.toBytes32(k), s.subclass), o.addNewSynths)),
        Link("TokenState" + k, synth, "TokenState" + k, "TokenState" + k, "associatedContract", AddressOr(synth), "setAssociatedContract"),
        Link("Proxy" + k, synth, "Proxy" + k, "Proxy" + k, "target", AddressOr(synth), "setTarget"),
        Link("Proxy" + k, synth, synth, synth, "proxy", AddressOf("Proxy" + k), "setProxy"),
        Item(And(Has(synth), Has("Synthetix")),
             Wire("Synthetix", "Synthetix", "synths", One(keyBytes), IsValue(AddressOr(synth)), "addSynth", One(AddressOr(synth)))),
        Link(synth, "Synthetix", synth, synth, "synthetixProxy", Var("synthetixProxyAddress"), "setSynthetixProxy"),
        Link("ProxyFeePool", synth, synth, synth, "feePoolProxy", AddressOf("ProxyFeePool"), "setFeePoolProxy") ]
    + (if s.aggregator != "" && o.isAddress(s.aggregator)
       then [Item(Has("ExchangeRates"),
                  Wire("ExchangeRates", "ExchangeRates", "aggregators", One(keyBytes), IsValue(Lit(Str(s.aggregator))),
                       "addAggregator", Many([keyBytes, Lit(Str(s.aggregator))])))]
       else [])
    + (if s.subclass == "PurgeableSynth"
       then [Link(synth, "ExchangeRates", synth, synth, "exchangeRates", AddressOr("ExchangeRates"), "setExchangeRates")]
       else [])
  }

  function AllSynthItems(o: Options, synths: seq<Synths.SynthSpec>): seq<Item>
    decreases |synths|
  {
    if |synths| == 0 then [] else SynthItems(o, synths[0]) + AllSynthItems(o, synths[1..])
  }

  /** The Depot's synth, set without checking that the Depot has a handle. */
  const DepotWiring: Item :=
    Item(Always, Wire("Depot", "Depot", "synth", NoArg, IsValue(AddressOr("SynthsUSD")), "setSynth", One(AddressOr("SynthsUSD"))))

  function TailItems(): seq<Item> {
    [ DeployItem("Depot", "Depot", ["ProxySynthetix", "SynthsUSD", "FeePool"],
             [Account, Account, AddressOr("Synthetix"), AddressOr("SynthsUSD")]),
      DepotWiring,
      DeployItem("ArbRewarder", "ArbRewarder", ["Synthetix", "ExchangeRates"], [Account]),
      SetOn("ArbRewarder", "exchangeRates", AddressOf("ExchangeRates"), "setExchangeRates"),
      SetOn("ArbRewarder", "synthetixProxy", AddressOr("ProxyERC20"), "setSynthetix"),
      SetOn("ArbRewarder", "uniswapAddress", Lit(Str(UniswapExchange)), "setUniswapExchange"),
      SetOn("ArbRewarder", "synth", Var("proxysTRXAddress"), "setSynthAddress"),
      DeployItem("DappMaintenance", "DappMaintenance", [], [Account]) ]
  }

  /** The whole plan, after the operator's confirmation unless `yes`. */
  function Items(o: Options, schedule: Inflation.Schedule, synths: seq<Synths.SynthSpec>): seq<Item> {
    (if o.yes then [] else [Item(Always, Confirm("deploy"))])
    + CoreItems(o, schedule) + AllSynthItems(o, synths) + TailItems()
  }

  /** How the command ended: an exception before any deployment (bad network,
      no key, addresses missing), an early return with exit code 1 (an old
      contract unreadable, an invalid address), or a run of the plan. */
  datatype Outcome = Rejected(reason: string) | Exited(reason: string) | Ran(run: O.Run)

  /** Whether reading the old FeePool's exchange fee and the old
      ExchangeRates' price threw (the Synthetix read is `PriorSynthetix`). */
  datatype PriorReads = PriorReads(feePoolThrew: bool, exchangeRatesThrew: bool)

  const CannotConnectFeePool: string :=
    "Cannot connect to existing FeePool contract. Please double check the deploymentPath is correct for the network allocated"
  const CannotConnectExchangeRates: string :=
    "Cannot connect to existing ExchangeRates contract. Please double check the deploymentPath is correct for the network allocated"
  const InvalidAddress: string := "Invalid address detected (please check your inputs):"

  /** The FeePool and ExchangeRates reads either succeeded or fell back on
      the local network. */
  predicate ReadsSettled(network: string, lookups: PriorReads) {
    network == "local" || (!lookups.feePoolThrew && !lookups.exchangeRatesThrew)
  }

  /** `TronWeb.isAddress` on a value: only a string can be an address. */
  predicate IsAddressValue(o: Options, v: Value) {
    v.Str? && o.isAddress(v.s)
  }

  /** Why the entry reads ended the command. */
  datatype EntryExit =
    | SynthetixUnreachable
    | FeePoolUnreachable
    | ExchangeRatesUnreachable
    | BadAddress(address: string)   // as printed after the message

  /** What the command prints before it returns with exit code 1. */
  function ExitMessage(e: EntryExit): string {
    match e
    case SynthetixUnreachable => Inflation.CannotConnect
    case FeePoolUnreachable => CannotConnectFeePool
    case ExchangeRatesUnreachable => CannotConnectExchangeRates
    case BadAddress(address) => InvalidAddress + " " + address
  }

  /** The reads of the old Synthetix, FeePool and ExchangeRates, in that
      order, each falling back on the local network and ending the command
      elsewhere, then the address check of the account, the ExchangeRates
      oracle and the Depot oracle (which is the account). */
  function EntryReads(o: Options, network: string, account: string, prior: Inflation.PriorSynthetix, lookups: PriorReads): (r: Result<Inflation.Schedule, EntryExit>)
    ensures r == Err(SynthetixUnreachable) <==> Inflation.CurrentSchedule(prior, network).Err?
    ensures r == Err(FeePoolUnreachable) <==>
              Inflation.CurrentSchedule(prior, network).Ok? && network != "local" && lookups.feePoolThrew
    ensures r == Err(ExchangeRatesUnreachable) <==>
              Inflation.CurrentSchedule(prior, network).Ok? && network != "local"
              && !lookups.feePoolThrew && lookups.exchangeRatesThrew
    // the account is checked before the oracle
    ensures r.Err? && r.error.BadAddress? <==>
              Inflation.CurrentSchedule(prior, network).Ok? && ReadsSettled(network, lookups)
              && !(o.isAddress(account) && IsAddressValue(o, o.oracleExrates))
    ensures r.Err? && r.error.BadAddress? ==>
              r.error.address == if !o.isAddress(account) then account else ToJsString(o.oracleExrates)
    ensures r.Ok? <==>
              Inflation.CurrentSchedule(prior, network).Ok? && ReadsSettled(network, lookups)
              && o.isAddress(account) && IsAddressValue(o, o.oracleExrates)
    ensures r.Ok? ==> r.value == Inflation.CurrentSchedule(prior, network).value
  {
    match Inflation.CurrentSchedule(prior, network)
    case Err(_) => Err(SynthetixUnreachable)
    case Ok(schedule) =>
      if network != "local" && lookups.feePoolThrew then Err(FeePoolUnreachable)
      else if network != "local" && lookups.exchangeRatesThrew then Err(ExchangeRatesUnreachable)
      else if !o.isAddress(account) then Err(BadAddress(account))
      else if !IsAddressValue(o, o.oracleExrates) then Err(BadAddress(ToJsString(o.oracleExrates)))
      else Ok(schedule)
  }

  /** `deploy`: the entry checks, then the plan from the files as loaded.
      The explorer prefix comes from `loadConnections`. */
  function DeployCommand(
    o: Options, env: O.Env, processEnv: Network.Environment, deployment: Deployment, deploymentFile: string,
    chain: Tron.Chain, queue: map<string, OwnerActions.Entry>, queueFile: string,
    prior: Inflation.PriorSynthetix, lookups: PriorReads, synths: seq<Synths.SynthSpec>): (r: Outcome)
    ensures r.Rejected? <==>
              Network.EnsureNetwork(env.network).Err?
              || Precheck.Check(env.config, deployment, env.network, deploymentFile).Err?
              || Network.LoadConnections(env.network, processEnv).Err?
    ensures r.Exited? <==> !r.Rejected? && EntryReads(o, env.network, env.account, prior, lookups).Err?
    ensures r.Exited? ==> r.reason == ExitMessage(EntryReads(o, env.network, env.account, prior, lookups).error)
    // a run starts from the files as loaded and keeps them durable and resumable
    ensures r.Ran? ==>
              var env' := env.(prefix := Network.LoadConnections(env.network, processEnv).value.tronscanLinkPrefix);
              var schedule := EntryReads(o, env.network, env.account, prior, lookups).value;
              r.run == RunPlan(Items(o, schedule, synths), env', deployment, chain, queue, queueFile)
              && O.Durable(r.run.state)
              && (O.SaneClient(env.client) ==> O.Resumable(r.run.state, env'))
  {
    match Network.EnsureNetwork(env.network)
    case Err(e) => Rejected(e)
    case Ok(_) =>
      match Precheck.Check(env.config, deployment, env.network, deploymentFile)
      case Err(_) => Rejected("Cannot use existing contracts for deployment as addresses not found for the following contracts on " + env.network)
      case Ok(_) =>
        match Network.LoadConnections(env.network, processEnv)
        case Err(e) => Rejected(e)
        case Ok(connections) =>
          match EntryReads(o, env.network, env.account, prior, lookups)
          case Err(e) => Exited(ExitMessage(e))
          case Ok(schedule) =>
            var env' := env.(prefix := connections.tronscanLinkPrefix);
            Ran(RunPlan(Items(o, schedule, synths), env', deployment, chain, queue, queueFile))
  }

  /** A plan run from the files as loaded: the files stay durable and, with a
      client that never reports the empty address, resumable. */
  function RunPlan(plan: seq<Item>, env: O.Env, deployment: Deployment, chain: Tron.Chain,
                   queue: map<string, OwnerActions.Entry>, queueFile: string): (r: O.Run)
    ensures O.Durable(r.state)
    ensures O.SaneClient(env.client) ==> O.Resumable(r.state, env)
    ensures O.Grows(O.Start(env, deployment, chain, queue, queueFile), r.state)
  {
    O.RunAll(plan, O.Start(env, deployment, chain, queue, queueFile), env)
  }

  /** The Depot step is not guarded: a run that gets there without a Depot
      handle (Depot not flagged, say) throws at that step. */
  lemma DepotStepNeedsDepot(st: O.RunState, env: O.Env)
    requires "Depot" !in st.registry
    ensures O.RunItem(DepotWiring, st, env) == O.Run(st, O.Aborted(O.NoHandle("Depot")))
  {
  }

  /** Likewise the proxy read: a run that reaches it without a Synthetix
      handle throws there. */
  lemma ProxyReadNeedsSynthetix(st: O.RunState, env: O.Env)
    requires "Synthetix" !in st.registry
    ensures O.RunItem(SynthetixProxyRead, st, env) == O.Run(st, O.Aborted(O.NoHandle("Synthetix")))
  {
  }

  /** The escrow step reads two flags entries; with neither flagged it does
      nothing, and with a flag set but no SynthetixEscrow handle it throws. */
  lemma EscrowWiringGuard(st: O.RunState, env: O.Env)
    ensures "Synthetix" !in env.config ==> O.RunItem(EscrowWiring, st, env) == O.Run(st, O.Aborted(O.NoConfigEntry("Synthetix")))
    ensures "Synthetix" in env.config && "SynthetixEscrow" in env.config
            && !env.config["Synthetix"].deploy && !env.config["SynthetixEscrow"].deploy ==>
              O.RunItem(EscrowWiring, st, env) == O.Run(st, O.Continue)
    ensures "Synthetix" in env.config && env.config["Synthetix"].deploy && "SynthetixEscrow" !in st.registry ==>
              O.RunItem(EscrowWiring, st, env) == O.Run(st, O.Aborted(O.NoHandle("SynthetixEscrow")))
  {
  }
}
