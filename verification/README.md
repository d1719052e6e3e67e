# Deploy-or-reuse and reconcile engine of the oikos publish tooling

The oikos publish tooling deploys the Synthetix-style contract system to a
Tron network (local, mainnet, shasta, tronex, nile). A run reads a contract
flags file (which contracts to deploy afresh), a deployment manifest (where
each contract already lives) and the compiled artifacts. It then works
through a fixed plan. Each contract is either deployed or attached to the
manifest's address. After each contract the manifest and the flags file are
rewritten. Each wiring step reads an on-chain value and writes it only if it
differs. The write is sent when the deploying account owns the contract.
Otherwise it is queued for the owner, or the operator is asked to make it by
hand. Because each contract is recorded as soon as it exists, a run that
stops part-way can be started again from the files it left.

This project models that engine in Dafny as pure functions over immutable
state:

- `Deployer` is the component deployer.
- `Reconciler` is the step reconciler (`performTransactionalStep`).
- `OwnerActions` is the owner-action queue.
- `Network` covers network selection and connections.
- `Precheck` is the pre-flight check that reused contracts have addresses.
- `Orchestrator` is the plan fold (`deployContract` and `runStep`).
- `DeployPlan` is the deploy command's plan.
- `Inflation` computes the supply schedule.
- `Synths` covers the synth list and the synth constructor arguments.
- `FeePeriods` is the fee-period import.
- `Scenarios` proves whole runs of small plans: a first run, a re-run, and an interrupted run followed by its resumption.

`Js`, `Tron`, `Base`, `Manifest` and `Plan` hold the shared vocabulary:
- JavaScript values and strict equality;
- an abstract chain of contracts with owners and view answers;
- `Result` and `Option`;
- the two files;
- the plan's items.

The chain client, the linker, what a write does to a contract, the
operator's answers, the clock and the process environment are parameters.

Where the code and its written design disagree, the model follows the code:

- A declined prompt inside a wiring step does not cancel the run. The step returns `undefined` and the run carries on (`util.js:185-200`). A declined confirmation in the command itself does end it.
- A flags entry's `deploy` field overrides the `force` option, in both directions (`Deployer.js:70-74`).
- Expectations compare with strict `===`, so a contract's answer must equal the expected address string exactly.
- On the local network the flags file is never rewritten (`deploy.js:424-427`). A local re-run therefore deploys everything again.

## Model

| member | source | states |
|---|---|---|
| Network.MatchesOneOf | publish/src/util.js:20 | an anchored alternation matches exactly when the string equals one of the alternatives |
| Network.EnsureNetwork | publish/src/util.js:19-25 | the name is accepted if and only if it is one of local, mainnet, shasta, tronex, nile; otherwise the call fails |
| Network.LoadConnections | publish/src/util.js:70-91 | it fails exactly off the local network without a truthy `DEPLOY_PRIVATE_KEY`; the provider URL follows the network, with `TRONBOX_URL` honoured only on local; the explorer prefix has no subdomain on mainnet and `<network>.` otherwise |
| Js.ContainsYes | publish/src/util.js:98 | an answer confirms exactly when it contains a `y` or a `Y` anywhere |
| Js.ReplaceLeading41 | publish/src/Deployer.js:95 | a leading `41` becomes `0x` and any other string is unchanged |
| Js.ToLower | publish/src/commands/import-fee-periods.js:91 | lower-casing keeps the length and maps each character to its lower-case form |
| Js.NatString | publish/src/commands/deploy.js:677 | the decimal rendering of a natural number is a non-empty run of digits, with no leading zero except for 0 itself |
| Js.ParseNatString | publish/src/commands/deploy.js:483 | `Number` applied to the decimal rendering of `n` gives back `n` |
| Reconciler.DropUndefined | publish/src/util.js:146 | the filter keeps exactly the defined elements, never grows the list, and leaves a list without `undefined` unchanged |
| Reconciler.Normalize | publish/src/util.js:146 | `[].concat(x)` without `undefined`: no argument for `undefined`, one argument for a scalar, and an array's defined elements |
| Reconciler.Reconcile | publish/src/util.js:125-201 | skipped if and only if the read already answers what is expected, and then nothing else happens; otherwise the owner is read first; a write is sent if and only if the account owns the target, and only then does the chain change; queued if and only if the account is not the owner and a queue file is configured; otherwise the operator is prompted and the answer decides between true and undefined; a failed read throws, and so does a numeric expectation on an `undefined` answer |
| Reconciler.ReRunAfterWriteSkips | publish/src/util.js:144-153 | once a write that establishes its read has been sent, running the same step again is skipped and changes nothing |
| Reconciler.SkippedStaysSkipped | publish/src/util.js:149-152 | a skipped step is a fixed point: running it again from the same state is skipped again, whatever the operator would answer |
| Reconciler.ReQueueLeavesQueue | publish/src/util.js:171-184 | queueing a step again rewrites its own entry unchanged, so the queue is the same after the second run as after the first |
| Reconciler.KeyMatchesActionForScalars | publish/src/util.js:139 | with one scalar argument the queue key is `<contract>.` followed by the queued action; with an `undefined` argument they differ (`w(undefined)` versus `w()`) |
| OwnerActions.Append | publish/src/util.js:104-117 | the entry under the key is replaced with an incomplete entry linking to the target's write page; every other entry is kept; the whole map is written to the same file |
| OwnerActions.AppendLastWins | publish/src/util.js:109 | two appends under the same key equal the last one alone |
| OwnerActions.AppendIdempotent | publish/src/util.js:109-115 | appending the same action twice leaves the queue as appending it once |
| OwnerActions.AppendsCommute | publish/src/util.js:109 | appends under different keys can be made in either order |
| OwnerActions.AppendSize | publish/src/util.js:109 | an append adds one entry for a new key and none for a key already queued |
| Deployer.MissingDeps | publish/src/Deployer.js:66 | exactly the dependencies without a handle are reported, in a list no longer than the dependency list |
| Deployer.Deploy | publish/src/Deployer.js:60-150 | skipped if and only if the contract is neither in the flags file nor forced; then in order: missing dependencies, missing artifact, rejected creation, no existing address, each as an if-and-only-if; the flags entry overrides `force`; a deployed contract is the client's creation at the client's address; a reused one is attached at the manifest address with the chain unchanged; every failure leaves the registry and the chain as they were |
| Deployer.LinkingWithoutLibraries | publish/src/Deployer.js:89-103 | with none of the libraries materialised, the bytecode is left as compiled |
| Deployer.LinkingWithoutPlaceholders | publish/src/Deployer.js:86-88 | bytecode the linker leaves unchanged comes out of the linking loop unchanged |
| Deployer.LinkingOrder | publish/src/Deployer.js:89-103 | SafeDecimalMath is linked first and Math second, each only once it has a handle, at its address with `41` rewritten |
| Deployer.ReuseNeedsNoCreation | publish/src/Deployer.js:136-139 | a contract flagged `deploy: false` with a manifest address is attached there whatever the client would answer to a creation, and the chain is unchanged |
| Deployer.DependenciesFirst | publish/src/Deployer.js:66-69 | a request fails for a missing dependency while one is unmaterialised, and no longer fails for that reason once all are materialised |
| Precheck.MissingDeployments | publish/src/commands/deploy.js:112-114 | exactly the names flagged for reuse whose manifest entry is missing or has no address; it is empty if and only if every reused contract has an address |
| Precheck.Check | publish/src/commands/deploy.js:116-123 | it passes if and only if every reused contract has an address; a failure names exactly the missing contracts and the network |
| Precheck.CheckRulesOutNoAddress | publish/src/commands/deploy.js:112-123 | against a manifest that passed the check, the deployer never fails for want of an existing address |
| Precheck.ItemKeepsAddresses | publish/src/commands/deploy.js:388-438 | one plan item keeps every reused contract's address in the manifest and never fails for want of one |
| Precheck.RunKeepsAddresses | publish/src/commands/deploy.js:388-438 | a whole plan run from a manifest with those addresses never ends with a missing-address failure |
| Precheck.CheckedRunFindsAddresses | publish/src/commands/deploy.js:112-123 | a run started from a manifest that passed the check never ends with a missing-address failure, whatever the plan |
| Orchestrator.Start | publish/src/commands/deploy.js:133 | a run starts with no handles and nothing deployed, with the files durable and resumable |
| Orchestrator.DeployContract | publish/src/commands/deploy.js:388-438 | the deployer's failures pass through unchanged and a skip changes nothing; a materialised contract is registered and recorded in the manifest on disk with its tronscan link; a reused entry keeps its timestamp and transaction; the source artifact is recorded unlinked; off local it is flagged `deploy: false` on disk, and on local the flags are untouched; it is listed as new exactly when its handle reports `deployed` |
| Orchestrator.MaterializedAddress | publish/src/Deployer.js:109-144 | a materialised handle is never at the empty address, given a client that never reports one |
| Orchestrator.DeployContractResumes | publish/src/commands/deploy.js:407-427 | a `deployContract` call keeps the run resumable: every handle is recorded at its address on disk and, off local, flagged for reuse |
| Orchestrator.Eval | publish/src/commands/deploy.js:990-993 | an address operand gives the handle's address, `''` for a missing optional handle, and throws for a missing required handle |
| Orchestrator.EvalAll | publish/src/commands/deploy.js:989-998 | an argument list is evaluated element by element; it fails exactly when some element does, and only on a missing handle |
| Orchestrator.EvalArg | publish/src/commands/deploy.js:447-456 | evaluating a step argument fails only on a missing handle |
| Orchestrator.EvalExpect | publish/src/commands/deploy.js:719 | evaluating an expectation fails only on a missing handle |
| Orchestrator.Test | publish/src/commands/deploy.js:820 | a guard is evaluated with short-circuit `&&` and `or`; `config[name].deploy` throws exactly when the entry is missing, and nothing else throws |
| Orchestrator.StepOf | publish/src/commands/deploy.js:447-456 | a step's options name the handle's address; a step whose target has no handle fails |
| Orchestrator.MaterializeStep | publish/src/commands/deploy.js:388-438 | a `deployContract` call keeps the run durable, resumable and growing, and never touches the queue; a failure leaves the state as it was |
| Orchestrator.WireStep | publish/src/commands/deploy.js:447-456 | a `runStep` call changes only the chain and the owner-action queue, keeps the run sound, and fails only on a missing handle or a failed read |
| Orchestrator.LocalStep | publish/src/commands/deploy.js:942-982 | reads and confirmations change only the recorded values; a confirmation cancels exactly when the answer has no `y` or `Y` |
| Orchestrator.Perform | publish/src/commands/deploy.js:458-1320 | only deployments change handles, manifest and flags; only deployments and wiring touch the chain and the queue; only a confirmation cancels |
| Orchestrator.RunItem | publish/src/commands/deploy.js:540-549 | a false guard does nothing, a throwing guard ends the run, and a deploy failure comes only from a deployment whose guard held |
| Orchestrator.RunAll | publish/src/commands/deploy.js:458-1320 | the plan fold keeps the files durable and resumable, and only adds handles, manifest entries, queued actions and contracts |
| Orchestrator.RunAllAppend | publish/src/commands/deploy.js:458-1320 | running `a + b` is running `a` and then, unless it ended the run, running `b` on the state it left |
| Orchestrator.GuardedWireNeedsBothHandles | publish/src/commands/deploy.js:540 | a wiring step guarded by two handles does nothing, and cannot fail, unless both are defined |
| Orchestrator.ResumeAttaches | publish/src/commands/deploy.js:424-427 | after an interrupted run off local, a contract it materialised is attached at the same address by a run from the files on disk, with no creation |
| Inflation.TruncDiv | publish/src/commands/deploy.js:191 | bn.js division truncates toward zero: the quotient brackets the dividend between two consecutive multiples, on both sides of zero |
| Inflation.WeekOfInflation | publish/src/commands/deploy.js:184-196 | the week is the number of whole weekly inflations minted above 100 million tokens (0 when there are none); it throws exactly when the week does not fit `toNumber` |
| Inflation.LastMintEvent | publish/src/commands/deploy.js:199-203 | the last mint event is a day after the start date for week 0, and each week adds one week's seconds |
| Inflation.CurrentSchedule | publish/src/commands/deploy.js:175-227 | with no prior Synthetix the schedule is fresh; with one, it carries its supply, week and last mint; an exception falls back to fresh on local and ends the command elsewhere, with its message |
| Inflation.WeekUnique | publish/src/commands/deploy.js:191 | only one week count fits the bracketing bounds |
| Inflation.WeekOfExactSupply | publish/src/commands/deploy.js:184-196 | a supply of `k` weekly inflations above the initial supply, plus less than a week's worth, is week `k` |
| Inflation.WeekMonotone | publish/src/commands/deploy.js:191-196 | more supply never gives an earlier week |
| Inflation.NoInflationYet | publish/src/commands/deploy.js:194-203 | a supply at or below 100 million tokens is week 0, and its last mint event is the start date plus the buffer |
| Synths.NewSynthsToAdd | publish/src/commands/deploy.js:320-322 | a name is listed exactly when some synth has it and its `Synth` flags entry is missing; the list is no longer than the synth list |
| Synths.Names | publish/src/commands/deploy.js:322 | the names of the synths, position by position |
| Synths.NewSynthsOfConcat | publish/src/commands/deploy.js:320-322 | the filter keeps list order: the new synths of `a + b` are those of `a` followed by those of `b` |
| Synths.NewSynthsExtremes | publish/src/commands/deploy.js:320-322 | with no synth flagged all are new, in order; with every synth flagged none is |
| Synths.SourceContract | publish/src/commands/deploy.js:984 | the source is the subclass when one is given and `Synth` otherwise, never empty |
| Synths.SynthArgsBySubclass | publish/src/commands/deploy.js:959-998 | the eight common arguments come first; a plain synth adds the original supply, a purgeable synth adds the exchange-rates address and then the supply, any other subclass adds nothing; no subclass means plain |
| DeployPlan.Link | publish/src/commands/deploy.js:540-549 | a linking step writes to one of its two handles and is guarded by both |
| DeployPlan.LinkNeedsBothHandles | publish/src/commands/deploy.js:540-549 | a linking step does nothing unless both handles are defined, and never fails for want of its target |
| DeployPlan.SetOn | publish/src/commands/deploy.js:1268-1312 | an ArbRewarder step is guarded by its own handle only |
| DeployPlan.EntryReads | publish/src/commands/deploy.js:175-318 | in order: the old Synthetix, FeePool and ExchangeRates reads end the command only off local, each with its own message; then the account is checked and then the ExchangeRates oracle, the first invalid one named; otherwise the schedule the Synthetix read gave; each as an if-and-only-if |
| DeployPlan.DeployCommand | publish/src/commands/deploy.js:93-318 | the command is refused exactly on a bad network name, a reused contract without an address, or a missing key; it exits with exit code 1 exactly when the entry reads end it, printing their message; otherwise it runs the plan from the files as loaded and ends durable and resumable |
| DeployPlan.RunPlan | publish/src/commands/deploy.js:458-1320 | a run of the plan from the loaded files ends with its files durable and resumable, and having only added records |
| DeployPlan.DepotStepNeedsDepot | publish/src/commands/deploy.js:1248-1255 | the Depot step is unguarded: reaching it without a Depot handle ends the run |
| DeployPlan.ProxyReadNeedsSynthetix | publish/src/commands/deploy.js:852 | the Synthetix proxy read is unguarded: reaching it without a Synthetix handle ends the run |
| DeployPlan.EscrowWiringGuard | publish/src/commands/deploy.js:820-849 | a missing Synthetix flags entry ends the run; with neither contract flagged for deployment the step does nothing; with Synthetix flagged but no SynthetixEscrow handle it ends the run |
| FeePeriods.PeriodCountBound | publish/src/commands/import-fee-periods.js:105 | index `i` is visited exactly when `i <= Number(length) - 1` |
| FeePeriods.StripIndexKeys | publish/src/commands/import-fee-periods.js:119-121 | exactly the keys made only of digits are removed, and the other fields keep their values |
| FeePeriods.StripKeepsNamedFields | publish/src/commands/import-fee-periods.js:118-121 | named fields read the same after stripping, positional keys read `undefined`, and stripping twice changes nothing |
| FeePeriods.LoadSourcePeriods | publish/src/commands/import-fee-periods.js:104-126 | the source passes exactly when no period is unset and the first one is under a week old; the first rejected period raises its error; the periods are kept in index order, stripped |
| FeePeriods.CheckTargetPeriods | publish/src/commands/import-fee-periods.js:128-140 | the target passes exactly when every period is the initial entry or empty; the first occupied one raises |
| FeePeriods.ImportArgs | publish/src/commands/import-fee-periods.js:174-183 | the index, then the seven struct fields in their fixed order |
| FeePeriods.ImportArgsIgnoreIndexKeys | publish/src/commands/import-fee-periods.js:118-183 | the import arguments are the same before and after the positional keys are stripped |
| FeePeriods.ImportCalls | publish/src/commands/import-fee-periods.js:156-190 | the `i`-th import carries index `i` and the `i`-th period |
| FeePeriods.ImportAll | publish/src/commands/import-fee-periods.js:156-197 | periods are imported one by one in index order until the first declined prompt, which stops the command; with `yes` nobody is asked |
| FeePeriods.ConnectionsField | publish/src/util.js:90 | the connections object has four fields; any other name reads `undefined` |
| FeePeriods.AsWrittenLinkIsUndefined | publish/src/commands/import-fee-periods.js:66-68 | the destructured `etherscanLinkPrefix` is `undefined`, so every link reads `undefined/address/...` |
| FeePeriods.CorrectedLinkIsTronscan | publish/src/commands/import-fee-periods.js:109 | with `tronscanLinkPrefix` the link points at the network's tronscan address page |
| FeePeriods.SigningKey | publish/src/commands/import-fee-periods.js:71-73 | the command-line key is used only on local and only when given; otherwise the environment's key |
| FeePeriods.Prepare | publish/src/commands/import-fee-periods.js:51-98 | in order: bad network, the address guard (which never fires, not even without `-s`), no connections, no FeePool entry, no FeePool artifact, a missing source address (which throws only at the comparison), same pool (case-insensitive, after the `41` rewrite), each as an if-and-only-if |
| FeePeriods.ImportFeePeriods | publish/src/commands/import-fee-periods.js:41-200 | preparation failures come first; it completes exactly when the source is sound and, without override, the target is empty; a target failure comes only after the whole source passed; each failure names the first bad period with the link the code builds, `undefined/address/...`; a completed import saves the periods off local and sends the imports in order up to the first declined prompt |
| Scenarios.CreatesFlagged | publish/src/Deployer.js:109-135 | a flagged contract with no library to link is created where the client says, recorded, and flagged for reuse off local |
| Scenarios.ReusesFlagged | publish/src/Deployer.js:136-139 | a contract flagged for reuse with a manifest address is attached there and nothing is created |
| Scenarios.LinkSends | publish/src/util.js:158-169 | a linking step whose target the account owns and whose read differs sends the write |
| Scenarios.LinkSkips | publish/src/util.js:144-153 | a linking step whose read already answers the value is skipped and changes nothing |
| Scenarios.RejectedCreation | publish/src/Deployer.js:119-134 | a rejected creation ends the run with the state the earlier items left |
| Scenarios.FirstRunDeploysAndWires | publish/src/commands/deploy.js:388-456 | a first run on a fresh network deploys A and B, sends B's `setTarget(A)`, writes both to the manifest, flags both for reuse, and lists both as new |
| Scenarios.SecondRunReusesAndSkips | publish/src/commands/deploy.js:397-402 | re-running from the files the first run left attaches A and B at the same addresses and changes nothing on chain: no redundant deploys, no repeated wiring |
| Scenarios.InterruptedRun | publish/src/commands/deploy.js:420-427 | when C's creation is rejected the run stops there, with A and B already in the manifest and flagged for reuse on disk, and C still flagged to deploy |
| Scenarios.ResumeCreatesOnlyTheRest | publish/src/commands/deploy.js:397-427 | the run resumed from those files attaches A and B where they are and creates only C |

## Left out

- TronWeb and web3 transport, `address.toHex`/`fromHex`, `TronWeb.isAddress`, `toBytes32` and `ZERO_ADDRESS` are foreign code. They become parameters or opaque strings.
- The chain client is a parameter. It answers a creation or a rejection, and it reports the `deployed` flag of an attached handle.
- The solc linker's internals are out of scope. Linking is a parameter function applied once per library.
- File I/O is modelled as a snapshot of what was last written, with no serialisation. This covers the manifest, the flags file, the owner-action queue and the fee-period backup.
- JSON formatting (`stringify`), console and chalk output, and the final table are left out. Prompt texts become labels.
- `ensureDeploymentPath`, `loadAndCheckRequiredSources`, `loadCompiledFiles` and the Solidity timestamp check are left out. Their results are inputs: the flags file, the manifest, the synth list and the compiled artifacts.
- Inverse pricing in the synth loop (`deploy.js:1120-1207`) is left out, because it works in floating point.
- `checkAggregatorPrices`, `parameterNotice` and the command-line wiring are left out.
- The values the prior reads of FeePool and ExchangeRates yield (`deploy.js:229-281`), the exchange fee, the Synthetix price and the oracle, are options, taken after the local fallbacks. Only whether each read threw is modelled. The Depot read is commented out in the source.
- The gas-limit oracle read from the old Synthetix is left out, because its result is used only by commented-out code.
- `Date.now()` becomes a parameter, the clock in milliseconds.
- `75e6 / 52` is a float. Its printed form is written out as the constant `WeeklyInflation`.
- JavaScript's `Number` is modelled only on decimal digit strings. Other forms (signs, hex, exponents, blanks) read as no number.
- `toLowerCase` is modelled on ASCII only.
- Prototype keys of JavaScript objects (`config['constructor']`, say) are left out.
- Fee limits, gas options and the sending account of the fee-period import are left out.
- A failing `send` in `performTransactionalStep` or in the fee-period import is left out. The model assumes the transaction is mined.
- The web3 `privateKeyToAccount` call of the fee-period import is left out. It is a foreign call on the key.
- The ownership and transfer commands and the other publish commands are not part of this model.
- The repository's test script (`test.js`) is not part of this model.
- Reconciler.Reconcile: the transaction hash is modelled as the chain's height when the write is sent, not as TronWeb's hash string.
- Inflation.LastMintEvent: the last mint event is computed exactly. JavaScript computes `week * secondsInWeek` in floating point, which rounds once the product passes 2^53 (a week above about 1.5e10); that rounding is not modelled.

## Findings

| source | as written | input that shows it | evidently intended | confidence | as-written member | corrected member |
|---|---|---|---|---|---|---|
| publish/src/commands/import-fee-periods.js:66-68 | destructures `etherscanLinkPrefix` from `loadConnections`, which returns `tronscanLinkPrefix` instead; every explorer link in the command's messages (lines 109, 115, 137, 194) reads `undefined/address/...` | any run whose source FeePool has an unset period, such as `feePeriodId === '0'` at index 0 | `tronscanLinkPrefix`, giving `https://<network>.tronscan.org/address/...` | not executed | FeePeriods.AsWrittenLinkIsUndefined | FeePeriods.CorrectedLinkIsTronscan |
