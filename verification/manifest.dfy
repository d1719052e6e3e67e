/**
 The two durable records the publish tooling keeps per network: the contract
 flags file (which contracts to deploy afresh) and the deployment manifest
 (where each contract lives and the compiled artifact it was built from).
 */
module Manifest {
  import opened Js

  /** A contract flags entry. A missing `deploy` field is falsy and modelled
      as `false`. */
  datatype ConfigEntry = ConfigEntry(deploy: bool)

  /** The contract flags file, keyed by contract name. */
  type Config = map<string, ConfigEntry>

  /** `deployment.targets[name]`. Entries written by older runs may lack a
      timestamp or transaction, hence `Value`. */
  datatype Target = Target(
    name: string,
    address: string,
    source: string,
    link: string,
    timestamp: Value,
    txn: Value,
    network: string)

  /** `deployment.sources[source]`: the artifact captured at deployment. */
  datatype SourceEntry = SourceEntry(bytecode: string, abi: string)

  datatype Deployment = Deployment(targets: map<string, Target>, sources: map<string, SourceEntry>)

  /** `deployment.targets[name] ? deployment.targets[name].address : ''`. */
  function ExistingAddress(d: Deployment, name: string): string {
    if name in d.targets then d.targets[name].address else ""
  }
}
