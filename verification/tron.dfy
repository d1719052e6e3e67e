/**
 The chain as the publish tooling sees it through its client: for every
 contract address, the answer of its `owner()` view and of every other view
 call its ABI supports, plus a count of the transactions mined so far. What a
 state-changing call does to a contract is a property of that contract, not of
 the tooling, so it is supplied from outside as an `Effect`.
 */
module Tron {
  import opened Base
  import opened Js

  /** A view or transaction call: the method name and the positional
      arguments actually passed to it. */
  datatype Call = Call(name: string, args: seq<Value>)

  /** One deployed contract: who `owner()` names, and what each supported view
      call answers. */
  datatype Contract = Contract(owner: Value, views: map<Call, Value>)

  datatype Chain = Chain(contracts: map<string, Contract>, height: nat)

  /** How a contract's state changes when a transaction calls one of its
      methods. */
  type Effect = (Contract, Call) -> Contract

  /** `target.methods[m](...args).call()`; None when there is no contract at
      the address or its ABI has no such view (the client throws). */
  function View(chain: Chain, address: string, call: Call): Option<Value> {
    if address in chain.contracts && call in chain.contracts[address].views
    then Some(chain.contracts[address].views[call])
    else None
  }

  /** `target.methods.owner().call()`. */
  function OwnerOf(chain: Chain, address: string): Option<Value> {
    if address in chain.contracts then Some(chain.contracts[address].owner) else None
  }

  /** `target.methods[m](...args).send(...)`: the transaction is mined and the
      contract at `address` takes the effect; the transaction's reference is
      the height it was mined at. */
  function Send(chain: Chain, address: string, call: Call, effect: Effect): Chain
    requires address in chain.contracts
  {
    Chain(chain.contracts[address := effect(chain.contracts[address], call)], chain.height + 1)
  }

  /** A contract creation mined at `address` with the given initial state. */
  function Create(chain: Chain, address: string, contract: Contract): Chain {
    Chain(chain.contracts[address := contract], chain.height + 1)
  }
}
