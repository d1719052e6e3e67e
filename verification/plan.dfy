/**
 The vocabulary of the deploy script's plan: the steps `deploy` runs one
 after another (materialise a contract, reconcile one wiring step, read or
 capture a value for later steps, ask the operator to confirm) and the
 `if (...)` conditions that guard them.
 */
module Plan {
  import opened Js

  /** A value a step passes on, computed when the step runs. */
  datatype Operand =
    | Account                // the deploying account
    | Lit(v: Value)          // a constant of the script
    | AddressOr(name: string) // `handle ? handle.address : ''`
    | AddressOf(name: string) // `handle.address`, a TypeError when the handle is undefined
    | Var(name: string)      // a value read or captured earlier in the run, `undefined` until set

  /** `readArg`/`writeArg`: absent, one value, or an array literal. */
  datatype Arg = NoArg | One(o: Operand) | Many(os: seq<Operand>)

  /** The step's `expected` callback. */
  datatype Expect = IsValue(o: Operand) | IsNumber(n: int)

  /** The condition of an `if` around a step, evaluated left to right with
      JavaScript's short-circuit `&&` and `||`. */
  datatype Cond =
    | Always
    | Has(name: string)        // the handle of this run is defined
    | Flagged(name: string)    // `config[name].deploy`, a TypeError when the entry is missing
    | FlagSet(name: string)    // `(config[name] || {}).deploy`
    | OnNetwork(network: string)
    | Not(c: Cond)
    | And(a: Cond, b: Cond)
    | Or(a: Cond, b: Cond)

  datatype Action =
    | Materialize(name: string, source: string, deps: seq<string>, args: seq<Operand>, force: bool)
    | Wire(contract: string, target: string, read: string, readArg: Arg,
           expected: Expect, write: string, writeArg: Arg)
    | ReadInto(variable: string, handle: string, call: string)       // `v = await h.methods.call().call()`
    | ReadExisting(variable: string, contract: string, call: string) // the same call on the manifest's contract
    | SetVar(variable: string, o: Operand)
    | Confirm(message: string)                                       // `confirmAction`; a refusal ends the run

  datatype Item = Item(guard: Cond, action: Action)
}
