/**
 The step reconciler, `performTransactionalStep`: read an on-chain value and
 stop if it already is what the step wants; otherwise write it when the
 deploying account owns the contract, queue the write for the owner when an
 owner-action queue is configured, or ask the operator to make the write by
 hand and wait for a y/n answer.
 */
module Reconciler {
  import opened Base
  import opened Js
  import opened Tron
  import OwnerActions

  /** The `expected` callback of a step. The tooling's callbacks are strict
      equality with a value (`input => input === address`) and, for the rate
      stale period, `Number(input.toString()) === n`. */
  datatype Expectation = StrictlyEquals(value: Value) | NumberIs(n: int)

  predicate Holds(e: Expectation, response: Value) {
    match e
    case StrictlyEquals(v) => StrictEquals(response, v)
    case NumberIs(n) => NumberOf(response) == Some(n)
  }

  /** The callback itself throws: `input.toString()` on an `undefined` answer
      is a TypeError. */
  predicate Throws(e: Expectation, response: Value) {
    e.NumberIs? && response.Undefined?
  }

  /** The options of one call to `performTransactionalStep`. `target` is the
      address of the contract handle; `read == ""` is a step without a read
      (`undefined` and `''` are both falsy). */
  datatype Step = Step(
    contract: string,
    target: string,
    read: string,
    readArg: Value,
    expected: Expectation,
    write: string,
    writeArg: Value)

  /** `[].concat(x).filter(entry => entry !== undefined)`: an array loses its
      `undefined` elements, `undefined` becomes no argument at all, and any
      other value becomes the one argument. */
  function Normalize(x: Value): (r: seq<Value>)
    ensures forall e :: e in r ==> !e.Undefined?
    ensures x.Undefined? ==> r == []
    ensures x.Str? || x.Num? ==> r == [x]
    ensures x.List? ==> forall e :: e in r <==> e in x.items && !e.Undefined?
    ensures x.List? && (forall e :: e in x.items ==> !e.Undefined?) ==> r == x.items
  {
    DropUndefined(if x.List? then x.items else [x])
  }

  function DropUndefined(s: seq<Value>): (r: seq<Value>)
    ensures forall e :: e in r <==> e in s && !e.Undefined?
    ensures |r| <= |s|
    ensures (forall e :: e in s ==> !e.Undefined?) ==> r == s
  {
    if |s| == 0 then []
    else (if s[0].Undefined? then [] else [s[0]]) + DropUndefined(s[1..])
  }

  function ReadCall(step: Step): Call {
    Call(step.read, Normalize(step.readArg))
  }

  function WriteCall(step: Step): Call {
    Call(step.write, Normalize(step.writeArg))
  }

  /** `${contract}.${write}(${writeArg})`: the step's label and its queue key.
      It renders the raw `writeArg`, before normalisation. */
  function Key(step: Step): string {
    step.contract + "." + step.write + "(" + ToJsString(step.writeArg) + ")"
  }

  /** `${write}(${argumentsForWriteFunction})`: the call the owner is asked
      to make, rendered from the normalised arguments. */
  function Action(step: Step): string {
    step.write + "(" + ToJsString(List(Normalize(step.writeArg))) + ")"
  }

  /** What the step returned: nothing (`Skipped`, `Declined`), the
      transaction (`Sent`), or `true` (`Queued`, `Confirmed`). */
  datatype Outcome = Skipped | Sent(txn: nat) | Queued | Confirmed | Declined

  /** The step's interactions with the chain, the queue file and the
      operator, in order. */
  datatype Io =
    | ViewCall(address: string, call: Call)
    | OwnerCall(address: string)
    | Transaction(address: string, call: Call)
    | QueueSave(key: string)
    | Prompt(action: string)

  datatype Report = Report(outcome: Outcome, chain: Chain, queue: Option<OwnerActions.Queue>, io: seq<Io>)

  /** Why the step throws: a view call the chain client could not answer, an
      `expected` callback that threw on the answer, or an unanswered `owner()`. */
  datatype Failure =
    | ViewFailed(address: string, call: Call)
    | ExpectationThrew(address: string, call: Call)
    | OwnerUnknown(address: string)

  /** `ownerActions && ownerActionsFile`: a queue and a non-empty file path. */
  predicate Configured(queue: Option<OwnerActions.Queue>) {
    queue.Some? && queue.value.file != ""
  }

  /** The step declares a read and the chain already answers what it expects. */
  predicate AlreadySatisfied(step: Step, chain: Chain) {
    step.read != ""
    && View(chain, step.target, ReadCall(step)).Some?
    && Holds(step.expected, View(chain, step.target, ReadCall(step)).value)
  }

  /** The step gets past its read: it has none, or the chain answered it and
      the `expected` callback did not throw on the answer. */
  predicate ReadAnswered(step: Step, chain: Chain) {
    step.read == ""
    || (View(chain, step.target, ReadCall(step)).Some?
        && !Throws(step.expected, View(chain, step.target, ReadCall(step)).value))
  }

  /** `owner === accountHex`: strict equality of the `owner()` answer with the
      account's hex form. */
  predicate IsOwner(chain: Chain, step: Step, accountHex: string) {
    OwnerOf(chain, step.target) == Some(Str(accountHex))
  }

  /** `performTransactionalStep`. `accountHex` is `TronWeb.address.toHex(account)`,
      `prefix` the explorer link prefix, `answer` what the operator types if
      asked, `effect` what a write does to the target contract. */
  function Reconcile(
    step: Step, accountHex: string, chain: Chain, queue: Option<OwnerActions.Queue>,
    prefix: string, answer: string, effect: Effect): (r: Result<Report, Failure>)
    // the read fails or its callback throws, or the step gets past it and the owner read fails
    ensures r.Err? <==> !ReadAnswered(step, chain)
                        || (!AlreadySatisfied(step, chain) && OwnerOf(chain, step.target).None?)
    ensures r.Err? && r.error.ExpectationThrew? <==>
              step.read != "" && View(chain, step.target, ReadCall(step)).Some?
              && Throws(step.expected, View(chain, step.target, ReadCall(step)).value)
    // skipped exactly when the value is already in place; then nothing else happens
    ensures r.Ok? && r.value.outcome == Skipped <==> AlreadySatisfied(step, chain)
    ensures r.Ok? && r.value.outcome == Skipped ==>
              r.value.chain == chain && r.value.queue == queue
              && r.value.io == [ViewCall(step.target, ReadCall(step))]
    // every step that gets past its read asks for the owner first
    ensures r.Ok? && r.value.outcome != Skipped ==>
              OwnerCall(step.target) in r.value.io
              && r.value.io[0] == (if step.read == "" then OwnerCall(step.target)
                                   else ViewCall(step.target, ReadCall(step)))
    // a write is sent exactly when the account owns the target, and only then is the chain changed
    ensures r.Ok? && r.value.outcome.Sent? <==>
              ReadAnswered(step, chain) && !AlreadySatisfied(step, chain) && IsOwner(chain, step, accountHex)
    ensures r.Ok? && r.value.outcome.Sent? ==>
              step.target in chain.contracts
              && r.value.chain == Send(chain, step.target, WriteCall(step), effect)
              && r.value.outcome.txn == chain.height
              && Transaction(step.target, WriteCall(step)) in r.value.io
    ensures r.Ok? && !r.value.outcome.Sent? ==>
              r.value.chain == chain && forall e :: e in r.value.io ==> !e.Transaction?
    // not the owner, queue configured: one entry under the step's key, nothing sent
    ensures r.Ok? && r.value.outcome == Queued <==>
              ReadAnswered(step, chain) && !AlreadySatisfied(step, chain)
              && OwnerOf(chain, step.target).Some? && !IsOwner(chain, step, accountHex)
              && Configured(queue)
    ensures r.Ok? && r.value.outcome == Queued ==>
              r.value.queue == Some(OwnerActions.Append(queue.value, prefix, Key(step), Action(step), step.target))
    ensures r.Ok? && r.value.outcome != Queued ==> r.value.queue == queue
    // not the owner, no queue: the operator's answer decides between true and undefined
    ensures r.Ok? && (r.value.outcome == Confirmed || r.value.outcome == Declined) <==>
              ReadAnswered(step, chain) && !AlreadySatisfied(step, chain)
              && OwnerOf(chain, step.target).Some? && !IsOwner(chain, step, accountHex)
              && !Configured(queue)
    ensures r.Ok? && (r.value.outcome == Confirmed || r.value.outcome == Declined) ==>
              (r.value.outcome == Confirmed <==> ContainsYes(answer))
              && Prompt(Action(step)) in r.value.io
    ensures r.Ok? && r.value.outcome != Confirmed && r.value.outcome != Declined ==>
              forall e :: e in r.value.io ==> !e.Prompt?
  {
    var readIo := if step.read != "" then [ViewCall(step.target, ReadCall(step))] else [];
    if step.read != "" && View(chain, step.target, ReadCall(step)).None? then
      Err(ViewFailed(step.target, ReadCall(step)))
    else if step.read != "" && Throws(step.expected, View(chain, step.target, ReadCall(step)).value) then
      Err(ExpectationThrew(step.target, ReadCall(step)))
    else if step.read != "" && Holds(step.expected, View(chain, step.target, ReadCall(step)).value) then
      Ok(Report(Skipped, chain, queue, readIo))
    else
      var owner := OwnerOf(chain, step.target);
      if owner.None? then Err(OwnerUnknown(step.target))
      else
        var io := readIo + [OwnerCall(step.target)];
        if owner.value == Str(accountHex) then
          var call := WriteCall(step);
          Ok(Report(Sent(chain.height), Send(chain, step.target, call, effect), queue,
                    io + [Transaction(step.target, call)]))
        else if Configured(queue) then
          var q := OwnerActions.Append(queue.value, prefix, Key(step), Action(step), step.target);
          Ok(Report(Queued, chain, Some(q), io + [QueueSave(Key(step))]))
        else if ContainsYes(answer) then
          Ok(Report(Confirmed, chain, queue, io + [Prompt(Action(step))]))
        else
          Ok(Report(Declined, chain, queue, io + [Prompt(Action(step))]))
  }

  /** The write makes the step's read answer what the step expects, whatever
      state the contract was in before: true of the tooling's setters
      (`setTarget` makes `target()` answer the new address). */
  ghost predicate Establishes(effect: Effect, step: Step) {
    forall c: Contract {:trigger effect(c, WriteCall(step))} ::
      ReadCall(step) in effect(c, WriteCall(step)).views
      && Holds(step.expected, effect(c, WriteCall(step)).views[ReadCall(step)])
  }

  /** Idempotence: once the owner has applied a step whose write establishes
      its read, running the step again is skipped and changes nothing. */
  lemma ReRunAfterWriteSkips(
    step: Step, accountHex: string, chain: Chain, queue: Option<OwnerActions.Queue>,
    prefix: string, answer: string, answer': string, effect: Effect)
    requires step.read != ""
    requires Establishes(effect, step)
    requires Reconcile(step, accountHex, chain, queue, prefix, answer, effect).Ok?
    requires Reconcile(step, accountHex, chain, queue, prefix, answer, effect).value.outcome.Sent?
    ensures var first := Reconcile(step, accountHex, chain, queue, prefix, answer, effect).value;
            Reconcile(step, accountHex, first.chain, first.queue, prefix, answer', effect)
              == Ok(Report(Skipped, first.chain, first.queue, [ViewCall(step.target, ReadCall(step))]))
  {
    var first := Reconcile(step, accountHex, chain, queue, prefix, answer, effect).value;
    var c := chain.contracts[step.target];
    var after := effect(c, WriteCall(step));
    assert first.chain.contracts[step.target] == after;
    assert ReadCall(step) in after.views && Holds(step.expected, after.views[ReadCall(step)]);
    assert View(first.chain, step.target, ReadCall(step)) == Some(after.views[ReadCall(step)]);
  }

  /** A skipped step is a fixed point: running it again on the state it left
      is skipped again. */
  lemma SkippedStaysSkipped(
    step: Step, accountHex: string, chain: Chain, queue: Option<OwnerActions.Queue>,
    prefix: string, answer: string, answer': string, effect: Effect)
    requires Reconcile(step, accountHex, chain, queue, prefix, answer, effect).Ok?
    requires Reconcile(step, accountHex, chain, queue, prefix, answer, effect).value.outcome == Skipped
    ensures Reconcile(step, accountHex, chain, queue, prefix, answer', effect)
         == Reconcile(step, accountHex, chain, queue, prefix, answer, effect)
  {
  }

  /** Queue idempotence across runs: a step queued again for the owner finds
      its own entry and rewrites it unchanged. */
  lemma ReQueueLeavesQueue(
    step: Step, accountHex: string, chain: Chain, queue: Option<OwnerActions.Queue>,
    prefix: string, answer: string, effect: Effect)
    requires Reconcile(step, accountHex, chain, queue, prefix, answer, effect).Ok?
    requires Reconcile(step, accountHex, chain, queue, prefix, answer, effect).value.outcome == Queued
    ensures var first := Reconcile(step, accountHex, chain, queue, prefix, answer, effect).value;
            Reconcile(step, accountHex, first.chain, first.queue, prefix, answer, effect) == Ok(first)
  {
    var first := Reconcile(step, accountHex, chain, queue, prefix, answer, effect).value;
    OwnerActions.AppendIdempotent(queue.value, prefix, Key(step), Action(step), step.target);
  }

  /** For a single scalar argument the queue key and the queued action name
      the same call: `C.w(x)` is the key of the action `w(x)`. For an
      `undefined` argument they differ: the key reads `w(undefined)`, the
      action `w()`. */
  lemma KeyMatchesActionForScalars(step: Step)
    ensures step.writeArg.Str? || step.writeArg.Num? ==>
              Key(step) == step.contract + "." + Action(step)
    ensures step.writeArg.Undefined? ==>
              Key(step) == step.contract + "." + step.write + "(undefined)"
              && Action(step) == step.write + "()"
  {
    if step.writeArg.Str? || step.writeArg.Num? {
      assert Normalize(step.writeArg) == [step.writeArg];
      assert ToJsString(List([step.writeArg])) == ToJsString(step.writeArg);
    }
    if step.writeArg.Undefined? {
      assert ToJsString(List([])) == "";
    }
  }
}
