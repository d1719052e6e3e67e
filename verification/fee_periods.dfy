/**
 The fee-period import (`import-fee-periods`): read the recent fee periods of
 an old FeePool, refuse a source whose periods are unset or stale and a
 target that already holds periods, strip the positional keys web3 adds to
 each struct, and import the periods into the new FeePool one by one, in
 index order, asking the operator before each unless told yes.
 */
module FeePeriods {
  import opened Base
  import opened Js
  import opened Manifest
  import Network

  /** A `recentFeePeriods(i)` answer: web3 returns the struct under its
      field names and again under the positions "0", "1", .... */
  type Period = map<string, Value>

  /** `period[key]`, `undefined` where the answer has no such key. */
  function Field(p: Period, key: string): Value {
    if key in p then p[key] else Undefined
  }

  /** A FeePool as the import reads it: its `FEE_PERIOD_LENGTH()` answer and
      its `recentFeePeriods(i)` answers. */
  datatype Pool = Pool(periodLength: Value, recent: nat -> Period)

  /** `3600 * 24 * 7`: the oldest the first source period may start. */
  const OneWeek: int := 3600 * 24 * 7

  /** The struct fields passed to `importFeePeriod`, after the index, in order. */
  const ImportFields: seq<string> := ["feePeriodId", "startingDebtIndex", "startTime", "feesToDistribute",
                                      "feesClaimed", "rewardsToDistribute", "rewardsClaimed"]

  datatype Failure =
    | InvalidNetwork(message: string)
    | InvalidSource(address: Option<string>)
    | NoConnections(message: string)
    | NoFeePool
    | NoFeePoolSource(source: string)
    | NoSourceAddress    // `sourceContractAddress.toLowerCase()` on `undefined`
    | SameFeePool
    | PeriodNotSet(index: nat, link: string)
    | InitialPeriodTooOld(link: string)
    | TargetHasPeriods(index: nat, link: string)

  /** The address guard: every address is accepted. */
  function IsAddress(address: Option<string>): bool {
    true
  }

  /** `for (let i = 0; i <= feePeriodLength - 1; i++)` runs once per index
      below the number the length reads as, and not at all when it reads as
      no number. */
  function PeriodCount(length: Value): nat {
    match NumberOf(length)
    case None => 0
    case Some(n) => if n > 0 then n else 0
  }

  /** The loop bound: index `i` is visited exactly when `i <= Number(length) - 1`. */
  lemma PeriodCountBound(length: Value, i: nat)
    ensures i < PeriodCount(length) <==> NumberOf(length).Some? && i <= NumberOf(length).value - 1
  {
  }

  /** Drop every key made only of digits; the named fields stay as they are. */
  function StripIndexKeys(p: Period): (r: Period)
    ensures forall k :: k in r <==> k in p && !IsDigits(k)
    ensures forall k :: k in r ==> r[k] == p[k]
  {
    map k | k in p && !IsDigits(k) :: p[k]
  }

  /** Stripping reads the named fields unchanged, removes every positional
      key, and a second strip changes nothing. */
  lemma StripKeepsNamedFields(p: Period, key: string)
    ensures !IsDigits(key) ==> Field(StripIndexKeys(p), key) == Field(p, key)
    ensures IsDigits(key) ==> Field(StripIndexKeys(p), key) == Undefined
    ensures StripIndexKeys(StripIndexKeys(p)) == StripIndexKeys(p)
  {
  }

  /** `period.feePeriodId === '0'`. */
  predicate Unset(p: Period) {
    StrictEquals(Field(p, "feePeriodId"), Str("0"))
  }

  /** `period.startTime < Date.now() / 1000 - 3600 * 24 * 7`, with the clock
      in milliseconds; a start time that reads as no number compares false. */
  predicate StartsTooEarly(p: Period, nowMs: int) {
    var t := NumberOf(Field(p, "startTime"));
    t.Some? && t.value * 1000 < nowMs - OneWeek * 1000
  }

  /** The source check at index `i`: an unset period, or a first period that
      starts more than a week ago. */
  predicate SourceRejects(i: nat, p: Period, nowMs: int) {
    Unset(p) || (i == 0 && StartsTooEarly(p, nowMs))
  }

  /** The error a rejected source period raises: the unset test comes first. */
  function SourceFailure(i: nat, p: Period, nowMs: int, link: string): Failure
    requires SourceRejects(i, p, nowMs)
  {
    if Unset(p) then PeriodNotSet(i, link) else InitialPeriodTooOld(link)
  }

  /** The source loop: every period checked in index order, the first
      rejected one raising its error, the accepted ones kept with their
      positional keys removed. */
  method LoadSourcePeriods(recent: nat -> Period, n: nat, nowMs: int, link: string) returns (r: Result<seq<Period>, Failure>)
    ensures r.Ok? <==> forall j :: 0 <= j < n ==> !SourceRejects(j, recent(j), nowMs)
    ensures r.Ok? ==> |r.value| == n && forall j :: 0 <= j < n ==> r.value[j] == StripIndexKeys(recent(j))
    ensures r.Err? ==>
              exists j :: 0 <= j < n && SourceRejects(j, recent(j), nowMs)
                          && (forall k :: 0 <= k < j ==> !SourceRejects(k, recent(k), nowMs))
                          && r.error == SourceFailure(j, recent(j), nowMs, link)
  {
    var periods: seq<Period> := [];
    var i := 0;
    while i < n
      invariant 0 <= i <= n
      invariant |periods| == i
      invariant forall j :: 0 <= j < i ==> !SourceRejects(j, recent(j), nowMs)
      invariant forall j :: 0 <= j < i ==> periods[j] == StripIndexKeys(recent(j))
    {
      var p := recent(i);
      if SourceRejects(i, p, nowMs) {
        return Err(SourceFailure(i, p, nowMs, link));
      }
      periods := periods + [StripIndexKeys(p)];
      i := i + 1;
    }
    return Ok(periods);
  }

  /** A target period that is neither the constructor's initial entry
      (`feePeriodId === '1'`) nor empty (`startTime === '0'`). */
  predicate Occupied(p: Period) {
    !StrictEquals(Field(p, "feePeriodId"), Str("1")) && !StrictEquals(Field(p, "startTime"), Str("0"))
  }

  /** The target loop: the first occupied period raises. */
  method CheckTargetPeriods(recent: nat -> Period, n: nat, link: string) returns (r: Result<(), Failure>)
    ensures r.Ok? <==> forall j :: 0 <= j < n ==> !Occupied(recent(j))
    ensures r.Err? ==>
              exists j :: 0 <= j < n && Occupied(recent(j))
                          && (forall k :: 0 <= k < j ==> !Occupied(recent(k)))
                          && r.error == TargetHasPeriods(j, link)
  {
    var i := 0;
    while i < n
      invariant 0 <= i <= n
      invariant forall j :: 0 <= j < i ==> !Occupied(recent(j))
    {
      if Occupied(recent(i)) {
        return Err(TargetHasPeriods(i, link));
      }
      i := i + 1;
    }
    return Ok(());
  }

  /** The `importFeePeriod` arguments for the period at `index`. */
  function ImportArgs(index: nat, p: Period): (r: seq<Value>)
    ensures |r| == 1 + |ImportFields| && r[0] == Num(index)
    ensures forall k :: 0 <= k < |ImportFields| ==> r[k + 1] == Field(p, ImportFields[k])
  {
    [ Num(index), Field(p, "feePeriodId"), Field(p, "startingDebtIndex"), Field(p, "startTime"),
      Field(p, "feesToDistribute"), Field(p, "feesClaimed"), Field(p, "rewardsToDistribute"),
      Field(p, "rewardsClaimed") ]
  }

  /** The import arguments read only named fields, so they are the same
      before and after the positional keys are stripped. */
  lemma ImportArgsIgnoreIndexKeys(index: nat, p: Period)
    ensures ImportArgs(index, StripIndexKeys(p)) == ImportArgs(index, p)
  {
    var a := ImportArgs(index, StripIndexKeys(p));
    var b := ImportArgs(index, p);
    forall i | 0 <= i < |a|
      ensures a[i] == b[i]
    {
      if i > 0 {
        var key := ImportFields[i - 1];
        assert !IsDigit(key[0]);
        StripKeepsNamedFields(p, key);
      }
    }
  }

  /** The argument lists of the first `count` imports, each at its index. */
  function ImportCalls(periods: seq<Period>, count: nat): (r: seq<seq<Value>>)
    requires count <= |periods|
    ensures |r| == count
    ensures forall i :: 0 <= i < count ==> r[i] == ImportArgs(i, periods[i])
  {
    seq(count, i requires 0 <= i < count => ImportArgs(i, periods[i]))
  }

  /** The operator declines the prompt at `index` (`confirmAction` rejects
      an answer without `y` or `Y`); with `yes` nobody is asked. */
  predicate Declines(yes: bool, answer: nat -> string, index: nat) {
    !yes && !ContainsYes(answer(index))
  }

  /** The import loop: period after period, in order, each at its own index,
      until the operator declines one (the command then returns). */
  method ImportAll(periods: seq<Period>, yes: bool, answer: nat -> string)
    returns (calls: seq<seq<Value>>, cancelledAt: Option<nat>)
    ensures cancelledAt.None? <==> forall i :: 0 <= i < |periods| ==> !Declines(yes, answer, i)
    ensures cancelledAt.Some? ==>
              cancelledAt.value < |periods| && Declines(yes, answer, cancelledAt.value)
              && forall i :: 0 <= i < cancelledAt.value ==> !Declines(yes, answer, i)
    ensures |calls| == if cancelledAt.Some? then cancelledAt.value else |periods|
    ensures calls == ImportCalls(periods, |calls|)
  {
    calls := [];
    var index := 0;
    while index < |periods|
      invariant 0 <= index <= |periods|
      invariant |calls| == index
      invariant forall i :: 0 <= i < index ==> !Declines(yes, answer, i)
      invariant forall i :: 0 <= i < index ==> calls[i] == ImportArgs(i, periods[i])
    {
      if Declines(yes, answer, index) {
        return calls, Some(index);
      }
      calls := calls + [ImportArgs(index, periods[index])];
      index := index + 1;
    }
    return calls, None;
  }

  /** A field of the object `loadConnections` returns, by name; any other
      name reads as `undefined`. */
  function ConnectionsField(c: Network.Connections, name: string): (r: Value)
    ensures (name != "providerUrl" && name != "privateKey" && name != "tronscanUrl"
             && name != "tronscanLinkPrefix") ==> r == Undefined
    ensures name == "tronscanLinkPrefix" ==> r == Str(c.tronscanLinkPrefix)
  {
    if name == "providerUrl" then Str(c.providerUrl)
    else if name == "privateKey" then c.privateKey
    else if name == "tronscanUrl" then Str(c.tronscanUrl)
    else if name == "tronscanLinkPrefix" then Str(c.tronscanLinkPrefix)
    else Undefined
  }

  /** The explorer prefix as the command destructures it, `etherscanLinkPrefix`. */
  function LinkPrefixAsWritten(c: Network.Connections): Value {
    ConnectionsField(c, "etherscanLinkPrefix")
  }

  /** `${etherscanLinkPrefix}/address/${address}`, the link the command's
      messages carry. */
  function AddressLinkAsWritten(c: Network.Connections, address: string): string {
    ToJsString(LinkPrefixAsWritten(c)) + "/address/" + address
  }

  /** The prefix as written is not a field of the connections, so every
      explorer link in the command's messages reads `undefined/address/...`. */
  lemma AsWrittenLinkIsUndefined(c: Network.Connections, address: string)
    ensures LinkPrefixAsWritten(c) == Undefined
    ensures AddressLinkAsWritten(c, address) == "undefined/address/" + address
  {
  }

  /** The explorer prefix the connections carry, `tronscanLinkPrefix`. */
  function LinkPrefix(c: Network.Connections): Value {
    ConnectionsField(c, "tronscanLinkPrefix")
  }

  /** `${tronscanLinkPrefix}/address/${address}`, the link the messages were
      meant to carry. */
  function AddressLink(c: Network.Connections, address: string): string {
    ToJsString(LinkPrefix(c)) + "/address/" + address
  }

  /** With the connections' own field the links point at the network's
      explorer. */
  lemma CorrectedLinkIsTronscan(network: string, env: Network.Environment, address: string)
    requires Network.LoadConnections(network, env).Ok?
    ensures var c := Network.LoadConnections(network, env).value;
            AddressLink(c, address)
              == "https://" + (if network != "mainnet" then network + "." else "") + "tronscan.org/address/" + address
  {
  }

  /** The key the command signs with: the command-line key only on the local
      network, and only when one is given. */
  function SigningKey(network: string, cliKey: Value, envKey: Value): (r: Value)
    ensures network != "local" ==> r == envKey
    ensures !Truthy(cliKey) ==> r == envKey
    ensures network == "local" && Truthy(cliKey) ==> r == cliKey
  {
    if network != "local" || !Truthy(cliKey) then envKey else cliKey
  }

  /** The command's options. `sourceAddress` is `None` when `-s` is not
      given (the option is then `undefined`). */
  datatype Options = Options(network: string, sourceAddress: Option<string>, privateKey: Value, yes: bool, override: bool)

  /** What a completed command did: the target it imported into, the periods
      it read, the `importFeePeriod` argument lists it sent, in order, the
      periods saved to the backup file (off the local network), and the index
      at which the operator stopped it, if any. */
  datatype Imported = Imported(
    target: string,
    signingKey: Value,
    periods: seq<Period>,
    calls: seq<seq<Value>>,
    saved: Option<seq<Period>>,
    cancelledAt: Option<nat>)

  /** The new FeePool's address, `41` rewritten to `0x`. */
  function TargetAddress(deployment: Deployment): string
    requires "FeePool" in deployment.targets
  {
    ReplaceLeading41(deployment.targets["FeePool"].address)
  }

  /** The checks that come before any chain read pass. */
  predicate Prepared(o: Options, deployment: Deployment, env: Network.Environment) {
    Network.EnsureNetwork(o.network).Ok?
    && Network.LoadConnections(o.network, env).Ok?
    && "FeePool" in deployment.targets
    && deployment.targets["FeePool"].source in deployment.sources
    && o.sourceAddress.Some?
    && ToLower(o.sourceAddress.value) != ToLower(TargetAddress(deployment))
  }

  /** The command up to its first chain read: the network name, the
      source-address guard, the connections, the new FeePool's manifest
      entry and artifact, and the refusal to import a pool into itself. */
  function Prepare(o: Options, deployment: Deployment, env: Network.Environment): (r: Result<Network.Connections, Failure>)
    ensures r.Ok? <==> Prepared(o, deployment, env)
    ensures r.Ok? ==> r.value == Network.LoadConnections(o.network, env).value
    ensures r.Err? && r.error.InvalidNetwork? <==> Network.EnsureNetwork(o.network).Err?
    // the source-address guard never fires, not even without a source address
    ensures !(r.Err? && r.error.InvalidSource?)
    ensures r.Err? && r.error.NoConnections? <==>
              Network.EnsureNetwork(o.network).Ok? && Network.LoadConnections(o.network, env).Err?
    ensures r.Err? && r.error.NoFeePool? <==>
              Network.EnsureNetwork(o.network).Ok? && Network.LoadConnections(o.network, env).Ok?
              && "FeePool" !in deployment.targets
    ensures r.Err? && r.error.NoFeePoolSource? <==>
              Network.EnsureNetwork(o.network).Ok? && Network.LoadConnections(o.network, env).Ok?
              && "FeePool" in deployment.targets && deployment.targets["FeePool"].source !in deployment.sources
    // a missing source address throws only at the comparison, after the FeePool lookups
    ensures r.Err? && r.error == NoSourceAddress <==>
              Network.EnsureNetwork(o.network).Ok? && Network.LoadConnections(o.network, env).Ok?
              && "FeePool" in deployment.targets && deployment.targets["FeePool"].source in deployment.sources
              && o.sourceAddress.None?
    // compared case-insensitively, after the target's `41` is rewritten
    ensures r.Err? && r.error == SameFeePool <==>
              Network.EnsureNetwork(o.network).Ok? && Network.LoadConnections(o.network, env).Ok?
              && "FeePool" in deployment.targets && deployment.targets["FeePool"].source in deployment.sources
              && o.sourceAddress.Some? && ToLower(o.sourceAddress.value) == ToLower(TargetAddress(deployment))
    ensures r.Err? ==> r.error.InvalidNetwork? || r.error.NoConnections? || r.error.NoFeePool?
                       || r.error.NoFeePoolSource? || r.error == NoSourceAddress || r.error == SameFeePool
  {
    match Network.EnsureNetwork(o.network)
    case Err(e) => Err(InvalidNetwork(e))
    case Ok(_) =>
      if !IsAddress(o.sourceAddress) then Err(InvalidSource(o.sourceAddress))
      else
        match Network.LoadConnections(o.network, env)
        case Err(e) => Err(NoConnections(e))
        case Ok(c) =>
          if "FeePool" !in deployment.targets then Err(NoFeePool)
          else if deployment.targets["FeePool"].source !in deployment.sources
          then Err(NoFeePoolSource(deployment.targets["FeePool"].source))
          else if o.sourceAddress.None? then Err(NoSourceAddress)
          else if ToLower(o.sourceAddress.value) == ToLower(TargetAddress(deployment)) then Err(SameFeePool)
          else Ok(c)
  }

  /** `importFeePeriods`. The process environment, the FeePools by address,
      the clock and the operator's answers are parameters. The explorer links
      in its errors are the ones the code builds, `undefined/address/...`. */
  method ImportFeePeriods(
    o: Options, deployment: Deployment, env: Network.Environment, pools: string -> Pool,
    nowMs: int, answer: nat -> string) returns (r: Result<Imported, Failure>)
    // the checks before any chain read fail first
    ensures Prepare(o, deployment, env).Err? ==> r == Err(Prepare(o, deployment, env).error)
    ensures Prepare(o, deployment, env).Ok? && r.Err? ==>
              r.error.PeriodNotSet? || r.error.InitialPeriodTooOld? || r.error.TargetHasPeriods?
    // a source failure names the first rejected period, with a link to the source
    ensures r.Err? && (r.error.PeriodNotSet? || r.error.InitialPeriodTooOld?) ==>
              Prepared(o, deployment, env)
              && var source := pools(o.sourceAddress.value);
              && var link := AddressLinkAsWritten(Network.LoadConnections(o.network, env).value, o.sourceAddress.value);
              exists j :: 0 <= j < PeriodCount(source.periodLength) && SourceRejects(j, source.recent(j), nowMs)
                          && (forall k :: 0 <= k < j ==> !SourceRejects(k, source.recent(k), nowMs))
                          && r.error == SourceFailure(j, source.recent(j), nowMs, link)
    // a target failure comes only without override, after the whole source
    // passed, and names the first occupied period, with a link to the target
    ensures r.Err? && r.error.TargetHasPeriods? ==>
              Prepared(o, deployment, env) && !o.override
              && var source := pools(o.sourceAddress.value);
              && var n := PeriodCount(source.periodLength);
              && var target := TargetAddress(deployment);
              && var link := AddressLinkAsWritten(Network.LoadConnections(o.network, env).value, target);
              && (forall j :: 0 <= j < n ==> !SourceRejects(j, source.recent(j), nowMs))
              && exists j :: 0 <= j < n && Occupied(pools(target).recent(j))
                             && (forall k :: 0 <= k < j ==> !Occupied(pools(target).recent(k)))
                             && r.error == TargetHasPeriods(j, link)
    // it completes exactly when the source periods are all set and fresh
    // and, unless overridden, the target holds none
    ensures r.Ok? <==>
              Prepared(o, deployment, env)
              && var n := PeriodCount(pools(o.sourceAddress.value).periodLength);
              && (forall j :: 0 <= j < n ==> !SourceRejects(j, pools(o.sourceAddress.value).recent(j), nowMs))
              && (!o.override ==> forall j :: 0 <= j < n ==> !Occupied(pools(TargetAddress(deployment)).recent(j)))
    ensures r.Ok? ==>
              && o.sourceAddress.Some?
              && var source := pools(o.sourceAddress.value);
              && var n := PeriodCount(source.periodLength);
              && "FeePool" in deployment.targets
              && r.value.target == TargetAddress(deployment)
              && r.value.signingKey == SigningKey(o.network, o.privateKey, Network.EnvVar(env, "DEPLOY_PRIVATE_KEY"))
              && |r.value.periods| == n
              && (forall j :: 0 <= j < n ==> r.value.periods[j] == StripIndexKeys(source.recent(j)))
              && r.value.saved == (if o.network != "local" then Some(r.value.periods) else None)
              && (r.value.cancelledAt.None? <==> forall i :: 0 <= i < n ==> !Declines(o.yes, answer, i))
              // the operator stopped it at the first declined prompt
              && (r.value.cancelledAt.Some? ==>
                    r.value.cancelledAt.value < n && Declines(o.yes, answer, r.value.cancelledAt.value)
                    && forall i :: 0 <= i < r.value.cancelledAt.value ==> !Declines(o.yes, answer, i))
              && |r.value.calls| == (if r.value.cancelledAt.Some? then r.value.cancelledAt.value else n)
              && r.value.calls == ImportCalls(r.value.periods, |r.value.calls|)
  {
    var prepared := Prepare(o, deployment, env);
    if prepared.Err? {
      return Err(prepared.error);
    }
    var c := prepared.value;
    var key := SigningKey(o.network, o.privateKey, c.privateKey);
    var target := TargetAddress(deployment);
    var address := o.sourceAddress.value;
    var source := pools(address);
    var n := PeriodCount(source.periodLength);
    var loaded := LoadSourcePeriods(source.recent, n, nowMs, AddressLinkAsWritten(c, address));
    if loaded.Err? {
      return Err(loaded.error);
    }
    var periods := loaded.value;
    if !o.override {
      var checked := CheckTargetPeriods(pools(target).recent, n, AddressLinkAsWritten(c, target));
      if checked.Err? {
        return Err(checked.error);
      }
    }
    var saved := if o.network != "local" then Some(periods) else None;
    var calls, cancelledAt := ImportAll(periods, o.yes, answer);
    return Ok(Imported(target, key, periods, calls, saved, cancelledAt));
  }
}
