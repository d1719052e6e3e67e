/**
 The supply schedule the deploy script derives from the existing Synthetix
 contract: how many weeks of inflation have been minted, read off the total
 supply above the initial 100 million tokens, and the time of the last mint
 event. Amounts are in wei (18 decimals), as `toWei` produces them.
 */
module Inflation {
  import opened Base

  const Wei: nat := 1_000_000_000_000_000_000
  /** `toWei((100e6).toString())`. */
  const InitialSupply: nat := 100_000_000 * Wei
  /** `toWei((75e6 / 52).toString())`: the float prints as 1442307.6923076923. */
  const WeeklyInflation: nat := 1_442_307_692_307_692_300_000_000
  const InflationStartDate: nat := 1551830400
  const SecondsInWeek: nat := 604800
  const MintingBuffer: nat := 86400
  /** bn.js `toNumber` converts a value of two 26-bit words, or of three
      whose top word is 1, so everything below 2^53, and asserts otherwise. */
  const NumberBound: nat := 0x20_0000_0000_0000

  /** bn.js `div`: the quotient truncated toward zero. */
  function TruncDiv(a: int, b: int): (q: int)
    requires b > 0
    ensures a >= 0 ==> 0 <= q && q * b <= a < (q + 1) * b
    ensures a < 0 ==> q <= 0 && -q * b <= -a < (-q + 1) * b
  {
    if a >= 0 then
      QuotientBounds(a, b);
      a / b
    else
      QuotientBounds(-a, b);
      -((-a) / b)
  }

  /** Euclidean division of a non-negative dividend brackets it between
      two consecutive multiples of the divisor. */
  lemma QuotientBounds(a: int, b: int)
    requires a >= 0 && b > 0
    ensures 0 <= a / b && (a / b) * b <= a < (a / b + 1) * b
  {
    var q, m := a / b, a % b;
    assert a == q * b + m && 0 <= m < b;
    assert (q + 1) * b == q * b + b;
  }

  function Max0(x: int): nat {
    if x > 0 then x else 0
  }

  /** The week of inflation for a total supply: the quotient when it is
      positive, else 0, and an exception (bn.js `toNumber`) when it is too
      large for a JavaScript number. */
  function WeekOfInflation(supply: int): (r: Result<nat, ()>)
    // the number of whole weeks of inflation minted beyond the initial supply
    ensures r.Ok? ==> r.value * WeeklyInflation <= Max0(supply - InitialSupply) < (r.value + 1) * WeeklyInflation
    ensures r.Err? <==> supply >= InitialSupply + NumberBound * WeeklyInflation
  {
    var week := TruncDiv(supply - InitialSupply, WeeklyInflation);
    if week > 0 then
      if week >= NumberBound then Err(()) else Ok(week)
    else Ok(0)
  }

  /** `inflationStartDate + currentWeekOfInflation * secondsInWeek + mintingBuffer`. */
  function LastMintEvent(week: nat): (t: nat)
    ensures t >= InflationStartDate + MintingBuffer
    ensures week > 0 ==> t == LastMintEvent(week - 1) + SecondsInWeek
  {
    InflationStartDate + week * SecondsInWeek + MintingBuffer
  }

  /** What reading the existing Synthetix contract gave: no entry in the
      manifest, its total supply, or an exception (an unreachable contract or
      an answer that is not a Tron big number). */
  datatype PriorSynthetix = NoPrior | Prior(totalSupply: int) | Unreachable

  datatype Schedule = Schedule(supply: int, week: nat, lastMint: nat)

  /** The schedule a fresh deployment starts from. */
  const Fresh: Schedule := Schedule(InitialSupply, 0, 0)

  const CannotConnect: string :=
    "Cannot connect to existing Synthetix contract. Please double check the deploymentPath is correct for the network allocated"

  /** The supply, week and last mint event the script passes on; on the local
      network an exception falls back to a fresh schedule, elsewhere it ends
      the run. */
  function CurrentSchedule(prior: PriorSynthetix, network: string): (r: Result<Schedule, string>)
    ensures prior.NoPrior? ==> r == Ok(Fresh)
    ensures r.Err? <==> network != "local"
                        && (prior.Unreachable? || (prior.Prior? && WeekOfInflation(prior.totalSupply).Err?))
    ensures r.Err? ==> r.error == CannotConnect
    ensures r.Ok? && prior.Prior? && WeekOfInflation(prior.totalSupply).Ok? ==>
              r.value.supply == prior.totalSupply
              && r.value.week * WeeklyInflation <= Max0(prior.totalSupply - InitialSupply)
              && Max0(prior.totalSupply - InitialSupply) < (r.value.week + 1) * WeeklyInflation
              && r.value.lastMint == LastMintEvent(r.value.week)
    ensures r.Ok? && !(prior.Prior? && WeekOfInflation(prior.totalSupply).Ok?) ==> r == Ok(Fresh)
  {
    match prior
    case NoPrior => Ok(Fresh)
    case Prior(supply) =>
      match WeekOfInflation(supply) {
        case Ok(week) => Ok(Schedule(supply, week, LastMintEvent(week)))
        case Err(_) => if network == "local" then Ok(Fresh) else Err(CannotConnect)
      }
    case Unreachable => if network == "local" then Ok(Fresh) else Err(CannotConnect)
  }

  /** The week is determined by the characterisation: a week count that fits
      the bounds is the one computed. */
  lemma WeekUnique(w1: nat, w2: nat, excess: nat)
    requires w1 * WeeklyInflation <= excess < (w1 + 1) * WeeklyInflation
    requires w2 * WeeklyInflation <= excess < (w2 + 1) * WeeklyInflation
    ensures w1 == w2
  {
  }

  /** A supply of exactly `k` weeks of inflation beyond the initial supply,
      plus less than a week's worth, is in week `k`. */
  lemma WeekOfExactSupply(k: nat, extra: nat)
    requires extra < WeeklyInflation
    requires k < NumberBound
    ensures WeekOfInflation(InitialSupply + k * WeeklyInflation + extra) == Ok(k)
  {
    var supply := InitialSupply + k * WeeklyInflation + extra;
    var r := WeekOfInflation(supply);
    assert Max0(supply - InitialSupply) == k * WeeklyInflation + extra;
    WeekUnique(r.value, k, k * WeeklyInflation + extra);
  }

  /** More supply never means an earlier week. */
  lemma WeekMonotone(s1: int, s2: int)
    requires s1 <= s2
    requires WeekOfInflation(s1).Ok? && WeekOfInflation(s2).Ok?
    ensures WeekOfInflation(s1).value <= WeekOfInflation(s2).value
  {
  }

  /** A supply at or below the initial 100 million tokens is week 0, and the
      last mint event is then a day after the inflation start. */
  lemma NoInflationYet(supply: int)
    requires supply <= InitialSupply
    ensures WeekOfInflation(supply) == Ok(0)
    ensures LastMintEvent(0) == InflationStartDate + MintingBuffer
  {
  }
}
