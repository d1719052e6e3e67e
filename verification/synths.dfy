/**
 The synth list of a deployment: which synths are new to the flags file,
 and the constructor arguments of each synth contract, whose tail depends on
 the contract's subclass.
 */
module Synths {
  import opened Js
  import opened Manifest
  import opened Plan

  /** An entry of the synths file. `subclass` and `aggregator` are `""` when
      absent; inverse pricing is not part of this model. */
  datatype SynthSpec = SynthSpec(name: string, subclass: string, aggregator: string)

  /** `synths.filter(({ name }) => !config[`Synth${name}`]).map(({ name }) => name)`. */
  function NewSynthsToAdd(synths: seq<SynthSpec>, config: Config): (r: seq<string>)
    ensures forall n :: n in r <==> exists i :: 0 <= i < |synths| && synths[i].name == n && "Synth" + n !in config
    ensures |r| <= |synths|
    decreases |synths|
  {
    if |synths| == 0 then []
    else
      var rest := NewSynthsToAdd(synths[1..], config);
      assert forall i :: 1 <= i < |synths| ==> synths[i] == synths[1..][i - 1];
      (if "Synth" + synths[0].name in config then [] else [synths[0].name]) + rest
  }

  function Names(synths: seq<SynthSpec>): (r: seq<string>)
    ensures |r| == |synths| && forall i :: 0 <= i < |synths| ==> r[i] == synths[i].name
  {
    if |synths| == 0 then [] else [synths[0].name] + Names(synths[1..])
  }

  /** The filter keeps list order: the new synths of two lists one after the
      other are those of the first followed by those of the second. */
  lemma {:induction false} NewSynthsOfConcat(a: seq<SynthSpec>, b: seq<SynthSpec>, config: Config)
    ensures NewSynthsToAdd(a + b, config) == NewSynthsToAdd(a, config) + NewSynthsToAdd(b, config)
    decreases |a|
  {
    if |a| == 0 {
      assert a + b == b;
    } else {
      assert (a + b)[0] == a[0];
      assert (a + b)[1..] == a[1..] + b;
      NewSynthsOfConcat(a[1..], b, config);
    }
  }

  /** With no synth in the flags file every synth is new, in list order; with
      all of them there, none is. */
  lemma {:induction false} NewSynthsExtremes(synths: seq<SynthSpec>, config: Config)
    ensures (forall i :: 0 <= i < |synths| ==> "Synth" + synths[i].name !in config) ==>
              NewSynthsToAdd(synths, config) == Names(synths)
    ensures (forall i :: 0 <= i < |synths| ==> "Synth" + synths[i].name in config) ==>
              NewSynthsToAdd(synths, config) == []
    decreases |synths|
  {
    if |synths| > 0 {
      assert forall i :: 1 <= i < |synths| ==> synths[i] == synths[1..][i - 1];
      NewSynthsExtremes(synths[1..], config);
    }
  }

  /** `subclass || 'Synth'`. */
  function SourceContract(subclass: string): (r: string)
    ensures r != ""
    ensures subclass != "" ==> r == subclass
    ensures subclass == "" ==> r == "Synth"
  {
    if subclass == "" then "Synth" else subclass
  }

  /** `additionalConstructorArgsMap[sourceContract] || []`. */
  function ExtraConstructorArgs(source: string, exchangeRates: Operand, originalTotalSupply: Operand): seq<Operand> {
    if source == "Synth" then [originalTotalSupply]
    else if source == "PurgeableSynth" then [exchangeRates, originalTotalSupply]
    else []
  }

  /** The eight arguments every synth constructor takes. */
  function BaseSynthArgs(currencyKey: string, keyBytes: string): seq<Operand> {
    [ AddressOr("Proxy" + currencyKey), AddressOr("TokenState" + currencyKey),
      Var("synthetixProxyAddress"), AddressOr("ProxyFeePool"),
      Lit(Str("Synth " + currencyKey)), Lit(Str(currencyKey)), Account, Lit(Str(keyBytes)) ]
  }

  /** The constructor arguments of `Synth${currencyKey}`. */
  function SynthConstructorArgs(currencyKey: string, keyBytes: string, subclass: string): seq<Operand> {
    BaseSynthArgs(currencyKey, keyBytes)
      + ExtraConstructorArgs(SourceContract(subclass), AddressOr("ExchangeRates"), Var("originalTotalSupply"))
  }

  /** The argument table: a plain synth ends with the original supply, a
      purgeable one with the exchange rates address and then the supply, any
      other subclass takes the eight common arguments only, and a synth with
      no subclass is a plain one. */
  lemma SynthArgsBySubclass(currencyKey: string, keyBytes: string, subclass: string)
    ensures var args := SynthConstructorArgs(currencyKey, keyBytes, subclass);
            args[..8] == BaseSynthArgs(currencyKey, keyBytes)
            && (SourceContract(subclass) == "Synth" ==> args[8..] == [Var("originalTotalSupply")])
            && (subclass == "PurgeableSynth" ==> args[8..] == [AddressOr("ExchangeRates"), Var("originalTotalSupply")])
            && (subclass != "" && subclass != "Synth" && subclass != "PurgeableSynth" ==> |args| == 8)
    ensures SynthConstructorArgs(currencyKey, keyBytes, "") == SynthConstructorArgs(currencyKey, keyBytes, "Synth")
  {
    var args := SynthConstructorArgs(currencyKey, keyBytes, subclass);
    assert args[..8] == BaseSynthArgs(currencyKey, keyBytes);
    assert args[8..] == ExtraConstructorArgs(SourceContract(subclass), AddressOr("ExchangeRates"), Var("originalTotalSupply"));
  }
}
