/**
 Network selection: which network names the tooling accepts (`ensureNetwork`)
 and which endpoint, key and explorer prefix it uses for each
 (`loadConnections`). The process environment is a parameter.
 */
module Network {
  import opened Base
  import opened Js

  const LocalUrl: string := "http://127.0.0.1:9090"
  const ShastaUrl: string := "https://api.shasta.trongrid.io"
  const MainnetUrl: string := "https://api.trongrid.io"

  /** The alternatives of `^(local|mainnet|shasta|tronex|nile)$`, in order. */
  const Networks: seq<string> := ["local", "mainnet", "shasta", "tronex", "nile"]

  /** An anchored alternation: try each alternative in turn against the whole
      string. */
  function MatchesOneOf(s: string, alternatives: seq<string>): (r: bool)
    ensures r <==> exists i :: 0 <= i < |alternatives| && alternatives[i] == s
  {
    if |alternatives| == 0 then false
    else if s == alternatives[0] then true
    else
      var rest := MatchesOneOf(s, alternatives[1..]);
      assert forall i :: 1 <= i < |alternatives| ==> alternatives[i] == alternatives[1..][i - 1];
      rest
  }

  /** `ensureNetwork`: throws unless the name is one of the five networks. */
  function EnsureNetwork(network: string): (r: Result<(), string>)
    ensures r.Ok? <==> network == "local" || network == "mainnet" || network == "shasta"
                       || network == "tronex" || network == "nile"
  {
    if MatchesOneOf(network, Networks) then Ok(())
    else Err("Invalid network name of \"" + network + "\" supplied. Must be one of local, kovan, rinkeby, ropsten or mainnet")
  }

  /** `process.env`. */
  type Environment = map<string, string>

  function EnvVar(env: Environment, name: string): Value {
    if name in env then Str(env[name]) else Undefined
  }

  datatype Connections = Connections(
    providerUrl: string,
    privateKey: Value,
    tronscanUrl: string,
    tronscanLinkPrefix: string)

  /** `loadConnections`. */
  function LoadConnections(network: string, env: Environment): (r: Result<Connections, string>)
    ensures r.Err? <==> network != "local" && !Truthy(EnvVar(env, "DEPLOY_PRIVATE_KEY"))
    ensures r.Ok? ==> r.value.privateKey == EnvVar(env, "DEPLOY_PRIVATE_KEY")
    ensures r.Ok? && network == "shasta" ==> r.value.providerUrl == ShastaUrl
    ensures r.Ok? && network == "mainnet" ==> r.value.providerUrl == MainnetUrl
    ensures r.Ok? && network == "local" && Truthy(EnvVar(env, "TRONBOX_URL")) ==>
              r.value.providerUrl == env["TRONBOX_URL"]
    ensures r.Ok? && network != "shasta" && network != "mainnet"
              && !(network == "local" && Truthy(EnvVar(env, "TRONBOX_URL"))) ==>
              r.value.providerUrl == LocalUrl
    ensures r.Ok? && network == "mainnet" ==> r.value.tronscanLinkPrefix == "https://tronscan.org"
    ensures r.Ok? && network != "mainnet" ==>
              r.value.tronscanLinkPrefix == "https://" + network + ".tronscan.org"
    ensures r.Ok? ==> r.value.tronscanUrl == r.value.tronscanLinkPrefix
  {
    var privateKey := EnvVar(env, "DEPLOY_PRIVATE_KEY");
    if network != "local" && !Truthy(privateKey) then
      Err("Set environment variable DEPLOY_PRIVATE_KEY to a Tron private key")
    else
      var tronbox := EnvVar(env, "TRONBOX_URL");
      var url0 := LocalUrl;
      var url1 := if network == "local" && Truthy(tronbox) then tronbox.s else url0;
      var url2 := if network == "shasta" then ShastaUrl else url1;
      var url3 := if network == "mainnet" then MainnetUrl else url2;
      var prefix := "https://" + (if network != "mainnet" then network + "." else "") + "tronscan.org";
      Ok(Connections(url3, privateKey, prefix, prefix))
  }
}
