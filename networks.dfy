/**
 * The network registry: chain ids, block-explorer links, the table of
 * contract addresses per chain and the address-shortening helper.
 */
module Networks {
  import opened Options
  import opened NetworkTypes
  import Kovan
  import BinanceTestnet

  // ChainId
  const MainNet: int := 1
  const Ropsten: int := 3
  const Rinkeby: int := 4
  const Goerli: int := 5
  const KovanChain: int := 42

  /** The known chain ids name five different networks. */
  lemma ChainIdsDistinct()
    ensures |{MainNet, Ropsten, Rinkeby, Goerli, KovanChain}| == 5
  {
  }

  /** Block-explorer host prefix per chain id. */
  const EtherscanPrefixes: map<int, string> := map[
    MainNet := "",
    Ropsten := "ropsten.",
    Rinkeby := "rinkeby.",
    Goerli := "goerli.",
    KovanChain := "kovan."
  ]

  /**
   * The prefix a link for chainId uses: its table entry, falling back to
   * the mainnet entry when there is none (or it is the empty, falsy, one).
   */
  function EtherscanPrefix(chainId: int): (prefix: string)
    ensures chainId in EtherscanPrefixes ==> prefix == EtherscanPrefixes[chainId]
    ensures chainId !in EtherscanPrefixes ==> prefix == ""
  {
    if chainId in EtherscanPrefixes && EtherscanPrefixes[chainId] != "" then EtherscanPrefixes[chainId]
    else EtherscanPrefixes[MainNet]
  }

  /** The path segment for a link type: "transaction", "token", and anything else as an address. */
  function PathSegment(kind: string): (segment: string)
    ensures |segment| >= 2 && segment[0] == '/' && segment[|segment| - 1] == '/'
    ensures segment == "/tx/" <==> kind == "transaction"
    ensures segment == "/token/" <==> kind == "token"
    ensures segment == "/address/" <==> kind != "transaction" && kind != "token"
  {
    if kind == "transaction" then "/tx/"
    else if kind == "token" then "/token/"
    else "/address/"
  }

  /** getEtherscanLink: the explorer URL for a transaction hash, token or address on a chain. */
  function GetEtherscanLink(chainId: int, data: string, kind: string): (link: string)
    ensures |link| >= 8 && link[..8] == "https://"
    ensures |link| >= |data| && link[|link| - |data|..] == data
  {
    "https://" + EtherscanPrefix(chainId) + "etherscan.io" + PathSegment(kind) + data
  }

  /** The explorer host per chain id, and the mainnet host for every other id. */
  lemma PrefixTable(chainId: int)
    ensures EtherscanPrefix(MainNet) == "" && EtherscanPrefix(Ropsten) == "ropsten."
    ensures EtherscanPrefix(Rinkeby) == "rinkeby." && EtherscanPrefix(Goerli) == "goerli."
    ensures EtherscanPrefix(KovanChain) == "kovan."
    ensures chainId !in {MainNet, Ropsten, Rinkeby, Goerli, KovanChain} ==> EtherscanPrefix(chainId) == EtherscanPrefix(MainNet)
  {
  }

  /** Each link type produces its own path on the chain's explorer host. */
  lemma LinkShapes(chainId: int, data: string)
    ensures GetEtherscanLink(chainId, data, "transaction") == "https://" + EtherscanPrefix(chainId) + "etherscan.io/tx/" + data
    ensures GetEtherscanLink(chainId, data, "token") == "https://" + EtherscanPrefix(chainId) + "etherscan.io/token/" + data
    ensures GetEtherscanLink(chainId, data, "address") == "https://" + EtherscanPrefix(chainId) + "etherscan.io/address/" + data
  {
    var host := "https://" + EtherscanPrefix(chainId) + "etherscan.io";
    assert host + "/tx/" + data == "https://" + EtherscanPrefix(chainId) + "etherscan.io/tx/" + data;
    assert host + "/token/" + data == "https://" + EtherscanPrefix(chainId) + "etherscan.io/token/" + data;
    assert host + "/address/" + data == "https://" + EtherscanPrefix(chainId) + "etherscan.io/address/" + data;
  }

  /** A chain without an explorer entry links to the mainnet explorer. */
  lemma UnknownChainLink(chainId: int, data: string, kind: string)
    requires chainId !in EtherscanPrefixes
    ensures GetEtherscanLink(chainId, data, kind) == GetEtherscanLink(MainNet, data, kind)
    ensures GetEtherscanLink(chainId, data, "transaction") == "https://etherscan.io/tx/" + data
  {
    LinkShapes(chainId, data);
  }

  /** A link determines the data it was built for. */
  lemma LinkInjective(chainId: int, kind: string, data1: string, data2: string)
    requires GetEtherscanLink(chainId, data1, kind) == GetEtherscanLink(chainId, data2, kind)
    ensures data1 == data2
  {
    var head := "https://" + EtherscanPrefix(chainId) + "etherscan.io" + PathSegment(kind);
    assert GetEtherscanLink(chainId, data1, kind) == head + data1;
    assert GetEtherscanLink(chainId, data2, kind) == head + data2;
    assert data1 == (head + data1)[|head|..];
    assert data2 == (head + data2)[|head|..];
  }

  /** CONTRACTS_BY_NETWORK: only Kovan is registered. */
  const ContractsByNetwork: map<int, NetworkConfig> := map[KovanChain := Kovan.KovanNetworkConfig]

  /** getConfigByNetwork: the registered table for chainId, if any. */
  function GetConfigByNetwork(chainId: int): (config: Option<NetworkConfig>)
    ensures config.Some? <==> chainId == KovanChain
    ensures config.Some? ==> config.value == Kovan.KovanNetworkConfig
  {
    if chainId in ContractsByNetwork then Some(ContractsByNetwork[chainId]) else None
  }

  /** Mainnet, Ropsten, Rinkeby and Goerli have no table, and the Binance test network table is never returned. */
  lemma OnlyKovanRegistered(chainId: int)
    ensures GetConfigByNetwork(MainNet).None? && GetConfigByNetwork(Ropsten).None?
    ensures GetConfigByNetwork(Rinkeby).None? && GetConfigByNetwork(Goerli).None?
    ensures GetConfigByNetwork(chainId) != Some(BinanceTestnet.BinanceTestnetConfig)
  {
    assert Kovan.KovanNetworkConfig.unitroller != BinanceTestnet.BinanceTestnetConfig.unitroller;
  }

  /** Every table the registry hands out has its five mandatory addresses, all different, all well-formed. */
  lemma RegisteredConfigsComplete(chainId: int)
    requires GetConfigByNetwork(chainId).Some?
    ensures GetConfigByNetwork(chainId).value.MandatoryComplete()
    ensures GetConfigByNetwork(chainId).value.MandatoryDistinct()
    ensures forall i :: 0 <= i < 5 ==> IsHexAddress(GetConfigByNetwork(chainId).value.Mandatory()[i])
  {
    Kovan.KovanMandatory();
    Kovan.KovanAddressesWellFormed();
  }

  /**
   * shorter: a string of at most 8 characters unchanged, a longer one as
   * its first 6 characters, "..." and its last 4.
   */
  function Shorter(s: string): (r: string)
    ensures |s| <= 8 ==> r == s
    ensures |s| > 8 ==> |r| == 13 && r[..6] == s[..6] && r[6..9] == "..." && r[9..] == s[|s| - 4..]
  {
    if |s| > 8 then s[..6] + "..." + s[|s| - 4..] else s
  }

  /** Shortening a shortened string changes nothing. */
  lemma ShorterIdempotent(s: string)
    ensures Shorter(Shorter(s)) == Shorter(s)
  {
    var r := Shorter(s);
    if |s| > 8 {
      assert r == r[..6] + r[6..9] + r[9..];
    }
  }
}
