/**
 * The blockchain service: the supported-network table, the chain-id lookup,
 * the hexadecimal chain id sent to the wallet, and the connection state of
 * BlockchainService (provider, signer, contract, current network) with the
 * guards of its operations.
 *
 * The wallet (MetaMask) and the registry contract are external: what they
 * answer is passed in. A signer is represented by its address and a
 * contract object by the address it is bound to. A thrown error is an Err
 * carrying its message.
 */
module Blockchain {
  import opened Wrappers
  import Text

  datatype NetworkConfig = NetworkConfig(chainId: nat, name: string, rpcUrl: string, contractAddress: string)

  /** SUPPORTED_NETWORKS in key order; every entry carries the registry's
      deployed address, or "" when none is recorded. */
  function SupportedNetworks(registryAddress: string): seq<(string, NetworkConfig)> {
    [("sepolia", NetworkConfig(11155111, "Sepolia Testnet", "https://sepolia.infura.io/v3/YOUR_INFURA_KEY", registryAddress)),
     ("polygon", NetworkConfig(137, "Polygon Mainnet", "https://polygon-mainnet.infura.io/v3/YOUR_INFURA_KEY", registryAddress)),
     ("mumbai", NetworkConfig(80001, "Mumbai Testnet", "https://polygon-mumbai.infura.io/v3/YOUR_INFURA_KEY", registryAddress)),
     ("localhost", NetworkConfig(1337, "Localhost", "http://127.0.0.1:8545", registryAddress))]
  }

  const UnknownNetwork := "unknown"
  const MetaMaskMissing := "MetaMask is not installed"
  const WalletNotConnected := "Wallet not connected"
  const ContractNotInitialized := "Contract not initialized"
  /** The message of the TypeError raised by reading a property of the missing
      table entry, in the wording of the V8 engine. */
  const UndefinedConfigError := "Cannot read properties of undefined (reading 'contractAddress')"
  /** The wallet's error code for a chain it has not been told about. */
  const UnrecognizedChain := 4902

  /** `SUPPORTED_NETWORKS[name]` */
  function Lookup(table: seq<(string, NetworkConfig)>, name: string): (r: Option<NetworkConfig>)
    ensures r.Some? ==> exists i :: 0 <= i < |table| && table[i] == (name, r.value)
    ensures r.None? ==> forall i :: 0 <= i < |table| ==> table[i].0 != name
  {
    if |table| == 0 then None
    else if table[0].0 == name then Some(table[0].1)
    else
      var r := Lookup(table[1..], name);
      assert forall i :: 1 <= i < |table| ==> table[i] == table[1..][i - 1];
      r
  }

  /** getNetworkName: the first name whose chain id matches, else "unknown". */
  function NetworkNameOf(table: seq<(string, NetworkConfig)>, chainId: int): string {
    if |table| == 0 then UnknownNetwork
    else if table[0].1.chainId == chainId then table[0].0
    else NetworkNameOf(table[1..], chainId)
  }

  predicate DistinctChainIds(table: seq<(string, NetworkConfig)>) {
    forall i, j :: 0 <= i < j < |table| ==> table[i].1.chainId != table[j].1.chainId
  }

  predicate DistinctNames(table: seq<(string, NetworkConfig)>) {
    forall i, j :: 0 <= i < j < |table| ==> table[i].0 != table[j].0
  }

  /** The lookup finds a matching entry with no earlier match, or there is no match and it says "unknown". */
  lemma {:induction false} NetworkNameOfSpec(table: seq<(string, NetworkConfig)>, chainId: int)
    ensures (forall i :: 0 <= i < |table| ==> table[i].1.chainId != chainId) ==> NetworkNameOf(table, chainId) == UnknownNetwork
    ensures (exists i :: 0 <= i < |table| && table[i].1.chainId == chainId) ==>
      exists j :: 0 <= j < |table| && table[j].1.chainId == chainId && NetworkNameOf(table, chainId) == table[j].0
        && forall k :: 0 <= k < j ==> table[k].1.chainId != chainId
    decreases |table|
  {
    if |table| > 0 && table[0].1.chainId != chainId {
      NetworkNameOfSpec(table[1..], chainId);
      assert forall i :: 1 <= i < |table| ==> table[i] == table[1..][i - 1];
      if exists i :: 0 <= i < |table| && table[i].1.chainId == chainId {
        var i :| 0 <= i < |table| && table[i].1.chainId == chainId;
        assert table[1..][i - 1].1.chainId == chainId;
        var j :| 0 <= j < |table[1..]| && table[1..][j].1.chainId == chainId && NetworkNameOf(table[1..], chainId) == table[1..][j].0
          && forall k :: 0 <= k < j ==> table[1..][k].1.chainId != chainId;
        assert table[j + 1].1.chainId == chainId;
        assert forall k :: 0 <= k < j + 1 ==> table[k].1.chainId != chainId by {
          forall k | 0 <= k < j + 1 ensures table[k].1.chainId != chainId {
            if k > 0 { assert table[k] == table[1..][k - 1]; }
          }
        }
      }
    }
  }

  /** With distinct chain ids, looking up an entry's chain id gives back its name. */
  lemma {:induction false} NetworkNameRoundTrip(table: seq<(string, NetworkConfig)>, i: nat)
    requires i < |table| && DistinctChainIds(table)
    ensures NetworkNameOf(table, table[i].1.chainId) == table[i].0
    decreases i
  {
    if i > 0 {
      assert table[0].1.chainId != table[i].1.chainId;
      assert DistinctChainIds(table[1..]) by {
        forall a, b | 0 <= a < b < |table[1..]| ensures table[1..][a].1.chainId != table[1..][b].1.chainId {
          assert table[1..][a] == table[a + 1] && table[1..][b] == table[b + 1];
        }
      }
      NetworkNameRoundTrip(table[1..], i - 1);
    }
  }

  /** The four supported networks have distinct names and chain ids, and none is called "unknown". */
  lemma SupportedTableWellFormed(registryAddress: string)
    ensures DistinctChainIds(SupportedNetworks(registryAddress))
    ensures DistinctNames(SupportedNetworks(registryAddress))
    ensures Lookup(SupportedNetworks(registryAddress), UnknownNetwork) == None
  {
  }

  /** `getNetworkName(SUPPORTED_NETWORKS[n].chainId) == n` for every supported n. */
  lemma SupportedNetworkRoundTrip(registryAddress: string, name: string)
    requires Lookup(SupportedNetworks(registryAddress), name).Some?
    ensures NetworkNameOf(SupportedNetworks(registryAddress), Lookup(SupportedNetworks(registryAddress), name).value.chainId) == name
  {
    var table := SupportedNetworks(registryAddress);
    SupportedTableWellFormed(registryAddress);
    var i :| 0 <= i < |table| && table[i] == (name, Lookup(table, name).value);
    NetworkNameRoundTrip(table, i);
  }

  /** The chain id as the wallet requests take it: "0x" and `chainId.toString(16)`. */
  function HexChainId(chainId: nat): string {
    "0x" + Text.HexString(chainId)
  }

  /** The hex chain id is "0x" then lower-case hex digits, without leading zeros, that denote the chain id. */
  lemma HexChainIdSpec(chainId: nat)
    ensures var h := HexChainId(chainId);
      |h| > 2 && h[..2] == "0x" && Text.AllDigits(h[2..], 16)
      && Text.ValueOf(h[2..], 16) == chainId
      && (chainId > 0 ==> h[2] != '0')
      && forall i :: 2 <= i < |h| ==> ('0' <= h[i] <= '9' || 'a' <= h[i] <= 'f')
  {
    var h := HexChainId(chainId);
    assert h[2..] == Text.HexString(chainId);
    Text.NatToDigitsValue(chainId, 16);
    Text.NatToDigitsNoLeadingZero(chainId, 16);
    forall i | 2 <= i < |h| ensures '0' <= h[i] <= '9' || 'a' <= h[i] <= 'f' {
      assert Text.IsDigit(h[2..][i - 2], 16);
    }
  }

  datatype NativeCurrency = NativeCurrency(name: string, symbol: string, decimals: nat)

  /** The requests the service sends to the wallet. */
  datatype WalletRequest =
    | SwitchChain(chainId: string)
    | AddChain(chainId: string, chainName: string, rpcUrls: seq<string>, nativeCurrency: NativeCurrency)

  /** An error the wallet reports, with its numeric code. */
  datatype WalletError = WalletError(code: int, message: string)

  /** addNetwork's request for a supported network. */
  function AddNetworkRequest(networkName: string, config: NetworkConfig): WalletRequest {
    var currency := if networkName == "polygon" then "MATIC" else "ETH";
    AddChain(HexChainId(config.chainId), config.name, [config.rpcUrl], NativeCurrency(currency, currency, 18))
  }

  /** The native currency is MATIC exactly for polygon, ETH otherwise, always with 18 decimals. */
  lemma AddNetworkCurrency(networkName: string, config: NetworkConfig)
    ensures var c := AddNetworkRequest(networkName, config).nativeCurrency;
      (c.symbol == "MATIC" <==> networkName == "polygon") && (c.symbol == "ETH" <==> networkName != "polygon")
      && c.name == c.symbol && c.decimals == 18
    ensures AddNetworkRequest(networkName, config).chainId == HexChainId(config.chainId)
  {
  }

  /** initializeContract's outcome: the address to bind the contract to, or the error it throws. */
  function InitOutcome(table: seq<(string, NetworkConfig)>, signer: Option<string>, currentNetwork: string): Result<string, string> {
    if signer.None? then Err(WalletNotConnected)
    else match Lookup(table, currentNetwork)
      case None => Err(UndefinedConfigError)
      case Some(config) =>
        if config.contractAddress == "" then Err("Contract not deployed on " + currentNetwork)
        else Ok(config.contractAddress)
  }

  /** The contract is bound exactly when a signer is present, the network is
      supported and the registry has an address; the checks run in that order. */
  lemma InitOutcomeSpec(registryAddress: string, signer: Option<string>, currentNetwork: string)
    ensures var o := InitOutcome(SupportedNetworks(registryAddress), signer, currentNetwork);
      (o.Ok? <==> signer.Some? && Lookup(SupportedNetworks(registryAddress), currentNetwork).Some? && registryAddress != "")
      && (o.Ok? ==> o.value == registryAddress)
      && (signer.None? ==> o == Err(WalletNotConnected))
      && (signer.Some? && currentNetwork == UnknownNetwork ==> o == Err(UndefinedConfigError))
  {
    SupportedTableWellFormed(registryAddress);
    var table := SupportedNetworks(registryAddress);
    match Lookup(table, currentNetwork)
    case None =>
    case Some(config) =>
      var i :| 0 <= i < |table| && table[i] == (currentNetwork, config);
  }

  /** The registry's operations, each guarded by the contract check. */
  datatype ContractOp =
    | RegisterPatient | RegisterDoctor | GrantConsent | BookAppointment
    | GetDoctorsBySpecialization | GetDoctorsByLocation | GetDoctor | GetPatient

  /** The service's state. */
  class BlockchainService {
    /** The supported-network table. */
    const networks: seq<(string, NetworkConfig)>
    var hasProvider: bool
    var signer: Option<string>
    var contract: Option<string>
    var currentNetwork: string

    constructor (registryAddress: string)
      ensures networks == SupportedNetworks(registryAddress)
      ensures !hasProvider && signer == None && contract == None && currentNetwork == "localhost"
    {
      networks := SupportedNetworks(registryAddress);
      hasProvider := false;
      signer := None;
      contract := None;
      currentNetwork := "localhost";
    }

    /** The whole connection state. */
    function Connection(): (bool, Option<string>, Option<string>, string)
      reads this
    {
      (hasProvider, signer, contract, currentNetwork)
    }

    /** isConnected */
    predicate IsConnected()
      reads this
    {
      signer.Some?
    }

    /** getCurrentNetwork */
    function GetCurrentNetwork(): string
      reads this
    {
      currentNetwork
    }

    /** getNetworkName: a loop over the table with an early return. */
    method GetNetworkName(chainId: int) returns (name: string)
      ensures name == NetworkNameOf(networks, chainId)
    {
      for i := 0 to |networks|
        invariant NetworkNameOf(networks[i..], chainId) == NetworkNameOf(networks, chainId)
      {
        assert networks[i..][1..] == networks[i + 1..];
        if networks[i].1.chainId == chainId {
          return networks[i].0;
        }
      }
      return UnknownNetwork;
    }

    /** initializeContract */
    method InitializeContract() returns (r: Result<(), string>)
      modifies this
      ensures var o := InitOutcome(networks, old(signer), old(currentNetwork));
        (o.Ok? ==> contract == Some(o.value) && r == Ok(()))
        && (o.Err? ==> contract == old(contract) && r == Err(o.error))
      ensures signer == old(signer) && currentNetwork == old(currentNetwork) && hasProvider == old(hasProvider)
    {
      if signer.None? {
        return Err(WalletNotConnected);
      }
      var config := Lookup(networks, currentNetwork);
      if config.None? {
        return Err(UndefinedConfigError);
      }
      if config.value.contractAddress == "" {
        return Err("Contract not deployed on " + currentNetwork);
      }
      contract := Some(config.value.contractAddress);
      r := Ok(());
    }

    /** connectWallet. `account` is the wallet's answer: the selected address and
        the chain id, or the error of a refused request. On success the address
        and the network name are returned. */
    method ConnectWallet(ethereumPresent: bool, account: Result<(string, nat), string>) returns (r: Result<(string, string), string>)
      modifies this
      ensures !ethereumPresent ==> r == Err(MetaMaskMissing) && Connection() == old(Connection())
      ensures ethereumPresent && account.Err? ==> r == Err(account.error) && Connection() == old(Connection())
      ensures ethereumPresent && account.Ok? ==>
        var network := NetworkNameOf(networks, account.value.1);
        var o := InitOutcome(networks, Some(account.value.0), network);
        hasProvider && signer == Some(account.value.0) && currentNetwork == network
        && (o.Ok? ==> contract == Some(o.value) && r == Ok((account.value.0, network)))
        && (o.Err? ==> contract == old(contract) && r == Err(o.error))
    {
      if !ethereumPresent {
        return Err(MetaMaskMissing);
      }
      if account.Err? {
        return Err(account.error);
      }
      var (address, chainId) := account.value;
      hasProvider := true;
      signer := Some(address);
      currentNetwork := GetNetworkName(chainId);
      var init := InitializeContract();
      if init.Err? {
        return Err(init.error);
      }
      r := Ok((address, currentNetwork));
    }

    /** switchNetwork. `switchReply` is the wallet's answer to the switch request
        and `addReply` its answer to the add request, when one is sent. The
        requests sent are returned in order. */
    method SwitchNetwork(ethereumPresent: bool, networkName: string, switchReply: Result<(), WalletError>, addReply: Result<(), string>)
      returns (r: Result<(), string>, sent: seq<WalletRequest>)
      modifies this
      ensures !ethereumPresent ==> r == Err(MetaMaskMissing) && sent == [] && Connection() == old(Connection())
      ensures ethereumPresent && Lookup(networks, networkName).None? ==>
        r == Err("Unsupported network: " + networkName) && sent == [] && Connection() == old(Connection())
      ensures ethereumPresent && Lookup(networks, networkName).Some? ==>
        var config := Lookup(networks, networkName).value;
        |sent| >= 1 && sent[0] == SwitchChain(HexChainId(config.chainId))
        && (switchReply.Ok? ==>
              var o := InitOutcome(networks, old(signer), networkName);
              sent == [sent[0]] && currentNetwork == networkName
              && (o.Ok? ==> contract == Some(o.value) && r == Ok(()))
              && (o.Err? ==> contract == old(contract) && r == Err(o.error)))
        && (switchReply.Err? && switchReply.error.code == UnrecognizedChain ==>
              sent == [sent[0], AddNetworkRequest(networkName, config)] && r == addReply
              && currentNetwork == old(currentNetwork) && contract == old(contract))
        && (switchReply.Err? && switchReply.error.code != UnrecognizedChain ==>
              sent == [sent[0]] && r == Err(switchReply.error.message)
              && currentNetwork == old(currentNetwork) && contract == old(contract))
      ensures signer == old(signer) && hasProvider == old(hasProvider)
    {
      sent := [];
      if !ethereumPresent {
        return Err(MetaMaskMissing), sent;
      }
      var config := Lookup(networks, networkName);
      if config.None? {
        return Err("Unsupported network: " + networkName), sent;
      }
      sent := sent + [SwitchChain(HexChainId(config.value.chainId))];
      match switchReply {
        case Ok(_) =>
          currentNetwork := networkName;
          var init := InitializeContract();
          r := init;
        case Err(e) =>
          if e.code == UnrecognizedChain {
            sent := sent + [AddNetworkRequest(networkName, config.value)];
            r := addReply;
          } else {
            r := Err(e.message);
          }
      }
    }

    /** The guard every registry operation starts with; `reply` is what the
        contract call itself yields. Nothing in the service changes. */
    method CallContract<T>(op: ContractOp, reply: Result<T, string>) returns (r: Result<T, string>)
      ensures contract.None? ==> r == Err(ContractNotInitialized)
      ensures contract.Some? ==> r == reply
    {
      if contract.None? {
        return Err(ContractNotInitialized);
      }
      r := reply;
    }
  }
}
