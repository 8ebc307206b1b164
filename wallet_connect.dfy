/**
 * The wallet panel: the shortened address, the network badge, and the state
 * updates of connecting and of switching networks. What the blockchain
 * service returns or throws is passed in.
 */
module WalletConnect {
  import opened Wrappers
  import Text
  import Blockchain

  const ConnectFailed := "Failed to connect wallet"
  const SwitchFailed := "Failed to switch network"

  /** formatAddress: the first six characters, "...", and the last four. */
  function FormatAddress(addr: string): string {
    Text.SliceFront(addr, 6) + "..." + Text.SliceBack(addr, 4)
  }

  /** An address of at least ten characters shows its first six and last four
      characters around "...", thirteen characters in all. */
  lemma FormatAddressSpec(addr: string)
    requires |addr| >= 10
    ensures FormatAddress(addr) == addr[..6] + "..." + addr[|addr| - 4..]
    ensures |FormatAddress(addr)| == 13
  {
  }

  /** A shorter address is never longer than thirteen characters either. */
  lemma FormatAddressBound(addr: string)
    ensures |FormatAddress(addr)| <= 13
    ensures FormatAddress(addr)[..|Text.SliceFront(addr, 6)|] == Text.SliceFront(addr, 6)
  {
    var f := Text.SliceFront(addr, 6);
    assert FormatAddress(addr) == f + ("..." + Text.SliceBack(addr, 4));
  }

  datatype NetworkStatus = NetworkStatus(color: string, name: string)

  /** getNetworkStatus */
  function GetNetworkStatus(table: seq<(string, Blockchain.NetworkConfig)>, networkName: string): NetworkStatus {
    if Blockchain.Lookup(table, networkName).None? then NetworkStatus("bg-red-100 text-red-800", "Unknown")
    else if networkName == "localhost" then NetworkStatus("bg-blue-100 text-blue-800", "Local")
    else if Text.Includes(networkName, "test") || networkName == "sepolia" || networkName == "mumbai" then
      NetworkStatus("bg-yellow-100 text-yellow-800", "Testnet")
    else NetworkStatus("bg-green-100 text-green-800", "Mainnet")
  }

  /** The badge: Unknown off the table, Local for localhost, Testnet for sepolia,
      mumbai or a name containing "test", and Mainnet otherwise. */
  lemma NetworkStatusSpec(table: seq<(string, Blockchain.NetworkConfig)>, networkName: string)
    ensures var name := GetNetworkStatus(table, networkName).name;
      (name == "Unknown" <==> Blockchain.Lookup(table, networkName).None?)
      && (name == "Local" <==> Blockchain.Lookup(table, networkName).Some? && networkName == "localhost")
      && (name == "Testnet" <==>
            Blockchain.Lookup(table, networkName).Some? && networkName != "localhost"
            && (Text.Includes(networkName, "test") || networkName == "sepolia" || networkName == "mumbai"))
      && (name == "Mainnet" <==>
            Blockchain.Lookup(table, networkName).Some? && networkName != "localhost"
            && !Text.Includes(networkName, "test") && networkName != "sepolia" && networkName != "mumbai")
  {
  }

  /** "polygon" does not contain "test". */
  lemma PolygonHasNoTest(name: string)
    requires name == "polygon"
    ensures !Text.Includes(name, "test")
  {
    Text.IncludesIffOccurs(name, "test");
    assert name[0] != 't' && name[1] != 't' && name[2] != 't' && name[3] != 't';
    forall i | 0 <= i <= 3 ensures !Text.OccursAt(name, "test", i) {
      assert name[i..i + 4][0] == name[i];
    }
  }

  /** Of the supported networks only polygon is classified as a mainnet. */
  lemma OnlyPolygonIsMainnet(registryAddress: string, networkName: string)
    requires Blockchain.Lookup(Blockchain.SupportedNetworks(registryAddress), networkName).Some?
    ensures GetNetworkStatus(Blockchain.SupportedNetworks(registryAddress), networkName).name == "Mainnet"
      <==> networkName == "polygon"
  {
    var table := Blockchain.SupportedNetworks(registryAddress);
    var i :| 0 <= i < |table| && table[i] == (networkName, Blockchain.Lookup(table, networkName).value);
    assert networkName in ["sepolia", "polygon", "mumbai", "localhost"];
    if networkName == "polygon" {
      PolygonHasNoTest(networkName);
    }
  }

  /** The panel's state. */
  class WalletConnectView {
    var isConnected: bool
    var address: string
    var currentNetwork: string
    var isConnecting: bool
    var error: string

    constructor ()
      ensures !isConnected && address == "" && currentNetwork == "" && !isConnecting && error == ""
    {
      isConnected, address, currentNetwork, isConnecting, error := false, "", "", false, "";
    }

    /** checkConnection, on mount: with a wallet present and the service
        connected, the flag and the service's network are copied; the address
        is set only if reading it from the wallet succeeds. */
    method CheckConnection(ethereumPresent: bool, serviceConnected: bool, serviceNetwork: string, addressReply: Result<string, string>)
      modifies this
      ensures ethereumPresent && serviceConnected ==>
        isConnected && currentNetwork == serviceNetwork
        && address == (if addressReply.Ok? then addressReply.value else old(address))
      ensures !(ethereumPresent && serviceConnected) ==>
        isConnected == old(isConnected) && currentNetwork == old(currentNetwork) && address == old(address)
      ensures error == old(error) && isConnecting == old(isConnecting)
    {
      if ethereumPresent && serviceConnected {
        isConnected := true;
        currentNetwork := serviceNetwork;
        if addressReply.Ok? {
          address := addressReply.value;
        }
      }
    }

    /** connectWallet; `reply` is the service's address and network, or the message it threw. */
    method ConnectWallet(reply: Result<(string, string), string>)
      modifies this
      ensures !isConnecting
      ensures reply.Ok? ==> isConnected && address == reply.value.0 && currentNetwork == reply.value.1 && error == ""
      ensures reply.Err? ==>
        error == (if reply.error != "" then reply.error else ConnectFailed)
        && isConnected == old(isConnected) && address == old(address) && currentNetwork == old(currentNetwork)
    {
      isConnecting := true;
      error := "";
      match reply {
        case Ok((walletAddress, network)) =>
          isConnected := true;
          address := walletAddress;
          currentNetwork := network;
        case Err(message) =>
          error := if message != "" then message else ConnectFailed;
      }
      isConnecting := false;
    }

    /** switchNetwork; `reply` is the service's outcome. The network changes
        only on success, and a failure only sets the error. */
    method SwitchNetwork(networkName: string, reply: Result<(), string>)
      modifies this
      ensures reply.Ok? ==> currentNetwork == networkName && error == old(error)
      ensures reply.Err? ==>
        currentNetwork == old(currentNetwork) && error == (if reply.error != "" then reply.error else SwitchFailed)
      ensures isConnected == old(isConnected) && address == old(address) && isConnecting == old(isConnecting)
    {
      match reply {
        case Ok(_) =>
          currentNetwork := networkName;
        case Err(message) =>
          error := if message != "" then message else SwitchFailed;
      }
    }
  }
}
