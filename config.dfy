/**
 * The static configuration of the front end: the stored mode preference, the mode flag and
 * the contract addresses, the two contract interfaces, the query type and status tables and
 * the network table with its lookups.
 */
module Config {
  import opened Wrappers
  import opened JsText
  import Ledger

  /** The stored mode preference as `getUserContractMode` finds it. */
  datatype PreferenceStore =
    | NoStorage                      // there is no `window.localStorage`
    | StorageThrows                  // reading the store throws
    | Stored(value: Option<string>)  // `getItem('contractMode')`: `null` or a string

  /** `getUserContractMode()`: the stored mode when it is a non-empty string, `'mock'` otherwise. */
  function UserContractMode(store: PreferenceStore): (mode: string)
    ensures mode == "mock" || store == Stored(Some(mode))
    ensures store.Stored? && store.value.Some? && store.value.value != "" ==> mode == store.value.value
    ensures !store.Stored? || store.value == None || store.value == Some("") ==> mode == "mock"
  {
    match store
    case Stored(Some(m)) => if m != "" then m else "mock"
    case _ => "mock"
  }

  /** `FHEVM_ENABLED`: the build-time switch between the two contracts, shipped off. */
  const FhevmEnabled: bool := false

  const ContractAddressMock: string := "0x9e138064d8B68E027c8Fe0C4da03325C91cecaeb"
  const DefaultContractAddressFhe: string := "0x39adb32637D1E16C1Cd7159EE3a24C13c161FE69"

  /** `CONTRACT_ADDRESS_FHE`: the build variable when it is a non-empty string, else the default. */
  function ContractAddressFhe(env: Option<string>): (address: string)
    ensures env.Some? && env.value != "" ==> address == env.value
    ensures env.None? || env.value == "" ==> address == DefaultContractAddressFhe
  {
    match env
    case Some(a) => if a != "" then a else DefaultContractAddressFhe
    case None => DefaultContractAddressFhe
  }

  /** `CONTRACT_ADDRESS`: the FHE contract exactly when the flag is on. */
  function ContractAddress(enabled: bool, env: Option<string>): (address: string)
    ensures enabled ==> address == ContractAddressFhe(env)
    ensures !enabled ==> address == ContractAddressMock
  {
    if enabled then ContractAddressFhe(env) else ContractAddressMock
  }

  /** Whenever the two addresses differ, the address is the FHE one if and only if the flag is on. */
  lemma ContractAddressIsFheIffEnabled(enabled: bool, env: Option<string>)
    requires ContractAddressFhe(env) != ContractAddressMock
    ensures ContractAddress(enabled, env) == ContractAddressFhe(env) <==> enabled
  {
  }

  /** With the shipped flag the front end uses the mock contract, whatever the build variable is. */
  lemma ShippedAddressIsMock(env: Option<string>)
    ensures ContractAddress(FhevmEnabled, env) == ContractAddressMock
  {
  }

  /** An event of a contract interface: its name and the name of its first argument (the id the hooks read). */
  datatype EventDecl = EventDecl(name: string, firstArgument: string)

  /**
   * A human-readable contract interface, reduced to what the front end relies on: the names of
   * its functions and its events.
   */
  datatype Abi = Abi(functions: seq<string>, events: seq<EventDecl>)

  /** `CONTRACT_ABI`: the mock contract's human-readable interface. */
  const ContractAbi: Abi := Abi(
    ["uploadDataset", "updateDataset", "getDataset", "getActiveDatasets", "getProviderDatasets",
     "getDatasetCount", "executeQuery", "getQuery", "getBuyerQueries", "getQueryCount",
     "getPlatformStats", "platformBalance", "MIN_PRICE", "MAX_DATA_SIZE", "PLATFORM_FEE_PERCENT"],
    [EventDecl("DatasetCreated", "datasetId"),
     EventDecl("DatasetUpdated", "datasetId"),
     EventDecl("QueryExecuted", "queryId"),
     EventDecl("QueryRefunded", "queryId"),
     EventDecl("RevenueWithdrawn", "provider"),
     EventDecl("PlatformFeeWithdrawn", "owner")])

  /** The interface `getContractABI(true)` returns: the FHE contract's functions and events. */
  const FheContractAbi: Abi := Abi(
    ["uploadDataset", "getDataset", "getActiveDatasets", "getDatasetCount", "executeQuery",
     "getQuery", "getQueryCount"],
    [EventDecl("DatasetCreated", "datasetId"),
     EventDecl("QueryExecuted", "queryId"),
     EventDecl("DecryptionRequested", "requestId"),
     EventDecl("QueryCompleted", "queryId")])

  /** `getContractABI(isFHEVM)`. */
  function GetContractAbi(isFhevm: bool): (abi: Abi)
    ensures !isFhevm ==> abi == ContractAbi
    ensures isFhevm ==> abi == FheContractAbi
  {
    if isFhevm then FheContractAbi else ContractAbi
  }

  /** The interface declares an event called `name`. */
  predicate DeclaresEvent(abi: Abi, name: string) {
    exists e <- abi.events :: e.name == name
  }

  /** Whichever interface `getContractABI` picks, it declares both events the hooks look for, with the id first. */
  lemma DeclaredEvents(isFhevm: bool)
    ensures DeclaresEvent(GetContractAbi(isFhevm), "DatasetCreated")
    ensures DeclaresEvent(GetContractAbi(isFhevm), "QueryExecuted")
    ensures EventDecl("DatasetCreated", "datasetId") in GetContractAbi(isFhevm).events
    ensures EventDecl("QueryExecuted", "queryId") in GetContractAbi(isFhevm).events
  {
    var events := GetContractAbi(isFhevm).events;
    var k := if isFhevm then 1 else 2;
    assert events[0] == EventDecl("DatasetCreated", "datasetId");
    assert events[k] == EventDecl("QueryExecuted", "queryId");
  }

  /** The mock interface declares no event called `DatasetUploaded`. */
  lemma MockAbiLacksDatasetUploaded()
    ensures !DeclaresEvent(ContractAbi, "DatasetUploaded")
  {
    forall e <- ContractAbi.events
      ensures e.name != "DatasetUploaded"
    {
      // every event name of the interface has a length other than 15
      assert |e.name| != 15;
    }
  }

  /** `QUERY_TYPES`: query type names and their codes. */
  const QueryTypes: map<string, nat> :=
    map["COMPUTE_MEAN" := 0, "COMPUTE_VARIANCE" := 1, "COUNT_ABOVE" := 2, "COUNT_BELOW" := 3]

  /** `QUERY_TYPE_NAMES`: the display name of each query type code. */
  const QueryTypeNames: map<nat, string> :=
    map[0 := "Calculate Mean", 1 := "Calculate Variance", 2 := "Count Above Threshold",
        3 := "Count Below Threshold"]

  /** `QUERY_STATUS`: status names and their codes, the ledger's own codes. */
  const QueryStatus: map<string, nat> :=
    map["PENDING" := Ledger.StatusPending, "PROCESSING" := Ledger.StatusProcessing,
        "COMPLETED" := Ledger.StatusCompleted, "FAILED" := Ledger.StatusFailed,
        "REFUNDED" := Ledger.StatusRefunded]

  /** `QUERY_STATUS_NAMES`: the display name of each status code. */
  const QueryStatusNames: map<nat, string> :=
    map[0 := "Pending", 1 := "Processing", 2 := "Completed", 3 := "Failed", 4 := "Refunded"]

  /** Every query type code has a display name, and no two query type names share a code. */
  lemma QueryTypeTablesAgree()
    ensures QueryTypeNames.Keys == QueryTypes.Values == {0, 1, 2, 3}
    ensures forall a <- QueryTypes, b <- QueryTypes :: a != b ==> QueryTypes[a] != QueryTypes[b]
  {
    assert QueryTypes.Values == {0, 1, 2, 3} by {
      assert QueryTypes["COMPUTE_MEAN"] == 0 && QueryTypes["COMPUTE_VARIANCE"] == 1;
      assert QueryTypes["COUNT_ABOVE"] == 2 && QueryTypes["COUNT_BELOW"] == 3;
    }
  }

  /**
   * Every status code has a display name, no two status names share a code, and the names of
   * the codes the hooks test are the ones the ledger's codes stand for.
   */
  lemma QueryStatusTablesAgree()
    ensures QueryStatusNames.Keys == QueryStatus.Values == {0, 1, 2, 3, 4}
    ensures forall a <- QueryStatus, b <- QueryStatus :: a != b ==> QueryStatus[a] != QueryStatus[b]
    ensures QueryStatusNames[Ledger.StatusCompleted] == "Completed"
    ensures QueryStatusNames[Ledger.StatusFailed] == "Failed"
    ensures QueryStatusNames[Ledger.StatusRefunded] == "Refunded"
  {
    assert QueryStatus.Values == {0, 1, 2, 3, 4} by {
      assert QueryStatus["PENDING"] == 0 && QueryStatus["PROCESSING"] == 1;
      assert QueryStatus["COMPLETED"] == 2 && QueryStatus["FAILED"] == 3;
      assert QueryStatus["REFUNDED"] == 4;
    }
  }

  /** An entry of `NETWORKS`. `None` stands for a `null` or absent field. */
  datatype Network = Network(
    chainId: nat, name: string, rpcUrl: string, blockExplorer: Option<string>,
    isFhevm: bool, gatewayUrl: Option<string>)

  /** `Object.values(NETWORKS)`: hardhat, sepolia, zamaDevnet and zamaLocal, in that order. */
  const Networks: seq<Network> := [
    Network(31337, "Hardhat", "http://127.0.0.1:8545", None, false, None),
    Network(11155111, "Sepolia", "https://rpc.sepolia.org", Some("https://sepolia.etherscan.io"),
            true, Some("https://gateway.sepolia.zama.ai")),
    Network(8009, "Zama Devnet", "https://devnet.zama.ai", Some("https://explorer.zama.ai"), true, None),
    Network(9000, "Zama Local", "http://localhost:8545", None, true, None)
  ]

  /** The chains `isFHEVMNetwork` accepts. */
  const FhevmChainIds: seq<int> := [11155111, 8009, 9000]

  /** `isFHEVMNetwork(chainId)`: membership in the list of FHEVM chains. */
  predicate IsFhevmNetwork(chainId: int) {
    chainId in FhevmChainIds
  }

  /** Exactly Sepolia, Zama Devnet and Zama Local are FHEVM chains. */
  lemma IsFhevmNetworkExactly(chainId: int)
    ensures IsFhevmNetwork(chainId) <==> chainId == 11155111 || chainId == 8009 || chainId == 9000
  {
  }

  /** The first entry of `networks` with the given chain id (`Array.prototype.find`). */
  function FindNetwork(networks: seq<Network>, chainId: int): (r: Option<Network>)
    ensures r.Some? ==> r.value in networks && r.value.chainId == chainId
    ensures r.None? <==> forall n <- networks :: n.chainId != chainId
  {
    if |networks| == 0 then None
    else if networks[0].chainId == chainId then Some(networks[0])
    else FindNetwork(networks[1..], chainId)
  }

  /** `getNetworkConfig(chainId)`: the `NETWORKS` entry for the chain, or `null`. */
  function GetNetworkConfig(chainId: int): (r: Option<Network>)
    ensures r.Some? ==> r.value in Networks && r.value.chainId == chainId
    ensures r.None? <==> chainId !in {31337, 11155111, 8009, 9000}
  {
    FindNetwork(Networks, chainId)
  }

  /** `getNetworkName(chainId)`: the entry's name, or `Unknown Network (<id>)`. */
  function GetNetworkName(chainId: int): (name: string)
    ensures GetNetworkConfig(chainId).Some? ==> name == GetNetworkConfig(chainId).value.name
    ensures GetNetworkConfig(chainId).None? ==>
              name == "Unknown Network (" + IntToString(chainId) + ")"
  {
    match GetNetworkConfig(chainId)
    case Some(n) => n.name
    case None => "Unknown Network (" + IntToString(chainId) + ")"
  }

  /** Every entry of the network table carries the FHEVM flag `isFHEVMNetwork` gives its chain. */
  lemma NetworkFlagsAgree()
    ensures forall n <- Networks :: n.isFhevm == IsFhevmNetwork(n.chainId)
  {
  }

  /** Looking up an entry's chain id finds that entry: no chain id is listed twice. */
  lemma NetworkLookupFindsEntry()
    ensures forall n <- Networks :: GetNetworkConfig(n.chainId) == Some(n)
  {
  }
}
