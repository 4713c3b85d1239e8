/**
 * `fhevm.js`: the FHEVM instance singleton, value encryption, the gateway decryption wait,
 * the per-chain address tables, the FHEVM chain test, the chain names and the error texts.
 * The SDK (`createInstance`, `encrypt32`, `generateInputProof`) and the ledger reads are
 * inputs: functions from their arguments to what they return or throw.
 */
module Fhevm {
  import opened Wrappers
  import opened JsText
  import opened Ledger
  import Config

  /** What `createInstance` is given. */
  datatype FhevmConfig = FhevmConfig(chainId: nat, publicKey: string, gatewayUrl: string)

  /** An SDK instance; the model only tells instances apart. */
  datatype FhevmInstance = FhevmInstance(handle: nat)

  /** The `{ data, proof }` pair `encryptUint32` returns: the first input handle and its proof. */
  datatype EncryptedValue = EncryptedValue(data: string, proof: string)

  /**
   * The SDK's encryption of one value for a contract with an instance: `encrypt32` followed by
   * `generateInputProof`, as the pair it yields or the message either call throws.
   */
  type Encryptor = (FhevmInstance, int, string) -> Result<EncryptedValue>

  const NotInitializedMessage: string := "FHEVM instance not initialized. Call initFhevm() first."

  /** The message `encryptUint32` throws in place of any error it catches. */
  function EncryptionFailure(message: string): (text: string)
    ensures StartsWith(text, "Encryption failed: ")
    ensures text[|"Encryption failed: "|..] == message
  {
    Prefixed("Encryption failed: ", message)
  }

  /** The module-level `fhevmInstance` variable and the operations that read or set it. */
  class FhevmRuntime {
    var instance: Option<FhevmInstance>

    /** The page loads with no instance. */
    constructor()
      ensures instance == None
    {
      instance := None;
    }

    /**
     * `initFhevm(provider, contractAddress)`. An existing instance is returned as it is and no
     * other one is made. Otherwise the chain id from `getNetwork` (`network`) goes into the
     * configuration passed to `createInstance` (`create`); a new instance is stored and returned.
     * Any failure returns `null` and leaves the variable unset. `config` is the configuration
     * `createInstance` received, if it was called.
     */
    method InitFhevm(network: Result<nat>, create: FhevmConfig -> Result<FhevmInstance>)
      returns (r: Option<FhevmInstance>, config: Option<FhevmConfig>)
      modifies this
      ensures old(instance).Some? ==> r == old(instance) && instance == old(instance) && config == None
      ensures old(instance).None? && network.Err? ==> r == None && instance == None && config == None
      ensures old(instance).None? && network.Ok? ==>
                config == Some(FhevmConfig(network.value, "", GatewayUrl(network.value))) &&
                (create(config.value).Ok? ==> r == Some(create(config.value).value)) &&
                (create(config.value).Err? ==> r == None)
      ensures instance == if old(instance).Some? then old(instance) else r
    {
      if instance.Some? {
        return instance, None;
      }
      if network.Err? {
        return None, None;
      }
      var chainId := network.value;
      var c := FhevmConfig(chainId, "", GatewayUrl(chainId));
      config := Some(c);
      var created := create(c);
      if created.Err? {
        r := None;
        return;
      }
      instance := Some(created.value);
      r := instance;
    }

    /** `getFhevmInstance()`: the instance, or the not-initialized error. */
    function GetFhevmInstance(): (r: Result<FhevmInstance>)
      reads this
      ensures r.Ok? <==> instance.Some?
      ensures r.Ok? ==> r.value == instance.value
      ensures r.Err? ==> r.message == NotInitializedMessage
    {
      if instance.None? then Err(NotInitializedMessage) else Ok(instance.value)
    }

    /**
     * `encryptUint32(value, contractAddress)`: the SDK's encryption with the current instance;
     * every failure, the missing instance included, becomes `Encryption failed: <message>`.
     */
    function EncryptUint32(value: int, contractAddress: string, sdk: Encryptor): (r: Result<EncryptedValue>)
      reads this
      ensures instance.None? ==> r == Err(EncryptionFailure(NotInitializedMessage))
      ensures instance.Some? && sdk(instance.value, value, contractAddress).Ok? ==>
                r == sdk(instance.value, value, contractAddress)
      ensures instance.Some? && sdk(instance.value, value, contractAddress).Err? ==>
                r == Err(EncryptionFailure(sdk(instance.value, value, contractAddress).message))
    {
      match GetFhevmInstance()
      case Err(m) => Err(EncryptionFailure(m))
      case Ok(inst) =>
        match sdk(inst, value, contractAddress)
        case Ok(e) => Ok(e)
        case Err(m) => Err(EncryptionFailure(m))
    }

    /**
     * `encryptUint32Array(values, contractAddress)`: the values encrypted one after the other.
     * It succeeds only when every value does, with one result per value in input order; the
     * first failure is thrown and no later value is encrypted. `calls` counts the
     * `encryptUint32` calls made.
     */
    method EncryptUint32Array(values: seq<int>, contractAddress: string, sdk: Encryptor)
      returns (r: Result<seq<EncryptedValue>>, calls: nat)
      ensures r.Ok? <==> forall i :: 0 <= i < |values| ==> EncryptUint32(values[i], contractAddress, sdk).Ok?
      ensures r.Ok? ==> calls == |values| && |r.value| == |values|
      ensures r.Ok? ==> forall i :: 0 <= i < |values| ==> r.value[i] == EncryptUint32(values[i], contractAddress, sdk).value
      ensures r.Err? ==> 1 <= calls <= |values|
      ensures r.Err? ==> EncryptUint32(values[calls - 1], contractAddress, sdk) == Err(r.message)
      ensures r.Err? ==> forall i :: 0 <= i < calls - 1 ==> EncryptUint32(values[i], contractAddress, sdk).Ok?
    {
      var encrypted: seq<EncryptedValue> := [];
      var i := 0;
      while i < |values|
        invariant 0 <= i <= |values| && |encrypted| == i
        invariant forall j :: 0 <= j < i ==> EncryptUint32(values[j], contractAddress, sdk) == Ok(encrypted[j])
      {
        var result := EncryptUint32(values[i], contractAddress, sdk);
        if result.Err? {
          return Err(result.message), i + 1;
        }
        encrypted := encrypted + [result.value];
        i := i + 1;
      }
      return Ok(encrypted), |values|;
    }
  }

  /** The number of `getQuery` reads `requestDecryption` allows itself. */
  const DecryptionAttempts: nat := 60

  const QueryFailedMessage: string := "Query failed"
  const QueryRefundedMessage: string := "Query refunded"
  const DecryptionTimeoutMessage: string := "Decryption timeout (2 minutes)"

  /** A read that makes `requestDecryption` keep waiting: a query not yet completed, failed or refunded. */
  predicate StillPending(read: QueryRead) {
    read.QueryRow? && read.tuple.status != StatusCompleted &&
    read.tuple.status != StatusFailed && read.tuple.status != StatusRefunded
  }

  /**
   * How one read ends the wait, if it does: a completed query gives its result, a failed or
   * refunded one its error, a failing read its own error.
   */
  function Settle(read: QueryRead): (outcome: Option<Result<nat>>)
    ensures outcome.None? <==> StillPending(read)
    ensures outcome.Some? && outcome.value.Ok? <==> read.QueryRow? && read.tuple.status == StatusCompleted
    ensures outcome.Some? && outcome.value.Ok? ==> outcome.value.value == read.tuple.result
    ensures read.QueryReadError? ==> outcome == Some(Err(read.message))
  {
    match read
    case QueryReadError(m) => Some(Err(m))
    case QueryRow(t) =>
      if t.status == StatusCompleted then Some(Ok(t.result))
      else if t.status == StatusFailed then Some(Err(QueryFailedMessage))
      else if t.status == StatusRefunded then Some(Err(QueryRefundedMessage))
      else None
  }

  /** The outcome and read count of the wait from attempt `i` on, read `i` being `obs(i)`. */
  function DecryptionPoll(obs: nat -> QueryRead, i: nat): (outcome: (Result<nat>, nat))
    requires i <= DecryptionAttempts
    ensures i < outcome.1 <= DecryptionAttempts || (i == DecryptionAttempts && outcome.1 == i)
    decreases DecryptionAttempts - i
  {
    if i == DecryptionAttempts then (Err(DecryptionTimeoutMessage), DecryptionAttempts)
    else
      match Settle(obs(i))
      case Some(r) => (r, i + 1)
      case None => DecryptionPoll(obs, i + 1)
  }

  /**
   * `requestDecryption(contract, queryId)` given the successive `getQuery` results `obs`:
   * the decrypted result, or the error that ends the wait, and the number of reads made.
   */
  method RequestDecryption(obs: nat -> QueryRead) returns (r: Result<nat>, count: nat)
    ensures (r, count) == DecryptionPoll(obs, 0)
    ensures 1 <= count <= DecryptionAttempts
  {
    var i := 0;
    while i < DecryptionAttempts
      invariant 0 <= i <= DecryptionAttempts
      invariant DecryptionPoll(obs, i) == DecryptionPoll(obs, 0)
    {
      var read := obs(i);
      if read.QueryReadError? {
        return Err(read.message), i + 1;
      }
      var status := read.tuple.status;
      if status == StatusCompleted {
        return Ok(read.tuple.result), i + 1;
      } else if status == StatusFailed {
        return Err(QueryFailedMessage), i + 1;
      } else if status == StatusRefunded {
        return Err(QueryRefundedMessage), i + 1;
      }
      i := i + 1;
    }
    return Err(DecryptionTimeoutMessage), DecryptionAttempts;
  }

  /**
   * The wait ends at the first read that is not pending: a failing read, a failed or refunded
   * query is not retried, and nothing after it is read.
   */
  lemma {:induction false} DecryptionEndsAtFirstSettled(obs: nat -> QueryRead, i: nat, k: nat)
    requires i <= k < DecryptionAttempts && !StillPending(obs(k))
    requires forall j :: i <= j < k ==> StillPending(obs(j))
    ensures DecryptionPoll(obs, i) == (Settle(obs(k)).value, k + 1)
    decreases k - i
  {
    if i < k {
      DecryptionEndsAtFirstSettled(obs, i + 1, k);
    }
  }

  /** Sixty pending reads end in the timeout error. */
  lemma {:induction false} DecryptionTimesOut(obs: nat -> QueryRead, i: nat)
    requires i <= DecryptionAttempts
    requires forall j :: i <= j < DecryptionAttempts ==> StillPending(obs(j))
    ensures DecryptionPoll(obs, i) == (Err(DecryptionTimeoutMessage), DecryptionAttempts)
    decreases DecryptionAttempts - i
  {
    if i < DecryptionAttempts {
      DecryptionTimesOut(obs, i + 1);
    }
  }

  /** Read `k`, one of the first sixty, shows a completed query, and every read before it is pending. */
  predicate CompletesAt(obs: nat -> QueryRead, k: nat) {
    k < DecryptionAttempts && obs(k).QueryRow? && obs(k).tuple.status == StatusCompleted &&
    forall j :: 0 <= j < k ==> StillPending(obs(j))
  }

  /**
   * The wait succeeds exactly when some read among the first sixty shows a completed query
   * and every read before it is pending; it then returns that query's result.
   */
  lemma DecryptionSucceedsIff(obs: nat -> QueryRead)
    ensures DecryptionPoll(obs, 0).0.Ok? <==> exists k :: CompletesAt(obs, k)
    ensures DecryptionPoll(obs, 0).0.Ok? ==>
              var k := DecryptionPoll(obs, 0).1 - 1;
              CompletesAt(obs, k) && DecryptionPoll(obs, 0).0.value == obs(k).tuple.result
  {
    var k := FirstSettled(obs, 0);
    if k == DecryptionAttempts {
      DecryptionTimesOut(obs, 0);
      forall k': nat
        ensures !CompletesAt(obs, k')
      {
        if k' < DecryptionAttempts {
          assert StillPending(obs(k'));
        }
      }
    } else {
      DecryptionEndsAtFirstSettled(obs, 0, k);
      forall k' | CompletesAt(obs, k')
        ensures k' == k
      {
        assert !StillPending(obs(k'));
        assert k < k' ==> StillPending(obs(k));
      }
      if Settle(obs(k)).value.Ok? {
        assert CompletesAt(obs, k);
      }
    }
  }

  /** The first read from `i` on that is not pending, when one comes before the budget runs out. */
  lemma {:induction false} FirstSettledExists(obs: nat -> QueryRead, i: nat)
    requires i <= DecryptionAttempts
    requires exists j :: i <= j < DecryptionAttempts && !StillPending(obs(j))
    ensures FirstSettled(obs, i) < DecryptionAttempts
    decreases DecryptionAttempts - i
  {
    if StillPending(obs(i)) {
      FirstSettledExists(obs, i + 1);
    }
  }

  /** The index of the first read from `i` on that is not pending, or the budget. */
  function FirstSettled(obs: nat -> QueryRead, i: nat): (k: nat)
    requires i <= DecryptionAttempts
    ensures i <= k <= DecryptionAttempts
    ensures forall j :: i <= j < k ==> StillPending(obs(j))
    ensures k < DecryptionAttempts ==> !StillPending(obs(k))
    ensures k == DecryptionAttempts ==> forall j :: i <= j < DecryptionAttempts ==> StillPending(obs(j))
    decreases DecryptionAttempts - i
  {
    if i == DecryptionAttempts || !StillPending(obs(i)) then i else FirstSettled(obs, i + 1)
  }

  /** `GATEWAY_URLS`, `ACL_ADDRESSES` and `KMS_VERIFIER_ADDRESSES`, keyed by chain id. */
  const SepoliaChainId: int := 11155111
  const GatewayUrls: map<int, string> :=
    map[11155111 := "https://gateway.sepolia.zama.ai", 8009 := "https://gateway.zama.ai",
        9000 := "http://localhost:8545"]
  const AclAddresses: map<int, string> :=
    map[11155111 := "0x8Ba5FdfF9021E819c7F870Db8B03f2A0963c6643",
        8009 := "0x2Fb4341bc8f6e96f1f50Ed44FfC0B5c4FC4F2529",
        9000 := "0x5FbDB2315678afecb367f032d93F642f64180aa3"]
  const KmsVerifierAddresses: map<int, string> :=
    map[11155111 := "0x9D6891A6240D6130c54ae243d8005063D05fE14b",
        8009 := "0x32E8A4F0F2189e02e2a06f1E89B4F0E0f4f4f4f4",
        9000 := "0xe7f1725E7734CE288F8367e1Bb143E90bb3F0512"]

  /** `table[chainId] || table[11155111]`: the chain's entry when it is a non-empty string, else Sepolia's. */
  function LookupOrSepolia(table: map<int, string>, chainId: int): (r: string)
    requires SepoliaChainId in table
    ensures chainId in table && table[chainId] != "" ==> r == table[chainId]
    ensures chainId !in table || table[chainId] == "" ==> r == table[SepoliaChainId]
  {
    if chainId in table && table[chainId] != "" then table[chainId] else table[SepoliaChainId]
  }

  function GatewayUrl(chainId: int): string {
    LookupOrSepolia(GatewayUrls, chainId)
  }

  function AclAddress(chainId: int): string {
    LookupOrSepolia(AclAddresses, chainId)
  }

  function KmsVerifierAddress(chainId: int): string {
    LookupOrSepolia(KmsVerifierAddresses, chainId)
  }

  /** `isFHEVMNetwork(chainId)` of this file: membership in its own list of FHEVM chains. */
  predicate IsFhevmNetwork(chainId: int) {
    chainId in [11155111, 8009, 9000]
  }

  /**
   * The three address tables cover exactly the FHEVM chains: such a chain gets its own entry,
   * any other chain the Sepolia entry. The test agrees with the one in the configuration.
   */
  lemma AddressTablesCoverFhevmChains(chainId: int)
    ensures IsFhevmNetwork(chainId) <==> chainId == 11155111 || chainId == 8009 || chainId == 9000
    ensures IsFhevmNetwork(chainId) == Config.IsFhevmNetwork(chainId)
    ensures GatewayUrls.Keys == AclAddresses.Keys == KmsVerifierAddresses.Keys == {11155111, 8009, 9000}
    ensures IsFhevmNetwork(chainId) ==>
              GatewayUrl(chainId) == GatewayUrls[chainId] && AclAddress(chainId) == AclAddresses[chainId] &&
              KmsVerifierAddress(chainId) == KmsVerifierAddresses[chainId]
    ensures !IsFhevmNetwork(chainId) ==>
              GatewayUrl(chainId) == GatewayUrls[SepoliaChainId] && AclAddress(chainId) == AclAddresses[SepoliaChainId] &&
              KmsVerifierAddress(chainId) == KmsVerifierAddresses[SepoliaChainId]
  {
  }

  /** `NETWORK_NAMES` of this file. */
  const NetworkNames: map<int, string> :=
    map[8009 := "Zama Devnet", 9000 := "Zama Local", 11155111 := "Sepolia Testnet",
        31337 := "Hardhat Network"]

  /** `getNetworkName(chainId)` of this file: the table's name, or `Unknown Network (<id>)`. */
  function NetworkName(chainId: int): (name: string)
    ensures chainId in NetworkNames ==> name == NetworkNames[chainId]
    ensures chainId !in NetworkNames ==> name == "Unknown Network (" + IntToString(chainId) + ")"
  {
    if chainId in NetworkNames && NetworkNames[chainId] != "" then NetworkNames[chainId]
    else "Unknown Network (" + IntToString(chainId) + ")"
  }

  /** The two `getNetworkName`s know the same chains, and agree on the Zama chains and on every unknown chain. */
  lemma NetworkNamesAgree(chainId: int)
    ensures chainId in NetworkNames <==> Config.GetNetworkConfig(chainId).Some?
    ensures chainId !in NetworkNames || chainId == 8009 || chainId == 9000 ==>
              NetworkName(chainId) == Config.GetNetworkName(chainId)
  {
    if chainId == 8009 || chainId == 9000 {
      Config.NetworkLookupFindsEntry();
      var n := Config.Networks[if chainId == 8009 then 2 else 3];
      assert n in Config.Networks && n.chainId == chainId;
    }
  }

  /** The two `getNetworkName`s name Sepolia and Hardhat differently. */
  lemma NetworkNamesDiffer()
    ensures NetworkName(11155111) == "Sepolia Testnet" && Config.GetNetworkName(11155111) == "Sepolia"
    ensures NetworkName(31337) == "Hardhat Network" && Config.GetNetworkName(31337) == "Hardhat"
  {
    Config.NetworkLookupFindsEntry();
    assert Config.Networks[0] in Config.Networks && Config.Networks[1] in Config.Networks;
  }

  /** `errorMappings`, in its insertion order: message fragment and the text shown for it. */
  const ErrorMappings: seq<(string, string)> := [
    ("FHEVM instance not initialized", "❌ FHEVM 未初始化，请先连接钱包"),
    ("Encryption failed", "❌ 数据加密失败，请检查输入值"),
    ("Decryption timeout", "❌ Gateway 解密超时，请稍后重试"),
    ("Query failed", "❌ 查询执行失败，请联系管理员"),
    ("insufficient funds", "❌ 余额不足，请充值后重试")
  ]

  /** The position of the first entry of `table` whose fragment occurs in `text`. */
  function FirstMatch(table: seq<(string, string)>, text: string): (k: Option<nat>)
    ensures k.Some? ==> k.value < |table| && Contains(text, table[k.value].0)
    ensures k.Some? ==> forall j :: 0 <= j < k.value ==> !Contains(text, table[j].0)
    ensures k.None? ==> forall j :: 0 <= j < |table| ==> !Contains(text, table[j].0)
  {
    if |table| == 0 then None
    else if Contains(text, table[0].0) then Some(0)
    else
      match FirstMatch(table[1..], text)
      case None => None
      case Some(j) => Some(j + 1)
  }

  /**
   * `formatFHEError(error)` for an error with message `message`: `error.message`, or
   * `error.toString()` (`"Error"`) when the message is empty, is looked up in the table;
   * the first fragment it contains picks the text, otherwise it is shown after `❌ `.
   */
  function FormatFheError(message: string): (text: string)
    ensures (forall j :: 0 <= j < |ErrorMappings| ==> !Contains(MessageOr(message, "Error"), ErrorMappings[j].0)) ==>
              text == "❌ " + MessageOr(message, "Error")
    ensures (exists j :: 0 <= j < |ErrorMappings| && Contains(MessageOr(message, "Error"), ErrorMappings[j].0)) ==>
              exists j :: 0 <= j < |ErrorMappings| && Contains(MessageOr(message, "Error"), ErrorMappings[j].0) &&
                          text == ErrorMappings[j].1
  {
    var m := MessageOr(message, "Error");
    match FirstMatch(ErrorMappings, m)
    case Some(k) => ErrorMappings[k].1
    case None => "❌ " + m
  }

  /** The text shown for an error is the mapping of the first fragment its message contains. */
  lemma FormatFheErrorFirstMatch(message: string, k: nat)
    requires message != "" && k < |ErrorMappings| && Contains(message, ErrorMappings[k].0)
    requires forall j :: 0 <= j < k ==> !Contains(message, ErrorMappings[j].0)
    ensures FormatFheError(message) == ErrorMappings[k].1
  {
    var f := FirstMatch(ErrorMappings, message);
    if f.value < k {
    } else if f.value > k {
    }
  }

  /** A message containing no fragment is shown as it is after `❌ `. */
  lemma FormatFheErrorFallback(message: string)
    requires message != ""
    requires forall j :: 0 <= j < |ErrorMappings| ==> !Contains(message, ErrorMappings[j].0)
    ensures FormatFheError(message) == "❌ " + message
  {
  }
}
