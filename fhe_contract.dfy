/**
 * `useContractFHE.js`: the hook for the FHE ledger contract. It checks the network, starts the
 * SDK through the shared runtime, uploads datasets as encrypted values with their proofs and
 * runs a query through to its decrypted result. Every failure is stored as its user-facing
 * text and rethrown. The provider, the wallet, `tx.wait()`, the SDK and the ledger reads are
 * inputs.
 */
module FheContract {
  import opened Wrappers
  import opened JsText
  import opened Ledger
  import Config
  import opened Fhevm

  /** `networkInfo`: the chain, its name and whether it supports FHEVM. */
  datatype NetworkInfo = NetworkInfo(chainId: nat, name: string, isFhevm: bool)

  /** The contract's `uploadDataset` arguments besides the name and description. */
  datatype FheUploadCall = FheUploadCall(inputProofs: seq<string>, priceWei: nat)

  /** The contract's `executeQuery` arguments and the value paid. */
  datatype FheQueryCall = FheQueryCall(datasetId: nat, queryType: nat, parameterProof: string, value: nat)

  /** `{ success: true, datasetId, txHash, blockNumber }`. */
  datatype FheUploadResult = FheUploadResult(datasetId: nat, txHash: string, blockNumber: nat)

  /** `{ success: true, queryId, result, txHash }`. */
  datatype FheQueryResult = FheQueryResult(queryId: nat, result: nat, txHash: string)

  const NotReadyMessage: string := "合约未初始化或 FHEVM 未准备好"
  const UnsupportedNetworkMessage: string :=
    "当前网络不支持 FHEVM。\n请切换到支持的网络：\n- Sepolia Testnet (Chain ID: 11155111) ✅ 推荐\n- Zama Devnet (Chain ID: 8009)\n- Zama Local (Chain ID: 9000)"
  const NoDatasetCreatedMessage: string := "未找到 DatasetCreated 事件"
  const NoQueryExecutedMessage: string := "未找到 QueryExecuted 事件"

  /** The `ReferenceError` a call to an identifier the module never imported throws. */
  const EncryptUint32UndefinedMessage: string := "encryptUint32 is not defined"

  /** The SDK's refusal of a parameter that is not a number; its own wording is not modelled. */
  const NotNumericMessage: string := "parameter is not a number"

  /**
   * The upload after the values are encrypted: the price conversion, the sent transaction
   * (`sent` is its hash or the error), its receipt (`mined`), and the first `DatasetCreated`
   * log, without which the upload fails.
   */
  function UploadAfterEncryption(priceWei: Result<nat>, sent: Result<string>, mined: Result<Receipt>): Result<FheUploadResult> {
    if priceWei.Err? then Err(priceWei.message)
    else if sent.Err? then Err(sent.message)
    else if mined.Err? then Err(mined.message)
    else match EventId(mined.value.logs, "DatasetCreated")
      case None => Err(NoDatasetCreatedMessage)
      case Some(id) => Ok(FheUploadResult(id, sent.value, mined.value.blockNumber))
  }

  /**
   * The upload succeeds exactly when the price converts, the transaction is sent and mined and
   * its receipt holds a `DatasetCreated` log; the id is the first such log's, the hash the sent
   * transaction's and the block the receipt's.
   */
  lemma UploadSucceedsIff(priceWei: Result<nat>, sent: Result<string>, mined: Result<Receipt>)
    ensures UploadAfterEncryption(priceWei, sent, mined).Ok? <==>
              priceWei.Ok? && sent.Ok? && mined.Ok? &&
              exists j :: 0 <= j < |mined.value.logs| && IsEvent(mined.value.logs[j], "DatasetCreated")
    ensures UploadAfterEncryption(priceWei, sent, mined).Ok? ==>
              var r := UploadAfterEncryption(priceWei, sent, mined).value;
              var k := FirstEvent(mined.value.logs, "DatasetCreated").value;
              r.datasetId == mined.value.logs[k].id && r.txHash == sent.value && r.blockNumber == mined.value.blockNumber
    ensures priceWei.Ok? && sent.Ok? && mined.Ok? &&
            (forall j :: 0 <= j < |mined.value.logs| ==> !IsEvent(mined.value.logs[j], "DatasetCreated")) ==>
              UploadAfterEncryption(priceWei, sent, mined) == Err(NoDatasetCreatedMessage)
  {
  }

  /**
   * The query after the parameter proof: the value conversion, the sent transaction, its
   * receipt, the first `QueryExecuted` log (without which the query fails), then the wait for
   * the query's decryption.
   */
  function QueryAfterProof(valueWei: Result<nat>, sent: Result<string>, mined: Result<Receipt>,
                           obs: nat -> QueryRead): Result<FheQueryResult> {
    if valueWei.Err? then Err(valueWei.message)
    else if sent.Err? then Err(sent.message)
    else if mined.Err? then Err(mined.message)
    else match EventId(mined.value.logs, "QueryExecuted")
      case None => Err(NoQueryExecutedMessage)
      case Some(queryId) =>
        match DecryptionPoll(obs, 0).0
        case Err(m) => Err(m)
        case Ok(v) => Ok(FheQueryResult(queryId, v, sent.value))
  }

  /**
   * The query succeeds exactly when the transaction goes through with a `QueryExecuted` log and
   * the ledger shows the query completed, with only pending reads before, within the wait; the
   * result is that read's.
   */
  lemma QuerySucceedsIff(valueWei: Result<nat>, sent: Result<string>, mined: Result<Receipt>, obs: nat -> QueryRead)
    ensures QueryAfterProof(valueWei, sent, mined, obs).Ok? <==>
              valueWei.Ok? && sent.Ok? && mined.Ok? &&
              EventId(mined.value.logs, "QueryExecuted").Some? && exists k :: CompletesAt(obs, k)
    ensures QueryAfterProof(valueWei, sent, mined, obs).Ok? ==>
              var r := QueryAfterProof(valueWei, sent, mined, obs).value;
              r.queryId == EventId(mined.value.logs, "QueryExecuted").value && r.txHash == sent.value &&
              exists k :: CompletesAt(obs, k) && r.result == obs(k).tuple.result
  {
    DecryptionSucceedsIff(obs);
    var r := QueryAfterProof(valueWei, sent, mined, obs);
    if r.Ok? {
      var k := DecryptionPoll(obs, 0).1 - 1;
      assert CompletesAt(obs, k) && r.value.result == obs(k).tuple.result;
    }
  }

  /** The parameter proof as written: without a parameter `'0x'`, otherwise the call to the unimported `encryptUint32`. */
  function ParameterProofAsWritten(parameter: JsValue): (proof: Result<string>)
    ensures proof.Ok? <==> parameter == Null || parameter == Undefined
    ensures proof.Ok? ==> proof.value == "0x"
    ensures proof.Err? ==> proof.message == EncryptUint32UndefinedMessage
  {
    if parameter == Null || parameter == Undefined then Ok("0x")
    else Err(EncryptUint32UndefinedMessage)
  }

  /**
   * The query executor always passes `parameter || 0`, which is never `null` or `undefined`:
   * as written, every FHE query fails before any transaction is sent.
   */
  lemma ExecutorQueriesFailAsWritten(parameter: JsValue)
    ensures ParameterProofAsWritten(OrZero(parameter)) == Err(EncryptUint32UndefinedMessage)
  {
    OrZeroDefaults(parameter);
  }

  /** The number a parameter stands for: a number itself, or a string read as an integer. */
  function Numeric(v: JsValue): (n: Option<int>)
    ensures v.Num? ==> n == Some(v.number)
    ensures v == Undefined || v == Null ==> n == None
  {
    match v
    case Num(x) => Some(x)
    case Text(s) => ParseInt(s)
    case _ => None
  }

  /**
   * The parameter proof with the runtime's `encryptUint32`: without a parameter `'0x'`,
   * otherwise the proof of the encrypted parameter or the encryption's error.
   */
  function ParameterProof(rt: FhevmRuntime, parameter: JsValue, contractAddress: string, sdk: Encryptor): (proof: Result<string>)
    reads rt
    ensures parameter == Null || parameter == Undefined ==> proof == Ok("0x")
    ensures parameter != Null && parameter != Undefined && Numeric(parameter).None? ==>
              proof == Err(EncryptionFailure(NotNumericMessage))
    ensures parameter != Null && parameter != Undefined && Numeric(parameter).Some? ==>
              var n := Numeric(parameter).value;
              (rt.instance.None? ==> proof == Err(EncryptionFailure(Fhevm.NotInitializedMessage))) &&
              (rt.instance.Some? && sdk(rt.instance.value, n, contractAddress).Ok? ==>
                 proof == Ok(sdk(rt.instance.value, n, contractAddress).value.proof)) &&
              (rt.instance.Some? && sdk(rt.instance.value, n, contractAddress).Err? ==>
                 proof == Err(EncryptionFailure(sdk(rt.instance.value, n, contractAddress).message)))
  {
    if parameter == Null || parameter == Undefined then Ok("0x")
    else match Numeric(parameter)
      case None => Err(EncryptionFailure(NotNumericMessage))
      case Some(n) =>
        match rt.EncryptUint32(n, contractAddress, sdk)
        case Err(m) => Err(m)
        case Ok(e) => Ok(e.proof)
  }

  /**
   * With the runtime's encryption, the executor's parameter is encrypted: with an instance and
   * an SDK that accepts it, the proof is the SDK's; without an instance the query fails with the
   * runtime's not-initialized error, which the as-written call never reaches.
   */
  lemma ParameterProofEncrypts(rt: FhevmRuntime, parameter: JsValue, contractAddress: string, sdk: Encryptor)
    requires Numeric(OrZero(parameter)).Some?
    ensures var n := Numeric(OrZero(parameter)).value;
            rt.instance.Some? && sdk(rt.instance.value, n, contractAddress).Ok? ==>
              ParameterProof(rt, OrZero(parameter), contractAddress, sdk) == Ok(sdk(rt.instance.value, n, contractAddress).value.proof)
    ensures rt.instance.None? ==>
              ParameterProof(rt, OrZero(parameter), contractAddress, sdk) == Err(EncryptionFailure(Fhevm.NotInitializedMessage))
    ensures ParameterProofAsWritten(OrZero(parameter)) != ParameterProof(rt, OrZero(parameter), contractAddress, sdk)
  {
    OrZeroDefaults(parameter);
    var n := Numeric(OrZero(parameter)).value;
    var e := rt.EncryptUint32(n, contractAddress, sdk);
    if e.Err? {
      assert StartsWith(e.message, "Encryption failed: ");
      assert e.message != EncryptUint32UndefinedMessage by {
        assert e.message[0] != EncryptUint32UndefinedMessage[0];
      }
    }
  }

  /** The hook's React state. */
  datatype HookState = HookState(contractPresent: bool, fhevmReady: bool, loading: bool,
                                 error: Option<string>, networkInfo: Option<NetworkInfo>)

  /** The contract and readiness are set together. */
  predicate Consistent(s: HookState) {
    s.contractPresent == s.fhevmReady
  }

  /** A failure: loading stops and the error's user-facing text is stored. */
  function Failed(s: HookState, message: string): HookState {
    s.(loading := false, error := Some(FormatFheError(message)))
  }

  /** The end of an operation: loading stops; the error is cleared or holds the failure's text. */
  function Settled<T>(s: HookState, r: Result<T>): HookState {
    if r.Err? then Failed(s, r.message) else s.(loading := false, error := None)
  }

  /** What `networkInfo` records for a chain. */
  function NetworkInfoOf(chainId: nat): NetworkInfo {
    NetworkInfo(chainId, NetworkName(chainId), IsFhevmNetwork(chainId))
  }

  /** The new state and the outcome of `initContract` for the chain id `getNetwork` gave (or its error). */
  function Init(s: HookState, network: Result<nat>): (HookState, Result<()>) {
    match network
    case Err(m) => (Failed(s, m), Err(m))
    case Ok(c) =>
      var s1 := s.(networkInfo := Some(NetworkInfoOf(c)));
      if !IsFhevmNetwork(c) then (Failed(s1, UnsupportedNetworkMessage), Err(UnsupportedNetworkMessage))
      else (s1.(contractPresent := true, fhevmReady := true, loading := false, error := None), Ok(()))
  }

  /**
   * Initialisation succeeds exactly on an FHEVM chain and then leaves the hook ready; every
   * failure keeps the contract as it was and shows the error's text; the chain is recorded
   * whenever it was read; loading always ends and contract and readiness stay together.
   */
  lemma InitReadyIff(s: HookState, network: Result<nat>)
    requires Consistent(s)
    ensures var (s', r) := Init(s, network);
            Consistent(s') && !s'.loading &&
            (r.Ok? <==> network.Ok? && IsFhevmNetwork(network.value)) &&
            (r.Ok? ==> s'.fhevmReady && s'.error == None) &&
            (r.Err? ==> s'.contractPresent == s.contractPresent && s'.error == Some(FormatFheError(r.message))) &&
            (network.Err? ==> r.message == network.message && s'.networkInfo == s.networkInfo) &&
            (network.Ok? ==> s'.networkInfo.Some? && s'.networkInfo.value.chainId == network.value &&
                             s'.networkInfo.value.isFhevm == (r.Ok?))
  {
  }

  /** The proofs of the encrypted values, in order. */
  function Proofs(values: seq<EncryptedValue>): (proofs: seq<string>)
    ensures |proofs| == |values|
    ensures forall i :: 0 <= i < |values| ==> proofs[i] == values[i].proof
  {
    if |values| == 0 then [] else [values[0].proof] + Proofs(values[1..])
  }

  /** The new state, outcome and sent call of `uploadDataset`, given the encryption's outcome. */
  function Upload(s: HookState, encrypted: Result<seq<EncryptedValue>>, priceWei: Result<nat>,
                  sent: Result<string>, mined: Result<Receipt>): (out: (HookState, Result<FheUploadResult>, Option<FheUploadCall>))
    ensures !(s.contractPresent && s.fhevmReady) ==> out == (s, Err(NotReadyMessage), None)
    ensures out.1.Ok? <==> s.contractPresent && s.fhevmReady && encrypted.Ok? && UploadAfterEncryption(priceWei, sent, mined).Ok?
    ensures out.1.Ok? ==> out.1 == UploadAfterEncryption(priceWei, sent, mined) &&
                          out.2 == Some(FheUploadCall(Proofs(encrypted.value), priceWei.value)) &&
                          out.0 == s.(loading := false, error := None)
    ensures out.1.Err? && s.contractPresent && s.fhevmReady ==> out.0 == Failed(s, out.1.message)
  {
    if !(s.contractPresent && s.fhevmReady) then (s, Err(NotReadyMessage), None)
    else match encrypted
      case Err(m) => (Failed(s, m), Err(m), None)
      case Ok(values) =>
        var r := UploadAfterEncryption(priceWei, sent, mined);
        (Settled(s, r), r, if priceWei.Ok? then Some(FheUploadCall(Proofs(values), priceWei.value)) else None)
  }

  /** The new state, outcome and sent call of `executeQuery`, given the parameter's proof. */
  function Query(s: HookState, proof: Result<string>, datasetId: nat, queryType: nat, valueWei: Result<nat>,
                 sent: Result<string>, mined: Result<Receipt>, obs: nat -> QueryRead)
    : (out: (HookState, Result<FheQueryResult>, Option<FheQueryCall>))
    ensures !(s.contractPresent && s.fhevmReady) ==> out == (s, Err(NotReadyMessage), None)
    ensures out.1.Ok? <==> s.contractPresent && s.fhevmReady && proof.Ok? && QueryAfterProof(valueWei, sent, mined, obs).Ok?
    ensures out.1.Ok? ==> out.1 == QueryAfterProof(valueWei, sent, mined, obs) &&
                          out.2 == Some(FheQueryCall(datasetId, queryType, proof.value, valueWei.value)) &&
                          out.0 == s.(loading := false, error := None)
    ensures out.1.Err? && s.contractPresent && s.fhevmReady ==> out.0 == Failed(s, out.1.message)
  {
    if !(s.contractPresent && s.fhevmReady) then (s, Err(NotReadyMessage), None)
    else match proof
      case Err(m) => (Failed(s, m), Err(m), None)
      case Ok(p) =>
        var r := QueryAfterProof(valueWei, sent, mined, obs);
        (Settled(s, r), r, if valueWei.Ok? then Some(FheQueryCall(datasetId, queryType, p, valueWei.value)) else None)
  }

  /** A ready hook with a parameter proof settles the query with the outcome after the proof. */
  lemma QueryWithProof(s: HookState, p: string, datasetId: nat, queryType: nat, valueWei: Result<nat>,
                       sent: Result<string>, mined: Result<Receipt>, obs: nat -> QueryRead)
    requires s.contractPresent && s.fhevmReady
    ensures var r := QueryAfterProof(valueWei, sent, mined, obs);
            Query(s, Ok(p), datasetId, queryType, valueWei, sent, mined, obs) ==
            (Settled(s, r), r, if valueWei.Ok? then Some(FheQueryCall(datasetId, queryType, p, valueWei.value)) else None)
  {
  }

  /**
   * Uploads and queries are refused, with nothing changed, unless the hook is ready; a ready
   * hook ends them with loading off, the error cleared on success and the failure's text shown
   * otherwise; a call goes out only when the outcome's earlier steps passed; contract,
   * readiness and network are never touched.
   */
  lemma OperationsSettle(s: HookState, encrypted: Result<seq<EncryptedValue>>, proof: Result<string>,
                         datasetId: nat, queryType: nat, price: Result<nat>,
                         sent: Result<string>, mined: Result<Receipt>, obs: nat -> QueryRead)
    ensures var (u, ur, uc) := Upload(s, encrypted, price, sent, mined);
            var (q, qr, qc) := Query(s, proof, datasetId, queryType, price, sent, mined, obs);
            (!(s.contractPresent && s.fhevmReady) ==> u == s && q == s && ur == Err(NotReadyMessage) && qr == Err(NotReadyMessage) && uc == None && qc == None) &&
            (s.contractPresent && s.fhevmReady ==>
               !u.loading && !q.loading &&
               (ur.Err? ==> u.error == Some(FormatFheError(ur.message))) && (ur.Ok? ==> u.error == None) &&
               (qr.Err? ==> q.error == Some(FormatFheError(qr.message))) && (qr.Ok? ==> q.error == None) &&
               (uc.Some? <==> encrypted.Ok? && price.Ok?) && (qc.Some? <==> proof.Ok? && price.Ok?) &&
               (ur.Ok? ==> encrypted.Ok? && uc.Some? && |uc.value.inputProofs| == |encrypted.value|) &&
               (qr.Ok? ==> proof.Ok? && qc.Some? && qc.value.parameterProof == proof.value)) &&
            u.contractPresent == q.contractPresent == s.contractPresent &&
            u.fhevmReady == q.fhevmReady == s.fhevmReady && u.networkInfo == q.networkInfo == s.networkInfo
  {
  }

  /** The hook's state; `runtime` is the SDK module's shared instance. */
  class FheContractHook {
    var contractPresent: bool
    var fhevmReady: bool
    var loading: bool
    var error: Option<string>
    var networkInfo: Option<NetworkInfo>
    const runtime: FhevmRuntime

    function State(): HookState
      reads this
    {
      HookState(contractPresent, fhevmReady, loading, error, networkInfo)
    }

    /** Every value encrypts with the runtime's current instance. */
    predicate Encrypts(values: seq<int>, contractAddress: string, sdk: Encryptor)
      reads runtime
    {
      forall i :: 0 <= i < |values| ==> runtime.EncryptUint32(values[i], contractAddress, sdk).Ok?
    }

    /** The encrypted values, when every one encrypts. */
    function Encrypted(values: seq<int>, contractAddress: string, sdk: Encryptor): seq<EncryptedValue>
      reads runtime
      requires Encrypts(values, contractAddress, sdk)
    {
      seq(|values|, i requires 0 <= i < |values| && runtime.EncryptUint32(values[i], contractAddress, sdk).Ok? reads runtime =>
                      runtime.EncryptUint32(values[i], contractAddress, sdk).value)
    }

    constructor(runtime: FhevmRuntime)
      ensures this.runtime == runtime
      ensures State() == HookState(false, false, false, None, None)
    {
      this.runtime := runtime;
      contractPresent := false;
      fhevmReady := false;
      loading := false;
      error := None;
      networkInfo := None;
    }

    /** Sets the whole React state at once. */
    method SetState(s: HookState)
      modifies this
      ensures State() == s
    {
      contractPresent, fhevmReady, loading, error, networkInfo := s.contractPresent, s.fhevmReady, s.loading, s.error, s.networkInfo;
    }

    /**
     * `initContract(provider, signer)`: the chain id (`network`, from `getNetwork`) is recorded
     * with its name; a chain without FHEVM support fails with the list of supported networks;
     * otherwise the runtime starts the SDK (`create`) and the hook is ready whether or not an
     * instance was made. A failure is stored as its user-facing text and rethrown.
     */
    method InitContract(network: Result<nat>, create: FhevmConfig -> Result<FhevmInstance>) returns (r: Result<()>)
      modifies this, runtime
      ensures (State(), r) == Init(old(State()), network)
      ensures r.Err? ==> runtime.instance == old(runtime.instance)
      ensures r.Ok? ==>
                var created := create(FhevmConfig(network.value, "", GatewayUrl(network.value)));
                runtime.instance == if old(runtime.instance).Some? then old(runtime.instance)
                                    else if created.Ok? then Some(created.value) else None
    {
      var before := State();
      loading := true;
      error := None;
      if network.Err? {
        SetState(Failed(before, network.message));
        return Err(network.message);
      }
      var info := NetworkInfoOf(network.value);
      networkInfo := Some(info);
      if !info.isFhevm {
        SetState(Failed(before.(networkInfo := Some(info)), UnsupportedNetworkMessage));
        return Err(UnsupportedNetworkMessage);
      }
      var instance, config := runtime.InitFhevm(network, create);
      contractPresent := true;
      fhevmReady := true;
      loading := false;
      r := Ok(());
      assert State() == before.(networkInfo := Some(info), contractPresent := true, fhevmReady := true, loading := false, error := None);
    }

    /**
     * `uploadDataset(name, description, dataArray, priceInEth)`: refused unless ready; every value
     * is encrypted through the runtime and only the proofs are sent, with the price. A failure
     * is stored as its user-facing text and rethrown. `call` is what was sent, if anything.
     */
    method UploadDataset(data: seq<int>, contractAddress: string, sdk: Encryptor, priceWei: Result<nat>,
                         sent: Result<string>, mined: Result<Receipt>)
      returns (r: Result<FheUploadResult>, call: Option<FheUploadCall>)
      modifies this
      ensures Encrypts(data, contractAddress, sdk) ==>
                (State(), r, call) == Upload(old(State()), Ok(Encrypted(data, contractAddress, sdk)), priceWei, sent, mined)
      ensures !Encrypts(data, contractAddress, sdk) ==>
                r.Err? && (State(), r, call) == Upload(old(State()), Err(r.message), priceWei, sent, mined)
      ensures !Encrypts(data, contractAddress, sdk) && old(contractPresent && fhevmReady) ==>
                exists i :: 0 <= i < |data| && runtime.EncryptUint32(data[i], contractAddress, sdk) == Err(r.message)
    {
      call := None;
      if !contractPresent || !fhevmReady {
        return Err(NotReadyMessage), None;
      }
      var before := State();
      loading := true;
      error := None;
      var encrypted, calls := runtime.EncryptUint32Array(data, contractAddress, sdk);
      if encrypted.Err? {
        SetState(Failed(before, encrypted.message));
        return Err(encrypted.message), None;
      }
      assert encrypted.value == Encrypted(data, contractAddress, sdk);
      if priceWei.Ok? {
        call := Some(FheUploadCall(Proofs(encrypted.value), priceWei.value));
      }
      r := UploadAfterEncryption(priceWei, sent, mined);
      SetState(Settled(before, r));
    }

    /**
     * `executeQuery(datasetId, queryType, parameter, priceInEth)`: refused unless ready; the
     * parameter's proof, the transaction with the value paid, its `QueryExecuted` log and the
     * wait for the decrypted result (`obs`, the ledger's reads of that query). A failure is
     * stored as its user-facing text and rethrown. `call` is what was sent, if anything.
     */
    method ExecuteQuery(datasetId: nat, queryType: nat, parameter: JsValue, contractAddress: string, sdk: Encryptor,
                        valueWei: Result<nat>, sent: Result<string>, mined: Result<Receipt>, obs: nat -> QueryRead)
      returns (r: Result<FheQueryResult>, call: Option<FheQueryCall>)
      modifies this
      ensures (State(), r, call) ==
              Query(old(State()), ParameterProof(runtime, parameter, contractAddress, sdk), datasetId, queryType, valueWei, sent, mined, obs)
    {
      call := None;
      if !contractPresent || !fhevmReady {
        return Err(NotReadyMessage), None;
      }
      var before := State();
      loading := true;
      error := None;
      var proof := ParameterProof(runtime, parameter, contractAddress, sdk);
      if proof.Err? {
        SetState(Failed(before, proof.message));
        return Err(proof.message), None;
      }
      if valueWei.Ok? {
        call := Some(FheQueryCall(datasetId, queryType, proof.value, valueWei.value));
      }
      r := QueryAfterProof(valueWei, sent, mined, obs);
      QueryWithProof(before, proof.value, datasetId, queryType, valueWei, sent, mined, obs);
      SetState(Settled(before, r));
    }
  }
}
