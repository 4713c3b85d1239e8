/**
 * `useContract.js`: the hook for the plain (mock) ledger contract. It holds the contract, a
 * placeholder SDK instance and an error; it uploads datasets (plainly with the placeholder,
 * encrypting value by value otherwise) and buys queries, polling for the receipt itself.
 * The wallet, the ledger reads, `tx.wait()` and the SDK's encryption are inputs.
 */
module MockContract {
  import opened Wrappers
  import opened JsText
  import opened Ledger
  import Config

  /** The instance the hook holds: the `{ mock: true }` placeholder, or an SDK instance. */
  datatype SdkInstance = MockSdk | RealSdk(handle: nat)

  /** What `encInput.encrypt()` yields: the input handles and the proof. */
  datatype EncryptedInput = EncryptedInput(handles: seq<string>, inputProof: string)

  /**
   * The data arguments of the contract's `uploadDataset`: the plain values with an empty
   * proofs array, or one handle and one proof per value.
   */
  datatype UploadCall =
    | PlainCall(values: seq<Option<int>>)
    | EncryptedCall(handles: seq<Option<string>>, proofs: seq<string>)

  /** What `uploadDataset` returns: the dataset id (or `null`) and the receipt's hash. */
  datatype UploadReceipt = UploadReceipt(datasetId: Option<nat>, txHash: Option<string>)

  const NotInitializedMessage: string := "Contract or FHEVM SDK not initialized"
  const NoContractMessage: string := "Contract not initialized"
  const ConfirmTimeoutMessage: string := "Transaction confirmation timeout after 120 seconds"

  /** The number of receipt reads `purchaseQuery` allows itself. */
  const ReceiptPolls: nat := 60

  /** `dataArray.map(n => parseInt(n))` on integers: every value comes back as itself. */
  function Uint32Data(data: seq<int>): (values: seq<Option<int>>)
    ensures |values| == |data|
    ensures forall i :: 0 <= i < |data| ==> values[i] == Some(data[i])
  {
    if |data| == 0 then []
    else
      ParseIntOfIntToString(data[0]);
      [ParseInt(IntToString(data[0]))] + Uint32Data(data[1..])
  }

  /** `encrypted.handles[0]`, `undefined` when there is no handle. */
  function FirstHandle(e: EncryptedInput): Option<string> {
    if |e.handles| == 0 then None else Some(e.handles[0])
  }

  /**
   * The encryption loop of `uploadDataset`: one `createEncryptedInput`/`add32`/`encrypt` per
   * value (`encrypt` is that sequence for the contract and the user's address). On success
   * handles and proofs have one entry per value, aligned by index; the first failure is thrown
   * and no later value is encrypted. `calls` counts the encryptions made.
   */
  method EncryptEach(data: seq<int>, encrypt: int -> Result<EncryptedInput>)
    returns (r: Result<UploadCall>, calls: nat)
    ensures r.Ok? <==> forall i :: 0 <= i < |data| ==> encrypt(data[i]).Ok?
    ensures r.Ok? ==> r.value.EncryptedCall? && calls == |data| &&
                      |r.value.handles| == |data| && |r.value.proofs| == |data|
    ensures r.Ok? ==> forall i :: 0 <= i < |data| ==>
                        r.value.handles[i] == FirstHandle(encrypt(data[i]).value) &&
                        r.value.proofs[i] == encrypt(data[i]).value.inputProof
    ensures r.Err? ==> 1 <= calls <= |data| && encrypt(data[calls - 1]) == Err(r.message)
    ensures r.Err? ==> forall i :: 0 <= i < calls - 1 ==> encrypt(data[i]).Ok?
  {
    var handles: seq<Option<string>> := [];
    var proofs: seq<string> := [];
    var i := 0;
    while i < |data|
      invariant 0 <= i <= |data| && |handles| == i && |proofs| == i
      invariant forall j :: 0 <= j < i ==> encrypt(data[j]).Ok?
      invariant forall j :: 0 <= j < i ==>
                  handles[j] == FirstHandle(encrypt(data[j]).value) && proofs[j] == encrypt(data[j]).value.inputProof
    {
      var encrypted := encrypt(data[i]);
      if encrypted.Err? {
        return Err(encrypted.message), i + 1;
      }
      handles := handles + [FirstHandle(encrypted.value)];
      proofs := proofs + [encrypted.value.inputProof];
      i := i + 1;
    }
    return Ok(EncryptedCall(handles, proofs)), |data|;
  }

  /**
   * The dataset id `uploadDataset` reads, as written: the first log that decodes to an event
   * named `DatasetUploaded`, its id taken as it is.
   */
  function UploadedDatasetId(logs: seq<LogEntry>): (id: Option<nat>)
    ensures id.Some? <==> exists j :: 0 <= j < |logs| && IsEvent(logs[j], "DatasetUploaded")
    ensures id.Some? ==> id.value == logs[FirstEvent(logs, "DatasetUploaded").value].id
  {
    EventId(logs, "DatasetUploaded")
  }

  /** The mock contract's interface decodes only its own events. */
  predicate DecodedByContractAbi(logs: seq<LogEntry>) {
    forall j :: 0 <= j < |logs| && logs[j].Decoded? ==> Config.DeclaresEvent(Config.ContractAbi, logs[j].name)
  }

  /** As written, no receipt the interface decodes ever yields a dataset id: the event does not exist. */
  lemma UploadedDatasetIdIsNull(logs: seq<LogEntry>)
    requires DecodedByContractAbi(logs)
    ensures UploadedDatasetId(logs) == None
  {
    Config.MockAbiLacksDatasetUploaded();
    forall j | 0 <= j < |logs|
      ensures !IsEvent(logs[j], "DatasetUploaded")
    {
      assert logs[j].Decoded? ==> Config.DeclaresEvent(Config.ContractAbi, logs[j].name);
    }
  }

  /** The receipt of an upload that created dataset 7 (the contract's `DatasetCreated` event). */
  const CreatedSevenLogs: seq<LogEntry> := [Undecodable, Decoded("DatasetCreated", 7)]

  /** The dataset id read from the event the contract emits: the first `DatasetCreated` log's id. */
  function CreatedDatasetId(logs: seq<LogEntry>): (id: Option<nat>)
    ensures id.Some? <==> exists j :: 0 <= j < |logs| && IsEvent(logs[j], "DatasetCreated")
  {
    EventId(logs, "DatasetCreated")
  }

  /** On that receipt the id as written is `null`, while the `DatasetCreated` scan finds 7. */
  lemma UploadedDatasetIdMissesCreated()
    ensures DecodedByContractAbi(CreatedSevenLogs)
    ensures UploadedDatasetId(CreatedSevenLogs) == None
    ensures CreatedDatasetId(CreatedSevenLogs) == Some(7)
  {
    assert Config.ContractAbi.events[0].name == "DatasetCreated";
    assert !IsEvent(CreatedSevenLogs[0], "DatasetCreated");
    assert IsEvent(CreatedSevenLogs[1], "DatasetCreated");
    assert FirstEvent(CreatedSevenLogs, "DatasetCreated") == Some(1);
    UploadedDatasetIdIsNull(CreatedSevenLogs);
  }

  /**
   * The corrected scan finds the first `DatasetCreated` log the interface decodes, skipping
   * every log before it, and its id, 0 included.
   */
  lemma CreatedDatasetIdIsFirst(logs: seq<LogEntry>, k: nat)
    requires k < |logs| && logs[k].Decoded? && logs[k].name == "DatasetCreated"
    requires forall j :: 0 <= j < k ==> !IsEvent(logs[j], "DatasetCreated")
    ensures CreatedDatasetId(logs) == Some(logs[k].id)
  {
    var f := FirstEvent(logs, "DatasetCreated");
    assert IsEvent(logs[k], "DatasetCreated");
    assert f.Some?;
    if f.value < k {
    } else if f.value > k {
    }
  }

  /** `{ success: true, datasetId, txHash }` from the mined upload, or the error `tx.wait()` threw. */
  function UploadSent(tx: Result<Receipt>): Result<UploadReceipt> {
    match tx
    case Err(m) => Err(m)
    case Ok(receipt) => Ok(UploadReceipt(CreatedDatasetId(receipt.logs), receipt.hash))
  }

  /** The transaction `purchaseQuery` asks the wallet for: the `executeQuery` arguments and the value paid. */
  datatype QueryCall = QueryCall(datasetId: nat, queryType: nat, parameter: JsValue, value: nat)

  /** What `purchaseQuery` returns: the query id (or `null`) and the receipt's hash. */
  datatype PurchaseResult = PurchaseResult(queryId: Option<nat>, txHash: Option<string>)

  /** A receipt read that ends the poll: a receipt with a block number. */
  predicate Confirmed(read: ReceiptRead) {
    read.Mined? && read.receipt.blockNumber != 0
  }

  /**
   * The receipt poll of `purchaseQuery` from attempt `i` on: the first confirmed receipt gives
   * the first `QueryExecuted` log's id (or `null`) and its hash; no receipt, a receipt without
   * a block and a failing read all move on; sixty attempts end in the timeout error.
   */
  function PurchasePoll(receipts: nat -> ReceiptRead, i: nat): (r: Result<PurchaseResult>)
    requires i <= ReceiptPolls
    ensures r.Err? ==> r == Err(ConfirmTimeoutMessage)
    ensures r.Ok? ==> exists k :: i <= k < ReceiptPolls && Confirmed(receipts(k)) &&
                                r.value == PurchaseResult(EventId(receipts(k).receipt.logs, "QueryExecuted"), receipts(k).receipt.hash)
    decreases ReceiptPolls - i
  {
    if i == ReceiptPolls then Err(ConfirmTimeoutMessage)
    else if Confirmed(receipts(i)) then
      var receipt := receipts(i).receipt;
      Ok(PurchaseResult(EventId(receipt.logs, "QueryExecuted"), receipt.hash))
    else PurchasePoll(receipts, i + 1)
  }

  /** The poll ends at the first confirmed receipt; nothing read before it matters. */
  lemma {:induction false} PurchaseEndsAtFirstConfirmed(receipts: nat -> ReceiptRead, i: nat, k: nat)
    requires i <= k < ReceiptPolls && Confirmed(receipts(k))
    requires forall j :: i <= j < k ==> !Confirmed(receipts(j))
    ensures PurchasePoll(receipts, i) ==
            Ok(PurchaseResult(EventId(receipts(k).receipt.logs, "QueryExecuted"), receipts(k).receipt.hash))
    decreases k - i
  {
    if i < k {
      PurchaseEndsAtFirstConfirmed(receipts, i + 1, k);
    }
  }

  /** Without a confirmed receipt among the sixty reads the poll times out; read errors are swallowed. */
  lemma {:induction false} PurchaseTimesOut(receipts: nat -> ReceiptRead, i: nat)
    requires i <= ReceiptPolls
    requires forall j :: i <= j < ReceiptPolls ==> !Confirmed(receipts(j))
    ensures PurchasePoll(receipts, i) == Err(ConfirmTimeoutMessage)
    decreases ReceiptPolls - i
  {
    if i < ReceiptPolls {
      PurchaseTimesOut(receipts, i + 1);
    }
  }

  /** The hook's state. */
  class ContractHook {
    var contractPresent: bool
    var fhevmInstance: Option<SdkInstance>
    var isInitializing: bool
    var error: Option<string>

    /** The only instance this hook ever stores is the placeholder. */
    predicate Valid()
      reads this
    {
      fhevmInstance == None || fhevmInstance == Some(MockSdk)
    }

    /** The contract effect: a contract exactly when there is a signer and a chain id. */
    constructor(hasSigner: bool, chainId: nat)
      ensures Valid()
      ensures contractPresent == (hasSigner && chainId != 0)
      ensures fhevmInstance == None && !isInitializing && error == None
    {
      contractPresent := hasSigner && chainId != 0;
      fhevmInstance := None;
      isInitializing := false;
      error := None;
    }

    /**
     * `initFhevm(userAddress)`: nothing happens without a chain id or once an instance exists;
     * otherwise the error is cleared and the placeholder stored.
     */
    method InitFhevm(chainId: nat)
      requires Valid()
      modifies this
      ensures Valid()
      ensures contractPresent == old(contractPresent)
      ensures chainId == 0 || old(fhevmInstance).Some? ==>
                fhevmInstance == old(fhevmInstance) && isInitializing == old(isInitializing) && error == old(error)
      ensures chainId != 0 && old(fhevmInstance).None? ==>
                fhevmInstance == Some(MockSdk) && !isInitializing && error == None
    {
      if chainId == 0 || fhevmInstance.Some? {
        return;
      }
      isInitializing := true;
      error := None;
      fhevmInstance := Some(MockSdk);
      isInitializing := false;
    }

    /**
     * `uploadDataset(name, description, dataArray, pricePerQuery)`: refused without a contract
     * or an instance; then the price conversion (`priceWei`), and with the placeholder the
     * plain values with an empty proofs array, otherwise the user's address and the encryption
     * loop. `tx` is the contract call with `tx.wait()`. `call` is what was sent, if anything.
     */
    method UploadDataset(data: seq<int>, priceWei: Result<nat>, userAddress: Result<string>,
                         encrypt: int -> Result<EncryptedInput>, tx: Result<Receipt>)
      returns (r: Result<UploadReceipt>, call: Option<UploadCall>)
      ensures !contractPresent || fhevmInstance.None? ==> r == Err(NotInitializedMessage) && call == None
      ensures contractPresent && fhevmInstance.Some? && priceWei.Err? ==> r == Err(priceWei.message) && call == None
      ensures contractPresent && fhevmInstance == Some(MockSdk) && priceWei.Ok? ==>
                call == Some(PlainCall(Uint32Data(data))) && r == UploadSent(tx)
      ensures contractPresent && fhevmInstance.Some? && fhevmInstance != Some(MockSdk) && priceWei.Ok? ==>
                (userAddress.Err? ==> r == Err(userAddress.message) && call == None) &&
                (userAddress.Ok? && call.None? ==> r.Err? && exists i :: 0 <= i < |data| && encrypt(data[i]) == Err(r.message)) &&
                (call.Some? ==> r == UploadSent(tx) && call.value.EncryptedCall? &&
                                |call.value.handles| == |data| == |call.value.proofs| &&
                                forall i :: 0 <= i < |data| ==> encrypt(data[i]).Ok?)
      ensures Valid() && call.Some? ==> call.value.PlainCall?
    {
      if !contractPresent || fhevmInstance.None? {
        return Err(NotInitializedMessage), None;
      }
      if priceWei.Err? {
        return Err(priceWei.message), None;
      }
      if fhevmInstance.value.MockSdk? {
        call := Some(PlainCall(Uint32Data(data)));
        r := UploadSent(tx);
        return;
      }
      if userAddress.Err? {
        return Err(userAddress.message), None;
      }
      var encrypted, calls := EncryptEach(data, encrypt);
      if encrypted.Err? {
        return Err(encrypted.message), None;
      }
      call := Some(encrypted.value);
      r := UploadSent(tx);
    }

    /**
     * `purchaseQuery(datasetId, queryType, parameter)`: refused without a contract; the price is
     * the dataset's `pricePerQuery` (`getDataset` through the public node, `datasetRead`); the
     * wallet sends `executeQuery(datasetId, queryType, parameter || 0)` with that value
     * (`walletReply` folds the address lookup and `eth_sendTransaction`); then the receipt poll.
     * `polls` counts the receipt reads.
     */
    method PurchaseQuery(datasetId: nat, queryType: nat, parameter: JsValue, datasetRead: Result<DatasetTuple>,
                         walletReply: Result<string>, receipts: nat -> ReceiptRead)
      returns (r: Result<PurchaseResult>, call: Option<QueryCall>, polls: nat)
      ensures !contractPresent ==> r == Err(NoContractMessage) && call == None && polls == 0
      ensures contractPresent && datasetRead.Err? ==> r == Err(datasetRead.message) && call == None && polls == 0
      ensures contractPresent && datasetRead.Ok? ==>
                call == Some(QueryCall(datasetId, queryType, OrZero(parameter), datasetRead.value.pricePerQuery))
      ensures contractPresent && datasetRead.Ok? && walletReply.Err? ==> r == Err(walletReply.message) && polls == 0
      ensures contractPresent && datasetRead.Ok? && walletReply.Ok? ==>
                r == PurchasePoll(receipts, 0) && 1 <= polls <= ReceiptPolls
    {
      if !contractPresent {
        return Err(NoContractMessage), None, 0;
      }
      if datasetRead.Err? {
        return Err(datasetRead.message), None, 0;
      }
      var price := datasetRead.value.pricePerQuery;
      call := Some(QueryCall(datasetId, queryType, OrZero(parameter), price));
      if walletReply.Err? {
        return Err(walletReply.message), call, 0;
      }
      var i := 0;
      while i < ReceiptPolls
        invariant 0 <= i <= ReceiptPolls
        invariant PurchasePoll(receipts, i) == PurchasePoll(receipts, 0)
      {
        var read := receipts(i);
        if read.Mined? && read.receipt.blockNumber != 0 {
          var queryId := EventId(read.receipt.logs, "QueryExecuted");
          return Ok(PurchaseResult(queryId, read.receipt.hash)), call, i + 1;
        }
        i := i + 1;
      }
      return Err(ConfirmTimeoutMessage), call, ReceiptPolls;
    }
  }
}
