/**
 * What the front end reads from the ledger contract, as plain values: the `getDataset` and
 * `getQuery` tuples, transaction receipts and their logs as the contract interface decodes them.
 * Every read the pages and hooks make is an input of this shape; nothing here calls the ledger.
 */
module Ledger {
  import opened Wrappers

  /** A `getDataset(id)` result, field by field in the order the ABI returns them. */
  datatype DatasetTuple = DatasetTuple(
    id: nat, owner: string, name: string, description: string, dataSize: nat,
    pricePerQuery: nat, totalQueries: nat, totalRevenue: nat, createdAt: nat, active: bool)

  /** A `getQuery(id)` result, field by field in the order the ABI returns them. */
  datatype QueryTuple = QueryTuple(
    id: nat, datasetId: nat, buyer: string, queryType: nat, parameter: nat,
    result: nat, status: nat, price: nat, timestamp: nat)

  /**
   * `Number(tuple[i].toString())` for a numeric slot of a `getQuery` tuple: the value at
   * position `i` of the ABI's output list (position 2 is the buyer's address).
   */
  function QuerySlot(t: QueryTuple, i: nat): nat
    requires i < 9 && i != 2
  {
    match i
    case 0 => t.id
    case 1 => t.datasetId
    case 3 => t.queryType
    case 4 => t.parameter
    case 5 => t.result
    case 6 => t.status
    case 7 => t.price
    case 8 => t.timestamp
  }

  /** The query status codes of the ledger: PENDING, PROCESSING, COMPLETED, FAILED, REFUNDED. */
  const StatusPending: nat := 0
  const StatusProcessing: nat := 1
  const StatusCompleted: nat := 2
  const StatusFailed: nat := 3
  const StatusRefunded: nat := 4

  /** One `getQuery` call: the tuple, or the error the RPC call threw. */
  datatype QueryRead = QueryRow(tuple: QueryTuple) | QueryReadError(message: string)

  /**
   * A receipt log as `contract.interface.parseLog` sees it: an event of the interface with
   * its name and its first argument (the `datasetId` or `queryId` the front end extracts),
   * or a log it cannot decode (it returns `null` or throws; every caller treats both alike).
   */
  datatype LogEntry = Undecodable | Decoded(name: string, id: nat)

  /** A mined transaction's receipt. `hash` is `None` when it is not a string. */
  datatype Receipt = Receipt(hash: Option<string>, blockNumber: nat, status: int, logs: seq<LogEntry>)

  /** One `getTransactionReceipt` call: not yet available (`null`), a receipt, or a thrown error. */
  datatype ReceiptRead = NoReceipt | Mined(receipt: Receipt) | ReceiptError(message: string)

  predicate IsEvent(log: LogEntry, name: string) {
    log.Decoded? && log.name == name
  }

  /** The position of the first log that decodes to the event `name`, skipping every other log. */
  function FirstEvent(logs: seq<LogEntry>, name: string): (k: Option<nat>)
    ensures k.Some? ==> k.value < |logs| && IsEvent(logs[k.value], name)
    ensures k.Some? ==> forall j :: 0 <= j < k.value ==> !IsEvent(logs[j], name)
    ensures k.None? ==> forall j :: 0 <= j < |logs| ==> !IsEvent(logs[j], name)
  {
    if |logs| == 0 then None
    else if IsEvent(logs[0], name) then Some(0)
    else
      match FirstEvent(logs[1..], name)
      case None => None
      case Some(j) => Some(j + 1)
  }

  /** The id argument of the first `name` event, if there is one. */
  function EventId(logs: seq<LogEntry>, name: string): (id: Option<nat>)
    ensures id.Some? <==> exists j :: 0 <= j < |logs| && IsEvent(logs[j], name)
    ensures id.Some? ==> id.value == logs[FirstEvent(logs, name).value].id
  {
    match FirstEvent(logs, name)
    case None => None
    case Some(k) => Some(logs[k].id)
  }

  /**
   * The datasets the listing pages keep: the `getDataset` reply for each active id, in the
   * order of `ids`, with every reply that threw left out.
   */
  function ReadDatasets(ids: seq<nat>, datasets: nat -> Result<DatasetTuple>): (r: seq<DatasetTuple>)
    ensures |r| <= |ids|
  {
    if |ids| == 0 then []
    else ReadDatasets(ids[..|ids| - 1], datasets) +
         (if datasets(ids[|ids| - 1]).Ok? then [datasets(ids[|ids| - 1]).value] else [])
  }

  /** A dataset is kept exactly when some active id's reply is that dataset. */
  lemma {:induction false} ReadDatasetsIff(ids: seq<nat>, datasets: nat -> Result<DatasetTuple>, d: DatasetTuple)
    ensures d in ReadDatasets(ids, datasets) <==> exists i :: 0 <= i < |ids| && datasets(ids[i]) == Ok(d)
  {
    if |ids| > 0 {
      var init, last := ids[..|ids| - 1], |ids| - 1;
      ReadDatasetsIff(init, datasets, d);
      if exists i :: 0 <= i < |ids| && datasets(ids[i]) == Ok(d) {
        var i :| 0 <= i < |ids| && datasets(ids[i]) == Ok(d);
        if i < last {
          assert init[i] == ids[i];
        }
      }
      if d in ReadDatasets(init, datasets) {
        var i :| 0 <= i < |init| && datasets(init[i]) == Ok(d);
        assert ids[i] == init[i];
      }
    }
  }

  /** When no reply throws, every active dataset is kept, one per id and in id order. */
  lemma {:induction false} ReadDatasetsAllOk(ids: seq<nat>, datasets: nat -> Result<DatasetTuple>)
    requires forall i :: 0 <= i < |ids| ==> datasets(ids[i]).Ok?
    ensures |ReadDatasets(ids, datasets)| == |ids|
    ensures forall i :: 0 <= i < |ids| ==> ReadDatasets(ids, datasets)[i] == datasets(ids[i]).value
  {
    if |ids| > 0 {
      var init := ids[..|ids| - 1];
      assert forall i :: 0 <= i < |init| ==> init[i] == ids[i];
      ReadDatasetsAllOk(init, datasets);
    }
  }
}
