/**
 * `QueryExecutor.jsx`: the query panel of a dataset page. The user picks one of four query
 * types (the two counts take a threshold) and runs it: in mock mode through the plain hook's
 * `purchaseQuery` and then the decryption hook's wait, in FHE mode through the FHE hook's
 * `executeQuery`. The panel keeps the last result or the last error, never both.
 */
module QueryExecutor {
  import opened Wrappers
  import opened JsText
  import opened Ledger
  import Config
  import opened Decryption
  import MockContract
  import FheContract

  /** An entry of `QUERY_OPTIONS`: the query type, its label, and whether it takes a threshold. */
  datatype QueryOption = QueryOption(queryType: nat, name: string, needsParam: bool)

  /** `QUERY_OPTIONS`, in display order. */
  const QueryOptions: seq<QueryOption> := [
    QueryOption(Config.QueryTypes["COMPUTE_MEAN"], "Calculate Mean", false),
    QueryOption(Config.QueryTypes["COMPUTE_VARIANCE"], "Calculate Variance", false),
    QueryOption(Config.QueryTypes["COUNT_ABOVE"], "Count Above", true),
    QueryOption(Config.QueryTypes["COUNT_BELOW"], "Count Below", true)
  ]

  /** `QUERY_OPTIONS.find(q => q.type === selectedQuery)`. */
  function SelectedOption(selected: Option<nat>): (o: Option<QueryOption>)
    ensures o.Some? ==> o.value in QueryOptions && selected == Some(o.value.queryType)
  {
    if selected.None? then None else FindOption(QueryOptions, selected.value)
  }

  /** The first option of `options` with type `queryType`. */
  function FindOption(options: seq<QueryOption>, queryType: nat): (o: Option<QueryOption>)
    ensures o.Some? ==> o.value in options && o.value.queryType == queryType
    ensures o.None? ==> forall q <- options :: q.queryType != queryType
  {
    if |options| == 0 then None
    else if options[0].queryType == queryType then Some(options[0])
    else FindOption(options[1..], queryType)
  }

  /**
   * The four options are the four query types, in code order, and the threshold field is shown
   * exactly for the two counts.
   */
  lemma QueryOptionsCoverTypes(selected: Option<nat>)
    ensures forall i :: 0 <= i < |QueryOptions| ==> QueryOptions[i].queryType == i
    ensures SelectedOption(selected).Some? <==> selected.Some? && selected.value < 4
    ensures (SelectedOption(selected).Some? && SelectedOption(selected).value.needsParam) <==>
            selected == Some(2) || selected == Some(3)
  {
    Config.QueryTypeTablesAgree();
    assert QueryOptions[0].queryType == 0 && QueryOptions[1].queryType == 1;
    assert QueryOptions[2].queryType == 2 && QueryOptions[3].queryType == 3;
    if selected.Some? && selected.value < 4 {
      var o := FindOption(QueryOptions, selected.value);
      assert QueryOptions[selected.value] in QueryOptions;
      assert o.Some?;
    }
  }

  const SelectFirstMessage: string := "Please select a query type first"
  const NoFheQueryMessage: string := "FHE query function not available. Please try again later."
  const NoPurchaseMessage: string := "Query function not available. Please connect wallet."
  const ExecutionFailedMessage: string := "Query execution failed"

  /** The alert for a failed query. */
  function FailureAlert(message: string): (alert: string)
    ensures StartsWith(alert, "Query failed: ") && alert[|"Query failed: "|..] == message
  {
    Prefixed("Query failed: ", message)
  }

  /** The alert that refuses to start a query, checked in this order, if any. */
  function Refusal(selected: Option<nat>, isFheMode: bool, hasExecuteQuery: bool, hasPurchaseQuery: bool): (alert: Option<string>)
    ensures alert.Some? ==> alert.value in [SelectFirstMessage, NoFheQueryMessage, NoPurchaseMessage]
    ensures alert == Some(NoFheQueryMessage) ==> selected.Some? && isFheMode
    ensures alert == Some(NoPurchaseMessage) ==> selected.Some? && !isFheMode
  {
    if selected.None? then Some(SelectFirstMessage)
    else if isFheMode && !hasExecuteQuery then Some(NoFheQueryMessage)
    else if !isFheMode && !hasPurchaseQuery then Some(NoPurchaseMessage)
    else None
  }

  /** A query starts exactly when a type is selected and the mode's query function is there. */
  lemma RefusalIff(selected: Option<nat>, isFheMode: bool, hasExecuteQuery: bool, hasPurchaseQuery: bool)
    ensures Refusal(selected, isFheMode, hasExecuteQuery, hasPurchaseQuery).None? <==>
            selected.Some? && (if isFheMode then hasExecuteQuery else hasPurchaseQuery)
    ensures selected.None? ==> Refusal(selected, isFheMode, hasExecuteQuery, hasPurchaseQuery) == Some(SelectFirstMessage)
  {
  }

  /** What the panel keeps after a successful query: the wait's result, or the FHE hook's whole answer. */
  datatype ExecutorResult = MockResult(result: nat) | FheResult(answer: FheContract.FheQueryResult)

  /** The value the panel shows, `queryResult.result`. */
  function ShownValue(r: ExecutorResult): nat {
    match r
    case MockResult(v) => v
    case FheResult(a) => a.result
  }

  /** The arguments the panel passes to the query function. */
  datatype QueryRequest = QueryRequest(datasetId: nat, queryType: nat, parameter: JsValue)

  /** What `waitForQueryResult(queryId)` returns or throws, with its default ten attempts. */
  function WaitResult(contractPresent: bool, obs: nat -> QueryRead): Result<nat> {
    if !contractPresent then Err(ContractMissingMessage)
    else match Poll(obs, 0, DefaultMaxAttempts, 10.0).outcome
      case Ok(view) => Ok(view.result)
      case Err(m) => Err(m)
  }

  /** Whether the mock path goes on to the wait: the purchase returned a nonzero query id. */
  predicate WaitsForResult(purchase: Result<MockContract.PurchaseResult>) {
    purchase.Ok? && purchase.value.queryId.Some? && purchase.value.queryId.value != 0
  }

  /**
   * The mock path: a purchase that failed or returned no query id (`null` or 0) ends in
   * `Query execution failed` without waiting; otherwise the wait decides.
   */
  function MockQuery(purchase: Result<MockContract.PurchaseResult>, contractPresent: bool,
                     obs: nat -> QueryRead): (r: Result<ExecutorResult>)
    ensures r.Ok? ==> WaitsForResult(purchase) && contractPresent && r.value.MockResult?
    ensures purchase.Err? ==> r == Err(purchase.message)
    ensures WaitsForResult(purchase) && !contractPresent ==> r == Err(ContractMissingMessage)
  {
    match purchase
    case Err(m) => Err(m)
    case Ok(p) =>
      if p.queryId.None? || p.queryId.value == 0 then Err(ExecutionFailedMessage)
      else match WaitResult(contractPresent, obs)
        case Ok(v) => Ok(MockResult(v))
        case Err(m) => Err(m)
  }

  /** The outcome of a started query in either mode. */
  function Outcome(isFheMode: bool, purchase: Result<MockContract.PurchaseResult>, contractPresent: bool,
                   obs: nat -> QueryRead, fheAnswer: Result<FheContract.FheQueryResult>): Result<ExecutorResult> {
    if isFheMode then
      match fheAnswer
      case Ok(a) => Ok(FheResult(a))
      case Err(m) => Err(m)
    else MockQuery(purchase, contractPresent, obs)
  }

  /**
   * A mock query shows a result only for a purchase with a nonzero query id whose query a
   * read among the first ten shows completed, with only unfinished reads before it; the value
   * shown is that read's result. A query id of 0 is never waited for.
   */
  lemma {:induction false} MockQuerySucceedsIff(purchase: Result<MockContract.PurchaseResult>, contractPresent: bool,
                                                obs: nat -> QueryRead)
    ensures MockQuery(purchase, contractPresent, obs).Ok? <==>
              purchase.Ok? && purchase.value.queryId.Some? && purchase.value.queryId.value != 0 && contractPresent &&
              exists k :: 0 <= k < DefaultMaxAttempts && CompletedRead(obs(k))
    ensures MockQuery(purchase, contractPresent, obs).Ok? ==>
              exists k :: 0 <= k < DefaultMaxAttempts && CompletedRead(obs(k)) &&
                          (forall j :: 0 <= j < k ==> !CompletedRead(obs(j))) &&
                          ShownValue(MockQuery(purchase, contractPresent, obs).value) == obs(k).tuple.result
    ensures purchase.Ok? && purchase.value.queryId == Some(0) ==> MockQuery(purchase, contractPresent, obs) == Err(ExecutionFailedMessage)
  {
    WaitSucceedsIff(obs, DefaultMaxAttempts);
    var o := Poll(obs, 0, DefaultMaxAttempts, 10.0);
    if MockQuery(purchase, contractPresent, obs).Ok? {
      var k := o.readCount - 1;
      assert CompletedRead(obs(k)) && (forall j :: 0 <= j < k ==> !CompletedRead(obs(j)));
      assert o.outcome.value == ViewOf(obs(k).tuple);
    }
  }

  /**
   * In FHE mode the panel passes `parameter || 0`, never `null` or `undefined`, so with the
   * FHE hook as written every query fails at the unimported encryption call.
   */
  lemma FheQueriesFailAsWritten(parameter: string)
    ensures FheContract.ParameterProofAsWritten(OrZero(Text(parameter))) == Err(FheContract.EncryptUint32UndefinedMessage)
  {
    FheContract.ExecutorQueriesFailAsWritten(Text(parameter));
  }

  /** The panel's state; `tracker` is its decryption hook. */
  class QueryPanel {
    var selectedQuery: Option<nat>
    var parameter: string
    var executing: bool
    var queryResult: Option<ExecutorResult>
    var queryError: Option<string>
    const tracker: DecryptionTracker

    /** A result and an error are never kept together. */
    predicate Valid()
      reads this
    {
      queryResult.None? || queryError.None?
    }

    constructor(tracker: DecryptionTracker)
      ensures this.tracker == tracker && Valid()
      ensures selectedQuery == None && parameter == "" && !executing && queryResult == None && queryError == None
    {
      this.tracker := tracker;
      selectedQuery := None;
      parameter := "";
      executing := false;
      queryResult := None;
      queryError := None;
    }

    /** Clicking a query option; the buttons are disabled while a query runs. */
    method SelectQuery(queryType: nat)
      modifies this
      ensures selectedQuery == if old(executing) then old(selectedQuery) else Some(queryType)
      ensures parameter == old(parameter) && executing == old(executing)
      ensures queryResult == old(queryResult) && queryError == old(queryError)
    {
      if !executing {
        selectedQuery := Some(queryType);
      }
    }

    /** Typing in the threshold field; the field is disabled while a query runs. */
    method SetParameter(text: string)
      modifies this
      ensures parameter == if old(executing) then old(parameter) else text
      ensures selectedQuery == old(selectedQuery) && executing == old(executing)
      ensures queryResult == old(queryResult) && queryError == old(queryError)
    {
      if !executing {
        parameter := text;
      }
    }

    /**
     * `handleExecuteQuery()`: refused with an alert unless a type is selected and the mode's
     * query function is there. Otherwise the result, the error and the decryption hook are
     * cleared and the query runs with `parameter || 0`: `purchase` is what `purchaseQuery`
     * returned or threw, `obs` the ledger's reads during the wait, `fheAnswer` what
     * `executeQuery` returned or threw. A failure is kept as the error and alerted.
     */
    method HandleExecuteQuery(datasetId: nat, isFheMode: bool, hasExecuteQuery: bool, hasPurchaseQuery: bool,
                              contractPresent: bool, purchase: Result<MockContract.PurchaseResult>,
                              obs: nat -> QueryRead, fheAnswer: Result<FheContract.FheQueryResult>)
      returns (alert: Option<string>, request: Option<QueryRequest>)
      requires Valid()
      modifies this, tracker
      ensures Valid()
      ensures selectedQuery == old(selectedQuery) && parameter == old(parameter)
      ensures Refusal(old(selectedQuery), isFheMode, hasExecuteQuery, hasPurchaseQuery).Some? ==>
                alert == Refusal(old(selectedQuery), isFheMode, hasExecuteQuery, hasPurchaseQuery) && request == None &&
                executing == old(executing) && queryResult == old(queryResult) && queryError == old(queryError) &&
                tracker.status == old(tracker.status) && tracker.result == old(tracker.result) &&
                tracker.error == old(tracker.error) && tracker.progress == old(tracker.progress)
      ensures Refusal(old(selectedQuery), isFheMode, hasExecuteQuery, hasPurchaseQuery).None? ==>
                var out := Outcome(isFheMode, purchase, contractPresent, obs, fheAnswer);
                !executing &&
                request == Some(QueryRequest(datasetId, selectedQuery.value, OrZero(Text(parameter)))) &&
                queryResult == (if out.Ok? then Some(out.value) else None) &&
                queryError == (if out.Err? then Some(out.message) else None) &&
                alert == (if out.Err? then Some(FailureAlert(out.message)) else None)
      ensures Refusal(old(selectedQuery), isFheMode, hasExecuteQuery, hasPurchaseQuery).None? &&
              (isFheMode || !WaitsForResult(purchase) || !contractPresent) ==>
                tracker.status == Idle && tracker.progress == 0.0 && tracker.result == None && tracker.error == None
      ensures Refusal(old(selectedQuery), isFheMode, hasExecuteQuery, hasPurchaseQuery).None? &&
              !isFheMode && WaitsForResult(purchase) && contractPresent ==>
                var o := Poll(obs, 0, DefaultMaxAttempts, 10.0);
                tracker.progress == o.progress &&
                (o.outcome.Ok? ==> tracker.status == Completed && tracker.result == Some(o.outcome.value) && tracker.error == None) &&
                (o.outcome.Err? ==> tracker.status == Failed && tracker.result == None && tracker.error == Some(o.outcome.message))
    {
      alert := Refusal(selectedQuery, isFheMode, hasExecuteQuery, hasPurchaseQuery);
      if alert.Some? {
        return alert, None;
      }
      executing := true;
      queryResult := None;
      queryError := None;
      tracker.Reset();
      var passed := OrZero(Text(parameter));
      request := Some(QueryRequest(datasetId, selectedQuery.value, passed));
      var out: Result<ExecutorResult>;
      if isFheMode {
        out := if fheAnswer.Ok? then Ok(FheResult(fheAnswer.value)) else Err(fheAnswer.message);
      } else {
        out := RunMockQuery(purchase, contractPresent, obs);
      }
      if out.Ok? {
        queryResult := Some(out.value);
        alert := None;
      } else {
        queryError := Some(out.message);
        alert := Some(FailureAlert(out.message));
      }
      executing := false;
    }

    /** `handleMockQuery()`: the purchase's check, then the decryption hook's wait. */
    method RunMockQuery(purchase: Result<MockContract.PurchaseResult>, contractPresent: bool, obs: nat -> QueryRead)
      returns (out: Result<ExecutorResult>)
      modifies tracker
      ensures out == MockQuery(purchase, contractPresent, obs)
      ensures !WaitsForResult(purchase) || !contractPresent ==>
                tracker.status == old(tracker.status) && tracker.progress == old(tracker.progress) &&
                tracker.result == old(tracker.result) && tracker.error == old(tracker.error)
      ensures WaitsForResult(purchase) && contractPresent ==>
                var o := Poll(obs, 0, DefaultMaxAttempts, 10.0);
                tracker.progress == o.progress &&
                (o.outcome.Ok? ==> tracker.status == Completed && tracker.result == Some(o.outcome.value) && tracker.error == None) &&
                (o.outcome.Err? ==> tracker.status == Failed && tracker.result == old(tracker.result) &&
                                    tracker.error == Some(o.outcome.message))
    {
      if purchase.Err? {
        return Err(purchase.message);
      }
      if purchase.value.queryId.None? || purchase.value.queryId.value == 0 {
        return Err(ExecutionFailedMessage);
      }
      var r, count := tracker.WaitForQueryResult(contractPresent, obs, DefaultMaxAttempts);
      out := if r.Ok? then Ok(MockResult(r.value)) else Err(r.message);
    }
  }
}
