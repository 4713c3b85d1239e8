/**
 * `DataUpload.jsx`: the upload form's submit handler. It parses the comma-separated data,
 * checks its size, and hands the numbers to the FHE hook or to the mock path, which sends the
 * transaction through the wallet, polls for its receipt and reads the new dataset id from the
 * `DatasetCreated` log. The wallet, the receipt reads and the FHE hook's answer are inputs.
 */
module DataUpload {
  import opened Wrappers
  import opened JsText
  import opened Ledger

  /** The value one comma-separated field contributes: trimmed, non-empty, and a number for `parseInt`. */
  function FieldValue(field: string): (v: Option<int>)
    ensures Trim(field) == "" ==> v == None
    ensures Trim(field) != "" ==> v == ParseInt(Trim(field))
  {
    var t := Trim(field);
    if t == "" then None else ParseInt(t)
  }

  /** A field holding a numeral with whitespace around it contributes exactly the numeral's integer. */
  lemma FieldValueOfPaddedNumeral(pre: string, n: int, post: string)
    requires forall c <- pre :: IsWhitespace(c)
    requires forall c <- post :: IsWhitespace(c)
    ensures FieldValue(pre + IntToString(n) + post) == Some(n)
  {
    var d := NatToString(if n < 0 then -n else n);
    var s := IntToString(n);
    assert d[0] in d && d[|d| - 1] in d;
    assert s[0] == (if n < 0 then '-' else d[0]) && s[|s| - 1] == d[|d| - 1];
    TrimOfPadded(pre, s, post);
    ParseIntOfIntToString(n);
  }

  /** What one field adds to the list: its value, or nothing. */
  function FieldNumbers(field: string): (numbers: seq<int>)
    ensures |numbers| <= 1
  {
    match FieldValue(field)
    case Some(v) => [v]
    case None => []
  }

  /** What `f` gives for each element, concatenated in order. */
  function Collect<T>(f: T -> seq<int>, xs: seq<T>): seq<int> {
    if |xs| == 0 then [] else f(xs[0]) + Collect(f, xs[1..])
  }

  /** Collecting over two lists one after another is collecting over each and concatenating. */
  lemma {:induction false} CollectAppend<T>(f: T -> seq<int>, a: seq<T>, b: seq<T>)
    ensures Collect(f, a + b) == Collect(f, a) + Collect(f, b)
  {
    if |a| > 0 {
      assert (a + b)[1..] == a[1..] + b;
      assert (a + b)[0] == a[0];
      CollectAppend(f, a[1..], b);
    } else {
      assert a + b == b;
    }
  }

  /** The values of the fields, in field order, the fields without one left out. */
  function ParseFields(fields: seq<string>): seq<int> {
    Collect(FieldNumbers, fields)
  }

  /**
   * The parse pipeline of `handleSubmit`: `split(',')`, `trim`, drop empty fields, `parseInt`,
   * drop `NaN`. Values keep their order and no range is checked.
   */
  function ParseNumbers(data: string): (numbers: seq<int>)
    ensures |numbers| <= |Split(data, ',')|
    ensures forall v :: v in numbers ==> exists f :: f in Split(data, ',') && FieldValue(f) == Some(v)
  {
    ParseFieldsFromFields(Split(data, ','));
    ParseFields(Split(data, ','))
  }

  /** Each parsed value is the value of one of the fields, and there are no more values than fields. */
  lemma {:induction false} ParseFieldsFromFields(fields: seq<string>)
    ensures |ParseFields(fields)| <= |fields|
    ensures forall v :: v in ParseFields(fields) ==> exists f :: f in fields && FieldValue(f) == Some(v)
  {
    if |fields| > 0 {
      ParseFieldsFromFields(fields[1..]);
      assert ParseFields(fields) == FieldNumbers(fields[0]) + ParseFields(fields[1..]);
      forall v | v in ParseFields(fields)
        ensures exists f :: f in fields && FieldValue(f) == Some(v)
      {
        if v in FieldNumbers(fields[0]) {
          assert FieldValue(fields[0]) == Some(v);
        } else {
          var f :| f in fields[1..] && FieldValue(f) == Some(v);
          assert f in fields;
        }
      }
    }
  }

  /** Parsing fields one after another is parsing each part and concatenating: order is kept. */
  lemma ParseFieldsAppend(a: seq<string>, b: seq<string>)
    ensures ParseFields(a + b) == ParseFields(a) + ParseFields(b)
  {
    CollectAppend(FieldNumbers, a, b);
  }

  /** A field keeps its value exactly when it trims to a string `parseInt` reads a number from. */
  lemma ParseFieldsOne(field: string)
    ensures ParseFields([field]) == if FieldValue(field).Some? then [FieldValue(field).value] else []
  {
    assert [field][1..] == [];
    assert ParseFields([field]) == FieldNumbers(field) + Collect(FieldNumbers, [field][1..]);
  }

  /** The decimal strings of a list of integers. */
  function IntStrings(ns: seq<int>): (fields: seq<string>)
    ensures |fields| == |ns|
    ensures forall i :: 0 <= i < |ns| ==> fields[i] == IntToString(ns[i])
  {
    if |ns| == 0 then [] else [IntToString(ns[0])] + IntStrings(ns[1..])
  }

  lemma FieldValueOfIntToString(i: int)
    ensures FieldValue(IntToString(i)) == Some(i)
  {
    var s := IntToString(i);
    var d := NatToString(if i < 0 then -i else i);
    assert d[|d| - 1] in d && d[0] in d;
    assert s[|s| - 1] == d[|d| - 1];
    assert s[0] == '-' || s[0] == d[0];
    NotWhitespace(s[0]);
    NotWhitespace(s[|s| - 1]);
    ParseIntOfIntToString(i);
  }

  lemma NotWhitespace(c: char)
    requires c == '-' || IsDigit(c)
    ensures !IsWhitespace(c)
  {
  }

  /** The decimal string of an integer has no comma in it. */
  lemma IntStringHasNoComma(i: int)
    ensures ',' !in IntToString(i)
  {
    var d := NatToString(if i < 0 then -i else i);
    assert !IsDigit(',');
    assert ',' !in d;
  }

  lemma IntStringsHaveNoComma(ns: seq<int>)
    ensures forall f <- IntStrings(ns) :: ',' !in f
  {
    forall k | 0 <= k < |ns|
      ensures ',' !in IntStrings(ns)[k]
    {
      IntStringHasNoComma(ns[k]);
    }
  }

  /** The empty text has no field with a value. */
  lemma ParseNumbersOfEmpty()
    ensures ParseNumbers("") == []
  {
    assert Split("", ',') == [""];
    assert Trim("") == "";
    ParseFieldsOne("");
  }

  /** Integers written out and joined by commas parse back to themselves, negative ones included. */
  lemma ParseNumbersOfJoined(ns: seq<int>)
    ensures ParseNumbers(Join(IntStrings(ns), ',')) == ns
  {
    var fields := IntStrings(ns);
    if |ns| == 0 {
      assert Join(fields, ',') == "";
      ParseNumbersOfEmpty();
    } else {
      IntStringsHaveNoComma(ns);
      SplitJoin(fields, ',');
      ParseFieldsOfIntStrings(ns);
    }
  }

  lemma {:induction false} ParseFieldsOfIntStrings(ns: seq<int>)
    ensures ParseFields(IntStrings(ns)) == ns
  {
    if |ns| > 0 {
      FieldValueOfIntToString(ns[0]);
      ParseFieldsOfIntStrings(ns[1..]);
      assert IntStrings(ns)[1..] == IntStrings(ns[1..]);
      assert ParseFields(IntStrings(ns)) == FieldNumbers(IntToString(ns[0])) + ParseFields(IntStrings(ns[1..]));
      assert [ns[0]] + ns[1..] == ns;
    }
  }

  const NoDataMessage: string := "Please enter valid numeric data"
  const TooManyMessage: string := "Cannot exceed 1000 data points"

  /** `APP_CONFIG.maxDatasetSize`: the largest number of values one upload may carry. */
  const MaxDataPoints: nat := 1000

  /** The two size checks: no value at all, then more than a thousand. */
  function ValidateCount(numbers: seq<int>): (r: Result<seq<int>>)
    ensures r.Ok? <==> 1 <= |numbers| <= MaxDataPoints
    ensures r.Ok? ==> r.value == numbers
    ensures |numbers| == 0 ==> r == Err(NoDataMessage)
    ensures |numbers| > MaxDataPoints ==> r == Err(TooManyMessage)
  {
    if |numbers| == 0 then Err(NoDataMessage)
    else if |numbers| > MaxDataPoints then Err(TooManyMessage)
    else Ok(numbers)
  }

  /** The number of receipt reads the mock path allows itself. */
  const ReceiptAttempts: nat := 60

  /**
   * The receipt loop of `handleMockUpload`: it reads until a read returns a receipt (whatever
   * its block number) or sixty reads are made; an empty read or a read error uses up an
   * attempt and the loop goes on.
   */
  method AwaitReceipt(receipts: nat -> ReceiptRead) returns (receipt: Option<Receipt>, attempts: nat)
    ensures 1 <= attempts <= ReceiptAttempts
    ensures receipt.Some? ==> receipts(attempts - 1) == Mined(receipt.value)
    ensures receipt.Some? ==> forall j :: 0 <= j < attempts - 1 ==> !receipts(j).Mined?
    ensures receipt.None? ==> attempts == ReceiptAttempts && forall j :: 0 <= j < ReceiptAttempts ==> !receipts(j).Mined?
  {
    receipt := None;
    attempts := 0;
    while receipt.None? && attempts < ReceiptAttempts
      invariant 0 <= attempts <= ReceiptAttempts
      invariant receipt.Some? ==> 1 <= attempts && receipts(attempts - 1) == Mined(receipt.value)
      invariant receipt.Some? ==> forall j :: 0 <= j < attempts - 1 ==> !receipts(j).Mined?
      invariant receipt.None? ==> forall j :: 0 <= j < attempts ==> !receipts(j).Mined?
    {
      attempts := attempts + 1;
      var read := receipts(attempts - 1);
      if read.Mined? {
        receipt := Some(read.receipt);
        if read.receipt.blockNumber != 0 {
          break;
        }
      }
    }
  }

  /** The first read that returns a receipt, if any of the first sixty does. */
  function FirstMined(receipts: nat -> ReceiptRead, i: nat): (k: Option<nat>)
    requires i <= ReceiptAttempts
    ensures k.Some? ==> i <= k.value < ReceiptAttempts && receipts(k.value).Mined? &&
                        forall j :: i <= j < k.value ==> !receipts(j).Mined?
    ensures k.None? ==> forall j :: i <= j < ReceiptAttempts ==> !receipts(j).Mined?
    decreases ReceiptAttempts - i
  {
    if i == ReceiptAttempts then None
    else if receipts(i).Mined? then Some(i)
    else FirstMined(receipts, i + 1)
  }

  /**
   * The dataset id `handleMockUpload` reports: the first log that decodes to `DatasetCreated`
   * ends the search, and its id is kept unless it is 0 (falsy), which reports no id.
   */
  function CreatedDatasetId(logs: seq<LogEntry>): (id: Option<nat>)
    ensures id.Some? ==> id.value != 0 && exists k :: 0 <= k < |logs| && IsEvent(logs[k], "DatasetCreated") && logs[k].id == id.value
    ensures (forall k :: 0 <= k < |logs| ==> !IsEvent(logs[k], "DatasetCreated")) ==> id == None
  {
    match FirstEvent(logs, "DatasetCreated")
    case None => None
    case Some(k) => if logs[k].id == 0 then None else Some(logs[k].id)
  }

  /** The log loop of `handleMockUpload`, with its `break` at the first `DatasetCreated` log. */
  method ScanDatasetCreated(logs: seq<LogEntry>) returns (datasetId: Option<nat>)
    ensures datasetId == CreatedDatasetId(logs)
  {
    datasetId := None;
    var i := 0;
    while i < |logs|
      invariant 0 <= i <= |logs| && datasetId == None
      invariant forall j :: 0 <= j < i ==> !IsEvent(logs[j], "DatasetCreated")
    {
      var log := logs[i];
      if log.Decoded? && log.name == "DatasetCreated" {
        datasetId := if log.id != 0 then Some(log.id) else None;
        assert FirstEvent(logs, "DatasetCreated") == Some(i) by {
          FirstEventIsFirst(logs, "DatasetCreated", i);
        }
        return;
      }
      i := i + 1;
    }
  }

  /** A position holding the event with none before it is what `FirstEvent` finds. */
  lemma FirstEventIsFirst(logs: seq<LogEntry>, name: string, i: nat)
    requires i < |logs| && IsEvent(logs[i], name)
    requires forall j :: 0 <= j < i ==> !IsEvent(logs[j], name)
    ensures FirstEvent(logs, name) == Some(i)
  {
    var f := FirstEvent(logs, name);
    assert f.Some?;
    if f.value < i {
    } else if f.value > i {
    }
  }

  /** The first `DatasetCreated` log decides the reported id, and an id of 0 reports none. */
  lemma CreatedDatasetIdIsFirst(logs: seq<LogEntry>, k: nat)
    requires k < |logs| && IsEvent(logs[k], "DatasetCreated")
    requires forall j :: 0 <= j < k ==> !IsEvent(logs[j], "DatasetCreated")
    ensures CreatedDatasetId(logs) == (if logs[k].id == 0 then None else Some(logs[k].id))
  {
    FirstEventIsFirst(logs, "DatasetCreated", k);
  }

  /** The first read that returns a receipt is the one `FirstMined` finds. */
  lemma FirstMinedOf(receipts: nat -> ReceiptRead, k: Option<nat>)
    requires k.Some? ==> k.value < ReceiptAttempts && receipts(k.value).Mined? &&
                         forall j :: 0 <= j < k.value ==> !receipts(j).Mined?
    requires k.None? ==> forall j :: 0 <= j < ReceiptAttempts ==> !receipts(j).Mined?
    ensures FirstMined(receipts, 0) == k
  {
    var f := FirstMined(receipts, 0);
    if f.Some? && k.Some? {
      if f.value < k.value {
      } else if f.value > k.value {
      }
    }
  }

  /** The record a successful mock upload passes on: the dataset id (or none) and the transaction hash. */
  datatype UploadResult = UploadResult(datasetId: Option<nat>, txHash: string)

  const FailedOnChainMessage: string := "Transaction failed on blockchain!"

  /** The message thrown when no receipt arrives, which names the transaction. */
  function ReceiptTimeoutMessage(txHash: string): (m: string)
    ensures StartsWith(m, "Transaction timeout. Please check manually:\n")
    ensures m[|"Transaction timeout. Please check manually:\n"|..] == txHash
  {
    Prefixed("Transaction timeout. Please check manually:\n", txHash)
  }

  /**
   * What `handleMockUpload` ends with, given the price conversion, the wallet's answer (the
   * transaction hash or the error of `eth_accounts`, encoding, `eth_sendTransaction` or the
   * sixty-second race) and the receipt reads.
   */
  function MockUploadOutcome(priceWei: Result<nat>, sent: Result<string>, receipts: nat -> ReceiptRead): Result<UploadResult>
  {
    if priceWei.Err? then Err(priceWei.message)
    else if sent.Err? then Err(sent.message)
    else
      match FirstMined(receipts, 0)
      case None => Err(ReceiptTimeoutMessage(sent.value))
      case Some(k) =>
        var receipt := receipts(k).receipt;
        if receipt.status != 1 then Err(FailedOnChainMessage)
        else
          Ok(UploadResult(CreatedDatasetId(receipt.logs), if receipt.hash.Some? then receipt.hash.value else sent.value))
  }

  /**
   * A mock upload succeeds exactly when the price converts, the wallet returns a hash, and one
   * of the first sixty reads returns a receipt whose status is 1; the first such receipt is used.
   */
  lemma MockUploadSucceedsIff(priceWei: Result<nat>, sent: Result<string>, receipts: nat -> ReceiptRead)
    ensures MockUploadOutcome(priceWei, sent, receipts).Ok? <==>
              priceWei.Ok? && sent.Ok? && FirstMined(receipts, 0).Some? &&
              receipts(FirstMined(receipts, 0).value).receipt.status == 1
    ensures MockUploadOutcome(priceWei, sent, receipts).Ok? ==>
              var receipt := receipts(FirstMined(receipts, 0).value).receipt;
              MockUploadOutcome(priceWei, sent, receipts).value.datasetId == CreatedDatasetId(receipt.logs)
  {
  }

  /** The form's fields. */
  datatype FormData = FormData(name: string, description: string, data: string, price: string)

  /** The form as it starts and as a successful upload leaves it. */
  const EmptyForm: FormData := FormData("", "", "", "0.01")

  const NoContractMessage: string := "Please connect wallet first"
  const NoFheUploadMessage: string := "FHE upload function not available. Please try again later."
  const SubmitFallbackMessage: string := "Upload failed. Please try again."
  const MockFallbackMessage: string := "Upload failed, please retry"

  /** What the submit handler makes of the form's data: the parsed values if their number is acceptable. */
  function Checked(form: FormData): Result<seq<int>> {
    ValidateCount(ParseNumbers(form.data))
  }

  /** The component's state: the step shown, the uploading flag, the error, the encryption progress and the form. */
  datatype FormState = FormState(step: nat, uploading: bool, error: Option<string>, encryptProgress: nat, form: FormData)

  /** The state `handleMockUpload` leaves, given its outcome. */
  function MockUploaded(s: FormState, outcome: Result<UploadResult>): FormState {
    if outcome.Ok? then s.(step := 1, uploading := false, form := EmptyForm)
    else s.(step := 1, uploading := false, error := Some(MessageOr(outcome.message, MockFallbackMessage)))
  }

  /** The state `handleFHEUpload` and the `catch` it throws to leave, given the hook's answer. */
  function FheUploaded(s: FormState, reply: Result<UploadResult>): FormState {
    if reply.Ok? then s.(step := 1, uploading := false, encryptProgress := 0, form := EmptyForm)
    else s.(step := 1, uploading := false, encryptProgress := 50, error := Some(MessageOr(reply.message, SubmitFallbackMessage)))
  }

  /** What one submission ends with: the new state, the values handed on, and the upload's report. */
  datatype Submission = Submission(state: FormState, sent: Option<seq<int>>, result: Option<UploadResult>)

  /**
   * `handleSubmit` from state `s`: the two guards, the parse and size check, then the FHE hook
   * (whose answer is `fheReply`) or the mock path (whose outcome is `mockOutcome`).
   */
  function Submit(s: FormState, contractPresent: bool, isFheMode: bool, hasFheUpload: bool,
                  fheReply: Result<UploadResult>, mockOutcome: Result<UploadResult>): (r: Submission)
    ensures r.sent.Some? ==> contractPresent && 1 <= |r.sent.value| <= MaxDataPoints && r.sent.value == ParseNumbers(s.form.data)
    ensures r.result.Some? <==> r.sent.Some? && (if isFheMode then fheReply.Ok? else mockOutcome.Ok?)
    ensures r.result.Some? ==> r.state.form == EmptyForm && r.state.error == None && !r.state.uploading
  {
    if !contractPresent then Submission(s.(error := Some(NoContractMessage)), None, None)
    else if isFheMode && !hasFheUpload then Submission(s.(error := Some(NoFheUploadMessage)), None, None)
    else
      var started := s.(uploading := true, error := None, encryptProgress := 0, step := 2);
      var checked := Checked(s.form);
      if checked.Err? then
        Submission(started.(error := Some(MessageOr(checked.message, SubmitFallbackMessage)), uploading := false, step := 1), None, None)
      else if isFheMode then
        Submission(FheUploaded(started, fheReply), Some(checked.value), if fheReply.Ok? then Some(fheReply.value) else None)
      else
        Submission(MockUploaded(started, mockOutcome), Some(checked.value), if mockOutcome.Ok? then Some(mockOutcome.value) else None)
  }

  /** A guard that fails sets its message and changes nothing else: no upload starts. */
  lemma SubmitGuards(s: FormState, contractPresent: bool, isFheMode: bool, hasFheUpload: bool,
                     fheReply: Result<UploadResult>, mockOutcome: Result<UploadResult>)
    ensures var r := Submit(s, contractPresent, isFheMode, hasFheUpload, fheReply, mockOutcome);
            !contractPresent ==> r.state == s.(error := Some(NoContractMessage)) && r.sent == None && r.result == None
    ensures var r := Submit(s, contractPresent, isFheMode, hasFheUpload, fheReply, mockOutcome);
            contractPresent && isFheMode && !hasFheUpload ==>
              r.state == s.(error := Some(NoFheUploadMessage)) && r.sent == None && r.result == None
  {
  }

  /**
   * Once past the guards, a submission always ends back at step 1 with uploading over; the
   * values handed on are exactly the parsed data when it passes the size check, and the data
   * that fails it leaves its own message and the form as it was.
   */
  lemma SubmitEndsIdle(s: FormState, isFheMode: bool, hasFheUpload: bool,
                       fheReply: Result<UploadResult>, mockOutcome: Result<UploadResult>)
    requires !isFheMode || hasFheUpload
    ensures var r := Submit(s, true, isFheMode, hasFheUpload, fheReply, mockOutcome);
            r.state.step == 1 && !r.state.uploading
    ensures var r := Submit(s, true, isFheMode, hasFheUpload, fheReply, mockOutcome);
            r.sent.Some? <==> 1 <= |ParseNumbers(s.form.data)| <= MaxDataPoints
    ensures var r := Submit(s, true, isFheMode, hasFheUpload, fheReply, mockOutcome);
            r.sent.Some? ==> r.sent.value == ParseNumbers(s.form.data)
    ensures var r := Submit(s, true, isFheMode, hasFheUpload, fheReply, mockOutcome);
            r.sent.None? ==> r.result == None && r.state.form == s.form && r.state.encryptProgress == 0 &&
                             r.state.error == Some(Checked(s.form).message)
  {
    var checked := Checked(s.form);
    if checked.Err? {
      assert checked.message != "";
    }
  }

  /**
   * A submission reports a result exactly when it resets the form, and then the error is
   * cleared; a submission that fails after the size check keeps the form and shows an error.
   */
  lemma SubmitSucceedsIff(s: FormState, contractPresent: bool, isFheMode: bool, hasFheUpload: bool,
                          fheReply: Result<UploadResult>, mockOutcome: Result<UploadResult>)
    requires s.form != EmptyForm
    ensures var r := Submit(s, contractPresent, isFheMode, hasFheUpload, fheReply, mockOutcome);
            r.result.Some? <==> r.state.form == EmptyForm
    ensures var r := Submit(s, contractPresent, isFheMode, hasFheUpload, fheReply, mockOutcome);
            r.result.Some? ==> r.sent.Some? && r.state.error == None &&
                               r.result == (if isFheMode then Some(fheReply.value) else Some(mockOutcome.value))
    ensures var r := Submit(s, contractPresent, isFheMode, hasFheUpload, fheReply, mockOutcome);
            r.sent.Some? && r.result.None? ==> r.state.error.Some? && r.state.form == s.form
  {
    if contractPresent && (!isFheMode || hasFheUpload) && Checked(s.form).Ok? {
      var started := s.(uploading := true, error := None, encryptProgress := 0, step := 2);
      if isFheMode {
        assert Submit(s, contractPresent, isFheMode, hasFheUpload, fheReply, mockOutcome).state == FheUploaded(started, fheReply);
      } else {
        assert Submit(s, contractPresent, isFheMode, hasFheUpload, fheReply, mockOutcome).state == MockUploaded(started, mockOutcome);
      }
    }
  }

  /** The component's state, updated in place by its handlers. */
  class UploadForm {
    var step: nat
    var uploading: bool
    var error: Option<string>
    var encryptProgress: nat
    var form: FormData

    function State(): FormState
      reads this
    {
      FormState(step, uploading, error, encryptProgress, form)
    }

    constructor()
      ensures State() == FormState(1, false, None, 0, EmptyForm)
    {
      step, uploading, error, encryptProgress, form := 1, false, None, 0, EmptyForm;
    }

    /**
     * `handleMockUpload(numbers)`: the price conversion, the wallet's answer, the receipt loop and
     * the log scan, ending in the state and report `MockUploadOutcome` describes. The numbers
     * only travel inside the wallet's transaction, which is an input here.
     */
    method HandleMockUpload(priceWei: Result<nat>, sent: Result<string>, receipts: nat -> ReceiptRead)
      returns (result: Option<UploadResult>)
      modifies this
      ensures var o := MockUploadOutcome(priceWei, sent, receipts);
              State() == MockUploaded(old(State()), o) && result == (if o.Ok? then Some(o.value) else None)
    {
      step := 3;
      if priceWei.Err? {
        error := Some(MessageOr(priceWei.message, MockFallbackMessage));
        step := 1;
        uploading := false;
        return None;
      }
      if sent.Err? {
        error := Some(MessageOr(sent.message, MockFallbackMessage));
        step := 1;
        uploading := false;
        return None;
      }
      var txHash := sent.value;
      var receipt, attempts := AwaitReceipt(receipts);
      FirstMinedOf(receipts, if receipt.Some? then Some(attempts - 1) else None);
      if receipt.None? {
        error := Some(MessageOr(ReceiptTimeoutMessage(txHash), MockFallbackMessage));
        step := 1;
        uploading := false;
        return None;
      }
      if receipt.value.status != 1 {
        error := Some(MessageOr(FailedOnChainMessage, MockFallbackMessage));
        step := 1;
        uploading := false;
        return None;
      }
      var datasetId := ScanDatasetCreated(receipt.value.logs);
      result := Some(UploadResult(datasetId, if receipt.value.hash.Some? then receipt.value.hash.value else txHash));
      form := EmptyForm;
      step := 1;
      uploading := false;
    }

    /**
     * `handleFHEUpload(numbers)` together with the `catch` of `handleSubmit` it throws to: the
     * progress marks up to 50, then the hook's answer (the numbers go to the hook, whose answer
     * is an input).
     */
    method HandleFheUpload(fheReply: Result<UploadResult>) returns (result: Option<UploadResult>)
      modifies this
      ensures State() == FheUploaded(old(State()), fheReply)
      ensures result == if fheReply.Ok? then Some(fheReply.value) else None
    {
      encryptProgress := 10;
      encryptProgress := 30;
      step := 3;
      encryptProgress := 50;
      if fheReply.Err? {
        error := Some(MessageOr(fheReply.message, SubmitFallbackMessage));
        uploading := false;
        step := 1;
        return None;
      }
      encryptProgress := 100;
      form := EmptyForm;
      step := 1;
      encryptProgress := 0;
      uploading := false;
      result := Some(fheReply.value);
    }

    /** `handleSubmit`, ending in the state and report `Submit` describes. */
    method HandleSubmit(contractPresent: bool, isFheMode: bool, hasFheUpload: bool,
                        fheReply: Result<UploadResult>, priceWei: Result<nat>, walletReply: Result<string>,
                        receipts: nat -> ReceiptRead)
      returns (sent: Option<seq<int>>, result: Option<UploadResult>)
      modifies this
      ensures Submission(State(), sent, result) ==
              Submit(old(State()), contractPresent, isFheMode, hasFheUpload, fheReply,
                     MockUploadOutcome(priceWei, walletReply, receipts))
    {
      if !contractPresent {
        error := Some(NoContractMessage);
        return None, None;
      }
      if isFheMode && !hasFheUpload {
        error := Some(NoFheUploadMessage);
        return None, None;
      }
      uploading := true;
      error := None;
      encryptProgress := 0;
      step := 2;
      ghost var started := State();
      assert started == old(State()).(uploading := true, error := None, encryptProgress := 0, step := 2);
      var checked := Checked(form);
      if checked.Err? {
        error := Some(MessageOr(checked.message, SubmitFallbackMessage));
        uploading := false;
        step := 1;
        return None, None;
      }
      sent := Some(checked.value);
      ghost var o := MockUploadOutcome(priceWei, walletReply, receipts);
      if isFheMode {
        result := HandleFheUpload(fheReply);
        assert State() == FheUploaded(started, fheReply);
      } else {
        result := HandleMockUpload(priceWei, walletReply, receipts);
        assert State() == MockUploaded(started, o);
        assert result == if o.Ok? then Some(o.value) else None;
      }
    }
  }
}
