/**
 * The dataset detail page: the route's id is checked, the dataset is read through the public
 * node, and a dataset that does not exist on the ledger is reported rather than shown.
 */
module DatasetDetail {
  import opened Wrappers
  import opened JsText
  import opened Ledger

  const InvalidIdMessage := "Invalid dataset ID. Please check the URL."
  const NoContractMessage := "Contract not initialized. Please connect your wallet."
  const NotFoundMessage := "Dataset not found. It may not exist or has been removed."
  const LoadFailedMessage := "Failed to load dataset. Please try again."

  /** The owner the ledger reports for an id it never stored. */
  const ZeroAddress := "0x0000000000000000000000000000000000000000"

  /** Zeros with at most one decimal point, such as `0`, `000`, `0.` or `.00`. */
  predicate ZeroDecimal(u: string) {
    '0' in u &&
    (forall c <- u :: c == '0' || c == '.') &&
    (forall i, j :: 0 <= i < j < |u| && u[i] == '.' ==> u[j] != '.')
  }

  /**
   * `Number(id) === 0` for the decimal spellings: an id that is blank once trimmed, or a
   * sign-optional string of zeros with at most one decimal point.
   */
  predicate NumberIsZero(id: string) {
    var t := Trim(id);
    t == "" || ZeroDecimal(t) || (|t| > 1 && (t[0] == '+' || t[0] == '-') && ZeroDecimal(t[1..]))
  }

  /** `!id || id === '0' || Number(id) === 0` for the route parameter (`None` when absent). */
  predicate InvalidId(id: Option<string>) {
    id.None? || id.value == "" || id.value == "0" || NumberIsZero(id.value)
  }

  /** The existence test: a stored dataset has a non-zero owner and a non-empty name. */
  predicate Found(d: DatasetTuple) {
    d.owner != ZeroAddress && d.name != ""
  }

  /** `getDataset` is called exactly when the id is valid and a contract is connected. */
  predicate Fetches(id: Option<string>, contractPresent: bool) {
    !InvalidId(id) && contractPresent
  }

  /** The page's React state as one value. */
  datatype DetailState = DetailState(dataset: Option<DatasetTuple>, loading: bool, error: Option<string>)

  /**
   * `loadDataset()` from state `s`, with `reply` the answer `getDataset(id)` would give.
   * Nothing in `loadDataset` clears an earlier error.
   */
  function Load(s: DetailState, id: Option<string>, contractPresent: bool, reply: Result<DatasetTuple>): (r: DetailState)
    ensures !r.loading
    ensures r.dataset != s.dataset ==> Fetches(id, contractPresent) && reply.Ok? && Found(reply.value) && r.dataset == Some(reply.value)
    ensures Fetches(id, contractPresent) && reply.Ok? && Found(reply.value) ==> r.dataset == Some(reply.value) && r.error == s.error
    ensures !(Fetches(id, contractPresent) && reply.Ok? && Found(reply.value)) ==> r.dataset == s.dataset && r.error.Some?
    ensures InvalidId(id) ==> r.error == Some(InvalidIdMessage)
    ensures !InvalidId(id) && !contractPresent ==> r.error == Some(NoContractMessage)
    ensures Fetches(id, contractPresent) && reply.Err? ==> r.error == Some(MessageOr(reply.message, LoadFailedMessage))
    ensures Fetches(id, contractPresent) && reply.Ok? && !Found(reply.value) ==> r.error == Some(NotFoundMessage)
  {
    if InvalidId(id) then s.(error := Some(InvalidIdMessage), loading := false)
    else if !contractPresent then s.(error := Some(NoContractMessage), loading := false)
    else
      match reply
      case Err(m) => s.(error := Some(MessageOr(m, LoadFailedMessage)), loading := false)
      case Ok(d) =>
        if Found(d) then s.(dataset := Some(d), loading := false)
        else s.(error := Some(NotFoundMessage), loading := false)
  }

  /**
   * Without a valid id or a contract the outcome does not depend on the ledger's answer: no
   * read happens. The page reports the first failing check and keeps its dataset.
   */
  lemma NoFetchWithoutValidIdAndContract(s: DetailState, id: Option<string>, contractPresent: bool,
                                         reply1: Result<DatasetTuple>, reply2: Result<DatasetTuple>)
    requires !Fetches(id, contractPresent)
    ensures Load(s, id, contractPresent, reply1) == Load(s, id, contractPresent, reply2)
    ensures Load(s, id, contractPresent, reply1).dataset == s.dataset
    ensures Load(s, id, contractPresent, reply1).error ==
            Some(if InvalidId(id) then InvalidIdMessage else NoContractMessage)
  {
  }

  /** The load finds a dataset: valid id, a contract, and an existing dataset in the reply. */
  predicate Succeeds(id: Option<string>, contractPresent: bool, reply: Result<DatasetTuple>) {
    Fetches(id, contractPresent) && reply.Ok? && Found(reply.value)
  }

  /**
   * A load always ends with loading off. It stores the dataset, touching nothing else, exactly
   * when it succeeds; otherwise it sets an error and keeps the dataset it had.
   */
  lemma LoadOutcome(s: DetailState, id: Option<string>, contractPresent: bool, reply: Result<DatasetTuple>)
    ensures Succeeds(id, contractPresent, reply) ==>
            Load(s, id, contractPresent, reply) == s.(dataset := Some(reply.value), loading := false)
    ensures !Succeeds(id, contractPresent, reply) ==>
            var t := Load(s, id, contractPresent, reply);
            t.dataset == s.dataset && t.error.Some? && !t.loading
  {
  }

  /** A ledger failure shows the error's own message, or the fallback when it has none. */
  lemma FetchFailureMessage(s: DetailState, id: Option<string>, contractPresent: bool, m: string)
    requires Fetches(id, contractPresent)
    ensures Load(s, id, contractPresent, Err(m)).error == Some(if m == "" then LoadFailedMessage else m)
  {
  }

  /** Digits, signs and the decimal point are not whitespace. */
  predicate NumberChar(c: char) {
    IsDigit(c) || c == '+' || c == '-' || c == '.'
  }

  /** Trimming leaves a string that starts and ends with number characters unchanged. */
  lemma TrimOfNumberChars(s: string)
    requires |s| > 0 && NumberChar(s[0]) && NumberChar(s[|s| - 1])
    ensures Trim(s) == s
  {
    assert !IsWhitespace(s[0]) && !IsWhitespace(s[|s| - 1]);
  }

  /** `k` zeros in a row. */
  function ZeroRun(k: nat): (z: string)
    ensures |z| == k && forall c <- z :: c == '0'
  {
    seq(k, _ => '0')
  }

  /**
   * The zero spellings of an id are refused before any read: no id, the empty id, and any run
   * of zeros, signed or not.
   */
  lemma ZeroIdsRejected(k: nat)
    requires k > 0
    ensures InvalidId(None) && InvalidId(Some(""))
    ensures InvalidId(Some(ZeroRun(k)))
    ensures InvalidId(Some("-" + ZeroRun(k))) && InvalidId(Some("+" + ZeroRun(k)))
  {
    var z := ZeroRun(k);
    assert ZeroDecimal(z) by {
      assert z[0] in z;
    }
    assert NumberIsZero(z) by {
      TrimOfNumberChars(z);
    }
    assert NumberIsZero("-" + z) by {
      TrimOfNumberChars("-" + z);
      assert ("-" + z)[1..] == z;
    }
    assert NumberIsZero("+" + z) by {
      TrimOfNumberChars("+" + z);
      assert ("+" + z)[1..] == z;
    }
  }

  /** A zero with a decimal point is refused too. */
  lemma DecimalZeroRejected()
    ensures InvalidId(Some("0.0"))
  {
    TrimOfNumberChars("0.0");
    assert ZeroDecimal("0.0");
  }

  /** Spaces around a zero do not make it a valid id. */
  lemma PaddedZeroRejected()
    ensures InvalidId(Some(" 0 "))
  {
    assert TrimStart(" 0 ") == "0 " by {
      TrimStartOfNonSpace("0 ");
    }
    assert TrimEnd("0 ") == "0" by {
      assert TrimEnd("0") == "0";
    }
    assert ZeroDecimal("0");
  }

  /** A decimal numeral has no surrounding whitespace to trim. */
  lemma NumeralTrimmed(n: nat)
    ensures Trim(NatToString(n)) == NatToString(n)
  {
    var s := NatToString(n);
    assert s[0] in s && s[|s| - 1] in s;
    TrimOfNumberChars(s);
  }

  /** The numeral of a positive number starts with a digit other than zero. */
  lemma PositiveNumeralLeads(n: nat)
    requires n > 0
    ensures var s := NatToString(n); IsDigit(s[0]) && s[0] != '0' && !ZeroDecimal(s)
  {
    var s := NatToString(n);
    assert s[0] in s;
  }

  /** Every positive id written in decimal, as the pages link to it, passes the check. */
  lemma PositiveIdsAccepted(n: nat)
    requires n > 0
    ensures !InvalidId(Some(NatToString(n)))
  {
    NumeralTrimmed(n);
    PositiveNumeralLeads(n);
  }

  /**
   * An error set by an earlier load survives a later load that finds the dataset: after the
   * wallet connects, the dataset is stored but the page, which shows an error first, still
   * reports the missing contract.
   */
  lemma ErrorOutlivesSuccessfulLoad(id: Option<string>, d: DatasetTuple)
    requires !InvalidId(id) && Found(d)
    ensures var first := Load(DetailState(None, true, None), id, false, Ok(d));
            var second := Load(first, id, true, Ok(d));
            second.dataset == Some(d) && second.error == Some(NoContractMessage)
  {
  }

  /** The page's state. */
  class DatasetDetailPage {
    var dataset: Option<DatasetTuple>
    var loading: bool
    var error: Option<string>

    function State(): DetailState
      reads this
    {
      DetailState(dataset, loading, error)
    }

    /** The page mounts with no dataset and no error, loading. */
    constructor()
      ensures State() == DetailState(None, true, None)
    {
      dataset := None;
      loading := true;
      error := None;
    }

    /**
     * `loadDataset()` for the route parameter `id`: `reply` is what `getDataset(id)` answers,
     * read only when `fetched` is true.
     */
    method LoadDataset(id: Option<string>, contractPresent: bool, reply: Result<DatasetTuple>)
      returns (fetched: bool)
      modifies this
      ensures fetched == Fetches(id, contractPresent)
      ensures State() == Load(old(State()), id, contractPresent, reply)
    {
      if id.None? || id.value == "" || id.value == "0" || NumberIsZero(id.value) {
        error := Some(InvalidIdMessage);
        loading := false;
        return false;
      }
      if !contractPresent {
        error := Some(NoContractMessage);
        loading := false;
        return false;
      }
      loading := true;
      fetched := true;
      match reply {
        case Err(m) =>
          error := Some(MessageOr(m, LoadFailedMessage));
        case Ok(d) =>
          if d.owner == ZeroAddress || d.name == "" {
            error := Some(NotFoundMessage);
            loading := false;
            return;
          }
          dataset := Some(d);
      }
      loading := false;
    }
  }
}
