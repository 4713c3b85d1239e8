/**
 * `MyQueries.jsx`: the buyer's query history. For every active dataset it reads the query ids
 * from 1 to the dataset's query count, keeps the queries whose buyer is the connected account
 * (ignoring case), labels them with that dataset's name and lists them newest first. Failing
 * reads are skipped; a failure of the dataset list empties the page.
 */
module MyQueries {
  import opened Wrappers
  import opened JsText
  import opened Ledger
  import Config

  /** A row of the history, as the page builds it from a `getQuery` tuple and a dataset name. */
  datatype QueryEntry = QueryEntry(
    id: nat, datasetId: nat, datasetName: string, buyer: string, queryType: nat,
    parameter: nat, result: nat, paidAmount: nat, timestamp: nat, status: nat)

  /**
   * The page's decode as written: the paid amount from slot 6, the timestamp from slot 7 and
   * the status from slot 8.
   */
  function DecodeAsWritten(t: QueryTuple, datasetName: string): (e: QueryEntry)
    ensures e.paidAmount == t.status && e.timestamp == t.price && e.status == t.timestamp
    ensures e.id == t.id && e.datasetId == t.datasetId && e.datasetName == datasetName && e.buyer == t.buyer &&
            e.queryType == t.queryType && e.parameter == t.parameter && e.result == t.result
  {
    QueryEntry(QuerySlot(t, 0), QuerySlot(t, 1), datasetName, t.buyer, QuerySlot(t, 3),
               QuerySlot(t, 4), QuerySlot(t, 5), QuerySlot(t, 6), QuerySlot(t, 7), QuerySlot(t, 8))
  }

  /** The decode the interface's output order calls for: status from slot 6, price from 7, timestamp from 8. */
  function Decode(t: QueryTuple, datasetName: string): (e: QueryEntry)
    ensures e.paidAmount == t.price && e.timestamp == t.timestamp && e.status == t.status
    ensures e.id == t.id && e.datasetId == t.datasetId && e.datasetName == datasetName && e.buyer == t.buyer &&
            e.queryType == t.queryType && e.parameter == t.parameter && e.result == t.result
  {
    QueryEntry(QuerySlot(t, 0), QuerySlot(t, 1), datasetName, t.buyer, QuerySlot(t, 3),
               QuerySlot(t, 4), QuerySlot(t, 5), QuerySlot(t, 7), QuerySlot(t, 8), QuerySlot(t, 6))
  }

  /** `StatusBadge`'s table: the label of each status code. */
  const BadgeTexts: map<nat, string> :=
    map[0 := "Pending", 1 := "Processing", 2 := "Completed", 3 := "Failed", 4 := "Refunded"]

  /** `StatusBadge`: the label of the code, or the `Pending` entry for any other code. */
  function StatusBadge(status: nat): string {
    if status in BadgeTexts then BadgeTexts[status] else BadgeTexts[StatusPending]
  }

  /** The badge shows the configured name of every status code and `Pending` for any other number. */
  lemma StatusBadgeFallsBack(status: nat)
    ensures status in Config.QueryStatusNames ==> StatusBadge(status) == Config.QueryStatusNames[status]
    ensures status !in Config.QueryStatusNames ==> StatusBadge(status) == "Pending"
    ensures status in Config.QueryStatusNames <==> status <= StatusRefunded
  {
    Config.QueryStatusTablesAgree();
  }

  /**
   * Each field of the corrected decode is the tuple's field of that name; the decode as written
   * puts the timestamp in the status, the price in the timestamp and the status in the amount.
   * A completed query whose timestamp is not 2 is therefore shown without its result, and with
   * a timestamp past 4 under the `Pending` badge.
   */
  lemma DecodeAsWrittenShiftsFields(t: QueryTuple, name: string)
    ensures var e := Decode(t, name);
            e.id == t.id && e.datasetId == t.datasetId && e.buyer == t.buyer && e.queryType == t.queryType &&
            e.parameter == t.parameter && e.result == t.result &&
            e.status == t.status && e.paidAmount == t.price && e.timestamp == t.timestamp
    ensures var w := DecodeAsWritten(t, name);
            w.status == t.timestamp && w.timestamp == t.price && w.paidAmount == t.status &&
            w == Decode(t, name).(status := t.timestamp, timestamp := t.price, paidAmount := t.status)
    ensures t.status == StatusCompleted && t.timestamp != StatusCompleted ==>
              Decode(t, name).status == StatusCompleted && DecodeAsWritten(t, name).status != StatusCompleted
    ensures t.status == StatusCompleted && t.timestamp > StatusRefunded ==>
              StatusBadge(Decode(t, name).status) == "Completed" && StatusBadge(DecodeAsWritten(t, name).status) == "Pending"
  {
  }

  /** A completed query bought at 0.001 ether at time 1700000000, with result 42. */
  const CompletedQuery: QueryTuple := QueryTuple(1, 1, "0xBuyer", 0, 0, 42, StatusCompleted, 1000000000000000, 1700000000)

  /** As written that query is listed as `Pending`, without its result, and sorted by its price. */
  lemma CompletedQueryShownPending()
    ensures StatusBadge(DecodeAsWritten(CompletedQuery, "A").status) == "Pending"
    ensures DecodeAsWritten(CompletedQuery, "A").timestamp == 1000000000000000
    ensures StatusBadge(Decode(CompletedQuery, "A").status) == "Completed"
    ensures Decode(CompletedQuery, "A").timestamp == 1700000000
  {
    DecodeAsWrittenShiftsFields(CompletedQuery, "A");
  }

  /** The tuple's buyer is the connected account, ignoring case. */
  predicate Mine(account: string, t: QueryTuple) {
    ToLower(t.buyer) == ToLower(account)
  }

  /** The row's buyer is the connected account, ignoring case. */
  predicate Bought(account: string, e: QueryEntry) {
    ToLower(e.buyer) == ToLower(account)
  }

  /**
   * The rows one dataset contributes: query ids 1 to `n` in order, each read and kept when it
   * is the account's, labelled with the dataset's name; a failing read is skipped.
   */
  function DatasetQueries(name: string, queryReads: nat -> QueryRead, account: string, n: nat): (rows: seq<QueryEntry>)
    ensures |rows| <= n
    ensures forall e <- rows :: Bought(account, e) && e.datasetName == name
  {
    if n == 0 then []
    else DatasetQueries(name, queryReads, account, n - 1) +
         (if queryReads(n).QueryRow? && Mine(account, queryReads(n).tuple) then [Decode(queryReads(n).tuple, name)] else [])
  }

  /** The rows of one active dataset: none when its `getDataset` fails. */
  function FromDataset(read: Result<DatasetTuple>, queryReads: nat -> QueryRead, account: string): seq<QueryEntry> {
    match read
    case Err(_) => []
    case Ok(d) => DatasetQueries(d.name, queryReads, account, d.totalQueries)
  }

  /** The rows of the active datasets `ids`, dataset by dataset, before sorting. */
  function Collected(ids: seq<nat>, datasets: nat -> Result<DatasetTuple>, queryReads: nat -> QueryRead,
                     account: string): seq<QueryEntry>
  {
    if |ids| == 0 then []
    else Collected(ids[..|ids| - 1], datasets, queryReads, account) + FromDataset(datasets(ids[|ids| - 1]), queryReads, account)
  }

  /**
   * A dataset's rows are exactly the account's queries among ids 1 to `n` that could be read,
   * each decoded and labelled with the dataset's name.
   */
  lemma {:induction false} DatasetQueriesIff(name: string, queryReads: nat -> QueryRead, account: string, n: nat, e: QueryEntry)
    ensures e in DatasetQueries(name, queryReads, account, n) <==>
            exists q :: 1 <= q <= n && queryReads(q).QueryRow? && Mine(account, queryReads(q).tuple) && e == Decode(queryReads(q).tuple, name)
  {
    if n > 0 {
      DatasetQueriesIff(name, queryReads, account, n - 1, e);
      if e in DatasetQueries(name, queryReads, account, n) && e !in DatasetQueries(name, queryReads, account, n - 1) {
        assert queryReads(n).QueryRow? && Mine(account, queryReads(n).tuple) && e == Decode(queryReads(n).tuple, name);
      }
    }
  }

  /** `e` is a row of the dataset at position `i` of `ids`, which could be read. */
  predicate RowOf(ids: seq<nat>, datasets: nat -> Result<DatasetTuple>, queryReads: nat -> QueryRead,
                  account: string, e: QueryEntry, i: nat)
  {
    i < |ids| && datasets(ids[i]).Ok? && e in FromDataset(datasets(ids[i]), queryReads, account)
  }

  /** Dropping the last active id drops exactly that dataset's rows from the end. */
  lemma CollectedStep(ids: seq<nat>, datasets: nat -> Result<DatasetTuple>, queryReads: nat -> QueryRead, account: string)
    requires |ids| > 0
    ensures Collected(ids, datasets, queryReads, account) ==
            Collected(ids[..|ids| - 1], datasets, queryReads, account) + FromDataset(datasets(ids[|ids| - 1]), queryReads, account)
  {
  }

  /**
   * Every row the page lists is a row of some active dataset whose `getDataset` succeeded,
   * and is therefore the account's.
   */
  lemma {:induction false} CollectedSound(ids: seq<nat>, datasets: nat -> Result<DatasetTuple>, queryReads: nat -> QueryRead,
                                          account: string, e: QueryEntry)
    requires e in Collected(ids, datasets, queryReads, account)
    ensures exists i: nat :: RowOf(ids, datasets, queryReads, account, e, i)
    ensures Bought(account, e)
  {
    var init, last := ids[..|ids| - 1], |ids| - 1;
    CollectedStep(ids, datasets, queryReads, account);
    if e in Collected(init, datasets, queryReads, account) {
      CollectedSound(init, datasets, queryReads, account, e);
      var i: nat :| RowOf(init, datasets, queryReads, account, e, i);
      assert init[i] == ids[i];
      assert RowOf(ids, datasets, queryReads, account, e, i);
    } else {
      assert RowOf(ids, datasets, queryReads, account, e, last);
    }
  }

  /**
   * Every row of every active dataset whose `getDataset` succeeded is listed: a failing
   * dataset does not stop the others from being read.
   */
  lemma {:induction false} CollectedComplete(ids: seq<nat>, datasets: nat -> Result<DatasetTuple>, queryReads: nat -> QueryRead,
                                             account: string, e: QueryEntry, i: nat)
    requires RowOf(ids, datasets, queryReads, account, e, i)
    ensures e in Collected(ids, datasets, queryReads, account)
  {
    var init, last := ids[..|ids| - 1], |ids| - 1;
    CollectedStep(ids, datasets, queryReads, account);
    if i < last {
      assert init[i] == ids[i];
      CollectedComplete(init, datasets, queryReads, account, e, i);
    }
  }

  /**
   * Query ids are read per dataset without regard to the query's own dataset: two datasets
   * with one query each list the account's query 1 twice, once under each dataset's name, and
   * never read query 2.
   */
  lemma QueryListedUnderEveryDataset(account: string, t: QueryTuple)
    requires t.buyer == account
    ensures var datasets := (d: nat) => Ok(DatasetTuple(d, "0xOwner", if d == 1 then "A" else "B", "", 1, 1, 1, 0, 0, true));
            var queryReads := (q: nat) => QueryRow(t.(id := q));
            Collected([1, 2], datasets, queryReads, account) == [Decode(t.(id := 1), "A"), Decode(t.(id := 1), "B")]
  {
    var datasets := (d: nat) => Ok(DatasetTuple(d, "0xOwner", if d == 1 then "A" else "B", "", 1, 1, 1, 0, 0, true));
    var queryReads := (q: nat) => QueryRow(t.(id := q));
    assert Mine(account, t.(id := 1));
    assert DatasetQueries("A", queryReads, account, 1) == [Decode(t.(id := 1), "A")] by {
      assert DatasetQueries("A", queryReads, account, 0) == [];
    }
    assert DatasetQueries("B", queryReads, account, 1) == [Decode(t.(id := 1), "B")] by {
      assert DatasetQueries("B", queryReads, account, 0) == [];
    }
    assert datasets(1).value.name == "A" && datasets(1).value.totalQueries == 1;
    assert datasets(2).value.name == "B" && datasets(2).value.totalQueries == 1;
    assert [1, 2][..1] == [1] && [1, 2][1] == 2;
    assert [1][..0] == [] && [1][0] == 1;
    assert Collected([1], datasets, queryReads, account) == [Decode(t.(id := 1), "A")];
  }

  /** Timestamps never increase from one row to the next. */
  predicate NewestFirst(rows: seq<QueryEntry>) {
    forall i :: 0 <= i < |rows| - 1 ==> rows[i].timestamp >= rows[i + 1].timestamp
  }

  /** In a list that is newest first, every row is at least as recent as every later row. */
  lemma {:induction false} NewestFirstPairwise(rows: seq<QueryEntry>)
    requires NewestFirst(rows)
    ensures forall i, j :: 0 <= i < j < |rows| ==> rows[i].timestamp >= rows[j].timestamp
  {
    if |rows| > 1 {
      NewestFirstPairwise(rows[1..]);
      forall i, j | 0 <= i < j < |rows|
        ensures rows[i].timestamp >= rows[j].timestamp
      {
        if i > 0 {
          assert rows[i] == rows[1..][i - 1] && rows[j] == rows[1..][j - 1];
        } else if j > 1 {
          assert rows[1] == rows[1..][0] && rows[j] == rows[1..][j - 1];
        }
      }
    }
  }

  /** `x` inserted after every row at least as recent, so that equal timestamps keep their order. */
  function InsertByTime(rows: seq<QueryEntry>, x: QueryEntry): (r: seq<QueryEntry>)
    requires NewestFirst(rows)
    ensures NewestFirst(r)
    ensures multiset(r) == multiset(rows) + multiset{x}
    ensures |r| == |rows| + 1 && (r[0] == x || (|rows| > 0 && r[0] == rows[0]))
  {
    if |rows| == 0 then [x]
    else if rows[0].timestamp < x.timestamp then [x] + rows
    else
      var rest := InsertByTime(rows[1..], x);
      assert rows == [rows[0]] + rows[1..];
      [rows[0]] + rest
  }

  /**
   * `allQueries.sort((a, b) => b.timestamp - a.timestamp)`: the same rows, newest first (the
   * sort is stable, so it is an insertion sort from the front).
   */
  function SortNewestFirst(rows: seq<QueryEntry>): (r: seq<QueryEntry>)
    ensures NewestFirst(r)
    ensures multiset(r) == multiset(rows)
  {
    if |rows| == 0 then []
    else
      assert rows == rows[..|rows| - 1] + [rows[|rows| - 1]];
      InsertByTime(SortNewestFirst(rows[..|rows| - 1]), rows[|rows| - 1])
  }

  /** The inner loop of `loadMyQueries`: query ids 1 to `n`, the account's kept in order. */
  method ReadDatasetQueries(name: string, n: nat, account: string, queryReads: nat -> QueryRead)
    returns (rows: seq<QueryEntry>)
    ensures rows == DatasetQueries(name, queryReads, account, n)
  {
    rows := [];
    var q := 1;
    while q <= n
      invariant 1 <= q <= n + 1
      invariant rows == DatasetQueries(name, queryReads, account, q - 1)
    {
      var read := queryReads(q);
      if read.QueryRow? && Mine(account, read.tuple) {
        rows := rows + [Decode(read.tuple, name)];
      }
      q := q + 1;
    }
  }

  /** The page's state. */
  class MyQueriesPage {
    var queries: seq<QueryEntry>
    var loading: bool

    /** The page mounts with no rows, loading. */
    constructor()
      ensures queries == [] && loading
    {
      queries := [];
      loading := true;
    }

    /**
     * `loadMyQueries()`: without a contract or an account nothing is read and the rows stay.
     * Otherwise the active dataset ids (`activeIds`), each dataset (`datasets`) and each query
     * id (`queryReads`) are read through the public node; the account's rows are listed newest first,
     * and a failure of the id list empties the page. Loading ends in every case.
     */
    method LoadMyQueries(contractPresent: bool, account: string, activeIds: Result<seq<nat>>,
                         datasets: nat -> Result<DatasetTuple>, queryReads: nat -> QueryRead)
      returns (readLedger: bool)
      modifies this
      ensures !loading
      ensures readLedger == (contractPresent && account != "")
      ensures !readLedger ==> queries == old(queries)
      ensures readLedger && activeIds.Err? ==> queries == []
      ensures readLedger && activeIds.Ok? ==> queries == SortNewestFirst(Collected(activeIds.value, datasets, queryReads, account))
    {
      if !contractPresent || account == "" {
        loading := false;
        return false;
      }
      loading := true;
      if activeIds.Err? {
        queries := [];
        loading := false;
        return true;
      }
      var ids := activeIds.value;
      var all: seq<QueryEntry> := [];
      var i := 0;
      while i < |ids|
        invariant 0 <= i <= |ids|
        invariant all == Collected(ids[..i], datasets, queryReads, account)
      {
        var read := datasets(ids[i]);
        if read.Ok? && read.value.totalQueries != 0 {
          var rows := ReadDatasetQueries(read.value.name, read.value.totalQueries, account, queryReads);
          all := all + rows;
        }
        assert read.Ok? && read.value.totalQueries == 0 ==> FromDataset(read, queryReads, account) == [];
        assert ids[..i + 1][..i] == ids[..i];
        i := i + 1;
      }
      assert ids[..|ids|] == ids;
      queries := SortNewestFirst(all);
      loading := false;
      return true;
    }
  }
}
