/**
 * The seller dashboard: the connected account's active datasets and the totals over them
 * (number of datasets, queries sold, revenue earned).
 */
module Dashboard {
  import opened Wrappers
  import opened JsText
  import opened Ledger

  /** The figures the dashboard shows. */
  datatype Stats = Stats(totalDatasets: nat, totalQueries: nat, totalRevenue: nat)

  /** What a failed load shows: all three totals zero. */
  const ZeroStats := Stats(0, 0, 0)

  /** The dataset's owner is the connected account, ignoring case. */
  predicate Owns(account: string, d: DatasetTuple) {
    ToLower(d.owner) == ToLower(account)
  }

  /** The account's datasets among `datasets`, in their order. */
  function Owned(account: string, datasets: seq<DatasetTuple>): (r: seq<DatasetTuple>)
    ensures |r| <= |datasets|
  {
    if |datasets| == 0 then []
    else Owned(account, datasets[..|datasets| - 1]) +
         (if Owns(account, datasets[|datasets| - 1]) then [datasets[|datasets| - 1]] else [])
  }

  /** The queries sold over `datasets`. */
  function SumQueries(datasets: seq<DatasetTuple>): nat {
    if |datasets| == 0 then 0 else SumQueries(datasets[..|datasets| - 1]) + datasets[|datasets| - 1].totalQueries
  }

  /** The revenue earned over `datasets`. */
  function SumRevenue(datasets: seq<DatasetTuple>): nat {
    if |datasets| == 0 then 0 else SumRevenue(datasets[..|datasets| - 1]) + datasets[|datasets| - 1].totalRevenue
  }

  /** A dataset is listed exactly when it could be read and the account owns it. */
  lemma {:induction false} OwnedIff(account: string, datasets: seq<DatasetTuple>, d: DatasetTuple)
    ensures d in Owned(account, datasets) <==> d in datasets && Owns(account, d)
  {
    if |datasets| > 0 {
      var init, last := datasets[..|datasets| - 1], datasets[|datasets| - 1];
      OwnedIff(account, init, d);
      assert datasets == init + [last];
      if d in datasets && Owns(account, d) && d !in init {
        assert d == last;
      }
    }
  }

  /** The datasets the account does not own. */
  function Others(account: string, datasets: seq<DatasetTuple>): seq<DatasetTuple> {
    if |datasets| == 0 then []
    else Others(account, datasets[..|datasets| - 1]) +
         (if Owns(account, datasets[|datasets| - 1]) then [] else [datasets[|datasets| - 1]])
  }

  /** Sums over a concatenation add up. */
  lemma {:induction false} SumsAppend(a: seq<DatasetTuple>, b: seq<DatasetTuple>)
    ensures SumQueries(a + b) == SumQueries(a) + SumQueries(b)
    ensures SumRevenue(a + b) == SumRevenue(a) + SumRevenue(b)
  {
    if |b| > 0 {
      SumsAppend(a, b[..|b| - 1]);
      assert (a + b)[..|a + b| - 1] == a + b[..|b| - 1];
    } else {
      assert a + b == a;
    }
  }

  lemma SumsOfOne(d: DatasetTuple)
    ensures SumQueries([d]) == d.totalQueries && SumRevenue([d]) == d.totalRevenue
  {
    assert [d][..0] == [];
  }

  /** Appending a dataset adds its queries and revenue to the totals. */
  lemma SumsSnoc(datasets: seq<DatasetTuple>, d: DatasetTuple)
    ensures SumQueries(datasets + [d]) == SumQueries(datasets) + d.totalQueries
    ensures SumRevenue(datasets + [d]) == SumRevenue(datasets) + d.totalRevenue
  {
    assert (datasets + [d])[..|datasets|] == datasets;
  }

  /** Appending one read reply to the replies read so far appends it to the account's list when it is theirs. */
  lemma OwnedSnoc(account: string, datasets: seq<DatasetTuple>, d: DatasetTuple)
    ensures Owned(account, datasets + [d]) == Owned(account, datasets) + (if Owns(account, d) then [d] else [])
  {
    assert (datasets + [d])[..|datasets|] == datasets;
  }

  /**
   * The dashboard's list, read id by id: the reply for each active id when it could be read
   * and the account owns the dataset.
   */
  function MyDatasets(account: string, ids: seq<nat>, replies: nat -> Result<DatasetTuple>): (mine: seq<DatasetTuple>)
    ensures |mine| <= |ids|
    ensures forall d :: d in mine ==> Owns(account, d) && exists i :: 0 <= i < |ids| && replies(ids[i]) == Ok(d)
  {
    if |ids| == 0 then []
    else MyDatasets(account, ids[..|ids| - 1], replies) +
         (var reply := replies(ids[|ids| - 1]);
          if reply.Ok? && Owns(account, reply.value) then [reply.value] else [])
  }

  /**
   * Reading and filtering in one pass gives the same list as first keeping the datasets that
   * could be read and then keeping the account's among them.
   */
  lemma {:induction false} MyDatasetsIsOwnedRead(account: string, ids: seq<nat>, replies: nat -> Result<DatasetTuple>)
    ensures MyDatasets(account, ids, replies) == Owned(account, ReadDatasets(ids, replies))
  {
    if |ids| > 0 {
      var init := ids[..|ids| - 1];
      var reply := replies(ids[|ids| - 1]);
      MyDatasetsIsOwnedRead(account, init, replies);
      if reply.Ok? {
        OwnedSnoc(account, ReadDatasets(init, replies), reply.value);
      } else {
        assert ReadDatasets(ids, replies) == ReadDatasets(init, replies) + [] == ReadDatasets(init, replies);
      }
    }
  }

  /**
   * The account's totals and everyone else's add up to the totals of every dataset read:
   * the dashboard neither loses nor double-counts a dataset's queries or revenue.
   */
  lemma {:induction false} TotalsSplit(account: string, datasets: seq<DatasetTuple>)
    ensures SumQueries(Owned(account, datasets)) + SumQueries(Others(account, datasets)) == SumQueries(datasets)
    ensures SumRevenue(Owned(account, datasets)) + SumRevenue(Others(account, datasets)) == SumRevenue(datasets)
  {
    if |datasets| > 0 {
      var init, last := datasets[..|datasets| - 1], datasets[|datasets| - 1];
      TotalsSplit(account, init);
      SumsOfOne(last);
      if Owns(account, last) {
        assert Owned(account, datasets) == Owned(account, init) + [last];
        assert Others(account, datasets) == Others(account, init);
        SumsAppend(Owned(account, init), [last]);
      } else {
        assert Owned(account, datasets) == Owned(account, init);
        assert Others(account, datasets) == Others(account, init) + [last];
        SumsAppend(Others(account, init), [last]);
      }
    }
  }

  /** The totals of the account's datasets never exceed those of every dataset read. */
  lemma OwnedTotalsBounded(account: string, datasets: seq<DatasetTuple>)
    ensures SumQueries(Owned(account, datasets)) <= SumQueries(datasets)
    ensures SumRevenue(Owned(account, datasets)) <= SumRevenue(datasets)
  {
    TotalsSplit(account, datasets);
  }

  /**
   * The loop of `loadDashboard` over the active ids: the account's datasets among the replies
   * that could be read, in id order, with their queries and revenue added up along the way.
   */
  method CollectMine(account: string, ids: seq<nat>, replies: nat -> Result<DatasetTuple>)
    returns (mine: seq<DatasetTuple>, totalQueries: nat, totalRevenue: nat)
    ensures mine == MyDatasets(account, ids, replies)
    ensures totalQueries == SumQueries(mine) && totalRevenue == SumRevenue(mine)
  {
    mine, totalQueries, totalRevenue := [], 0, 0;
    var i := 0;
    while i < |ids|
      invariant 0 <= i <= |ids|
      invariant mine == MyDatasets(account, ids[..i], replies)
      invariant totalQueries == SumQueries(mine) && totalRevenue == SumRevenue(mine)
    {
      var reply := replies(ids[i]);
      assert ids[..i + 1][..i] == ids[..i];
      assert MyDatasets(account, ids[..i + 1], replies) ==
             MyDatasets(account, ids[..i], replies) + (if reply.Ok? && Owns(account, reply.value) then [reply.value] else []);
      if reply.Ok? && Owns(account, reply.value) {
        SumsSnoc(mine, reply.value);
        mine := mine + [reply.value];
        totalQueries := totalQueries + reply.value.totalQueries;
        totalRevenue := totalRevenue + reply.value.totalRevenue;
      }
      i := i + 1;
    }
    assert ids[..|ids|] == ids;
  }

  /** The page's state; `stats` is `null` until the first load settles. */
  class DashboardPage {
    var stats: Option<Stats>
    var myDatasets: seq<DatasetTuple>
    var loading: bool

    /** The page mounts with no figures, no datasets, loading. */
    constructor()
      ensures stats == None && myDatasets == [] && loading
    {
      stats := None;
      myDatasets := [];
      loading := true;
    }

    /**
     * `loadDashboard()`: without a contract or an account nothing is read and the page stays.
     * Otherwise the active ids (`activeIds`) and each dataset (`replies`) are read; the page lists
     * the account's datasets among those that could be read, in id order, and totals them. When
     * the id list cannot be read the totals are zero and the list empty. Loading ends in every case.
     */
    method LoadDashboard(contractPresent: bool, account: string, activeIds: Result<seq<nat>>,
                         replies: nat -> Result<DatasetTuple>)
      returns (readLedger: bool)
      modifies this
      ensures !loading
      ensures readLedger == (contractPresent && account != "")
      ensures !readLedger ==> stats == old(stats) && myDatasets == old(myDatasets)
      ensures readLedger && activeIds.Err? ==> stats == Some(ZeroStats) && myDatasets == []
      ensures readLedger && activeIds.Ok? ==>
                myDatasets == Owned(account, ReadDatasets(activeIds.value, replies)) &&
                stats == Some(Stats(|myDatasets|, SumQueries(myDatasets), SumRevenue(myDatasets)))
    {
      if !contractPresent || account == "" {
        loading := false;
        return false;
      }
      loading := true;
      if activeIds.Err? {
        stats := Some(ZeroStats);
        myDatasets := [];
        loading := false;
        return true;
      }
      var mine, totalQueries, totalRevenue := CollectMine(account, activeIds.value, replies);
      MyDatasetsIsOwnedRead(account, activeIds.value, replies);
      stats := Some(Stats(|mine|, totalQueries, totalRevenue));
      myDatasets := mine;
      loading := false;
      return true;
    }
  }
}
