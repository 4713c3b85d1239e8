/**
 * The marketplace page: the list of active datasets read through the public node, and the
 * search box that narrows it to the datasets whose name or description mentions the term.
 */
module Marketplace {
  import opened Wrappers
  import opened JsText
  import opened Ledger

  /**
   * The search test of `filteredDatasets`: the lower-cased name or the lower-cased
   * description contains the lower-cased term.
   */
  predicate Matches(d: DatasetTuple, term: string) {
    Contains(ToLower(d.name), ToLower(term)) || Contains(ToLower(d.description), ToLower(term))
  }

  /** `datasets.filter(...)`: the matching datasets, in their order. */
  function Filtered(datasets: seq<DatasetTuple>, term: string): (r: seq<DatasetTuple>)
    ensures |r| <= |datasets|
    ensures forall d <- r :: d in datasets && Matches(d, term)
  {
    if |datasets| == 0 then []
    else Filtered(datasets[..|datasets| - 1], term) +
         (if Matches(datasets[|datasets| - 1], term) then [datasets[|datasets| - 1]] else [])
  }

  /** A dataset is shown exactly when it is loaded and matches the term. */
  lemma {:induction false} FilteredIff(datasets: seq<DatasetTuple>, term: string, d: DatasetTuple)
    ensures d in Filtered(datasets, term) <==> d in datasets && Matches(d, term)
  {
    if |datasets| > 0 {
      var init, last := datasets[..|datasets| - 1], datasets[|datasets| - 1];
      FilteredIff(init, term, d);
      assert datasets == init + [last];
      if d in datasets && Matches(d, term) && d !in init {
        assert d == last;
      }
    }
  }

  /** Filtering the concatenation of two lists filters each in turn: the order is kept. */
  lemma {:induction false} FilteredAppend(a: seq<DatasetTuple>, b: seq<DatasetTuple>, term: string)
    ensures Filtered(a + b, term) == Filtered(a, term) + Filtered(b, term)
  {
    if |b| > 0 {
      var init := b[..|b| - 1];
      FilteredAppend(a, init, term);
      assert (a + b)[..|a + b| - 1] == a + init;
    } else {
      assert a + b == a;
    }
  }

  /** Every string contains the empty string. */
  lemma ContainsEmpty(s: string)
    ensures Contains(s, "")
  {
    assert StartsWith(s, "");
  }

  /** An empty search box shows every loaded dataset, unchanged and in order. */
  lemma {:induction false} EmptyTermKeepsAll(datasets: seq<DatasetTuple>)
    ensures Filtered(datasets, "") == datasets
  {
    if |datasets| > 0 {
      var init := datasets[..|datasets| - 1];
      EmptyTermKeepsAll(init);
      ContainsEmpty(ToLower(datasets[|datasets| - 1].name));
      assert datasets == init + [datasets[|datasets| - 1]];
    }
  }

  /** Searching the shown list again for the same term changes nothing. */
  lemma {:induction false} FilteredIdempotent(datasets: seq<DatasetTuple>, term: string)
    ensures Filtered(Filtered(datasets, term), term) == Filtered(datasets, term)
  {
    if |datasets| > 0 {
      var init, last := datasets[..|datasets| - 1], datasets[|datasets| - 1];
      FilteredIdempotent(init, term);
      FilteredAppend(Filtered(init, term), if Matches(last, term) then [last] else [], term);
      if Matches(last, term) {
        assert Filtered([last], term) == Filtered([], term) + [last] by {
          assert [last][..0] == [];
        }
      }
    }
  }

  /** The page's state. */
  class MarketplacePage {
    var datasets: seq<DatasetTuple>
    var loading: bool
    var searchTerm: string

    /** The page mounts with no datasets, loading, and an empty search box. */
    constructor()
      ensures datasets == [] && loading && searchTerm == ""
    {
      datasets := [];
      loading := true;
      searchTerm := "";
    }

    /** `setSearchTerm(term)` from the search box. */
    method SetSearchTerm(term: string)
      modifies this
      ensures searchTerm == term
      ensures datasets == old(datasets) && loading == old(loading)
    {
      searchTerm := term;
    }

    /** The datasets on screen. */
    function FilteredDatasets(): (r: seq<DatasetTuple>)
      reads this
    {
      Filtered(datasets, searchTerm)
    }

    /**
     * `loadDatasets()`: without a contract nothing is read and the list stays. Otherwise the
     * active ids (`activeIds`) and then each dataset (`replies`) are read; the list becomes the
     * datasets that could be read, in id order, or empty when the id list itself cannot be read.
     * Loading ends in every case.
     */
    method LoadDatasets(contractPresent: bool, activeIds: Result<seq<nat>>, replies: nat -> Result<DatasetTuple>)
      returns (readLedger: bool)
      modifies this
      ensures !loading && searchTerm == old(searchTerm)
      ensures readLedger == contractPresent
      ensures !readLedger ==> datasets == old(datasets)
      ensures readLedger && activeIds.Err? ==> datasets == []
      ensures readLedger && activeIds.Ok? ==> datasets == ReadDatasets(activeIds.value, replies)
    {
      if !contractPresent {
        loading := false;
        return false;
      }
      loading := true;
      if activeIds.Err? {
        datasets := [];
        loading := false;
        return true;
      }
      var ids := activeIds.value;
      var loaded: seq<DatasetTuple> := [];
      var i := 0;
      while i < |ids|
        invariant 0 <= i <= |ids|
        invariant loaded == ReadDatasets(ids[..i], replies)
      {
        var reply := replies(ids[i]);
        if reply.Ok? {
          loaded := loaded + [reply.value];
        }
        assert ids[..i + 1][..i] == ids[..i];
        i := i + 1;
      }
      assert ids[..|ids|] == ids;
      datasets := loaded;
      loading := false;
      return true;
    }
  }
}
