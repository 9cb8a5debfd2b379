/** The record browser view: it reloads the stored records, shows those
    matching its search box newest first, lists the distinct collection
    labels, and flushes the whole store on a confirmed request. */
module MemoryBrowser {
  import opened Text
  import opened Json
  import opened Records

  /** The browser's test, written collection first:
      `r.collection.toLowerCase().includes(t) || JSON.stringify(r.data).toLowerCase().includes(t)`
      with `t` the lower-cased search term. */
  predicate Shown(r: Record, term: string)
    ensures Shown(r, term) <==> Matches(r, term)
  {
    Includes(Lower(r.collection), Lower(term)) || Includes(Lower(Quote(r.data)), Lower(term))
  }

  function Reverse(rs: seq<Record>): (r: seq<Record>)
    ensures |r| == |rs|
  {
    if rs == [] then [] else Reverse(rs[1..]) + [rs[0]]
  }

  /** Element `k` of the reversal is element `|rs| - 1 - k` of the input. */
  lemma {:induction false} ReverseAt(rs: seq<Record>, k: nat)
    requires k < |rs|
    ensures Reverse(rs)[k] == rs[|rs| - 1 - k]
  {
    if k < |rs| - 1 {
      ReverseAt(rs[1..], k);
    }
  }

  /** Reversing a concatenation swaps and reverses the parts. */
  lemma {:induction false} ReverseAppend(a: seq<Record>, b: seq<Record>)
    ensures Reverse(a + b) == Reverse(b) + Reverse(a)
  {
    if a == [] {
      assert a + b == b;
    } else {
      ReverseAppend(a[1..], b);
      assert (a + b)[1..] == a[1..] + b;
    }
  }

  /** `records.filter(...).reverse()`: the browser shows, in reverse,
      exactly what `db_find` returns for the same query over the same store. */
  function FilteredRecords(records: seq<Record>, term: string): (shown: seq<Record>)
    ensures shown == Reverse(Find(records, term))
  {
    FilterSameKeep(records, r => Shown(r, term), r => Matches(r, term));
    Reverse(Filter(records, r => Shown(r, term)))
  }

  /** A record is shown exactly when it is stored and matches the term, and
      the shown list is the matching records in reverse store order. */
  lemma FilteredSpec(records: seq<Record>, term: string)
    ensures var shown := FilteredRecords(records, term);
      && (forall r :: r in shown <==> r in records && Matches(r, term))
      && shown == Reverse(Find(records, term))
      && forall k :: 0 <= k < |shown| ==> shown[k] == Find(records, term)[|shown| - 1 - k]
  {
    ReverseSpec(Find(records, term));
  }

  /** The reversal holds the same records, element `k` being element
      `n-1-k` of the input. */
  lemma ReverseSpec(xs: seq<Record>)
    ensures forall k :: 0 <= k < |xs| ==> Reverse(xs)[k] == xs[|xs| - 1 - k]
    ensures forall r :: r in Reverse(xs) <==> r in xs
  {
    forall k | 0 <= k < |xs| ensures Reverse(xs)[k] == xs[|xs| - 1 - k] {
      ReverseAt(xs, k);
    }
    forall r ensures r in Reverse(xs) <==> r in xs {
      if r in xs {
        var k :| 0 <= k < |xs| && xs[k] == r;
        ReverseAt(xs, |xs| - 1 - k);
      }
    }
  }

  /** The newest record, if it matches, is shown first, above everything
      that was shown before it arrived. */
  lemma FilteredNewestFirst(records: seq<Record>, r: Record, term: string)
    ensures FilteredRecords(records + [r], term) ==
      (if Matches(r, term) then [r] else []) + FilteredRecords(records, term)
  {
    FindAppend(records, [r], term);
    FindSingle(r, term);
    ReverseAppend(Find(records, term), Find([r], term));
    assert Reverse([r]) == [r];
    assert Reverse([]) == [];
  }

  /** An empty search box shows the whole store, newest first. */
  lemma EmptySearchShowsAll(records: seq<Record>)
    ensures FilteredRecords(records, "") == Reverse(records)
  {
    FindEmptyQuery(records);
  }

  /** `records.map(r => r.collection)`: one label per record, in record
      order, and the labels are exactly the stored collections. */
  function Labels(records: seq<Record>): (labels: seq<string>)
    ensures |labels| == |records|
    ensures forall k :: 0 <= k < |records| ==> labels[k] == records[k].collection
    ensures forall name :: name in labels <==> exists r :: r in records && r.collection == name
    decreases |records|
  {
    if records == [] then []
    else
      var n := |records| - 1;
      assert records == records[..n] + [records[n]];
      Labels(records[..n]) + [records[n].collection]
  }

  /** The index of the first occurrence of `x`. */
  function FirstIndex(xs: seq<string>, x: string): (k: nat)
    requires x in xs
    ensures k < |xs| && xs[k] == x
    ensures forall j :: 0 <= j < k ==> xs[j] != x
    decreases |xs|
  {
    var n := |xs| - 1;
    if x in xs[..n] then FirstIndex(xs[..n], x) else n
  }

  /** `Array.from(new Set(xs))`: the distinct values, in order of first
      occurrence. */
  function Distinct(xs: seq<string>): (d: seq<string>)
    ensures forall x :: x in d <==> x in xs
    ensures forall i, j :: 0 <= i < j < |d| ==> d[i] != d[j]
    decreases |xs|
  {
    if xs == [] then []
    else
      var d := Distinct(xs[..|xs| - 1]);
      if xs[|xs| - 1] in d then d else d + [xs[|xs| - 1]]
  }

  /** `Distinct` lists the values in the order they first occur. */
  lemma {:induction false} DistinctSpec(xs: seq<string>)
    ensures forall i, j :: 0 <= i < j < |Distinct(xs)| ==>
      FirstIndex(xs, Distinct(xs)[i]) < FirstIndex(xs, Distinct(xs)[j])
    decreases |xs|
  {
    if xs != [] {
      var n := |xs| - 1;
      var init := xs[..n];
      DistinctSpec(init);
      assert xs == init + [xs[n]];
      var d0 := Distinct(init);
      forall y | y in init ensures FirstIndex(xs, y) == FirstIndex(init, y) {
        assert y in xs[..n];
      }
      if xs[n] !in d0 {
        assert FirstIndex(xs, xs[n]) == n;
        forall i | 0 <= i < |d0| ensures FirstIndex(xs, d0[i]) < n {
          assert d0[i] in init;
        }
      }
    }
  }

  /** The collection labels listed in the browser's side bar. */
  function Collections(records: seq<Record>): (c: seq<string>)
    ensures forall name :: name in c <==> exists r :: r in records && r.collection == name
    ensures forall i, j :: 0 <= i < j < |c| ==> c[i] != c[j]
  {
    Distinct(Labels(records))
  }

  /** Every stored record's collection is listed exactly once, in order of
      first occurrence, and nothing else is listed. */
  lemma CollectionsSpec(records: seq<Record>)
    ensures var c := Collections(records);
      && (forall name :: name in c <==> name in Labels(records))
      && (forall i, j :: 0 <= i < j < |c| ==>
            FirstIndex(Labels(records), c[i]) < FirstIndex(Labels(records), c[j]))
  {
    DistinctSpec(Labels(records));
    assert Collections(records) == Distinct(Labels(records));
  }

  /** The browser view's state beside the storage it reads. */
  class Browser {
    var records: seq<Record>
    var searchTerm: string
    const storage: Storage

    constructor (storage: Storage)
      ensures records == [] && searchTerm == "" && this.storage == storage
    {
      records := [];
      searchTerm := "";
      this.storage := storage;
    }

    /** `loadData`: the view takes the stored array; an absent key reads as
        the empty array. */
    method LoadData()
      modifies this`records
      ensures records == storage.Records()
      ensures StoreKey !in storage.items ==> records == []
    {
      records := storage.Records();
    }

    /** The search box's `onChange`. */
    method SetSearchTerm(term: string)
      modifies this`searchTerm
      ensures searchTerm == term
    {
      searchTerm := term;
    }

    /** `clearDB`: when the user confirms, the stored array and the view
        become empty; when the user declines, nothing changes. */
    method ClearDB(confirmed: bool)
      modifies this`records, storage
      ensures confirmed ==> storage.items == old(storage.items)[StoreKey := []] && records == []
      ensures confirmed ==> storage.Records() == []
      ensures !confirmed ==> storage.items == old(storage.items) && records == old(records)
    {
      if confirmed {
        storage.Save([]);
        records := [];
      }
    }

    /** The records the view lists. */
    function Displayed(): (shown: seq<Record>)
      reads this
      ensures shown == Reverse(Find(records, searchTerm))
    {
      FilteredRecords(records, searchTerm)
    }

    /** The labels the side bar lists. */
    function CollectionLabels(): (c: seq<string>)
      reads this
      ensures forall name :: name in c <==> exists r :: r in records && r.collection == name
      ensures forall i, j :: 0 <= i < j < |c| ==> c[i] != c[j]
    {
      Collections(records)
    }
  }
}
