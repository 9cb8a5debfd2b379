/** The record store: `DBRecord` values kept as one JSON array under the
    browser storage key `prism_db`, and the case-insensitive search both the
    chat tool and the record browser run over it. */
module Records {
  import opened Text
  import opened Json

  /** A stored record. `data` is the tool call's `document` argument, which
      the chat path always supplies as a string. */
  datatype Record = Record(id: string, collection: string, data: string, createdAt: nat)

  /** The storage key under which the store is kept. */
  const StoreKey := "prism_db"

  /** The browser's key-value storage, as far as it holds record arrays.
      Arrays are kept as values: the serialization of a record's string
      fields and of its number reads back as what was written
      (`Json.QuoteRoundTrip`, `Json.DecimalRoundTrip`); the array and object
      text around them has no parser here. */
  class Storage {
    var items: map<string, seq<Record>>

    constructor (initial: map<string, seq<Record>>)
      ensures items == initial
    {
      items := initial;
    }

    /** `JSON.parse(localStorage.getItem('prism_db') || '[]')`. */
    function Records(): (rs: seq<Record>)
      reads this
      ensures StoreKey !in items ==> rs == []
      ensures StoreKey in items ==> rs == items[StoreKey]
    {
      if StoreKey in items then items[StoreKey] else []
    }

    /** `localStorage.setItem('prism_db', JSON.stringify(rs))`. */
    method Save(rs: seq<Record>)
      modifies this
      ensures items == old(items)[StoreKey := rs]
      ensures Records() == rs
    {
      items := items[StoreKey := rs];
    }
  }

  /** The search both readers of the store run: the lower-cased
      serialization of `data`, or the lower-cased `collection`, contains the
      lower-cased query. */
  predicate Matches(r: Record, query: string)
    ensures query == "" ==> Matches(r, query)
    ensures Lower(r.collection) == Lower(query) ==> Matches(r, query)
  {
    Includes(Lower(Quote(r.data)), Lower(query)) || Includes(Lower(r.collection), Lower(query))
  }

  /** The search as it is evidently meant: the lower-cased document itself,
      not its serialization, or the lower-cased collection, contains the
      lower-cased query. */
  predicate MatchesText(r: Record, query: string)
    ensures query == "" ==> MatchesText(r, query)
    ensures Lower(r.collection) == Lower(query) ==> MatchesText(r, query)
  {
    Includes(Lower(r.data), Lower(query)) || Includes(Lower(r.collection), Lower(query))
  }

  /** `rs.filter(keep)`: the records `keep` accepts, in their order. */
  function Filter(rs: seq<Record>, keep: Record -> bool): (kept: seq<Record>)
    ensures |kept| <= |rs|
  {
    if rs == [] then [] else (if keep(rs[0]) then [rs[0]] else []) + Filter(rs[1..], keep)
  }

  /** Filtering a concatenation is concatenating the filtered parts. */
  lemma {:induction false} FilterAppend(a: seq<Record>, b: seq<Record>, keep: Record -> bool)
    ensures Filter(a + b, keep) == Filter(a, keep) + Filter(b, keep)
  {
    if a == [] {
      assert a + b == b;
    } else {
      var ab := a + b;
      var head := if keep(a[0]) then [a[0]] else [];
      assert ab[0] == a[0] && ab[1..] == a[1..] + b;
      FilterAppend(a[1..], b, keep);
      calc {
        Filter(ab, keep);
        head + Filter(a[1..] + b, keep);
        head + (Filter(a[1..], keep) + Filter(b, keep));
        (head + Filter(a[1..], keep)) + Filter(b, keep);
        Filter(a, keep) + Filter(b, keep);
      }
    }
  }

  /** A record is kept exactly when it is in the input and accepted. */
  lemma {:induction false} FilterMembers(rs: seq<Record>, keep: Record -> bool)
    ensures forall r :: r in Filter(rs, keep) <==> r in rs && keep(r)
  {
    if rs != [] {
      FilterMembers(rs[1..], keep);
      assert rs == [rs[0]] + rs[1..];
    }
  }

  /** Two predicates that agree on every record filter alike. */
  lemma {:induction false} FilterSameKeep(rs: seq<Record>, p: Record -> bool, q: Record -> bool)
    requires forall r :: p(r) == q(r)
    ensures Filter(rs, p) == Filter(rs, q)
  {
    if rs != [] {
      FilterSameKeep(rs[1..], p, q);
    }
  }

  /** `records.filter(r => Matches(r, query))`: the matching records of
      `store`, in store order. */
  function Find(store: seq<Record>, query: string): (found: seq<Record>)
    ensures |found| <= |store|
    ensures forall r :: r in found <==> r in store && Matches(r, query)
  {
    FilterMembers(store, r => Matches(r, query));
    Filter(store, r => Matches(r, query))
  }

  /** `FindText` is `Find` with the search as it is evidently meant. */
  function FindText(store: seq<Record>, query: string): (found: seq<Record>)
    ensures |found| <= |store|
    ensures forall r :: r in found <==> r in store && MatchesText(r, query)
  {
    FilterMembers(store, r => MatchesText(r, query));
    Filter(store, r => MatchesText(r, query))
  }

  /** Searching a concatenation is concatenating the searches: with
      `FindSingle` this fixes the result, order included. */
  lemma FindAppend(a: seq<Record>, b: seq<Record>, query: string)
    ensures Find(a + b, query) == Find(a, query) + Find(b, query)
  {
    FilterAppend(a, b, r => Matches(r, query));
  }

  /** One record is found exactly when it matches. */
  lemma FindSingle(r: Record, query: string)
    ensures Find([r], query) == if Matches(r, query) then [r] else []
  {
    assert [r][1..] == [];
  }

  /** The empty query matches every record. */
  lemma {:induction false} FindEmptyQuery(store: seq<Record>)
    ensures Find(store, "") == store
  {
    if store != [] {
      assert Matches(store[0], "");
      FindEmptyQuery(store[1..]);
    }
  }

  /** `JSON.stringify(r)` for a record read back from storage: its fields in
      the order the insert wrote them. */
  function SerializeRecord(r: Record): (s: string)
    ensures |s| >= 2 && s[0] == '{' && s[|s| - 1] == '}'
  {
    "{\"_id\":" + Quote(r.id) + ",\"collection\":" + Quote(r.collection)
    + ",\"data\":" + Quote(r.data) + ",\"createdAt\":" + Decimal(r.createdAt) + "}"
  }

  /** The records' serializations, separated by commas. */
  function JoinRecords(rs: seq<Record>): (s: string)
    ensures s == [] <==> rs == []
    ensures rs != [] ==> s[0] == '{' && s[|s| - 1] == '}'
  {
    if rs == [] then ""
    else if |rs| == 1 then SerializeRecord(rs[0])
    else SerializeRecord(rs[0]) + "," + JoinRecords(rs[1..])
  }

  /** `JSON.stringify(rs)` for an array of records. */
  function SerializeRecords(rs: seq<Record>): (s: string)
    ensures |s| >= 2 && s[0] == '[' && s[|s| - 1] == ']'
  {
    "[" + JoinRecords(rs) + "]"
  }
}
