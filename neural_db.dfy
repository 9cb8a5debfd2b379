/** The chat assistant's "neural DB" tool dispatcher: the `db_insert` and
    `db_find` calls the model emits mid-stream, run against the record store,
    each producing the status text that is spliced into the reply. */
module NeuralDb {
  import opened Text
  import opened Json
  import opened Records

  /** A tool call as the model emits it: `fc.name` and the string arguments
      `fc.args`. */
  datatype FunctionCall = FunctionCall(name: string, args: map<string, string>)

  /** What a call takes from its environment: the random `_id`
      (`Math.random().toString(36).substr(2, 9)`) and `Date.now()` an insert
      stamps on its record, and whether the browser storage refuses the
      call's access to it (`getItem` throwing a `SecurityError` where storage
      is disabled, `setItem` a `QuotaExceededError` when it is full). Nothing
      makes ids unique. */
  datatype Stamp = Stamp(id: string, createdAt: nat, refused: bool)

  /** The calls that touch the browser storage. */
  predicate UsesStorage(fc: FunctionCall) {
    fc.name == InsertTool || fc.name == FindTool
  }

  /** The store after one call, and the call's status text. */
  datatype Effect = Effect(store: seq<Record>, status: string)

  const InsertTool := "db_insert"
  const FindTool := "db_find"
  const NoRecords := "No records found."
  const UnknownToolStatus := "ok"

  /** The arguments the `db_insert` declaration marks as required. */
  predicate InsertArgsGiven(fc: FunctionCall) {
    fc.name == InsertTool ==> "collection" in fc.args && "document" in fc.args
  }

  /** The record an insert appends. */
  function NewRecord(fc: FunctionCall, stamp: Stamp): (r: Record)
    requires fc.name == InsertTool && InsertArgsGiven(fc)
    ensures r.collection == fc.args["collection"] && r.data == fc.args["document"]
    ensures r.id == stamp.id && r.createdAt == stamp.createdAt
  {
    Record(stamp.id, fc.args["collection"], fc.args["document"], stamp.createdAt)
  }

  /** An insert's status, which no find status can be mistaken for: it is
      neither the sentinel nor a serialized list. */
  function InsertStatus(collection: string): (status: string)
    ensures status != NoRecords && |status| > 0 && status[0] != '['
  {
    "Successfully stored in " + collection
  }

  /** A find's status: the serialized matches, or the sentinel when there
      are none. The sentinel cannot be mistaken for a match list. */
  function FindStatus(found: seq<Record>): (status: string)
    ensures status == NoRecords <==> found == []
    ensures found != [] ==> status == SerializeRecords(found)
  {
    if |found| > 0 then SerializeRecords(found) else NoRecords
  }

  /** One tool call against the store: the new store and the status text,
      or None where the call throws. A call throws when the storage refuses
      its read or write, and a `db_find` without a `query` throws too, since
      `undefined.toLowerCase()` raises a TypeError. A call that throws
      stores nothing: a refused `setItem` writes nothing. */
  function Dispatch(store: seq<Record>, fc: FunctionCall, stamp: Stamp): (r: Option<Effect>)
    requires InsertArgsGiven(fc)
    ensures r.None? <==> UsesStorage(fc) && (stamp.refused || (fc.name == FindTool && "query" !in fc.args))
    ensures r.Some? ==> |store| <= |r.value.store| && r.value.store[..|store|] == store
    ensures r.Some? && fc.name != InsertTool ==> r.value.store == store
  {
    if fc.name == InsertTool then
      if stamp.refused then None
      else Some(Effect(store + [NewRecord(fc, stamp)], InsertStatus(fc.args["collection"])))
    else if fc.name == FindTool then
      if !stamp.refused && "query" in fc.args then Some(Effect(store, FindStatus(Find(store, fc.args["query"]))))
      else None
    else Some(Effect(store, UnknownToolStatus))
  }

  /** `db_insert` appends exactly one record, built from the call's
      `collection` and `document`, after the unchanged earlier records. */
  lemma DispatchInsert(store: seq<Record>, fc: FunctionCall, stamp: Stamp)
    requires fc.name == InsertTool && InsertArgsGiven(fc) && !stamp.refused
    ensures Dispatch(store, fc, stamp).Some?
    ensures var e := Dispatch(store, fc, stamp).value;
      && |e.store| == |store| + 1
      && e.store[..|store|] == store
      && e.store[|store|] == Record(stamp.id, fc.args["collection"], fc.args["document"], stamp.createdAt)
      && e.status == "Successfully stored in " + fc.args["collection"]
  {
    assert (store + [NewRecord(fc, stamp)])[..|store|] == store;
  }

  /** `db_find` leaves the store alone; its status is the sentinel exactly
      when no stored record matches, and otherwise the serialized matches. */
  lemma DispatchFind(store: seq<Record>, fc: FunctionCall, stamp: Stamp)
    requires fc.name == FindTool && "query" in fc.args && !stamp.refused
    ensures Dispatch(store, fc, stamp).Some?
    ensures var e := Dispatch(store, fc, stamp).value;
      && e.store == store
      && (e.status == NoRecords <==> forall r :: r in store ==> !Matches(r, fc.args["query"]))
      && (e.status != NoRecords ==> e.status == SerializeRecords(Find(store, fc.args["query"])))
  {
    var q := fc.args["query"];
    if Find(store, q) != [] {
      assert Find(store, q)[0] in Find(store, q);
    }
  }

  /** A `db_find` without a query throws and changes nothing. */
  lemma DispatchFindNoQuery(store: seq<Record>, fc: FunctionCall, stamp: Stamp)
    requires fc.name == FindTool && "query" !in fc.args
    ensures Dispatch(store, fc, stamp).None?
  {
  }

  /** A `db_insert` or `db_find` whose storage access is refused throws,
      whatever its arguments, and so stores nothing. */
  lemma DispatchRefused(store: seq<Record>, fc: FunctionCall, stamp: Stamp)
    requires UsesStorage(fc) && InsertArgsGiven(fc) && stamp.refused
    ensures Dispatch(store, fc, stamp).None?
  {
  }

  /** Any other tool name leaves the store alone and reports "ok", whether
      or not the storage would refuse an access: it makes none. */
  lemma DispatchUnknown(store: seq<Record>, fc: FunctionCall, stamp: Stamp)
    requires fc.name != InsertTool && fc.name != FindTool
    ensures Dispatch(store, fc, stamp) == Some(Effect(store, "ok"))
  {
  }

  /** Runs one tool call against the browser storage: a read of the whole
      array, and for an insert a write of the whole array back. */
  method CallTool(storage: Storage, fc: FunctionCall, stamp: Stamp) returns (status: string, thrown: bool)
    requires InsertArgsGiven(fc)
    modifies storage
    ensures var d := Dispatch(old(storage.Records()), fc, stamp);
      && thrown == d.None?
      && (d.Some? ==> status == d.value.status && storage.Records() == d.value.store)
    ensures fc.name == InsertTool && !thrown ==> storage.items == old(storage.items)[StoreKey := storage.Records()]
    ensures fc.name != InsertTool || thrown ==> storage.items == old(storage.items)
    ensures storage.items - {StoreKey} == old(storage.items) - {StoreKey}
  {
    status, thrown := UnknownToolStatus, false;
    if UsesStorage(fc) && stamp.refused {
      thrown := true;
      return;
    }
    if fc.name == InsertTool {
      var records := storage.Records();
      var newRecord := Record(stamp.id, fc.args["collection"], fc.args["document"], stamp.createdAt);
      records := records + [newRecord];
      storage.Save(records);
      status := InsertStatus(fc.args["collection"]);
    } else if fc.name == FindTool {
      var records := storage.Records();
      if "query" !in fc.args {
        thrown := true;
        return;
      }
      var found := Find(records, fc.args["query"]);
      status := if |found| > 0 then SerializeRecords(found) else NoRecords;
    }
  }

  /** No two records in the store share an `_id`. */
  predicate IdsDistinct(store: seq<Record>) {
    forall i, j :: 0 <= i < j < |store| ==> store[i].id != store[j].id
  }

  /** As the code draws ids, nothing stops a repeat: two inserts that draw
      the same `_id` leave two records under it. */
  lemma RepeatedStampRepeatsId(store: seq<Record>, fc: FunctionCall, stamp: Stamp)
    requires fc.name == InsertTool && InsertArgsGiven(fc) && !stamp.refused
    ensures Dispatch(store, fc, stamp).Some?
    ensures var once := Dispatch(store, fc, stamp).value.store;
      && Dispatch(once, fc, stamp).Some?
      && var twice := Dispatch(once, fc, stamp).value.store;
      && |twice| == |store| + 2
      && twice[|store|].id == twice[|store| + 1].id == stamp.id
      && !IdsDistinct(twice)
  {
    DispatchInsert(store, fc, stamp);
    var once := Dispatch(store, fc, stamp).value.store;
    DispatchInsert(once, fc, stamp);
    var twice := Dispatch(once, fc, stamp).value.store;
    assert twice[|store|] == once[|store|];
  }

  /** As ids are evidently meant to be drawn, fresh against the store, every
      call keeps them distinct. */
  lemma FreshIdKeepsIdsDistinct(store: seq<Record>, fc: FunctionCall, stamp: Stamp)
    requires InsertArgsGiven(fc) && IdsDistinct(store)
    requires forall r :: r in store ==> r.id != stamp.id
    ensures Dispatch(store, fc, stamp).Some? ==> IdsDistinct(Dispatch(store, fc, stamp).value.store)
  {
    if Dispatch(store, fc, stamp).Some? && fc.name == InsertTool {
      var after := Dispatch(store, fc, stamp).value.store;
      DispatchInsert(store, fc, stamp);
      forall i, j | 0 <= i < j < |after|
        ensures after[i].id != after[j].id
      {
        if j == |store| {
          assert after[i] == store[i] && store[i] in store;
        } else {
          assert after[i] == store[i] && after[j] == store[j];
        }
      }
    }
  }

  /** Lower-casing keeps an occurrence where it was. */
  lemma LowerKeepsOccurrence(hay: string, needle: string, i: int)
    requires OccursAt(hay, needle, i)
    ensures OccursAt(Lower(hay), Lower(needle), i)
  {
    LowerAt(hay);
    LowerAt(needle);
    var n := |needle|;
    assert forall k :: 0 <= k < n ==> Lower(hay)[i + k] == LowerChar(hay[i + k]) == LowerChar(needle[k]) == Lower(needle)[k];
    assert Lower(hay)[i..i + n] == Lower(needle);
  }

  /** Inserting a document and then searching for a piece of it finds the
      new record, as long as the document holds no character that
      `JSON.stringify` escapes and the storage takes both calls. Like every
      fact here about the search, it rests on `Lower` mapping each
      character on its own. */
  lemma InsertThenFind(store: seq<Record>, collection: string, document: string, stamp: Stamp, query: string)
    requires Includes(document, query) && !stamp.refused
    requires forall i :: 0 <= i < |document| ==> Plain(document[i])
    ensures var ins := FunctionCall(InsertTool, map["collection" := collection, "document" := document]);
      && Dispatch(store, ins, stamp).Some?
      && var after := Dispatch(store, ins, stamp).value.store;
      && NewRecord(ins, stamp) in Find(after, query)
      && Dispatch(after, FunctionCall(FindTool, map["query" := query]), stamp).value.status != NoRecords
  {
    var ins := FunctionCall(InsertTool, map["collection" := collection, "document" := document]);
    var r := NewRecord(ins, stamp);
    var after := store + [r];
    IncludesSpec(document, query);
    var i :| OccursAt(document, query, i);
    LowerKeepsOccurrence(document, query, i);
    IncludesSpec(Lower(document), Lower(query));
    LowerAppend("\"", document);
    LowerAppend("\"" + document, "\"");
    IncludesWithin(Lower("\""), Lower(document), Lower("\""), Lower(query));
    assert Matches(r, query);
    DispatchFind(after, FunctionCall(FindTool, map["query" := query]), stamp);
  }

  /** With the search as it is evidently meant (`FindText`), an inserted
      record is found by every piece of its document, escaped characters
      included, once the storage takes the insert. This too rests on `Lower`
      mapping each character on its own. */
  lemma InsertThenFindText(store: seq<Record>, collection: string, document: string, stamp: Stamp, query: string)
    requires Includes(document, query) && !stamp.refused
    ensures var ins := FunctionCall(InsertTool, map["collection" := collection, "document" := document]);
      && Dispatch(store, ins, stamp).Some?
      && NewRecord(ins, stamp) in FindText(Dispatch(store, ins, stamp).value.store, query)
  {
    var ins := FunctionCall(InsertTool, map["collection" := collection, "document" := document]);
    var r := NewRecord(ins, stamp);
    IncludesSpec(document, query);
    var i :| OccursAt(document, query, i);
    LowerKeepsOccurrence(document, query, i);
    IncludesSpec(Lower(document), Lower(query));
    assert MatchesText(r, query);
    assert r in store + [r];
  }

  /** `FindText` finds the record that `EscapedDocumentNotFound` shows
      `Find` missing. */
  lemma EscapedDocumentFoundByText()
    ensures var r := Record("k3x9q2m1z", "notes", "a\"b", 0);
      FindText([r], "a\"") == [r]
  {
    var r := Record("k3x9q2m1z", "notes", "a\"b", 0);
    LowerUnchanged(r.data);
    LowerUnchanged("a\"");
    assert "a\"" <= r.data;
    assert MatchesText(r, "a\"");
    assert [r][1..] == [];
  }

  /** `JSON.stringify("a\"b")` is `"a\"b"`, with the quote escaped. */
  lemma SerializedDocument()
    ensures Quote("a\"b") == "\"a\\\"b\""
  {
    assert "a\"b"[1..] == "\"b" && "\"b"[1..] == "b" && "b"[1..] == "";
    assert Escape("b") == "b";
    assert Escape("\"b") == "\\\"b";
    assert Escape("a\"b") == "a\\\"b";
  }

  /** The serialization `"a\"b"` does not contain `a"`: after the `a`
      comes the escaping backslash. */
  lemma NotIncludedInSerialized()
    ensures !Includes("\"a\\\"b\"", "a\"")
  {
    var query := "a\"";
    var hay := "\"a\\\"b\"";
    assert hay[1..] == "a\\\"b\"" && hay[2..] == "\\\"b\"" && hay[3..] == "\"b\"";
    assert hay[4..] == "b\"" && hay[5..] == "\"";
    assert hay[5..][1..] == "" && hay[4..][1..] == hay[5..] && hay[3..][1..] == hay[4..];
    assert hay[2..][1..] == hay[3..] && hay[1..][1..] == hay[2..];
    assert !Includes(hay[5..], query);
    assert hay[4..][0] != query[0];
    assert !Includes(hay[4..], query);
    assert !Includes(hay[3..], query);
    assert !Includes(hay[2..], query);
    assert !Includes(hay[1..], query);
  }

  /** The collection `notes` does not contain `a"`. */
  lemma NotIncludedInCollection()
    ensures !Includes(Lower("notes"), Lower("a\""))
  {
    LowerUnchanged("notes");
    LowerUnchanged("a\"");
    var hay := "notes";
    assert hay[1..] == "otes" && hay[1..][1..] == "tes" && hay[1..][1..][1..] == "es";
    assert !Includes("es", "a\"");
    assert !Includes("tes", "a\"");
    assert !Includes("otes", "a\"");
  }

  /** The search runs over the serialized document, so a piece of a
      document that spans an escaped character is not found: `a"` is part of
      the document `a"b`, whose serialization is `"a\"b"`. */
  lemma EscapedDocumentNotFound()
    ensures Find([Record("k3x9q2m1z", "notes", "a\"b", 0)], "a\"") == []
  {
    var r := Record("k3x9q2m1z", "notes", "a\"b", 0);
    var query := "a\"";
    SerializedDocument();
    LowerUnchanged(Quote(r.data));
    LowerUnchanged(query);
    NotIncludedInSerialized();
    NotIncludedInCollection();
    assert !Matches(r, query);
    FindSingle(r, query);
  }
}
