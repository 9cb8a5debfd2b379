/** The chat assistant's turn: a send opens an assistant message, drains the
    model's chunk stream, runs each chunk's tool calls against the record
    store, appends their status annotations and the chunk's text to the
    reply, merges the chunk's web sources by uri, and republishes the reply
    after every chunk. A throw ends the turn with a system message. */
module Chat {
  import opened Text
  import opened Json
  import opened Records
  import opened NeuralDb

  datatype Role = User | Assistant | System

  /** A citation shown under a reply. */
  datatype Source = Source(uri: string, title: string)

  /** One transcript entry; `sources` is empty where the source leaves it out. */
  datatype Message = Message(id: string, role: Role, content: string, timestamp: nat, sources: seq<Source>)

  /** A grounding chunk's `web` entry; an absent field is None. */
  datatype Web = Web(uri: Option<string>, title: Option<string>)

  /** One grounding chunk of the first candidate; `web` may be absent. */
  datatype GroundingChunk = GroundingChunk(web: Option<Web>)

  /** One streamed chunk: its function calls, its text delta and the first
      candidate's grounding chunks. An absent field is the empty sequence or
      string, which the turn treats exactly as it treats absence. */
  datatype Chunk = Chunk(functionCalls: seq<FunctionCall>, text: string, groundingChunks: seq<GroundingChunk>)

  /** The stream of one turn: the chunks it delivers, in order, and whether
      it throws once they are delivered. A stream that throws earlier is one
      with fewer chunks. */
  datatype Stream = Stream(chunks: seq<Chunk>, breaks: bool)

  /** The `Date.now()` readings of one send, in the order the send takes
      them: the user message's id and timestamp, the assistant message's id
      base and timestamp, the error message's id and timestamp. */
  datatype Clock = Clock(userId: nat, userTime: nat, assistantId: nat, assistantTime: nat,
                         errorId: nat, errorTime: nat)

  const WelcomeText := "System initialized. Prism AI is online. Database connected. How can I assist you today?"
  const ErrorText := "System Error: Connection to neural cluster lost."

  /** The inline note a tool call leaves in the reply. */
  function Annotation(status: string): (a: string)
    ensures |a| == |status| + 27 && a[24..24 + |status|] == status
    ensures a[0] == '\n' && a[|a| - 1] == '\n'
  {
    "\n*[Accessing Neural DB: " + status + "]*\n"
  }

  // ---------------------------------------------------------------------
  // Sources

  /** `x || fallback` for an optional string: absent and empty both give
      the fallback. */
  function OrElse(x: Option<string>, fallback: string): string {
    if x.Some? && x.value != "" then x.value else fallback
  }

  /** `{ uri: ch.web?.uri || '', title: ch.web?.title || 'Source' }`. */
  function ToSource(w: Web): (s: Source)
    ensures s.title != ""
    ensures w.uri.Some? ==> s.uri == w.uri.value
    ensures w.uri.None? ==> s.uri == ""
    ensures w.title.Some? && w.title.value != "" ==> s.title == w.title.value
    ensures w.title.None? || w.title.value == "" ==> s.title == "Source"
  {
    Source(OrElse(w.uri, ""), OrElse(w.title, "Source"))
  }

  /** `.filter(ch => ch.web).map(...)`: one source per grounding chunk that
      has a web entry, in order. */
  function WebSources(gcs: seq<GroundingChunk>): (ss: seq<Source>)
    ensures |ss| <= |gcs|
  {
    if gcs == [] then []
    else (match gcs[0].web case None => [] case Some(w) => [ToSource(w)]) + WebSources(gcs[1..])
  }

  /** The chunk's sources are exactly its web entries, converted, in order:
      a grounding chunk without `web` contributes nothing. */
  lemma {:induction false} WebSourcesSpec(gcs: seq<GroundingChunk>)
    ensures forall s :: s in WebSources(gcs) <==>
      exists k :: 0 <= k < |gcs| && gcs[k].web.Some? && s == ToSource(gcs[k].web.value)
    ensures (forall k :: 0 <= k < |gcs| ==> gcs[k].web.Some?) ==> |WebSources(gcs)| == |gcs|
  {
    if gcs != [] {
      WebSourcesSpec(gcs[1..]);
      forall s ensures s in WebSources(gcs) <==>
        exists k :: 0 <= k < |gcs| && gcs[k].web.Some? && s == ToSource(gcs[k].web.value)
      {
        if exists k :: 0 <= k < |gcs| && gcs[k].web.Some? && s == ToSource(gcs[k].web.value) {
          var k :| 0 <= k < |gcs| && gcs[k].web.Some? && s == ToSource(gcs[k].web.value);
          if k > 0 {
            assert gcs[1..][k - 1] == gcs[k];
          }
        }
        if s in WebSources(gcs[1..]) {
          var k :| 0 <= k < |gcs| - 1 && gcs[1..][k].web.Some? && s == ToSource(gcs[1..][k].web.value);
          assert gcs[k + 1] == gcs[1..][k];
        }
      }
    }
  }

  /** The sources of consecutive grounding chunks are the sources of each
      part, in order. */
  lemma {:induction false} WebSourcesAppend(a: seq<GroundingChunk>, b: seq<GroundingChunk>)
    ensures WebSources(a + b) == WebSources(a) + WebSources(b)
  {
    if a == [] {
      assert a + b == b;
    } else {
      var ab := a + b;
      var head := match a[0].web case None => [] case Some(w) => [ToSource(w)];
      assert ab[0] == a[0] && ab[1..] == a[1..] + b;
      WebSourcesAppend(a[1..], b);
      calc {
        WebSources(ab);
        head + WebSources(a[1..] + b);
        head + (WebSources(a[1..]) + WebSources(b));
        (head + WebSources(a[1..])) + WebSources(b);
      }
    }
  }

  /** One grounding chunk gives one source exactly when it has a web entry. */
  lemma WebSourcesSingle(g: GroundingChunk)
    ensures WebSources([g]) == match g.web case None => [] case Some(w) => [ToSource(w)]
  {
    assert [g][1..] == [];
  }

  /** `sources.some(cs => cs.uri === uri)`. */
  predicate HasUri(sources: seq<Source>, uri: string)
    ensures HasUri(sources, uri) <==> exists s :: s in sources && s.uri == uri
  {
    exists k :: 0 <= k < |sources| && sources[k].uri == uri
  }

  /** `incoming.filter(ns => !collected.some(cs => cs.uri === ns.uri))`:
      checked against the earlier list only, so two new entries with one uri
      both stay. */
  function Unseen(collected: seq<Source>, incoming: seq<Source>): (kept: seq<Source>)
    ensures |kept| <= |incoming|
    ensures collected == [] ==> kept == incoming
  {
    if incoming == [] then []
    else (if HasUri(collected, incoming[0].uri) then [] else [incoming[0]]) + Unseen(collected, incoming[1..])
  }

  /** Filtering consecutive incoming lists is filtering each, in order. */
  lemma {:induction false} UnseenAppend(collected: seq<Source>, a: seq<Source>, b: seq<Source>)
    ensures Unseen(collected, a + b) == Unseen(collected, a) + Unseen(collected, b)
  {
    if a == [] {
      assert a + b == b;
    } else {
      var ab := a + b;
      var head := if HasUri(collected, a[0].uri) then [] else [a[0]];
      assert ab[0] == a[0] && ab[1..] == a[1..] + b;
      UnseenAppend(collected, a[1..], b);
      calc {
        Unseen(collected, ab);
        head + Unseen(collected, a[1..] + b);
        head + (Unseen(collected, a[1..]) + Unseen(collected, b));
        (head + Unseen(collected, a[1..])) + Unseen(collected, b);
      }
    }
  }

  /** One incoming source is kept exactly when its uri is not collected. */
  lemma UnseenSingle(collected: seq<Source>, s: Source)
    ensures Unseen(collected, [s]) == if HasUri(collected, s.uri) then [] else [s]
  {
    assert [s][1..] == [];
  }

  /** The source list after one chunk: the earlier list stays in front. */
  function MergeSources(collected: seq<Source>, gcs: seq<GroundingChunk>): (merged: seq<Source>)
    ensures |collected| <= |merged| && merged[..|collected|] == collected
  {
    var incoming := WebSources(gcs);
    if |incoming| > 0 then collected + Unseen(collected, incoming) else collected
  }

  /** What `Unseen` keeps: exactly the incoming entries whose uri the
      earlier list lacks. */
  lemma {:induction false} UnseenMembers(collected: seq<Source>, incoming: seq<Source>)
    ensures forall s :: s in Unseen(collected, incoming) <==> s in incoming && !HasUri(collected, s.uri)
  {
    if incoming != [] {
      UnseenMembers(collected, incoming[1..]);
      assert incoming == [incoming[0]] + incoming[1..];
    }
  }

  /** The merge keeps the earlier list as a prefix and appends the chunk's
      web sources whose uri that list lacks, in chunk order and with their
      repetitions (`UnseenAppend` and `UnseenSingle` fix that list element
      by element). */
  lemma MergeSourcesSpec(collected: seq<Source>, gcs: seq<GroundingChunk>)
    ensures var merged := MergeSources(collected, gcs);
      && merged == collected + Unseen(collected, WebSources(gcs))
      && forall s :: s in merged[|collected|..] <==> s in WebSources(gcs) && !HasUri(collected, s.uri)
  {
    var merged := MergeSources(collected, gcs);
    UnseenMembers(collected, WebSources(gcs));
    if |WebSources(gcs)| > 0 {
      assert merged[|collected|..] == Unseen(collected, WebSources(gcs));
    } else {
      assert WebSources(gcs) == [];
      assert merged == collected + [];
      assert merged[|collected|..] == [];
    }
  }

  /** A chunk whose web sources are all known leaves the list as it is. */
  lemma {:induction false} MergeKnownSources(collected: seq<Source>, gcs: seq<GroundingChunk>)
    requires forall s :: s in WebSources(gcs) ==> HasUri(collected, s.uri)
    ensures MergeSources(collected, gcs) == collected
  {
    NothingUnseen(collected, WebSources(gcs));
  }

  lemma {:induction false} NothingUnseen(collected: seq<Source>, incoming: seq<Source>)
    requires forall s :: s in incoming ==> HasUri(collected, s.uri)
    ensures Unseen(collected, incoming) == []
  {
    if incoming != [] {
      assert incoming[0] in incoming;
      NothingUnseen(collected, incoming[1..]);
    }
  }

  /** Merging the same chunk a second time changes nothing: a uri already
      collected keeps its first title. */
  lemma MergeSourcesIdempotent(collected: seq<Source>, gcs: seq<GroundingChunk>)
    ensures MergeSources(MergeSources(collected, gcs), gcs) == MergeSources(collected, gcs)
  {
    var merged := MergeSources(collected, gcs);
    MergeSourcesSpec(collected, gcs);
    forall s | s in WebSources(gcs) ensures HasUri(merged, s.uri) {
      if HasUri(collected, s.uri) {
        var k :| 0 <= k < |collected| && collected[k].uri == s.uri;
        assert merged[k] == collected[k];
      } else {
        assert s in merged[|collected|..];
        var k :| |collected| <= k < |merged| && merged[k] == s;
      }
    }
    MergeKnownSources(merged, gcs);
  }

  /** Two web entries with one new uri in the same chunk are both kept. */
  lemma MergeKeepsDuplicatesWithinChunk(uri: string, title: string)
    ensures var g := GroundingChunk(Some(Web(Some(uri), Some(title))));
      MergeSources([], [g, g]) == [ToSource(g.web.value), ToSource(g.web.value)]
  {
    var g := GroundingChunk(Some(Web(Some(uri), Some(title))));
    var s := ToSource(g.web.value);
    assert [g, g][1..] == [g];
    assert WebSources([g]) == [s];
    assert WebSources([g, g]) == [s, s];
    assert [s, s][1..] == [s];
    assert [s][1..] == [];
    assert !HasUri([], s.uri);
    assert Unseen([], [s]) == [s];
    assert Unseen([], [s, s]) == [s, s];
  }

  /** No two sources share a uri. */
  predicate UrisDistinct(ss: seq<Source>) {
    forall i, j :: 0 <= i < j < |ss| ==> ss[i].uri != ss[j].uri
  }

  /** The merge as it is evidently meant: each incoming source is checked
      against everything collected so far, the entries this chunk has
      already added included. */
  function AddUnseen(collected: seq<Source>, incoming: seq<Source>): (merged: seq<Source>)
    ensures |collected| <= |merged| && merged[..|collected|] == collected
    decreases |incoming|
  {
    if incoming == [] then collected
    else
      var next := if HasUri(collected, incoming[0].uri) then collected else collected + [incoming[0]];
      var merged := AddUnseen(next, incoming[1..]);
      assert merged[..|next|][..|collected|] == merged[..|collected|];
      merged
  }

  /** `MergeSources` with the check of `AddUnseen`. */
  function MergeSourcesUnique(collected: seq<Source>, gcs: seq<GroundingChunk>): (merged: seq<Source>)
    ensures |collected| <= |merged| && merged[..|collected|] == collected
  {
    AddUnseen(collected, WebSources(gcs))
  }

  /** A list without repeated uris stays so when one more source with a new
      uri is added. */
  lemma AddDistinct(collected: seq<Source>, s: Source)
    requires UrisDistinct(collected) && !HasUri(collected, s.uri)
    ensures UrisDistinct(collected + [s])
  {
    var c := collected + [s];
    forall i, j | 0 <= i < j < |c| ensures c[i].uri != c[j].uri {
      if j == |collected| {
        assert c[i] == collected[i];
      } else {
        assert c[i] == collected[i] && c[j] == collected[j];
      }
    }
  }

  /** The intended merge never repeats a uri. */
  lemma {:induction false} AddUnseenDistinct(collected: seq<Source>, incoming: seq<Source>)
    requires UrisDistinct(collected)
    ensures UrisDistinct(AddUnseen(collected, incoming))
    decreases |incoming|
  {
    if incoming != [] {
      if !HasUri(collected, incoming[0].uri) {
        AddDistinct(collected, incoming[0]);
        AddUnseenDistinct(collected + [incoming[0]], incoming[1..]);
      } else {
        AddUnseenDistinct(collected, incoming[1..]);
      }
    }
  }

  /** A uri already in a list is in every list that extends it. */
  lemma HasUriPrefix(collected: seq<Source>, merged: seq<Source>, uri: string)
    requires |collected| <= |merged| && merged[..|collected|] == collected
    requires HasUri(collected, uri)
    ensures HasUri(merged, uri)
  {
    var k :| 0 <= k < |collected| && collected[k].uri == uri;
    assert merged[k] == collected[k];
  }

  /** The intended merge loses no incoming uri and adds nothing that was
      not incoming. */
  lemma {:induction false} AddUnseenCovers(collected: seq<Source>, incoming: seq<Source>)
    ensures var merged := AddUnseen(collected, incoming);
      && (forall s :: s in incoming ==> HasUri(merged, s.uri))
      && (forall s :: s in merged ==> s in collected || s in incoming)
    decreases |incoming|
  {
    if incoming != [] {
      var x := incoming[0];
      var next := if HasUri(collected, x.uri) then collected else collected + [x];
      var merged := AddUnseen(next, incoming[1..]);
      AddUnseenCovers(next, incoming[1..]);
      if HasUri(collected, x.uri) {
        HasUriPrefix(collected, merged, x.uri);
      } else {
        assert next[|collected|] == x;
        HasUriPrefix(next, merged, x.uri);
      }
      assert incoming == [x] + incoming[1..];
    }
  }

  /** Sources with a uri not collected: adding one does not change what
      `Unseen` keeps of the rest, as long as none of the rest has its uri. */
  lemma {:induction false} UnseenAfterAdd(collected: seq<Source>, x: Source, rest: seq<Source>)
    requires forall k :: 0 <= k < |rest| ==> rest[k].uri != x.uri
    ensures Unseen(collected + [x], rest) == Unseen(collected, rest)
  {
    if rest != [] {
      var u := rest[0].uri;
      assert HasUri(collected + [x], u) == HasUri(collected, u) by {
        if HasUri(collected + [x], u) {
          var k :| 0 <= k < |collected| + 1 && (collected + [x])[k].uri == u;
          assert k < |collected| && collected[k].uri == u;
        }
        if HasUri(collected, u) {
          var k :| 0 <= k < |collected| && collected[k].uri == u;
          assert (collected + [x])[k].uri == u;
        }
      }
      UnseenAfterAdd(collected, x, rest[1..]);
    }
  }

  /** The tail of a list without repeated uris has none either, and none
      of its uris is the head's. */
  lemma DistinctTail(incoming: seq<Source>)
    requires incoming != [] && UrisDistinct(incoming)
    ensures UrisDistinct(incoming[1..])
    ensures forall k :: 0 <= k < |incoming| - 1 ==> incoming[1..][k].uri != incoming[0].uri
  {
    var rest := incoming[1..];
    forall i, j | 0 <= i < j < |rest| ensures rest[i].uri != rest[j].uri {
      assert rest[i] == incoming[i + 1] && rest[j] == incoming[j + 1];
    }
    forall k | 0 <= k < |rest| ensures rest[k].uri != incoming[0].uri {
      assert rest[k] == incoming[k + 1];
    }
  }

  /** On a chunk whose sources have distinct uris, the intended merge is
      the code's merge: they differ only on repeats within one chunk. */
  lemma {:induction false} AddUnseenAgrees(collected: seq<Source>, incoming: seq<Source>)
    requires UrisDistinct(incoming)
    ensures AddUnseen(collected, incoming) == collected + Unseen(collected, incoming)
    decreases |incoming|
  {
    if incoming == [] {
      return;
    }
    var x, rest := incoming[0], incoming[1..];
    DistinctTail(incoming);
    if HasUri(collected, x.uri) {
      assert AddUnseen(collected, incoming) == AddUnseen(collected, rest);
      assert Unseen(collected, incoming) == Unseen(collected, rest);
      AddUnseenAgrees(collected, rest);
    } else {
      assert AddUnseen(collected, incoming) == AddUnseen(collected + [x], rest);
      assert Unseen(collected, incoming) == [x] + Unseen(collected, rest);
      AddUnseenAgrees(collected + [x], rest);
      UnseenAfterAdd(collected, x, rest);
      AppendAssoc(collected, [x], Unseen(collected, rest));
    }
  }

  lemma MergeSourcesUniqueSpec(collected: seq<Source>, gcs: seq<GroundingChunk>)
    requires UrisDistinct(collected)
    ensures var merged := MergeSourcesUnique(collected, gcs);
      && UrisDistinct(merged)
      && (forall s :: s in WebSources(gcs) ==> HasUri(merged, s.uri))
      && (forall s :: s in merged ==> s in collected || s in WebSources(gcs))
      && (UrisDistinct(WebSources(gcs)) ==> merged == MergeSources(collected, gcs))
  {
    var incoming := WebSources(gcs);
    AddUnseenDistinct(collected, incoming);
    AddUnseenCovers(collected, incoming);
    if UrisDistinct(incoming) {
      AddUnseenAgrees(collected, incoming);
      if incoming == [] {
        assert collected + Unseen(collected, incoming) == collected;
      }
    }
  }

  /** The intended merge keeps one of the two entries that
      `MergeKeepsDuplicatesWithinChunk` shows the code keeping both of. */
  lemma MergeUniqueDropsDuplicateWithinChunk(uri: string, title: string)
    ensures var g := GroundingChunk(Some(Web(Some(uri), Some(title))));
      MergeSourcesUnique([], [g, g]) == [ToSource(g.web.value)]
  {
    var g := GroundingChunk(Some(Web(Some(uri), Some(title))));
    var s := ToSource(g.web.value);
    assert [g, g][1..] == [g];
    assert [g][1..] == [];
    assert WebSources([g, g]) == [s, s];
    assert [s, s][1..] == [s] && [s][1..] == [];
    assert HasUri([s], s.uri) by {
      assert [s][0].uri == s.uri;
    }
    assert AddUnseen([s], [s]) == AddUnseen([s], []) == [s];
    assert [] + [s] == [s];
    assert AddUnseen([], [s, s]) == AddUnseen([s], [s]);
  }

  // ---------------------------------------------------------------------
  // The turn, as a function of the stream

  /** The accumulated state of a turn: the store, the reply text and the
      source list. */
  datatype TurnState = TurnState(store: seq<Record>, content: string, sources: seq<Source>)

  /** One environment stamp per call, and every insert has its arguments. */
  predicate CallsFit(calls: seq<FunctionCall>, stamps: seq<Stamp>) {
    |stamps| == |calls| && forall k :: 0 <= k < |calls| ==> InsertArgsGiven(calls[k])
  }

  /** A chunk's calls, run in order: the store after them, the annotations
      they left, and whether one threw (the calls after it do not run). */
  datatype CallsRun = CallsRun(store: seq<Record>, notes: string, thrown: bool)

  function RunCalls(store: seq<Record>, calls: seq<FunctionCall>, stamps: seq<Stamp>): (r: CallsRun)
    requires CallsFit(calls, stamps)
    ensures |store| <= |r.store| && r.store[..|store|] == store
    ensures (forall k :: 0 <= k < |calls| ==> calls[k].name != InsertTool) ==> r.store == store
    decreases |calls|
  {
    if calls == [] then CallsRun(store, "", false)
    else
      var n := |calls| - 1;
      var prev := RunCalls(store, calls[..n], stamps[..n]);
      if prev.thrown then prev
      else
        match Dispatch(prev.store, calls[n], stamps[n])
        case None => CallsRun(prev.store, prev.notes, true)
        case Some(e) =>
          assert e.store[..|prev.store|][..|store|] == e.store[..|store|];
          CallsRun(e.store, prev.notes + Annotation(e.status), false)
  }

  /** `RunCalls` on one more call of the chunk. */
  lemma RunCallsNext(store: seq<Record>, calls: seq<FunctionCall>, stamps: seq<Stamp>, j: nat)
    requires CallsFit(calls, stamps) && j < |calls|
    ensures CallsFit(calls[..j], stamps[..j]) && CallsFit(calls[..j + 1], stamps[..j + 1])
    ensures var prev := RunCalls(store, calls[..j], stamps[..j]);
      RunCalls(store, calls[..j + 1], stamps[..j + 1]) ==
        if prev.thrown then prev
        else match Dispatch(prev.store, calls[j], stamps[j])
          case None => CallsRun(prev.store, prev.notes, true)
          case Some(e) => CallsRun(e.store, prev.notes + Annotation(e.status), false)
  {
    assert calls[..j + 1][..j] == calls[..j] && stamps[..j + 1][..j] == stamps[..j];
  }

  /** Appending to what was appended: one more note to the reply, one more
      record to the store. */
  lemma AppendAssoc<T>(a: seq<T>, b: seq<T>, c: seq<T>)
    ensures (a + b) + c == a + (b + c)
  {
  }

  /** `RunCallsNext` for a chunk that has not thrown, given how the call
      came out: whether it threw, its status and the store after it. */
  lemma RunCallsOutcome(store: seq<Record>, calls: seq<FunctionCall>, stamps: seq<Stamp>, j: nat,
                        status: string, thrown: bool, after: seq<Record>)
    requires CallsFit(calls, stamps) && j < |calls|
    requires CallsFit(calls[..j], stamps[..j]) && !RunCalls(store, calls[..j], stamps[..j]).thrown
    requires var d := Dispatch(RunCalls(store, calls[..j], stamps[..j]).store, calls[j], stamps[j]);
      && thrown == d.None?
      && (d.Some? ==> status == d.value.status && after == d.value.store)
    ensures CallsFit(calls[..j + 1], stamps[..j + 1])
    ensures var prev, r := RunCalls(store, calls[..j], stamps[..j]), RunCalls(store, calls[..j + 1], stamps[..j + 1]);
      && r.thrown == thrown
      && (thrown ==> r.store == prev.store && r.notes == prev.notes)
      && (!thrown ==> r.store == after && r.notes == prev.notes + Annotation(status))
  {
    RunCallsNext(store, calls, stamps, j);
  }

  /** Once a call has thrown, the later calls change nothing. */
  lemma {:induction false} RunCallsAfterThrow(store: seq<Record>, calls: seq<FunctionCall>, stamps: seq<Stamp>, j: nat)
    requires CallsFit(calls, stamps) && j <= |calls|
    requires RunCalls(store, calls[..j], stamps[..j]).thrown
    ensures RunCalls(store, calls, stamps) == RunCalls(store, calls[..j], stamps[..j])
    decreases |calls| - j
  {
    if j < |calls| {
      assert calls[..j + 1][..j] == calls[..j] && stamps[..j + 1][..j] == stamps[..j];
      RunCallsAfterThrow(store, calls, stamps, j + 1);
    } else {
      assert calls[..j] == calls && stamps[..j] == stamps;
    }
  }

  /** The records the insert calls among `calls` append, in call order. */
  function Inserted(calls: seq<FunctionCall>, stamps: seq<Stamp>): seq<Record>
    requires CallsFit(calls, stamps)
    decreases |calls|
  {
    if calls == [] then []
    else
      var n := |calls| - 1;
      Inserted(calls[..n], stamps[..n]) + Appended(calls[n], stamps[n])
  }

  /** The record a call appends, if it is an insert. */
  function Appended(fc: FunctionCall, stamp: Stamp): seq<Record>
    requires InsertArgsGiven(fc)
  {
    if fc.name == InsertTool then [NewRecord(fc, stamp)] else []
  }

  /** A call that does not throw appends exactly what `Appended` names. */
  lemma DispatchAppends(store: seq<Record>, fc: FunctionCall, stamp: Stamp)
    requires InsertArgsGiven(fc) && Dispatch(store, fc, stamp).Some?
    ensures Dispatch(store, fc, stamp).value.store == store + Appended(fc, stamp)
  {
  }

  /** `Inserted` over one more call. */
  lemma InsertedNext(calls: seq<FunctionCall>, stamps: seq<Stamp>)
    requires CallsFit(calls, stamps) && calls != []
    ensures CallsFit(calls[..|calls| - 1], stamps[..|calls| - 1])
    ensures Inserted(calls, stamps) ==
      Inserted(calls[..|calls| - 1], stamps[..|calls| - 1]) + Appended(calls[|calls| - 1], stamps[|calls| - 1])
  {
  }

  /** What one more call does to the store: once the chunk has thrown, or
      when this call throws, nothing; otherwise it appends what `Appended`
      names. */
  lemma CallStore(prev: CallsRun, fc: FunctionCall, stamp: Stamp, r: CallsRun)
    requires InsertArgsGiven(fc)
    requires r == if prev.thrown then prev
      else match Dispatch(prev.store, fc, stamp)
        case None => CallsRun(prev.store, prev.notes, true)
        case Some(e) => CallsRun(e.store, prev.notes + Annotation(e.status), false)
    ensures r.thrown ==> r.store == prev.store
    ensures !r.thrown ==> !prev.thrown && r.store == prev.store + Appended(fc, stamp)
  {
    if !prev.thrown && Dispatch(prev.store, fc, stamp).Some? {
      DispatchAppends(prev.store, fc, stamp);
    }
  }

  /** `CallStore` for the last call of a chunk. */
  lemma LastCallStore(store: seq<Record>, calls: seq<FunctionCall>, stamps: seq<Stamp>)
    requires CallsFit(calls, stamps) && calls != []
    ensures CallsFit(calls[..|calls| - 1], stamps[..|calls| - 1])
    ensures var n := |calls| - 1;
      var prev, r := RunCalls(store, calls[..n], stamps[..n]), RunCalls(store, calls, stamps);
      && (r.thrown ==> r.store == prev.store)
      && (!r.thrown ==> !prev.thrown && r.store == prev.store + Appended(calls[n], stamps[n]))
  {
    var n := |calls| - 1;
    RunCallsNext(store, calls, stamps, n);
    PrefixOfPrefix(calls, n + 1, n + 1);
    PrefixOfPrefix(stamps, n + 1, n + 1);
    CallStore(RunCalls(store, calls[..n], stamps[..n]), calls[n], stamps[n], RunCalls(store, calls, stamps));
  }

  /** Appending to a store that already extends `base` by `before`. */
  lemma AppendAfter<T>(base: seq<T>, before: seq<T>, more: seq<T>, mid: seq<T>, last: seq<T>)
    requires mid == base + before && last == mid + more
    ensures last == base + (before + more)
  {
  }

  /** A prefix of a prefix, and the whole sequence as its own prefix. */
  lemma PrefixOfPrefix<T>(xs: seq<T>, n: nat, k: nat)
    requires k <= n <= |xs|
    ensures xs[..n][..k] == xs[..k] && xs[..|xs|] == xs
  {
  }

  /** How many of a chunk's calls ran: the store after the chunk is the
      store before it followed by the records of those calls' inserts. */
  lemma {:induction false} CallsRan(store: seq<Record>, calls: seq<FunctionCall>, stamps: seq<Stamp>) returns (k: nat)
    requires CallsFit(calls, stamps)
    ensures k <= |calls| && CallsFit(calls[..k], stamps[..k])
    ensures RunCalls(store, calls, stamps).store == store + Inserted(calls[..k], stamps[..k])
    ensures !RunCalls(store, calls, stamps).thrown ==> k == |calls|
    decreases |calls|
  {
    if calls == [] {
      PrefixOfPrefix(calls, 0, 0);
      PrefixOfPrefix(stamps, 0, 0);
      return 0;
    }
    var n := |calls| - 1;
    var r := RunCalls(store, calls, stamps);
    var prev := RunCalls(store, calls[..n], stamps[..n]);
    LastCallStore(store, calls, stamps);
    k := CallsRan(store, calls[..n], stamps[..n]);
    PrefixOfPrefix(calls, n, k);
    PrefixOfPrefix(stamps, n, k);
    if !r.thrown {
      InsertedNext(calls, stamps);
      AppendAfter(store, Inserted(calls[..n], stamps[..n]), Appended(calls[n], stamps[n]), prev.store, r.store);
      PrefixOfPrefix(calls, n, n);
      PrefixOfPrefix(stamps, n, n);
      k := |calls|;
    }
  }

  /** A chunk's calls only ever append to the store: the records of the
      inserts that ran, in call order; every call runs unless one throws. */
  lemma RunCallsStore(store: seq<Record>, calls: seq<FunctionCall>, stamps: seq<Stamp>)
    requires CallsFit(calls, stamps)
    ensures exists k :: (0 <= k <= |calls|
      && RunCalls(store, calls, stamps).store == store + Inserted(calls[..k], stamps[..k])
      && (!RunCalls(store, calls, stamps).thrown ==> k == |calls|))
  {
    var k := CallsRan(store, calls, stamps);
  }

  /** How one chunk ends: the turn goes on with a new state, or a call threw
      and only its effect on the store remains. */
  datatype StepResult = Continued(state: TurnState) | Aborted(store: seq<Record>)

  /** One chunk: tool calls first, then the text delta, then the sources. */
  function Step(st: TurnState, chunk: Chunk, stamps: seq<Stamp>): (r: StepResult)
    requires CallsFit(chunk.functionCalls, stamps)
    ensures var store := if r.Continued? then r.state.store else r.store;
      |st.store| <= |store| && store[..|st.store|] == st.store
    ensures r.Continued? ==> |st.sources| <= |r.state.sources| && r.state.sources[..|st.sources|] == st.sources
  {
    var r := RunCalls(st.store, chunk.functionCalls, stamps);
    if r.thrown then Aborted(r.store)
    else Continued(TurnState(r.store, st.content + r.notes + chunk.text, MergeSources(st.sources, chunk.groundingChunks)))
  }

  /** The reply only grows: a chunk appends its calls' annotations and then
      its text, and the source list keeps its old entries as a prefix. */
  lemma StepGrows(st: TurnState, chunk: Chunk, stamps: seq<Stamp>)
    requires CallsFit(chunk.functionCalls, stamps)
    requires Step(st, chunk, stamps).Continued?
    ensures var next := Step(st, chunk, stamps).state;
      && next.content == st.content + RunCalls(st.store, chunk.functionCalls, stamps).notes + chunk.text
      && |st.sources| <= |next.sources| && next.sources[..|st.sources|] == st.sources
  {
    MergeSourcesSpec(st.sources, chunk.groundingChunks);
  }

  /** None of the calls is an insert. */
  predicate NoInserts(calls: seq<FunctionCall>) {
    forall k :: 0 <= k < |calls| ==> calls[k].name != InsertTool
  }

  /** None of the chunks carries an insert. */
  predicate NoChunkInserts(chunks: seq<Chunk>) {
    forall i :: 0 <= i < |chunks| ==> NoInserts(chunks[i].functionCalls)
  }

  predicate ChunksFit(chunks: seq<Chunk>, stamps: seq<seq<Stamp>>) {
    |stamps| == |chunks| && forall i :: 0 <= i < |chunks| ==> CallsFit(chunks[i].functionCalls, stamps[i])
  }

  /** Where a turn ends: its state, how many chunks completed (and were
      published), and whether it threw. */
  datatype TurnEnd = TurnEnd(state: TurnState, completed: nat, failed: bool)

  function RunChunks(st: TurnState, chunks: seq<Chunk>, stamps: seq<seq<Stamp>>): (e: TurnEnd)
    requires ChunksFit(chunks, stamps)
    ensures e.completed <= |chunks|
    ensures !e.failed ==> e.completed == |chunks|
    decreases |chunks|
  {
    if chunks == [] then TurnEnd(st, 0, false)
    else
      var n := |chunks| - 1;
      var prev := RunChunks(st, chunks[..n], stamps[..n]);
      if prev.failed then prev
      else
        match Step(prev.state, chunks[n], stamps[n])
        case Continued(next) => TurnEnd(next, prev.completed + 1, false)
        case Aborted(store) => TurnEnd(prev.state.(store := store), prev.completed, true)
  }

  /** `RunChunks` on one more chunk of the stream. */
  lemma RunChunksNext(st: TurnState, chunks: seq<Chunk>, stamps: seq<seq<Stamp>>, i: nat)
    requires ChunksFit(chunks, stamps) && i < |chunks|
    ensures ChunksFit(chunks[..i], stamps[..i]) && ChunksFit(chunks[..i + 1], stamps[..i + 1])
    ensures var prev := RunChunks(st, chunks[..i], stamps[..i]);
      RunChunks(st, chunks[..i + 1], stamps[..i + 1]) ==
        if prev.failed then prev
        else match Step(prev.state, chunks[i], stamps[i])
          case Continued(next) => TurnEnd(next, prev.completed + 1, false)
          case Aborted(store) => TurnEnd(prev.state.(store := store), prev.completed, true)
  {
    assert chunks[..i + 1][..i] == chunks[..i] && stamps[..i + 1][..i] == stamps[..i];
  }

  /** Once a chunk has thrown, the rest of the stream is not drawn. */
  lemma {:induction false} RunChunksAfterThrow(st: TurnState, chunks: seq<Chunk>, stamps: seq<seq<Stamp>>, j: nat)
    requires ChunksFit(chunks, stamps) && j <= |chunks|
    requires RunChunks(st, chunks[..j], stamps[..j]).failed
    ensures RunChunks(st, chunks, stamps) == RunChunks(st, chunks[..j], stamps[..j])
    decreases |chunks| - j
  {
    if j < |chunks| {
      assert chunks[..j + 1][..j] == chunks[..j] && stamps[..j + 1][..j] == stamps[..j];
      RunChunksAfterThrow(st, chunks, stamps, j + 1);
    } else {
      assert chunks[..j] == chunks && stamps[..j] == stamps;
    }
  }

  /** The whole turn: the chunks, then the stream's own throw if it has one. */
  function RunStream(st: TurnState, stream: Stream, stamps: seq<seq<Stamp>>): (e: TurnEnd)
    requires ChunksFit(stream.chunks, stamps)
    ensures stream.breaks ==> e.failed
    ensures !e.failed ==> e.completed == |stream.chunks|
    ensures e.state == RunChunks(st, stream.chunks, stamps).state
  {
    var e := RunChunks(st, stream.chunks, stamps);
    if stream.breaks then e.(failed := true) else e
  }

  /** The stream's own throw changes nothing that is published. */
  lemma StreamPublished(base: seq<Message>, id: string, st: TurnState, stream: Stream, stamps: seq<seq<Stamp>>)
    requires ChunksFit(stream.chunks, stamps)
    ensures var e, drained := RunStream(st, stream, stamps), RunChunks(st, stream.chunks, stamps);
      && e.failed == (drained.failed || stream.breaks)
      && Published(base, id, e) == Published(base, id, drained)
  {
  }

  /** Over a whole turn the reply and the source list only grow, and
      without a throw every chunk is published. */
  lemma {:induction false} TurnGrows(st: TurnState, chunks: seq<Chunk>, stamps: seq<seq<Stamp>>)
    requires ChunksFit(chunks, stamps)
    ensures var e := RunChunks(st, chunks, stamps);
      && |st.content| <= |e.state.content| && e.state.content[..|st.content|] == st.content
      && |st.sources| <= |e.state.sources| && e.state.sources[..|st.sources|] == st.sources
      && e.completed <= |chunks|
      && (!e.failed ==> e.completed == |chunks|)
    decreases |chunks|
  {
    if chunks != [] {
      var n := |chunks| - 1;
      assert ChunksFit(chunks[..n], stamps[..n]);
      TurnGrows(st, chunks[..n], stamps[..n]);
      var prev := RunChunks(st, chunks[..n], stamps[..n]);
      if !prev.failed && Step(prev.state, chunks[n], stamps[n]).Continued? {
        StepGrows(prev.state, chunks[n], stamps[n]);
        var next := Step(prev.state, chunks[n], stamps[n]).state;
        assert next.content[..|prev.state.content|] == prev.state.content;
        assert next.content[..|st.content|] == prev.state.content[..|st.content|];
        assert next.sources[..|st.sources|] == prev.state.sources[..|st.sources|];
      }
    }
  }

  /** The insert of "buy milk" into "notes", alone in its chunk. */
  lemma NotesInsertRuns(store: seq<Record>, stamp: Stamp)
    requires !stamp.refused
    ensures var ins := FunctionCall(InsertTool, map["collection" := "notes", "document" := "buy milk"]);
      && CallsFit([ins], [stamp])
      && RunCalls(store, [ins], [stamp]) ==
           CallsRun(store + [Record(stamp.id, "notes", "buy milk", stamp.createdAt)],
                    Annotation("Successfully stored in notes"), false)
  {
    var ins := FunctionCall(InsertTool, map["collection" := "notes", "document" := "buy milk"]);
    assert [ins][..0] == [] && [stamp][..0] == [];
  }

  /** A chunk with only text appends it to the reply. */
  lemma TextChunkStep(st: TurnState, text: string)
    ensures Step(st, Chunk([], text, []), []) == Continued(st.(content := st.content + text))
  {
    assert st.content + "" + text == st.content + text;
  }

  /** A chunk with only the `buy milk` insert appends its record and its
      note. */
  lemma NotesInsertStep(st: TurnState, stamp: Stamp)
    requires !stamp.refused
    ensures var ins := FunctionCall(InsertTool, map["collection" := "notes", "document" := "buy milk"]);
      && CallsFit([ins], [stamp])
      && Step(st, Chunk([ins], "", []), [stamp]) == Continued(TurnState(
           st.store + [Record(stamp.id, "notes", "buy milk", stamp.createdAt)],
           st.content + Annotation("Successfully stored in notes"), st.sources))
  {
    NotesInsertRuns(st.store, stamp);
    assert st.content + Annotation("Successfully stored in notes") + ""
      == st.content + Annotation("Successfully stored in notes");
  }

  /** A text chunk, an insert of "buy milk" into "notes", and a second text
      chunk: the reply is the first text, the insert's note, the second text,
      and the store gains exactly that one record. */
  lemma InsertBetweenTexts(store: seq<Record>, stamp: Stamp)
    requires !stamp.refused
    ensures var ins := FunctionCall(InsertTool, map["collection" := "notes", "document" := "buy milk"]);
      var chunks := [Chunk([], "Hello", []), Chunk([ins], "", []), Chunk([], " Done.", [])];
      var stamps := [[], [stamp], []];
      && ChunksFit(chunks, stamps)
      && RunChunks(TurnState(store, "", []), chunks, stamps) == TurnEnd(
           TurnState(store + [Record(stamp.id, "notes", "buy milk", stamp.createdAt)],
                     "Hello" + Annotation("Successfully stored in notes") + " Done.", []),
           3, false)
  {
    var ins := FunctionCall(InsertTool, map["collection" := "notes", "document" := "buy milk"]);
    var chunks := [Chunk([], "Hello", []), Chunk([ins], "", []), Chunk([], " Done.", [])];
    var stamps: seq<seq<Stamp>> := [[], [stamp], []];
    var r := Record(stamp.id, "notes", "buy milk", stamp.createdAt);
    var st := TurnState(store, "", []);
    NotesInsertStep(TurnState(store, "Hello", []), stamp);
    assert ChunksFit(chunks, stamps);
    var s1 := TurnState(store, "Hello", []);
    var s2 := TurnState(store + [r], "Hello" + Annotation("Successfully stored in notes"), []);
    var s3 := TurnState(store + [r], "Hello" + Annotation("Successfully stored in notes") + " Done.", []);
    RunChunksNext(st, chunks, stamps, 0);
    TextChunkStep(st, "Hello");
    assert chunks[..0] == [] && stamps[..0] == [];
    assert RunChunks(st, chunks[..1], stamps[..1]) == TurnEnd(s1, 1, false);
    RunChunksNext(st, chunks, stamps, 1);
    assert RunChunks(st, chunks[..2], stamps[..2]) == TurnEnd(s2, 2, false);
    RunChunksNext(st, chunks, stamps, 2);
    TextChunkStep(s2, " Done.");
    PrefixOfPrefix(chunks, 3, 3);
    PrefixOfPrefix(stamps, 3, 3);
  }

  /** The same insert, refused by the storage, aborts its chunk and leaves
      the store as it was. */
  lemma RefusedInsertStep(st: TurnState, stamp: Stamp)
    requires stamp.refused
    ensures var ins := FunctionCall(InsertTool, map["collection" := "notes", "document" := "buy milk"]);
      && CallsFit([ins], [stamp])
      && Step(st, Chunk([ins], "", []), [stamp]) == Aborted(st.store)
  {
    var ins := FunctionCall(InsertTool, map["collection" := "notes", "document" := "buy milk"]);
    assert [ins][..0] == [] && [stamp][..0] == [];
  }

  /** The scenario of `InsertBetweenTexts` with the storage refusing the
      insert: the turn throws into the catch after the first chunk, the store
      is unchanged, and the second text never arrives. */
  lemma RefusedInsertEndsTurn(store: seq<Record>, stamp: Stamp)
    requires stamp.refused
    ensures var ins := FunctionCall(InsertTool, map["collection" := "notes", "document" := "buy milk"]);
      var chunks := [Chunk([], "Hello", []), Chunk([ins], "", []), Chunk([], " Done.", [])];
      var stamps := [[], [stamp], []];
      && ChunksFit(chunks, stamps)
      && RunChunks(TurnState(store, "", []), chunks, stamps) == TurnEnd(TurnState(store, "Hello", []), 1, true)
  {
    var ins := FunctionCall(InsertTool, map["collection" := "notes", "document" := "buy milk"]);
    var chunks := [Chunk([], "Hello", []), Chunk([ins], "", []), Chunk([], " Done.", [])];
    var stamps: seq<seq<Stamp>> := [[], [stamp], []];
    var st := TurnState(store, "", []);
    var s1 := TurnState(store, "Hello", []);
    RefusedInsertStep(s1, stamp);
    assert ChunksFit(chunks, stamps);
    RunChunksNext(st, chunks, stamps, 0);
    TextChunkStep(st, "Hello");
    assert chunks[..0] == [] && stamps[..0] == [];
    assert RunChunks(st, chunks[..1], stamps[..1]) == TurnEnd(s1, 1, false);
    RunChunksNext(st, chunks, stamps, 1);
    assert RunChunks(st, chunks[..2], stamps[..2]) == TurnEnd(s1, 1, true);
    RunChunksAfterThrow(st, chunks, stamps, 2);
  }

  // ---------------------------------------------------------------------
  // The transcript

  /** `prev.map(m => m.id === id ? { ...m, content, sources } : m)`: every
      message with that id is rewritten. */
  function Publish(msgs: seq<Message>, id: string, content: string, sources: seq<Source>): (p: seq<Message>)
    ensures |p| == |msgs|
    ensures forall i :: 0 <= i < |msgs| ==>
      p[i].id == msgs[i].id && p[i].role == msgs[i].role && p[i].timestamp == msgs[i].timestamp
  {
    seq(|msgs|, i requires 0 <= i < |msgs| =>
      if msgs[i].id == id then msgs[i].(content := content, sources := sources) else msgs[i])
  }

  /** Publishing keeps the transcript's length, rewrites the messages with
      the id and only those, and each publish overrides the one before. */
  lemma PublishSpec(msgs: seq<Message>, id: string, content: string, sources: seq<Source>)
    ensures var p := Publish(msgs, id, content, sources);
      && |p| == |msgs|
      && (forall i :: 0 <= i < |msgs| && msgs[i].id != id ==> p[i] == msgs[i])
      && (forall i :: 0 <= i < |msgs| && msgs[i].id == id ==>
            p[i] == Message(id, msgs[i].role, content, msgs[i].timestamp, sources))
      && forall c, s :: Publish(p, id, c, s) == Publish(msgs, id, c, s)
  {
  }

  /** A republish overrides the one before it. */
  lemma PublishOverride(msgs: seq<Message>, id: string, c1: string, s1: seq<Source>, c2: string, s2: seq<Source>)
    ensures Publish(Publish(msgs, id, c1, s1), id, c2, s2) == Publish(msgs, id, c2, s2)
  {
  }

  /** The transcript as a renderer sees it at the end of a turn: the reply is
      published only once a chunk has completed. */
  function Published(base: seq<Message>, id: string, e: TurnEnd): (p: seq<Message>)
    ensures |p| == |base|
    ensures forall i :: 0 <= i < |base| && base[i].id != id ==> p[i] == base[i]
  {
    if e.completed == 0 then base else Publish(base, id, e.state.content, e.state.sources)
  }

  /** The user's message: the input as typed, with the first clock reading
      as its id. */
  function UserMessage(text: string, clock: Clock): (m: Message)
    ensures m.role == User && m.content == text && m.timestamp == clock.userTime && m.sources == []
    ensures ParseDecimal(m.id) == Some(clock.userId)
  {
    DecimalRoundTrip(clock.userId);
    Message(Decimal(clock.userId), User, text, clock.userTime, [])
  }

  /** `(Date.now() + 1).toString()`. */
  function AssistantId(clock: Clock): (id: string)
    ensures ParseDecimal(id) == Some(clock.assistantId + 1)
  {
    DecimalRoundTrip(clock.assistantId + 1);
    Decimal(clock.assistantId + 1)
  }

  /** The system message that ends a turn that threw. */
  function ErrorMessage(clock: Clock): (m: Message)
    ensures m.role == System && m.content == ErrorText && m.timestamp == clock.errorTime && m.sources == []
    ensures ParseDecimal(m.id) == Some(clock.errorId)
  {
    DecimalRoundTrip(clock.errorId);
    Message(Decimal(clock.errorId), System, ErrorText, clock.errorTime, [])
  }

  /** The chat view's state: the transcript, the input box and the in-flight
      flag, beside the browser storage the tools write. */
  class ChatSession {
    var messages: seq<Message>
    var input: string
    var isLoading: bool
    const storage: Storage

    constructor (storage: Storage, now: nat)
      ensures messages == [Message("1", Assistant, WelcomeText, now, [])]
      ensures input == "" && !isLoading && this.storage == storage
    {
      messages := [Message("1", Assistant, WelcomeText, now, [])];
      input := "";
      isLoading := false;
      this.storage := storage;
    }

    /** The input box's `onChange`. */
    method SetInput(text: string)
      modifies this`input
      ensures input == text
    {
      input := text;
    }

    /** Runs one chunk's tool calls in order, appending each status note to
        `content`; stops at the first call that throws. */
    method RunToolCalls(content: string, calls: seq<FunctionCall>, stamps: seq<Stamp>)
      returns (newContent: string, thrown: bool)
      requires CallsFit(calls, stamps)
      modifies storage
      ensures var r := RunCalls(old(storage.Records()), calls, stamps);
        && storage.Records() == r.store && thrown == r.thrown && newContent == content + r.notes
      ensures storage.items - {StoreKey} == old(storage.items) - {StoreKey}
      ensures NoInserts(calls) ==> storage.items == old(storage.items)
    {
      ghost var store0 := storage.Records();
      ghost var quiet := NoInserts(calls);
      newContent, thrown := content, false;
      var j := 0;
      while j < |calls| && !thrown
        invariant 0 <= j <= |calls|
        invariant var r := RunCalls(store0, calls[..j], stamps[..j]);
          && storage.Records() == r.store && thrown == r.thrown && newContent == content + r.notes
        invariant storage.items - {StoreKey} == old(storage.items) - {StoreKey}
        invariant quiet ==> storage.items == old(storage.items)
      {
        ghost var prev := RunCalls(store0, calls[..j], stamps[..j]);
        var status, t := CallTool(storage, calls[j], stamps[j]);
        RunCallsOutcome(store0, calls, stamps, j, status, t, storage.Records());
        if t {
          thrown := true;
        } else {
          AppendAssoc(content, prev.notes, Annotation(status));
          newContent := newContent + Annotation(status);
        }
        j := j + 1;
      }
      if thrown {
        RunCallsAfterThrow(store0, calls, stamps, j);
      } else {
        PrefixOfPrefix(calls, j, j);
        PrefixOfPrefix(stamps, j, j);
      }
    }

    /** One pass of the `for await` loop: the chunk's tool calls, then its
        text, then its sources. */
    method ProcessChunk(content: string, sources: seq<Source>, chunk: Chunk, stamps: seq<Stamp>)
      returns (newContent: string, newSources: seq<Source>, thrown: bool)
      requires CallsFit(chunk.functionCalls, stamps)
      modifies storage
      ensures var r := Step(TurnState(old(storage.Records()), content, sources), chunk, stamps);
        && thrown == r.Aborted?
        && (r.Aborted? ==> storage.Records() == r.store)
        && (r.Continued? ==> r.state == TurnState(storage.Records(), newContent, newSources))
      ensures storage.items - {StoreKey} == old(storage.items) - {StoreKey}
      ensures NoInserts(chunk.functionCalls) ==> storage.items == old(storage.items)
    {
      newContent, thrown := RunToolCalls(content, chunk.functionCalls, stamps);
      newSources := sources;
      if !thrown {
        newContent := newContent + chunk.text;
        newSources := MergeSources(sources, chunk.groundingChunks);
      }
    }

    /** One pass of the `for await` loop within a turn that has not thrown:
        the chunk is processed and, unless it threw, the reply republished.
        The turn then stands where `RunChunks` says it stands after one more
        chunk. */
    method DrainChunk(ghost st0: TurnState, chunks: seq<Chunk>, stamps: seq<seq<Stamp>>, i: nat,
                      ghost base: seq<Message>, assistantId: string, content: string, sources: seq<Source>)
      returns (newContent: string, newSources: seq<Source>, thrown: bool)
      requires ChunksFit(chunks, stamps) && i < |chunks|
      requires ChunksFit(chunks[..i], stamps[..i])
      requires var prev := RunChunks(st0, chunks[..i], stamps[..i]);
        && !prev.failed
        && prev.state == TurnState(storage.Records(), content, sources)
        && messages == Published(base, assistantId, prev)
      modifies this`messages, storage
      ensures ChunksFit(chunks[..i + 1], stamps[..i + 1])
      ensures var next := RunChunks(st0, chunks[..i + 1], stamps[..i + 1]);
        && next.failed == thrown
        && next.state == TurnState(storage.Records(), newContent, newSources)
        && messages == Published(base, assistantId, next)
      ensures storage.items - {StoreKey} == old(storage.items) - {StoreKey}
      ensures NoInserts(chunks[i].functionCalls) ==> storage.items == old(storage.items)
    {
      ghost var prev := RunChunks(st0, chunks[..i], stamps[..i]);
      RunChunksNext(st0, chunks, stamps, i);
      ghost var step := Step(prev.state, chunks[i], stamps[i]);
      var thrownHere;
      newContent, newSources, thrownHere := ProcessChunk(content, sources, chunks[i], stamps[i]);
      thrown := thrownHere;
      if thrown {
        newContent, newSources := content, sources;
        assert RunChunks(st0, chunks[..i + 1], stamps[..i + 1]) ==
          TurnEnd(TurnState(step.store, content, sources), prev.completed, true);
      } else {
        assert step.state == TurnState(storage.Records(), newContent, newSources);
        assert RunChunks(st0, chunks[..i + 1], stamps[..i + 1]) == TurnEnd(step.state, prev.completed + 1, false);
        if prev.completed > 0 {
          PublishOverride(base, assistantId, prev.state.content, prev.state.sources, newContent, newSources);
        }
        messages := Publish(messages, assistantId, newContent, newSources);
      }
    }

    /** The `for await` loop of a turn whose assistant message has id
        `assistantId`: every completed chunk republishes the reply; the loop
        stops at the first chunk that throws. */
    method DrainStream(chunks: seq<Chunk>, stamps: seq<seq<Stamp>>, assistantId: string) returns (failed: bool)
      requires ChunksFit(chunks, stamps)
      modifies this`messages, storage
      ensures var e := RunChunks(TurnState(old(storage.Records()), "", []), chunks, stamps);
        && failed == e.failed
        && storage.Records() == e.state.store
        && messages == Published(old(messages), assistantId, e)
      ensures storage.items - {StoreKey} == old(storage.items) - {StoreKey}
      ensures NoChunkInserts(chunks) ==> storage.items == old(storage.items)
    {
      ghost var base := messages;
      ghost var st0 := TurnState(storage.Records(), "", []);
      ghost var quiet := NoChunkInserts(chunks);
      var content := "";
      var sources: seq<Source> := [];
      var i := 0;
      failed := false;
      assert chunks[..0] == [] && stamps[..0] == [];
      while i < |chunks| && !failed
        invariant 0 <= i <= |chunks|
        invariant ChunksFit(chunks[..i], stamps[..i])
        invariant RunChunks(st0, chunks[..i], stamps[..i]).failed == failed
        invariant RunChunks(st0, chunks[..i], stamps[..i]).state == TurnState(storage.Records(), content, sources)
        invariant messages == Published(base, assistantId, RunChunks(st0, chunks[..i], stamps[..i]))
        invariant storage.items - {StoreKey} == old(storage.items) - {StoreKey}
        invariant quiet ==> storage.items == old(storage.items)
      {
        content, sources, failed := DrainChunk(st0, chunks, stamps, i, base, assistantId, content, sources);
        i := i + 1;
      }
      if failed {
        RunChunksAfterThrow(st0, chunks, stamps, i);
      } else {
        assert chunks[..i] == chunks && stamps[..i] == stamps;
      }
    }

    /** The start of a turn: the user message and an empty assistant
        message are added, the input box is cleared and the turn is marked
        in flight. */
    method OpenTurn(clock: Clock) returns (assistantId: string)
      modifies this`messages, this`input, this`isLoading
      ensures assistantId == AssistantId(clock)
      ensures messages == old(messages) + [UserMessage(old(input), clock),
                                           Message(assistantId, Assistant, "", clock.assistantTime, [])]
      ensures input == "" && isLoading
    {
      messages := messages + [UserMessage(input, clock)];
      input := "";
      isLoading := true;
      assistantId := AssistantId(clock);
      messages := messages + [Message(assistantId, Assistant, "", clock.assistantTime, [])];
    }

    /** The end of a turn: a system message if it threw, and the turn is no
        longer in flight. */
    method CloseTurn(failed: bool, clock: Clock)
      modifies this`messages, this`isLoading
      ensures messages == old(messages) + (if failed then [ErrorMessage(clock)] else [])
      ensures !isLoading
    {
      if failed {
        messages := messages + [ErrorMessage(clock)];
      }
      isLoading := false;
    }

    /** The body of `handleSend` past its guard: it adds the user message and
        an empty assistant message, drains the stream, adds a system message
        if the turn throws, and clears the in-flight flag. */
    method RunTurn(stream: Stream, stamps: seq<seq<Stamp>>, clock: Clock)
      requires ChunksFit(stream.chunks, stamps)
      modifies this, storage
      ensures var e := RunStream(TurnState(old(storage.Records()), "", []), stream, stamps);
        var base := old(messages) + [UserMessage(old(input), clock),
                                     Message(AssistantId(clock), Assistant, "", clock.assistantTime, [])];
        && storage.Records() == e.state.store
        && storage.items - {StoreKey} == old(storage.items) - {StoreKey}
        && messages == Published(base, AssistantId(clock), e) + (if e.failed then [ErrorMessage(clock)] else [])
        && input == "" && !isLoading
      ensures NoChunkInserts(stream.chunks) ==> storage.items == old(storage.items)
    {
      ghost var st0 := TurnState(storage.Records(), "", []);
      var assistantId := OpenTurn(clock);
      ghost var base := messages;
      var failed := DrainStream(stream.chunks, stamps, assistantId);
      StreamPublished(base, assistantId, st0, stream, stamps);
      CloseTurn(failed || stream.breaks, clock);
    }

    /** `handleSend`: ignored when the input is blank or a turn is in
        flight; otherwise the turn runs as `RunTurn` states. */
    method HandleSend(stream: Stream, stamps: seq<seq<Stamp>>, clock: Clock)
      requires ChunksFit(stream.chunks, stamps)
      modifies this, storage
      ensures IsBlank(old(input)) || old(isLoading) ==>
        && messages == old(messages) && input == old(input) && isLoading == old(isLoading)
        && storage.items == old(storage.items)
      ensures !IsBlank(old(input)) && !old(isLoading) ==>
        var e := RunStream(TurnState(old(storage.Records()), "", []), stream, stamps);
        var base := old(messages) + [UserMessage(old(input), clock),
                                     Message(AssistantId(clock), Assistant, "", clock.assistantTime, [])];
        && storage.Records() == e.state.store
        && storage.items - {StoreKey} == old(storage.items) - {StoreKey}
        && messages == Published(base, AssistantId(clock), e) + (if e.failed then [ErrorMessage(clock)] else [])
        && input == "" && !isLoading
      ensures NoChunkInserts(stream.chunks) ==> storage.items == old(storage.items)
    {
      if IsBlank(input) || isLoading {
        return;
      }
      RunTurn(stream, stamps, clock);
    }
  }
}
