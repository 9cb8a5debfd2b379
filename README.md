# Prism chat turn and neural record store, in Dafny

This project models two parts of the Prism front end:

- **The chat assistant's send** (`handleSend` in `components/ChatInterface.tsx`). A send:
  - is ignored when the input is blank or a turn is already in flight;
  - appends the user message and an empty assistant message;
  - drains the model's chunk stream;
  - runs every `db_insert` and `db_find` call a chunk carries against the record store kept in browser storage under `prism_db`;
  - splices each call's status into the reply as `\n*[Accessing Neural DB: …]*\n`, then appends the chunk's text;
  - merges the chunk's web grounding sources by uri;
  - republishes the reply after every chunk.

  If anything throws, the turn ends with a system error message. The in-flight flag is cleared either way.
- **The record browser** (`components/DatabaseToolkit.tsx`). It:
  - reloads the stored array;
  - shows the records that match the search box, newest first;
  - lists the distinct collection labels in order of first occurrence;
  - flushes the store when the user confirms.

Modules:

- `Text` (`text.dfy`): the string operations borrowed from JavaScript. These are `toLowerCase` (ASCII letters), `includes`, and the blank test `!s.trim()` over ECMAScript's whitespace set.
- `Json` (`json.dfy`): `JSON.stringify` of a string (quotes, escapes, lower-case `\u00xx` for control characters) and of a non-negative integer. Each has a parser as its partner, and both round trips are proved.
- `Records` (`records.dfy`):
  - the `Record` value (`_id`, `collection`, `data`, `createdAt`);
  - the browser storage as a class over a key-to-array map;
  - the case-insensitive search shared by both readers;
  - the serialization of a match list.
- `NeuralDb` (`neural_db.dfy`): the tool dispatcher, as a specification function (`Dispatch`) and as the method that runs one call against the storage (`CallTool`).
- `Chat` (`chat.dfy`):
  - source conversion and merging;
  - a chunk's calls (`RunCalls`) and one chunk (`Step`);
  - a whole turn as a function of the stream (`RunChunks`, `RunStream`);
  - the transcript update (`Publish`);
  - the `ChatSession` class, whose loop methods are proved against those functions.
- `MemoryBrowser` (`memory_browser.dfy`): the filter-and-reverse view, `Distinct` (`Array.from(new Set(…))`) and the `Browser` class.

The environment is passed in as parameters:

- The model's stream is a `Stream`: the chunks it delivers, plus whether it throws after them.
- `Date.now()` readings are a `Clock` per send, plus a `Stamp` per tool call: the random `_id` and `createdAt` an insert uses, and whether the browser storage refuses the call's `getItem` or `setItem`.
- The user's answer to the flush dialog is a `bool`.

### Where the code falls short of what it evidently intends (the model follows the code)

- Malformed stored text. A store that does not parse is evidently meant to read as empty, but the code passes the stored text to `JSON.parse` unguarded (`ChatInterface.tsx:63`, `:74`; `DatabaseToolkit.tsx:10`), so it throws. The model holds the store as a parsed array and does not model malformed text (see Left out).
- Record ids. A record's `_id` is meant to identify it, but the code draws it from `Math.random` and never checks it against the store (`ChatInterface.tsx:65`). The model takes ids as inputs and assumes nothing about them:
  - As written: `NeuralDb.RepeatedStampRepeatsId` shows two inserts that draw one `_id` leaving two records under it, so `NeuralDb.IdsDistinct` fails.
  - As intended: `NeuralDb.FreshIdKeepsIdsDistinct` proves that when the drawn id is not already in the store, every call keeps the ids distinct.
- Insert-then-find. A document stored by `db_insert` is meant to be found by `db_find` with any piece of its text. The code searches the *serialized* `data` (`ChatInterface.tsx:77`), so a piece that spans a character `JSON.stringify` escapes is not found:
  - As written: `NeuralDb.EscapedDocumentNotFound` gives the input (document `a"b`, query `a"`). `NeuralDb.InsertThenFind` proves the search succeeds for documents without such characters, under the model's lowering (see Left out).
  - As intended: `Records.MatchesText` and `Records.FindText` search the lower-cased document itself. `NeuralDb.InsertThenFindText` proves that an inserted record is found by every piece of its document, escaped characters included, under the model's lowering (see Left out). `NeuralDb.EscapedDocumentFoundByText` shows that this search finds the record from the counterexample.
- Source uniqueness. A reply's sources are meant to carry each uri once. The code checks new entries only against the list from earlier chunks (`ChatInterface.tsx:101`):
  - As written: two entries with one uri in the same chunk are both kept (`Chat.MergeKeepsDuplicatesWithinChunk`). Across chunks the code does deduplicate (`Chat.MergeSourcesIdempotent`, `Chat.MergeKnownSources`).
  - As intended: `Chat.MergeSourcesUnique` checks each entry against everything collected so far, including the entries this chunk has already added (`Chat.AddUnseen`). `Chat.MergeSourcesUniqueSpec` proves its uris are pairwise distinct whenever the earlier list's are, that it loses no incoming uri, and that it equals the code's merge on any chunk without an internal repeat. `Chat.MergeUniqueDropsDuplicateWithinChunk` shows it keeping one entry of the counterexample.

The turn itself (`Chat.Step` and everything built on it) follows the code: it uses `Find` and `MergeSources`, not the intended variants.

### Other behaviour the model keeps

- Unknown tool names. A call to a tool other than `db_insert` and `db_find` leaves the store alone, and the note it leaves carries the status `ok`. This is the default `let result = "ok"` at `ChatInterface.tsx:61`, spliced in at `:85` (`NeuralDb.DispatchUnknown`).
- A `db_find` without a `query`. It throws a `TypeError` (`ChatInterface.tsx:75`), which ends the turn through the catch (`NeuralDb.DispatchFindNoQuery`).
- Refused storage. `localStorage.getItem` (`ChatInterface.tsx:63`, `:74`) throws where storage is disabled, and `setItem` (`:71`) throws when the quota is full. Either throw lands in the catch (`:110`): the record is not stored, the rest of the turn is skipped, and the system message is appended. The model carries this as the stamp's `refused` flag (`NeuralDb.DispatchRefused`, `Chat.RefusedInsertEndsTurn`).

## Model

| member | source | states |
|---|---|---|
| Text.Lower | components/ChatInterface.tsx:75 | lower-casing keeps the length |
| Text.LowerAt | components/ChatInterface.tsx:75-78 | `toLowerCase` works character by character |
| Text.LowerAppend | components/ChatInterface.tsx:77 | lower-casing a concatenation lower-cases each part |
| Text.LowerUnchanged | components/ChatInterface.tsx:78 | a string without upper-case letters is unchanged by `toLowerCase` |
| Text.Includes | components/ChatInterface.tsx:77-78 | the empty needle is included in every string, and a needle is only included in a string at least as long |
| Text.IncludesSpec | components/ChatInterface.tsx:77-78 | `includes` holds exactly when the needle occurs at some index |
| Text.IncludesWithin | components/ChatInterface.tsx:77 | a needle found in a part is found in any string containing that part |
| Text.Trim | components/ChatInterface.tsx:21 | `trim` never lengthens the input, leaves nothing exactly when every character is ECMAScript whitespace, and otherwise leaves a string that starts and ends with a non-whitespace character |
| Text.TrimSpec | components/ChatInterface.tsx:21 | the input is the trimmed text with only whitespace before it and only whitespace after it |
| Text.IsBlank | components/ChatInterface.tsx:21 | `!input.trim()` holds exactly when every character of the input is whitespace, the empty input included |
| Json.EscapeChar | components/ChatInterface.tsx:71 | `JSON.stringify` writes a character as itself exactly when it is not a quote, a backslash or a control character, and otherwise as an escape of at least two characters |
| Json.Escape | components/ChatInterface.tsx:71 | escaping never shortens a string, and leaves it unchanged exactly when none of its characters needs an escape |
| Json.Quote | components/ChatInterface.tsx:77 | `JSON.stringify` of a string is wrapped in double quotes |
| Json.Unescape | components/ChatInterface.tsx:63 | reading a string body back never gives more characters than the body has |
| Json.UnescapeControl | components/ChatInterface.tsx:63 | a `\u00xx` escape of a control character reads back as that character, whatever follows |
| Json.UnescapeEscapeChar | components/ChatInterface.tsx:63 | every escaped character reads back as itself, whatever follows |
| Json.UnescapeEscape | components/ChatInterface.tsx:71 | unescaping the escaped text gives back the original string |
| Json.QuoteRoundTrip | components/ChatInterface.tsx:71-74 | parsing the serialization of a string gives back that string, so a stored string field reads back unchanged |
| Json.Decimal | components/ChatInterface.tsx:24 | `toString()` of a timestamp-sized integer is a non-empty run of decimal digits |
| Json.DecimalRoundTrip | components/ChatInterface.tsx:68 | a timestamp's decimal text parses back to the number, is non-empty, and starts with `0` only for zero |
| Records.Storage.constructor | components/ChatInterface.tsx:63 | the storage starts with the given key-to-array map |
| Records.Storage.Records | components/ChatInterface.tsx:63 | reading `prism_db` gives the stored array, or the empty array when the key is absent |
| Records.Storage.Save | components/ChatInterface.tsx:71 | writing `prism_db` replaces that key only, and a read gives back what was written |
| Records.Matches | components/ChatInterface.tsx:76-78 | the empty query matches every record, and so does a query equal to the record's collection up to case |
| Records.Filter | components/ChatInterface.tsx:76-79 | filtering never lengthens the list |
| Records.FilterAppend | components/ChatInterface.tsx:76-79 | filtering a concatenation concatenates the filtered parts |
| Records.FilterMembers | components/ChatInterface.tsx:76-79 | a record is kept exactly when it is in the input and accepted |
| Records.FilterSameKeep | components/DatabaseToolkit.tsx:28-31 | two tests that agree on every record filter alike |
| Records.Find | components/ChatInterface.tsx:74-79 | a search never returns more records than are stored, and returns a record exactly when it is stored and its serialized data or its collection contains the query, ignoring case |
| Records.FindAppend | components/ChatInterface.tsx:76-79 | a search over a concatenation concatenates the searches, so matches stay in store order |
| Records.FindSingle | components/ChatInterface.tsx:76-79 | a single record is found exactly when it matches |
| Records.FindEmptyQuery | components/ChatInterface.tsx:75-79 | the empty query finds the whole store, in order |
| Records.MatchesText | components/ChatInterface.tsx:76-78 | the intended search, over the lower-cased document instead of its serialization: the empty query, and a query equal to the collection up to case, match every record |
| Records.FindText | components/ChatInterface.tsx:74-79 | the intended search returns a record exactly when it is stored and its document or collection contains the query, ignoring case, and never more records than are stored |
| Records.SerializeRecord | components/ChatInterface.tsx:80 | `JSON.stringify` of one record is the object `{"_id":…,"collection":…,"data":…,"createdAt":…}`, in the insert's key order, so it starts with `{` and ends with `}` |
| Records.JoinRecords | components/ChatInterface.tsx:80 | the records' serializations joined by commas: empty exactly for no records, and otherwise starting with `{` and ending with `}` |
| Records.SerializeRecords | components/ChatInterface.tsx:80 | a serialized match list is bracketed as a JSON array |
| NeuralDb.NewRecord | components/ChatInterface.tsx:64-69 | the inserted record takes `collection` and `document` from the call, and its `_id` and `createdAt` from the stamp |
| NeuralDb.InsertStatus | components/ChatInterface.tsx:72 | the status `Successfully stored in <collection>` is neither the sentinel nor a serialized list |
| NeuralDb.FindStatus | components/ChatInterface.tsx:80 | a find's status is the "No records found." sentinel exactly when nothing matched, and otherwise the serialized matches |
| NeuralDb.Dispatch | components/ChatInterface.tsx:61-81 | a call throws exactly when it is a `db_insert` or `db_find` whose storage access is refused, or a `db_find` without a `query`; otherwise the store after it keeps the earlier store as a prefix, and only `db_insert` changes it |
| NeuralDb.DispatchInsert | components/ChatInterface.tsx:62-72 | a `db_insert` the storage takes appends exactly one record, built from `collection`, `document` and the call's stamp, after the unchanged store; the status names the collection |
| NeuralDb.DispatchFind | components/ChatInterface.tsx:73-80 | a `db_find` with a query, which the storage takes, leaves the store unchanged; its status is the sentinel exactly when no stored record matches, and otherwise the serialized matches |
| NeuralDb.DispatchFindNoQuery | components/ChatInterface.tsx:75 | a `db_find` without a query throws |
| NeuralDb.DispatchRefused | components/ChatInterface.tsx:63-74 | a `db_insert` or `db_find` whose `getItem` or `setItem` throws throws, whatever its arguments, and stores nothing |
| NeuralDb.DispatchUnknown | components/ChatInterface.tsx:61-81 | any other tool name leaves the store unchanged and reports `ok`, since it touches no storage |
| NeuralDb.CallTool | components/ChatInterface.tsx:61-81 | running a call against storage has `Dispatch`'s effect on `prism_db` and its status, a refused access included; an insert that goes through writes only `prism_db`, and a call that throws or is not an insert writes nothing |
| NeuralDb.LowerKeepsOccurrence | components/ChatInterface.tsx:75-77 | an occurrence of the query stays an occurrence after both strings are lower-cased |
| NeuralDb.InsertThenFind | components/ChatInterface.tsx:62-80 | after inserting a document with no escaped character, with the storage taking both calls, a find by any substring of it returns the new record and does not report the sentinel |
| NeuralDb.IdsDistinct | components/ChatInterface.tsx:65 | no two stored records share an `_id` |
| NeuralDb.RepeatedStampRepeatsId | components/ChatInterface.tsx:62-71 | as written, two inserts that draw the same `_id` leave two records under it, and the ids are no longer distinct |
| NeuralDb.FreshIdKeepsIdsDistinct | components/ChatInterface.tsx:62-71 | as intended, a call whose drawn id is not in the store keeps the store's ids distinct |
| NeuralDb.InsertThenFindText | components/ChatInterface.tsx:62-79 | with the intended search, an inserted record the storage takes is found by every substring of its document, escaped characters included |
| NeuralDb.SerializedDocument | components/ChatInterface.tsx:77 | the document `a"b` serializes to `"a\"b"`, with its quote escaped |
| NeuralDb.NotIncludedInSerialized | components/ChatInterface.tsx:77 | that serialization does not contain `a"` |
| NeuralDb.NotIncludedInCollection | components/ChatInterface.tsx:78 | the collection `notes` does not contain `a"`, ignoring case |
| NeuralDb.EscapedDocumentNotFound | components/ChatInterface.tsx:76-79 | the document `a"b` is not found by its own substring `a"` |
| NeuralDb.EscapedDocumentFoundByText | components/ChatInterface.tsx:76-79 | the intended search finds the document `a"b` by its substring `a"` |
| Chat.Annotation | components/ChatInterface.tsx:85 | a call's note is `\n*[Accessing Neural DB: <status>]*\n`: the status verbatim, on a line of its own |
| Chat.ToSource | components/ChatInterface.tsx:98 | a source carries the web uri (or `''` when it is absent) and the web title, or `Source` when the title is absent or empty; the title is never empty |
| Chat.WebSources | components/ChatInterface.tsx:96-98 | a chunk yields at most one source per grounding chunk |
| Chat.WebSourcesSpec | components/ChatInterface.tsx:96-98 | the chunk's sources are exactly its web entries, converted; when every grounding chunk has a web entry there is one source per chunk |
| Chat.WebSourcesAppend | components/ChatInterface.tsx:96-98 | the sources of consecutive grounding chunks are the sources of each part, in order |
| Chat.WebSourcesSingle | components/ChatInterface.tsx:97-98 | a grounding chunk gives one converted source when it has a web entry and none otherwise |
| Chat.HasUri | components/ChatInterface.tsx:101 | `some(cs => cs.uri === uri)` holds exactly when some source in the list has that uri |
| Chat.Unseen | components/ChatInterface.tsx:101 | the new entries are never more than the incoming ones, and against an empty list every incoming entry is new |
| Chat.UnseenAppend | components/ChatInterface.tsx:101 | the new entries of consecutive incoming lists are the new entries of each, in order |
| Chat.UnseenSingle | components/ChatInterface.tsx:101 | an incoming entry is new exactly when no earlier entry has its uri |
| Chat.UnseenMembers | components/ChatInterface.tsx:101 | the new entries are exactly the incoming ones whose uri the earlier list lacks |
| Chat.MergeSources | components/ChatInterface.tsx:95-103 | merging a chunk's sources keeps the earlier list as a prefix |
| Chat.MergeSourcesSpec | components/ChatInterface.tsx:95-103 | the merged list is the earlier list followed by the chunk's web sources whose uri that list lacks, in chunk order and with their repetitions; so the appended part holds exactly those sources |
| Chat.MergeKnownSources | components/ChatInterface.tsx:100-103 | a chunk whose sources are all known leaves the list unchanged |
| Chat.NothingUnseen | components/ChatInterface.tsx:101 | when every incoming uri is already collected, nothing is new |
| Chat.MergeSourcesIdempotent | components/ChatInterface.tsx:95-103 | merging the same chunk twice equals merging it once |
| Chat.MergeKeepsDuplicatesWithinChunk | components/ChatInterface.tsx:101-102 | two entries with one new uri in the same chunk are both kept |
| Chat.AddUnseen | components/ChatInterface.tsx:101-102 | the intended merge, checking each entry against everything collected so far, keeps the earlier list as a prefix |
| Chat.MergeSourcesUnique | components/ChatInterface.tsx:95-103 | the intended merge of a chunk's sources keeps the earlier list as a prefix |
| Chat.AddUnseenDistinct | components/ChatInterface.tsx:101-102 | the intended merge never repeats a uri when the earlier list does not |
| Chat.AddUnseenCovers | components/ChatInterface.tsx:101-102 | the intended merge keeps every incoming uri and adds only incoming entries |
| Chat.AddUnseenAgrees | components/ChatInterface.tsx:101-102 | on incoming entries with distinct uris, the intended merge is the code's: the earlier list followed by the new entries |
| Chat.MergeSourcesUniqueSpec | components/ChatInterface.tsx:95-103 | the intended merge has distinct uris whenever the earlier list does, loses no web source's uri, adds only web sources, and equals `MergeSources` on a chunk without an internal repeat |
| Chat.MergeUniqueDropsDuplicateWithinChunk | components/ChatInterface.tsx:101-102 | the intended merge keeps one of two entries with one new uri in the same chunk |
| Chat.RunCalls | components/ChatInterface.tsx:58-86 | a chunk's calls keep the earlier store as a prefix of the store they leave, and calls that include no `db_insert` leave the store unchanged |
| Chat.RunCallsAfterThrow | components/ChatInterface.tsx:58-86 | once a call throws, the later calls of the chunk have no effect |
| Chat.CallsRan | components/ChatInterface.tsx:58-86 | for some number of calls that ran, the store after a chunk is the store before it followed by the records of those calls' inserts, in call order; without a throw every call ran |
| Chat.RunCallsStore | components/ChatInterface.tsx:58-86 | a chunk's calls only append to the store: the records of the inserts that ran, in call order; without a throw, every call ran |
| Chat.Step | components/ChatInterface.tsx:56-104 | a chunk keeps the earlier store as a prefix of the store it leaves, whether or not it throws, and the earlier sources as a prefix when it does not |
| Chat.StepGrows | components/ChatInterface.tsx:95-103 | a chunk that does not throw keeps the earlier sources as a prefix of its sources |
| Chat.RunChunks | components/ChatInterface.tsx:55-109 | a turn completes at most as many chunks as the stream delivers, and all of them when nothing throws |
| Chat.RunChunksAfterThrow | components/ChatInterface.tsx:55-110 | once a chunk throws, the rest of the stream is not drawn |
| Chat.RunStream | components/ChatInterface.tsx:55-110 | a stream that throws fails the turn; a turn that does not fail completes every chunk; and the state is the one its chunks leave |
| Chat.StreamPublished | components/ChatInterface.tsx:106-110 | the stream's own throw fails the turn but does not change what was published |
| Chat.TurnGrows | components/ChatInterface.tsx:55-109 | over a turn the reply and the source list only grow; without a throw every chunk completes |
| Chat.NotesInsertRuns | components/ChatInterface.tsx:62-85 | an insert of `buy milk` into `notes` alone in its chunk, with the storage taking it, appends that record and leaves its success note |
| Chat.TextChunkStep | components/ChatInterface.tsx:89-92 | a chunk with only text appends it to the reply and changes nothing else |
| Chat.NotesInsertStep | components/ChatInterface.tsx:58-85 | a chunk with only the `buy milk` insert appends its record to the store and its note to the reply |
| Chat.InsertBetweenTexts | components/ChatInterface.tsx:55-109 | text, an insert into `notes`, then text: the reply is the first text, the insert's note and the second text, and the store gains that one record |
| Chat.RefusedInsertStep | components/ChatInterface.tsx:62-71 | the same insert refused by the storage aborts its chunk and leaves the store as it was |
| Chat.RefusedInsertEndsTurn | components/ChatInterface.tsx:55-110 | text, a refused insert, then text: the turn throws after one completed chunk, with the reply holding only the first text, the store unchanged, and the last chunk never drawn |
| Chat.Publish | components/ChatInterface.tsx:106-108 | republishing keeps the transcript's length and every message's id, role and timestamp |
| Chat.PublishSpec | components/ChatInterface.tsx:106-108 | republishing keeps the transcript's length, rewrites only the messages with the assistant id, and each republish overrides the previous one |
| Chat.PublishOverride | components/ChatInterface.tsx:106-108 | a republish overrides the one before it |
| Chat.Published | components/ChatInterface.tsx:55-109 | at the end of a turn the transcript keeps its length, and every message without the assistant id is unchanged |
| Chat.UserMessage | components/ChatInterface.tsx:23-28 | the user message carries the input as typed, the role `user`, the send's timestamp, no sources, and an id that reads back as the first clock reading |
| Chat.AssistantId | components/ChatInterface.tsx:35 | the assistant message's id reads back as the clock reading plus one |
| Chat.ErrorMessage | components/ChatInterface.tsx:112-117 | the system message carries `System Error: Connection to neural cluster lost.`, the role `system`, no sources, and an id that reads back as its clock reading |
| Chat.ChatSession.constructor | components/ChatInterface.tsx:7-11 | a session opens with the welcome message (id `1`), an empty input and no turn in flight |
| Chat.ChatSession.SetInput | components/ChatInterface.tsx:180 | typing replaces the input |
| Chat.ChatSession.RunToolCalls | components/ChatInterface.tsx:57-87 | the loop over a chunk's calls has `RunCalls`' effect on the store, its annotations and its throw, and writes no other key; calls with no `db_insert` write nothing at all |
| Chat.ChatSession.ProcessChunk | components/ChatInterface.tsx:56-104 | one pass of the chunk loop computes `Step`: the new reply, sources and store, or a throw and the store it left; with no `db_insert` among its calls, the storage is untouched |
| Chat.ChatSession.DrainChunk | components/ChatInterface.tsx:55-109 | one pass of the chunk loop, plus its republish, takes the turn to where `RunChunks` puts it after one more chunk; with no `db_insert` among its calls, the storage is untouched |
| Chat.ChatSession.DrainStream | components/ChatInterface.tsx:55-109 | the chunk loop computes `RunChunks`: the store, whether it threw, and the transcript with the reply republished after the last completed chunk; with no `db_insert` among its calls, the storage is untouched |
| Chat.ChatSession.OpenTurn | components/ChatInterface.tsx:23-45 | a turn appends the user message and an empty assistant message, clears the input and marks the turn in flight |
| Chat.ChatSession.CloseTurn | components/ChatInterface.tsx:110-120 | a turn that threw gains the system error message, and either way the turn is no longer in flight |
| Chat.ChatSession.RunTurn | components/ChatInterface.tsx:23-120 | the transcript gains the user message and the reply as the stream leaves it, plus the system error message if the turn threw; the store is as the turn's calls left it; the input is cleared and the in-flight flag is off; with no `db_insert` among its calls, the storage is untouched |
| Chat.ChatSession.HandleSend | components/ChatInterface.tsx:20-121 | a blank input or a turn in flight changes nothing; otherwise the send runs as `RunTurn` states, and a send whose stream carries no `db_insert` leaves the storage untouched |
| MemoryBrowser.Shown | components/DatabaseToolkit.tsx:28-30 | the browser's test, written collection first, accepts exactly the records the chat's search accepts |
| MemoryBrowser.Reverse | components/DatabaseToolkit.tsx:31 | reversing keeps the length |
| MemoryBrowser.ReverseAt | components/DatabaseToolkit.tsx:31 | element `k` of the reversal is element `n-1-k` of the input |
| MemoryBrowser.ReverseSpec | components/DatabaseToolkit.tsx:31 | the reversal holds exactly the input's records, element `k` being element `n-1-k` of the input |
| MemoryBrowser.ReverseAppend | components/DatabaseToolkit.tsx:31 | reversing a concatenation swaps and reverses the parts |
| MemoryBrowser.FilteredRecords | components/DatabaseToolkit.tsx:28-31 | the browser shows exactly what `db_find` returns for the same term, reversed |
| MemoryBrowser.FilteredSpec | components/DatabaseToolkit.tsx:28-31 | a record is shown exactly when it is stored and matches the term, and the shown list is the matches in reverse store order |
| MemoryBrowser.FilteredNewestFirst | components/DatabaseToolkit.tsx:28-31 | a newly stored record that matches is shown first, above everything shown before it arrived |
| MemoryBrowser.EmptySearchShowsAll | components/DatabaseToolkit.tsx:28-31 | an empty search box shows the whole store, newest first |
| MemoryBrowser.Labels | components/DatabaseToolkit.tsx:33 | the labels are the records' collections, one per record, in order, and a name is a label exactly when some stored record has that collection |
| MemoryBrowser.FirstIndex | components/DatabaseToolkit.tsx:33 | the index of the first occurrence of a label |
| MemoryBrowser.Distinct | components/DatabaseToolkit.tsx:33 | `Array.from(new Set(xs))` holds every value of `xs` and nothing else, each once |
| MemoryBrowser.DistinctSpec | components/DatabaseToolkit.tsx:33 | `Array.from(new Set(xs))` lists the values in order of first occurrence |
| MemoryBrowser.Collections | components/DatabaseToolkit.tsx:33 | the side bar lists a name exactly when some stored record has that collection, and lists it once |
| MemoryBrowser.CollectionsSpec | components/DatabaseToolkit.tsx:33 | the listed names are exactly the records' labels, in order of first occurrence |
| MemoryBrowser.Browser.constructor | components/DatabaseToolkit.tsx:6-7 | the view starts with no records and an empty search term |
| MemoryBrowser.Browser.LoadData | components/DatabaseToolkit.tsx:9-12 | reloading takes the stored array; an absent key gives the empty array |
| MemoryBrowser.Browser.SetSearchTerm | components/DatabaseToolkit.tsx:76 | typing replaces the search term |
| MemoryBrowser.Browser.ClearDB | components/DatabaseToolkit.tsx:21-26 | when confirmed, `prism_db` and the view become empty and no other key changes; when declined, nothing changes |
| MemoryBrowser.Browser.Displayed | components/DatabaseToolkit.tsx:28-31 | the listed records are the reversed search result over the loaded records |
| MemoryBrowser.Browser.CollectionLabels | components/DatabaseToolkit.tsx:33 | the side bar lists each loaded record's collection, each label once, and nothing else |

## Left out

- Lower-casing covers the ASCII letters only. JavaScript's full Unicode `toLowerCase` (including its length-changing mappings) is not modelled.
- A record's `data` is a string. The chat path only ever stores the `document` string. Structured values written by other means, and the browser's pretty-printing of them, are not modelled.
- Stored text that is not valid JSON is not modelled. The store is held as a parsed array of records. The code throws on non-empty text that is not valid JSON in both readers; an empty stored string reads as `[]` through `|| '[]'`.
- Lone surrogate code points in strings are not modelled. The JSON parser partner refuses `\u` escapes in the surrogate range.
- NeuralDb.CallTool: requires that a `db_insert` carries both `collection` and `document`. Their declaration marks both as required (`geminiService.ts:13`), but the code never checks them. An insert missing one of them is not modelled. In the code such an insert still succeeds and leaves a broken record in the store:
  - Without `document`, it reports `Successfully stored in <collection>` and stores a record with no `data`. Every later `db_find` then throws at `ChatInterface.tsx:77`, because that test reads `data` first. The browser's filter throws at `DatabaseToolkit.tsx:30` whenever the record's collection does not match the search term.
  - Without `collection`, it reports `Successfully stored in undefined`. The browser's filter then throws at `DatabaseToolkit.tsx:29` on every render, and a later `db_find` throws at `ChatInterface.tsx:78` whenever the record's data does not match the query.
  - Either way the record stays until the store is flushed, so it keeps breaking later searches.
  - A `db_insert` with no `args` object at all throws at `ChatInterface.tsx:66` instead, which ends the turn through the catch.
- NeuralDb.Dispatch: the same insert-arguments requirement.
- NeuralDb.InsertThenFind: holds only because `Lower` maps each character on its own. JavaScript's `toLowerCase` is context-sensitive for the final sigma: document `ΑΣΒ` lowers to `ασβ`, but query `ΑΣ` lowers to `ας`, so the program's search misses the record although nothing in it is escaped.
- NeuralDb.InsertThenFindText: holds only because `Lower` maps each character on its own. The final-sigma example defeats the intended search too.
- Chat.RunCalls: the same insert-arguments requirement, through `CallsFit`.
- Chat.Step: the same insert-arguments requirement, through `CallsFit`.
- Chat.RunChunks: the same insert-arguments requirement, through `ChunksFit`.
- Chat.RunStream: the same insert-arguments requirement, through `ChunksFit`.
- Chat.ChatSession.RunToolCalls: the same insert-arguments requirement, through `CallsFit`.
- Chat.ChatSession.ProcessChunk: the same insert-arguments requirement, through `CallsFit`.
- Chat.ChatSession.DrainChunk: the same insert-arguments requirement, through `ChunksFit`.
- Chat.ChatSession.DrainStream: the same insert-arguments requirement, through `ChunksFit`.
- Chat.ChatSession.RunTurn: the same insert-arguments requirement, through `ChunksFit`.
- Chat.ChatSession.HandleSend: the same insert-arguments requirement, through `ChunksFit`.
- Chat.ChatSession.HandleSend: the send runs as one step. Its interleaving with other events at the stream's `await` points is not modelled. The in-flight guard is stated against the flag's value when the send starts.
- Chat.ChatSession.HandleSend: when a chunk throws, the model draws no more chunks, which matches the code. A stream that throws part-way through is a `Stream` with fewer chunks and `breaks` set.
- The conversation history handed to the model (`ChatInterface.tsx:47-53`), the gateway client (`geminiService.ts`) and the model's behaviour are not modelled. The stream is an input.
- Console logging, scrolling, rendering and the Enter-key handler are not modelled, because they have no effect on the state.
- The browser's three-second reload timer (`DatabaseToolkit.tsx:14-19`) is not modelled as a timer. Each tick is one `LoadData` call.
- The flush dialog is not modelled. Its answer is the `confirmed` parameter of `ClearDB`.
- MemoryBrowser.Browser.LoadData: a refused `getItem` (`DatabaseToolkit.tsx:10`) is not modelled. In the code it throws out of the timer callback, uncaught, and the view keeps the records it had.
- MemoryBrowser.Browser.ClearDB: a refused `setItem` (`DatabaseToolkit.tsx:23`) is not modelled. In the code it throws out of the click handler, uncaught, before `setRecords([])`, so neither the store nor the view is cleared.
- The image, audio, video, dashboard and sidebar components and `App.tsx` are not part of this model.
- The optional `type` and `mediaUrl` message fields are not modelled, because the chat turn never sets them. A message without `sources` is modelled as one with an empty list.
