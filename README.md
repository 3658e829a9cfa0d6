# Conversation memory on a graph store — a Dafny model

This project models the memory subsystem of an email-answering agent that keeps its
conversations in Neo4j. It covers the following parts:

- **Ingestion.** Two serializers turn a LangChain chat history into a batch of
  message records:
  - the current one, `save_chat_history` in `backend/database/repository.py`;
  - the legacy one, `persist_chat` in `backend/memory.py`.

  The Cypher statements of `backend/database/queries.py` and the two legacy
  statements then write that batch into the graph as nodes and relationships.
- **Maintenance.** `process_pending_nodes` in `backend/services/embedder.py` embeds
  Messages that have no embedding. It also splits Sources that have no chunks yet
  into Chunks joined by FIRST/NEXT. As written, WRITE_CHUNKS keeps only chunks 0 and 1
  (see Findings).
- **Retrieval.** `retrieve_context_node` in `backend/graph/workflow.py` runs the
  threshold-gated vector lookup and turns its records into one injected system
  message.
- **Connection.** The driver holder in `backend/database/connection.py` covers the
  settings guard, the split of the schema text into statements, the schema loop that
  tolerates failing statements, and the not-initialised guard of `query`.

The Neo4j database is a class, `Store.GraphStore`:

- Each node label is a `map` keyed by the property its uniqueness constraint is on
  (User.email, Thread.id, Message.id, ToolCall.id, Source.url, Chunk.id). So a keyed
  MERGE can never create a second node with the same key.
- `rels` is the sequence of all relationships in creation order.
- MERGE of a node means "insert when the key is absent, and set the properties only
  then". MERGE of a relationship means "append when absent".

Each statement is a method of the class. Each method is proved to leave the store in
the state that a function of module `Graph` computes from the old state. The
properties are lemmas about those functions, and the store invariant `Graph.Valid` is
kept by every statement. `Valid` says:

- no relationship occurs twice;
- a node has at most one FIRST, and FIRST goes from a Thread to a Message or from a
  Source to its chunk 0;
- NEXT joins two Messages or two Chunks.

Library code is passed in as parameters and treated as uninterpreted functions:
`str()` of containers, `json.dumps`, `json.loads`, `hashlib.md5`, the embedding model,
the text splitter and the vector index ranking.

Files: `payload.dfy` (Python values and oracles), `text.dfy` (strip, split, join,
`str(int)`), `seqs.dfy` (filtering comprehensions), `messages.dfy` (chat messages and
batch entries), `graph.dfy` (graph and statement semantics), `store.dfy` (the store
class), `invariant.dfy` (the store invariant), `keys.dfy` (keyed MERGE), `conversation.dfy`
(the conversation chain), `maintenance.dfy` (chunks, vectors, link-back, legacy chain),
`lookup.dfy` (the vector lookup), `repository.dfy`, `memory.dfy`, `embedder.dfy`,
`workflow.dfy`, `connection.dfy`.

Where the code and the design intent differ, the model follows the code:

- **The current serializer uses `msg.id`.** The hashed id of
  `backend/database/repository.py:79` is commented out, so `_generate_id` is modelled
  but the batch carries the message's own id.
- **Re-ingestion breaks the chain.** The agent saves its whole accumulated history on
  every turn. The statement then MERGEs a NEXT from the current tail to a Message that
  is already on the chain. This gives a self-loop when that Message is the tail, and a
  second incoming NEXT otherwise (`Conversation.ReingestLinksTail`,
  `Conversation.ReingestSelfLoop`). The chain shape is proved only for a fresh thread
  (`Conversation.FreshThreadChain`).
- **The message branch of VECTOR_LOOKUP is not anchored to the hit.** It starts from an
  unbound `m`. It therefore returns every expansion node of the whole graph, paired
  with the hit's own content (`Lookup.MessageRowsUnanchored`,
  `Lookup.MessageIdsIgnoreHits`).
- **The current serializer drops system turns, and the legacy one keeps them** with
  role "system". Both are modelled.
- **Errors are logged and swallowed.** A failed save and a failed legacy persist are
  logged and change nothing. The link-back runs as a second statement, outside the
  turn's transaction.

## Model

| member | source | states |
|---|---|---|
| Repository.GenerateIdStable | backend/database/repository.py:15-18 | the id depends on the content only through its first 50 characters: a content extending another's first 50 characters gives the same id |
| Repository.CleanedTextCases | backend/database/repository.py:20-31 | "" for every falsy payload; a string unchanged; a non-empty dict gives str of its "text" field, else its JSON dump; a non-empty list gives its list text |
| Repository.CleanContent | backend/database/repository.py:20-31 | the loop collecting `parts` computes the cleaned text of the payload |
| Messages.ListTextIgnores | backend/database/repository.py:24-29 | a list element that is neither a string nor a dict with "text" does not change the text of the list |
| Messages.ListTextOfStrings | backend/memory.py:43-53 | a list of strings cleans to their in-order concatenation |
| Repository.ExtractNothing | backend/database/repository.py:35-42 | an unparsable string, or a payload that is neither list nor dict once parsed, yields no source |
| Repository.ExtractSingleDict | backend/database/repository.py:37-48 | a single dict, given directly or as JSON text, is read as a one-element list |
| Repository.ExtractKeepsUrlItems | backend/database/repository.py:44-48 | the sources are exactly the dict items holding "url", in order, each with its url, its title or "No Title", and its cleaned content |
| Repository.SerializeMessages | backend/database/repository.py:62-87 | the loop with `current_index` builds the serialised batch |
| Repository.SerializedIsFilter | backend/database/repository.py:65-87 | the batch is the kept messages in input order, entry i built from the i-th kept one with index i; a dropped message uses up no index |
| Repository.SerializedEntries | backend/database/repository.py:67-84 | every entry has index equal to its position, no entry is a system turn, content is present exactly for user/assistant, sources exactly for tool |
| Repository.SerializedDrops | backend/database/repository.py:71-75 | a SystemMessage or a message with blank cleaned text adds nothing to the batch |
| Repository.LastAssistantIsLast | backend/database/repository.py:103 | the selected entry is an assistant entry with none after it, and nothing is selected exactly when the batch has no assistant entry |
| Repository.FindLastAssistant | backend/database/repository.py:103 | the reversed search returns the position of the last assistant entry |
| Repository.SaveLinkBack | backend/database/repository.py:89-112 | a failed merge leaves the graph unchanged; otherwise saving adds no node beyond the merge and only SOURCED edges from the last assistant entry, and only when context ids are given |
| Repository.SaveLinksContext | backend/database/repository.py:100-110 | the last assistant entry gets SOURCED to every listed Chunk and Message that exists |
| Repository.SaveChatHistory | backend/database/repository.py:53-112 | saving serialises, merges the turn and links back the context; with no driver nothing is written; the store invariant is kept |
| LegacyMemory.MessageIdStable | backend/memory.py:17-25 | the legacy id is the same hash of thread, index, role and the first 50 characters of content, so identical histories get identical ids |
| LegacyMemory.CleanersAgree | backend/memory.py:35-61 | the legacy sanitizer agrees with the current one on None and on every truthy payload |
| LegacyMemory.CleanersDiffer | backend/memory.py:35-58 | only None maps to "": an empty dict gives its JSON dump, False and 0 are rendered, where the current sanitizer returns "" |
| LegacyMemory.CleanContent | backend/memory.py:27-61 | the loop collecting `text_parts` computes the legacy cleaned text |
| LegacyMemory.ExtractSources | backend/memory.py:63-97 | the loop collecting `valid_sources` computes the extracted sources |
| LegacyMemory.LegacyPayloads | backend/memory.py:68-83 | a non-JSON string gives nothing, a JSON object is a one-element list, list content is used directly, dict content that was not a string gives nothing |
| LegacyMemory.LegacySourcesBounded | backend/memory.py:85-93 | each source comes from a dict item with "url", in order, with that url, its title or "No Title", and a prefix of at most 500 characters of its cleaned content |
| LegacyMemory.SerializeLegacy | backend/memory.py:105-141 | the loop with `current_index` builds the legacy batch |
| LegacyMemory.LegacySerializedIsFilter | backend/memory.py:108-141 | the batch is the non-blank messages in order, entry i built from the i-th of them with index i |
| LegacyMemory.LegacyEntries | backend/memory.py:110-138 | entry i has index i; a SystemMessage keeps role "system" and an unknown class gets "unknown"; content is non-blank; sources only for a ToolMessage |
| LegacyMemory.LegacySkipsBlank | backend/memory.py:121-123 | a blank message is skipped without using up an index |
| LegacyMemory.PersistChat | backend/memory.py:99-203 | with no driver nothing is written; otherwise every entry becomes one of the thread's Messages, which are linked by NEXT in ascending index order |
| Store.GraphStore.PersistNodeQuery | backend/memory.py:144-171 | the legacy node query as one transaction: it writes the merge or, when a url is not a string, nothing |
| Store.GraphStore.ChainQuery | backend/memory.py:175-186 | the thread's Messages ordered by index get NEXT between consecutive ones, and nothing else changes |
| Store.SortByIndex | backend/memory.py:176-177 | `ORDER BY m.index ASC` lists each id once, in ascending index order |
| Maintenance.LinkConsecutiveEdges | backend/memory.py:179-185 | the chain query adds NEXT from each ordered Message to the next one, and no other relationship |
| Maintenance.PersistNodesThread | backend/memory.py:150-161 | after the legacy node query every entry is a Message of the thread via HAS_MESSAGE |
| Store.GraphStore.MergeConversationTurn | backend/database/queries.py:4-79 | the statement as one transaction: it writes the modelled merge or, when it raises, nothing; it keeps the store invariant |
| Store.GraphStore.Root | backend/database/queries.py:11-22 | the first entry becomes the root Message with a FIRST edge only when the thread has no FIRST |
| Store.GraphStore.ApplyPair | backend/database/queries.py:25-78 | one row of the UNWIND over consecutive pairs: the tool branch or the message branch |
| Store.GraphStore.MergeSources | backend/database/queries.py:40-47 | FOREACH over the sources merges each Source and its RETRIEVED edge |
| Store.GraphStore.LinkTriggered | backend/database/queries.py:58-69 | TRIGGERED to the ToolCall and SOURCED to each Source it retrieved |
| Store.GraphStore.AppendToChain | backend/database/queries.py:71-77 | NEXT from the thread's longest-trail tail to the Message |
| Graph.RetrievedBy | backend/database/queries.py:64 | lists exactly the Sources the ToolCall has a RETRIEVED edge to |
| Graph.FirstOf | backend/database/queries.py:11 | finds a FIRST edge leaving the node exactly when there is one |
| NodeKeys.MergeTurnWritesOnce | backend/database/queries.py:7-54 | the merge fails exactly when refused; otherwise every existing node keeps its properties (ON CREATE SET only) and no relationship is lost |
| NodeKeys.RerunAddsNoNodes | backend/database/queries.py:7-77 | re-running a batch that went through creates no node and changes no property; only relationships can be added |
| StoreInvariant.MergeTurnValid | backend/database/queries.py:11-22 | the turn merge keeps the invariant, so a thread never gets a second FIRST |
| StoreInvariant.TailIsMessage | backend/database/queries.py:73-77 | the chain tail the statement appends to is always a Message, never a ToolCall, Source or Chunk |
| Conversation.FreshThreadChain | backend/database/queries.py:11-77 | on a thread with no chain, the batch becomes one FIRST/NEXT chain: the first entry as root, then the non-tool entries in batch order, and the tail is the last of them |
| Conversation.ChainTailIsLast | backend/database/queries.py:73-77 | on a chain, the longest trail from FIRST ends at the chain's last Message |
| Conversation.ReingestLinksTail | backend/database/queries.py:73-77 | re-ingesting a Message already on the chain adds NEXT from the tail to it: a self-loop at the tail, a second incoming NEXT inside the chain |
| Conversation.ReingestSelfLoop | backend/database/queries.py:11-77 | ingesting the same two-message history twice leaves a NEXT self-loop on the second message |
| Conversation.ToolEntryRetrieves | backend/database/queries.py:29-47 | a tool entry becomes a ToolCall with RETRIEVED to the Source of each url, and adds no other relationship, so no NEXT |
| Conversation.ReplyTriggeredAndSourced | backend/database/queries.py:56-69 | a reply after a ToolCall gets TRIGGERED to it and SOURCED to every Source it retrieved |
| Store.GraphStore.FetchUnembeddedMessages | backend/database/queries.py:81-85 | returns exactly the (id, content) of Messages with content and no embedding, once each |
| Store.GraphStore.FetchUnprocessedSources | backend/database/queries.py:87-91 | returns exactly the (url, text) of Sources with no outgoing FIRST, once each |
| Store.GraphStore.WriteChunks | backend/database/queries.py:93-109 | the new store is WRITE_CHUNKS as written: chunk 0 and FIRST, then the MATCH over every pair, then the MERGEs of the matched pairs; keeps the store invariant |
| Store.GraphStore.MatchPrevious | backend/database/queries.py:102-103 | runs the MATCH for every pair against the graph before any pair's MERGE, and returns the pairs whose previous chunk exists |
| Maintenance.MatchedPairsSpec | backend/database/queries.py:102-103 | a pair survives exactly when it is a pair of consecutive rows whose first row's chunk exists before the UNWIND |
| Store.GraphStore.LinkMatched | backend/database/queries.py:104-108 | merges each matched pair's chunk and NEXT, in row order |
| Store.GraphStore.ChunkLink | backend/database/queries.py:104-108 | one matched pair: the next chunk, merged ON CREATE with its text and index, and NEXT from the previous chunk |
| Maintenance.ChunkIdInjective | backend/database/queries.py:103-104 | `url + "_" + index` determines both the url and the index |
| Maintenance.WriteChunksBuildsChain | backend/database/queries.py:93-109 | the corrected statement, where each pair sees the earlier pairs' chunks: with K >= 1 numbered slices, FIRST to chunk 0, chunk i holds text i and index i, NEXT from chunk i to i+1, and no chunk past K-1 |
| Maintenance.WriteChunksStopsAtChunkOne | backend/database/queries.py:93-109 | the statement as written, with K >= 1 numbered slices on a Source with no chunks: FIRST to chunk 0, chunk 0 and (for K >= 2) chunk 1 with their text and index, NEXT from 0 to 1, and no other chunk |
| Maintenance.WriteChunksDropsLaterChunks | backend/database/queries.py:102-108 | with K >= 3 slices, chunk 2 is missing after the statement as written and present after the corrected one |
| Maintenance.WriteChunksWritesOnce | backend/database/queries.py:96-100 | WRITE_CHUNKS never rewrites an existing chunk or drops a relationship, and the Source is no longer unprocessed afterwards |
| StoreInvariant.WriteChunksValid | backend/database/queries.py:96-100 | a Source's FIRST always targets its chunk 0, so it never gets a second FIRST |
| Store.GraphStore.WriteVectorBatch | backend/database/queries.py:111-117 | WRITE_VECTOR_BATCH overwrites the embedding of each matched node, row by row |
| Maintenance.WriteVectorsOnlyEmbeds | backend/database/queries.py:111-117 | the vector write changes embeddings only: same nodes, same role, content and index, same relationships |
| Maintenance.WriteVectorsEmbed | backend/database/queries.py:111-117 | every existing Message named by a row has an embedding afterwards |
| Maintenance.WrittenNotRefetched | backend/database/queries.py:81-117 | a Message written by WRITE_VECTOR_BATCH is not selected by FETCH_UNEMBEDDED_MESSAGES again |
| Graph.KeptHits | backend/database/queries.py:122-125 | a branch keeps at most 3 hits, each among the index's first 3 and with score > 0.9 |
| Store.GraphStore.VectorLookup | backend/database/queries.py:121-134 | returns exactly the distinct rows of the union of both branches |
| Lookup.ChunkRowsAreHits | backend/database/queries.py:129-133 | the chunk branch returns at most 3 rows, each a hit's own id and content with score > 0.9 |
| Lookup.ExpansionIsChunks | backend/database/queries.py:126 | under the invariant every node the message branch expands to is a Chunk |
| Lookup.MessageRowsShape | backend/database/queries.py:126-127 | each message-branch row has a kept hit's content, and its id is null exactly when the graph has no expansion node |
| Lookup.MessageRowsUnanchored | backend/database/queries.py:126-127 | each kept hit is paired with every expansion node of the whole graph |
| Lookup.MessageIdsIgnoreHits | backend/database/queries.py:126-127 | the ids of the message branch are the same for any two searches that keep a hit |
| Store.GraphStore.LinkSourcesFromVectorLookup | backend/database/queries.py:162-170 | the link-back as modelled, keeping the invariant |
| Maintenance.LinkSourcesEdges | backend/database/queries.py:162-170 | nothing when the Message is missing; else SOURCED to every listed existing Chunk and Message, and nothing else |
| Embedder.Texts | backend/services/embedder.py:45 | text i is the content of record i |
| Embedder.Updates | backend/services/embedder.py:51 | update i pairs record i's id with vector i; the length is the shorter of the two (zip) |
| Embedder.WriteInBatches | backend/services/embedder.py:52-54 | the batches concatenate to the rows in order, each holds 1 to 50 rows, all but the last exactly 50, and together they write all rows |
| Maintenance.WriteVectorsAppend | backend/services/embedder.py:52-54 | writing the rows in two batches is writing them in one |
| Embedder.EmbedMessagesEmbedsAll | backend/services/embedder.py:39-54 | when the model returns a vector per text, no fetched Message is fetched again and only embeddings changed |
| Embedder.ChunkAndStoreSource | backend/services/embedder.py:65-93 | no slice writes nothing; else chunk_data[i] has index i, slice i and vector i, and the chunks are written before their vectors |
| Embedder.ChunkVectorsLand | backend/services/embedder.py:88-93 | the vector of slice i lands on chunk `url_i` whenever that chunk exists |
| Embedder.ChunkSourceWritesTwoChunks | backend/services/embedder.py:65-93 | chunking a new Source with K >= 1 slices gives FIRST to chunk 0, chunks 0 and (for K >= 2) 1 with their slice, index and vector, NEXT from 0 to 1, and no other chunk; the Source is no longer unprocessed, so slices 2..K-1 are never stored |
| Embedder.EmptySplitStaysUnprocessed | backend/services/embedder.py:72-74 | an empty split writes nothing, so the Source is fetched as unprocessed again |
| Embedder.EmbedPendingMessages | backend/services/embedder.py:37-54 | fetches each unembedded Message exactly once, calls the model only when there is one, and writes the vectors without breaking the store invariant |
| Embedder.ChunkPendingSources | backend/services/embedder.py:56-61 | fetches each unprocessed Source exactly once and chunks them in fetch order, keeping the store invariant |
| Embedder.ProcessPendingNodes | backend/services/embedder.py:29-63 | fetches exactly the unembedded Messages, calls the model only when there are some, then chunks each unprocessed Source once, in fetch order |
| Workflow.IdsAlignWithContents | backend/graph/workflow.py:52-53 | ids and contents are filtered by the same test, so they keep record order, have equal length and line up index by index |
| Workflow.NoContentsNoRecords | backend/graph/workflow.py:50-55 | there are no contents exactly when no record has content |
| Workflow.RetrieveRaises | backend/graph/workflow.py:33-38 | an empty history or a failing embedding call is not caught |
| Workflow.RetrieveFallsBack | backend/graph/workflow.py:43-72 | a failing search, or records without content, give exactly the default with no message added |
| Workflow.RetrieveFindsContext | backend/graph/workflow.py:55-66 | with content found, exactly one system message is added, holding the contents joined by "\n---\n"; the context ids are the same records' ids |
| Workflow.JoinSplits | backend/graph/workflow.py:56 | the separator stands between the first content and the join of the rest |
| Connection.StrippedIsFilter | backend/database/connection.py:46-49 | the statements are the stripped non-blank pieces, in order |
| Connection.StatementsWellFormed | backend/database/connection.py:46-49 | every statement is stripped, non-empty and free of ';' |
| Connection.StatementsInOrder | backend/database/connection.py:46-49 | the pieces join back to the schema text, and statement k is the k-th non-blank piece, stripped |
| Connection.BlankSchemaRunsNothing | backend/database/connection.py:46-49 | a schema text made of blank pieces runs no statement |
| Connection.Connection.constructor | backend/database/connection.py:12-13 | no driver and the default database "neo4j" at import |
| Connection.Connection.InitDriver | backend/database/connection.py:15-67 | missing settings raise before any driver is built; a failed connection closes the driver and raises; otherwise all statements are sent and the failing ones are logged |
| Connection.Connection.ApplySchema | backend/database/connection.py:53-59 | every statement is sent in order, and the warnings are exactly the failing ones |
| Connection.FailuresDoNotStopLaterStatements | backend/database/connection.py:54-59 | a failing statement is logged, and a later statement is still run and logged only if it fails too |
| Connection.Connection.CloseDriver | backend/database/connection.py:69-74 | closes the driver if there is one, and changes nothing else |
| Connection.Connection.Query | backend/database/connection.py:101-108 | raises exactly when no driver is set; otherwise it targets the override database, or NEO4J_DB when the override is None or "" |
| Connection.TargetDatabase | backend/database/connection.py:107 | `db or NEO4J_DB`: a non-empty override wins, else the current database |

## Findings

| source | as written | input that shows it | evidently intended | confidence | as-written member | corrected member |
|---|---|---|---|---|---|---|
| backend/database/queries.py:102-108 | Cypher runs `MATCH (prev:Chunk ...)` for every UNWIND pair before the `MERGE (c:Chunk ...)` that follows it. So pair (i, i + 1) finds chunk i only when chunk i existed before the UNWIND. On a new Source that is chunk 0 alone. | a Source `u` with no chunks and three slices: `u_0`, `u_1` and NEXT `u_0 -> u_1` are written, `u_2` is not, the vector for `u_2` matches no node, and the Source now has a FIRST, so it is never fetched again | each pair sees the chunks the earlier pairs created (for example a per-row `CALL (*) { ... }`), giving the chain `u_0 -> u_1 -> u_2` | not executed | Maintenance.WriteChunksStopsAtChunkOne, Maintenance.WriteChunksDropsLaterChunks | Maintenance.WriteChunksBuildsChain (about Graph.WriteChunksChained) |

The store and the maintenance job use WRITE_CHUNKS as written (Graph.WriteChunks). Graph.WriteChunksChained is the corrected statement. It is stated beside the as-written one and not used by the store.

## Left out

- Logging, `print`, `datetime()` timestamps (`created_at`, `crawled_at`, `embedded_at`) and async scheduling are not modelled.
- The Neo4j driver, its sessions and its transient-error retries are not modelled. A statement is one atomic step. The failures modelled are the empty batch on a thread with no FIRST and the non-string url (Graph.TurnFails, Graph.UrlsKeyed). The two parameter failures below are not modelled.
- The library code is uninterpreted: MD5 (not assumed injective), `json.loads`, `json.dumps`, `str()` of lists and dicts, the embedding model and `RecursiveCharacterTextSplitter`.
- Vector similarity and top-k ranking are floating point inside Neo4j. A search is a given ranking of (key, score) pairs.
- Results of FETCH_UNEMBEDDED_MESSAGES, FETCH_UNPROCESSED_SOURCES and VECTOR_LOOKUP, and ties in `ORDER BY m.index`, come back in an order the database leaves open. The methods return them in an arbitrary order, and their contracts say which rows come back.
- Conversation.FreshThreadChain: stated only for a thread with no chain, a batch of distinct ids, and no batch Message that already has an outgoing NEXT anywhere in the graph (`NoNextFrom`), for example from the same messages chained in another thread. On re-runs the chain is broken, as ReingestLinksTail shows.
- Graph.ChainTail: Neo4j leaves ties between equally long trails open. The model takes the trail whose first edge was created earliest.
- Graph.Expansion: `-[:FIRST]->*` is followed 0 or 1 hops. Every statement creates FIRST only from a Thread to a Message or from a Source to a Chunk, and neither of those has a FIRST of its own.
- Graph.UrlsKeyed: a source whose url is not a string makes the whole statement fail. That is true in Neo4j for a null url. A number would be accepted there, but node keys here are strings.
- Messages.ChatMessage: an id is always a string here. LangChain's `msg.id` can be None, and `save_chat_history` copies it into the batch unchanged. A null id in `MERGE (first:Message {id: $messages[0].id})` or in `MERGE (m:ToolCall {id: msg_1.id})` or `MERGE (m:Message {id: msg_1.id})` makes MERGE_CONVERSATION_TURN raise. Its transaction then rolls back, and `save_chat_history` only logs the error. Graph.TurnFails therefore leaves out the failure "an entry at index 1 or later has a null id, or entry 0 has one while the thread has no FIRST". The `add_messages` reducer in `backend/graph/workflow.py` assigns ids to the messages it stores.
- Graph.Doc: a Source title may be any value here. Neo4j cannot store a map, or a list of maps or of mixed types, as a property. So `ON CREATE SET s.title = source.title` raises when a new Source has such a title, and the whole statement rolls back. Graph.TurnFails, Graph.UrlsKeyed and Graph.LegacyKeyed leave this failure out, so MergeTurn and PersistNodes succeed in that case. `backend/tools/search.py` always produces string titles.
- Store.GraphStore.FetchUnprocessedSources: does not test `s.text IS NOT NULL`. Every Source is created with the extracted text, which is always a string.
- ToolCall has no uniqueness constraint in `backend/database/schema.py`. The model still keys it by id, which is what sequential MERGE does.
- Repository.GenerateIdStable: stated for contents of at least 50 characters. For shorter contents the first 50 characters are the whole content.
- Repository.SaveLinksContext: stated when the last assistant entry is not the batch's first entry. The first entry is merged only when the thread has no FIRST yet.
- Graph.Pairs: the UNWIND rows of MERGE_CONVERSATION_TURN reach `CALL (*) { ... }` in list order. No ORDER BY fixes that order, and Cypher leaves it open. The chain order that Conversation.FreshThreadChain proves depends on this assumption.
- Maintenance.WriteChunksBuildsChain: stated for a Source that has no chunks yet. On an existing chunk, ON CREATE SET keeps the old text (WriteChunksWritesOnce).
- Embedder.EmbedMessagesEmbedsAll: assumes the embedding model returns at least one vector per text. With fewer vectors, zip leaves the remaining Messages unembedded.
- `memory.py` imports `get_driver` and `query` from a module `db`, which is not part of this model. Its driver check is the `connected` parameter.
- `process_pending_nodes` is never dispatched in the modelled files.
- `build_graph`, `memory_node`, `backend/main.py`, `backend/tools/search.py`, `backend/graph/nodes.py` and `backend/agent_config.py` are left out. They hold only LLM, HTTP and LangGraph wiring.
