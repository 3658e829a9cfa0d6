/** The maintenance job of backend/services/embedder.py: embed the Messages that have no
    embedding, writing the vectors back in batches of 50, then split, embed and store as
    a chunk chain every Source that has no chunks yet. */
module Embedder {
  import opened Payload
  import opened Seqs
  import opened Graph
  import G = Graph
  import Store
  import Maintenance

  const BatchSize: nat := 50

  /** The providers whose code is not part of this model: the embedding model's
      `aembed_documents` and the text splitter's `split_text`. */
  datatype Providers = Providers(embedDocuments: seq<string> -> seq<Vector>, splitText: string -> seq<string>)

  // ---------------------------------------------------------------- the message half

  /** `[r["content"] for r in records]`. */
  function Texts(records: seq<(string, string)>): (texts: seq<string>)
    ensures |texts| == |records|
    ensures forall i :: 0 <= i < |records| ==> texts[i] == records[i].1
  {
    if |records| == 0 then [] else [records[0].1] + Texts(records[1..])
  }

  /** `[{"id": r["id"], "vector": v} for r, v in zip(records, vectors)]`. */
  function Updates(records: seq<(string, string)>, vectors: seq<Vector>): (updates: seq<VectorRow>)
    ensures |updates| == if |records| < |vectors| then |records| else |vectors|
    ensures forall i :: 0 <= i < |updates| ==> updates[i] == VectorRow(records[i].0, vectors[i])
  {
    if |records| == 0 || |vectors| == 0 then []
    else [VectorRow(records[0].0, vectors[0])] + Updates(records[1..], vectors[1..])
  }

  /** The graph after part A of `process_pending_nodes`, given the fetched records: no
      embedding call and no write when nothing was fetched. */
  function EmbedMessages(g: G.Graph, e: Providers, records: seq<(string, string)>): G.Graph {
    if |records| == 0 then g
    else WriteVectors(g, MessageLabel, Updates(records, e.embedDocuments(Texts(records))))
  }

  /** When the embedding model returns a vector per text, no fetched Message is fetched
      again afterwards, and only embeddings changed. */
  lemma EmbedMessagesEmbedsAll(g: G.Graph, e: Providers, records: seq<(string, string)>)
    requires forall p :: p in records ==> p in UnembeddedMessages(g)
    requires |e.embedDocuments(Texts(records))| >= |records|
    ensures var g' := EmbedMessages(g, e, records);
            && g'.(messages := g.messages, chunks := g.chunks) == g
            && forall p, c :: p in records ==> (p.0, c) !in UnembeddedMessages(g')
  {
    var rows := Updates(records, e.embedDocuments(Texts(records)));
    Maintenance.WriteVectorsOnlyEmbeds(g, MessageLabel, rows);
    forall p, c | p in records
      ensures (p.0, c) !in UnembeddedMessages(EmbedMessages(g, e, records))
    {
      var j :| 0 <= j < |records| && records[j] == p;
      assert rows[j].id == p.0 && p.0 in g.messages;
      Maintenance.WrittenNotRefetched(g, rows, j);
    }
  }

  // ---------------------------------------------------------------- the source half

  /** One element of `chunk_data`. */
  datatype ChunkDatum = ChunkDatum(index: nat, text: string, vector: Vector)

  /** `chunk_data` for the slices and their vectors. */
  function ChunkData(chunks: seq<string>, vectors: seq<Vector>): seq<ChunkDatum> {
    var n := if |chunks| < |vectors| then |chunks| else |vectors|;
    seq(n, i requires 0 <= i < n => ChunkDatum(i, chunks[i], vectors[i]))
  }

  /** `[{"index": c["index"], "text": c["text"]} for c in chunk_data]`, for WRITE_CHUNKS. */
  function ChunkRows(data: seq<ChunkDatum>): seq<ChunkRow> {
    seq(|data|, i requires 0 <= i < |data| => ChunkRow(data[i].index, data[i].text))
  }

  /** The rows of the chunk vector batches: id `f"{url}_{index}"` and the vector. */
  function ChunkVectorRows(url: string, data: seq<ChunkDatum>): seq<VectorRow> {
    seq(|data|, i requires 0 <= i < |data| => VectorRow(ChunkId(url, data[i].index), data[i].vector))
  }

  /** The graph after `_chunk_and_store_source(url, text)`: nothing when the splitter
      returns no slice, otherwise WRITE_CHUNKS and then the chunk vectors. */
  function ChunkSource(g: G.Graph, e: Providers, url: string, text: string): G.Graph {
    var chunks := e.splitText(text);
    if |chunks| == 0 then g
    else
      var data := ChunkData(chunks, e.embedDocuments(chunks));
      WriteVectors(WriteChunks(g, url, ChunkRows(data)), ChunkLabel, ChunkVectorRows(url, data))
  }

  /** The graph after part B: each fetched Source chunked once, in fetch order. */
  function ChunkAll(g: G.Graph, e: Providers, srcs: seq<(string, string)>): G.Graph {
    if |srcs| == 0 then g else ChunkSource(ChunkAll(g, e, srcs[..|srcs| - 1]), e, srcs[|srcs| - 1].0, srcs[|srcs| - 1].1)
  }

  /** The vector of slice i lands on chunk i whenever that chunk exists; the set of
      chunks stays the same. */
  lemma {:induction false} ChunkVectorsLand(g: G.Graph, url: string, data: seq<ChunkDatum>)
    requires forall i :: 0 <= i < |data| ==> data[i].index == i
    ensures var g' := WriteVectors(g, ChunkLabel, ChunkVectorRows(url, data));
            forall i :: 0 <= i < |data| && ChunkId(url, i) in g.chunks ==>
              ChunkId(url, i) in g'.chunks && g'.chunks[ChunkId(url, i)].embedding == Some(data[i].vector)
  {
    if |data| > 0 {
      var n := |data|;
      var init := data[..n - 1];
      assert forall i :: 0 <= i < n - 1 ==> init[i] == data[i];
      ChunkVectorsLand(g, url, init);
      var rows := ChunkVectorRows(url, data);
      assert rows[..n - 1] == ChunkVectorRows(url, init);
      var g1 := WriteVectors(g, ChunkLabel, rows[..n - 1]);
      var last := ChunkId(url, n - 1);
      assert rows[n - 1] == VectorRow(last, data[n - 1].vector);
      Maintenance.WriteVectorsOnlyEmbeds(g, ChunkLabel, rows[..n - 1]);
      var g' := WriteVectors(g, ChunkLabel, rows);
      assert g' == WriteVector(g1, ChunkLabel, rows[n - 1]);
      forall i | 0 <= i < n && ChunkId(url, i) in g.chunks
        ensures ChunkId(url, i) in g'.chunks && g'.chunks[ChunkId(url, i)].embedding == Some(data[i].vector)
      {
        if i < n - 1 && ChunkId(url, i) == last {
          Maintenance.ChunkIdInjective(url, i, url, n - 1);
        }
      }
    }
  }

  /** Chunking a Source that has no chunks yet, with K >= 1 slices that got vectors: the
      Source gets FIRST to chunk 0; chunk 0 and, when K >= 2, chunk 1 hold their slice,
      index and vector, joined by NEXT; no other chunk of the Source exists, so the
      vectors of slices 2..K-1 land nowhere; and the Source is no longer fetched as
      unprocessed, so those slices are never chunked. */
  lemma ChunkSourceWritesTwoChunks(g: G.Graph, e: Providers, url: string, text: string)
    requires url in g.sources && Maintenance.Unchunked(g, url)
    requires |ChunkData(e.splitText(text), e.embedDocuments(e.splitText(text)))| >= 1
    ensures var chunks := e.splitText(text);
            var data := ChunkData(chunks, e.embedDocuments(chunks));
            var m := if |data| == 1 then 1 else 2;
            var g' := ChunkSource(g, e, url, text);
            && Rel(First, SourceNode(url), ChunkNode(ChunkId(url, 0))) in g'.rels
            && (forall i :: 0 <= i < m ==>
                  && ChunkId(url, i) in g'.chunks
                  && g'.chunks[ChunkId(url, i)] == Chunk(Some(chunks[i]), i, Some(data[i].vector)))
            && (m == 2 ==> Rel(Next, ChunkNode(ChunkId(url, 0)), ChunkNode(ChunkId(url, 1))) in g'.rels)
            && (forall i :: i >= m ==> ChunkId(url, i) !in g'.chunks)
            && (forall t :: (url, t) !in UnprocessedSources(g'))
  {
    var chunks := e.splitText(text);
    var data := ChunkData(chunks, e.embedDocuments(chunks));
    var rows := ChunkRows(data);
    assert Maintenance.Numbered(rows);
    Maintenance.WriteChunksStopsAtChunkOne(g, url, rows);
    Maintenance.WriteChunksWritesOnce(g, url, rows);
    var g1 := WriteChunks(g, url, rows);
    ChunkVectorsLand(g1, url, data);
    Maintenance.WriteVectorsOnlyEmbeds(g1, ChunkLabel, ChunkVectorRows(url, data));
    var g' := ChunkSource(g, e, url, text);
    assert g'.sources == g1.sources && g'.rels == g1.rels;
    assert UnprocessedSources(g') == UnprocessedSources(g1);
  }

  /** A Source the splitter returns nothing for is left as it was, so it is fetched as
      unprocessed again on the next run. */
  lemma EmptySplitStaysUnprocessed(g: G.Graph, e: Providers, url: string, text: string)
    requires |e.splitText(text)| == 0 && (url, text) in UnprocessedSources(g)
    ensures ChunkSource(g, e, url, text) == g && (url, text) in UnprocessedSources(ChunkSource(g, e, url, text))
  {
  }

  // ---------------------------------------------------------------- the methods

  /** `for i in range(0, len(rows), BATCH_SIZE): WRITE_VECTOR_BATCH(rows[i:i + BATCH_SIZE])`.
      The batches partition the rows in order, each holds 1 to 50 rows, all but the last
      exactly 50, and writing them one after the other is writing all rows. */
  method WriteInBatches(store: Store.GraphStore, lab: Label, rows: seq<VectorRow>) returns (batches: seq<seq<VectorRow>>)
    modifies store
    ensures Flatten(batches) == rows
    ensures forall k :: 0 <= k < |batches| ==> 0 < |batches[k]| <= BatchSize
    ensures forall k :: 0 <= k < |batches| - 1 ==> |batches[k]| == BatchSize
    ensures store.Snapshot() == WriteVectors(old(store.Snapshot()), lab, rows)
    ensures old(store.Valid()) ==> store.Valid()
  {
    ghost var g := store.Snapshot();
    batches := [];
    var i := 0;
    while i < |rows|
      invariant 0 <= i <= |rows|
      invariant Flatten(batches) == rows[..i]
      invariant forall k :: 0 <= k < |batches| ==> 0 < |batches[k]| <= BatchSize
      invariant i < |rows| ==> forall k :: 0 <= k < |batches| ==> |batches[k]| == BatchSize
      invariant forall k :: 0 <= k < |batches| - 1 ==> |batches[k]| == BatchSize
      invariant store.Snapshot() == WriteVectors(g, lab, rows[..i])
      invariant old(store.Valid()) ==> store.Valid()
      decreases |rows| - i
    {
      var end := if i + BatchSize < |rows| then i + BatchSize else |rows|;
      var batch := rows[i..end];
      WriteBatchAt(store, g, lab, rows, i, end);
      FlattenSnoc(batches, batch);
      batches := batches + [batch];
      i := end;
    }
    assert rows[..i] == rows;
  }

  /** One WRITE_VECTOR_BATCH of the loop: rows i up to end. */
  method WriteBatchAt(store: Store.GraphStore, ghost g: Graph, lab: Label, rows: seq<VectorRow>, i: nat, end: nat)
    requires i <= end <= |rows| && store.Snapshot() == WriteVectors(g, lab, rows[..i])
    modifies store
    ensures store.Snapshot() == WriteVectors(g, lab, rows[..end])
    ensures old(store.Valid()) ==> store.Valid()
  {
    var batch := rows[i..end];
    store.WriteVectorBatch(lab, batch);
    assert rows[..i] + batch == rows[..end];
    Maintenance.WriteVectorsAppend(g, lab, rows[..i], batch);
  }

  /** `_chunk_and_store_source(url, text)`. */
  method ChunkAndStoreSource(store: Store.GraphStore, e: Providers, url: string, text: string) returns (chunkData: seq<ChunkDatum>)
    modifies store
    ensures |e.splitText(text)| == 0 ==> chunkData == [] && store.Snapshot() == old(store.Snapshot())
    ensures |e.splitText(text)| > 0 ==>
              var chunks := e.splitText(text);
              var vectors := e.embedDocuments(chunks);
              && |chunkData| == (if |chunks| < |vectors| then |chunks| else |vectors|)
              && forall i :: 0 <= i < |chunkData| ==> chunkData[i] == ChunkDatum(i, chunks[i], vectors[i])
    ensures store.Snapshot() == ChunkSource(old(store.Snapshot()), e, url, text)
    ensures old(store.Valid()) ==> store.Valid()
  {
    var chunks := e.splitText(text);
    if |chunks| == 0 {
      return [];
    }
    var vectors := e.embedDocuments(chunks);
    chunkData := [];
    var i := 0;
    while i < |chunks| && i < |vectors|
      invariant 0 <= i <= |chunks| && i <= |vectors|
      invariant |chunkData| == i
      invariant forall j :: 0 <= j < i ==> chunkData[j] == ChunkDatum(j, chunks[j], vectors[j])
    {
      chunkData := chunkData + [ChunkDatum(i, chunks[i], vectors[i])];
      i := i + 1;
    }
    assert chunkData == ChunkData(chunks, vectors);
    store.WriteChunks(url, ChunkRows(chunkData));
    var _ := WriteInBatches(store, ChunkLabel, ChunkVectorRows(url, chunkData));
  }

  /** `process_pending_nodes`. Returns the fetched message records, whether the
      embedding model was called for them, and the fetched source records. */
  method ProcessPendingNodes(store: Store.GraphStore, e: Providers)
    returns (records: seq<(string, string)>, embedded: bool, sourceRecords: seq<(string, string)>)
    modifies store
    ensures NoDup(records) && forall p :: p in records <==> p in UnembeddedMessages(old(store.Snapshot()))
    ensures embedded <==> |records| > 0
    ensures NoDup(sourceRecords) && forall p :: p in sourceRecords <==> p in UnprocessedSources(old(store.Snapshot()))
    ensures store.Snapshot() == ChunkAll(EmbedMessages(old(store.Snapshot()), e, records), e, sourceRecords)
    ensures old(store.Valid()) ==> store.Valid()
  {
    ghost var g := store.Snapshot();
    records, embedded := EmbedPendingMessages(store, e);
    ghost var g1 := store.Snapshot();
    Maintenance.WriteVectorsOnlyEmbeds(g, MessageLabel, if |records| == 0 then [] else Updates(records, e.embedDocuments(Texts(records))));
    assert g1.sources == g.sources && g1.rels == g.rels;
    assert forall p :: p in UnprocessedSources(g) <==> p.0 in g.sources && FirstOf(g.rels, SourceNode(p.0)).None? && g.sources[p.0].text == p.1;
    sourceRecords := ChunkPendingSources(store, e);
  }

  /** Part A of `process_pending_nodes`: embed the Messages that have no vector. */
  method EmbedPendingMessages(store: Store.GraphStore, e: Providers) returns (records: seq<(string, string)>, embedded: bool)
    modifies store
    ensures NoDup(records) && forall p :: p in records <==> p in UnembeddedMessages(old(store.Snapshot()))
    ensures embedded <==> |records| > 0
    ensures store.Snapshot() == EmbedMessages(old(store.Snapshot()), e, records)
    ensures old(store.Valid()) ==> store.Valid()
  {
    records := store.FetchUnembeddedMessages();
    embedded := false;
    if |records| > 0 {
      embedded := true;
      var vectors := e.embedDocuments(Texts(records));
      var updates := Updates(records, vectors);
      var _ := WriteInBatches(store, MessageLabel, updates);
    }
  }

  /** Part B of `process_pending_nodes`: chunk every Source that has no chunk chain. */
  method ChunkPendingSources(store: Store.GraphStore, e: Providers) returns (sourceRecords: seq<(string, string)>)
    modifies store
    ensures NoDup(sourceRecords) && forall p :: p in sourceRecords <==> p in UnprocessedSources(old(store.Snapshot()))
    ensures store.Snapshot() == ChunkAll(old(store.Snapshot()), e, sourceRecords)
    ensures old(store.Valid()) ==> store.Valid()
  {
    ghost var g1 := store.Snapshot();
    sourceRecords := store.FetchUnprocessedSources();
    for i := 0 to |sourceRecords|
      invariant store.Snapshot() == ChunkAll(g1, e, sourceRecords[..i])
      invariant old(store.Valid()) ==> store.Valid()
    {
      assert sourceRecords[..i + 1][..i] == sourceRecords[..i];
      var _ := ChunkAndStoreSource(store, e, sourceRecords[i].0, sourceRecords[i].1);
    }
    assert sourceRecords[..|sourceRecords|] == sourceRecords;
  }
}
