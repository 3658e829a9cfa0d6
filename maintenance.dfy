/** What the statements run by the maintenance job and the link-back do to the graph:
    the chunks WRITE_CHUNKS writes (and the chain it was meant to build), the embeddings
    WRITE_VECTOR_BATCH writes, the SOURCED edges of LINK_SOURCES_FROM_VECTOR_LOOKUP, and
    the NEXT edges of the legacy chain query. */
module Maintenance {
  import opened Payload
  import opened Text
  import opened Messages
  import opened Seqs
  import opened Graph
  import opened NodeKeys

  // ---------------------------------------------------------------- chunk ids

  /** `url + "_" + index` names one chunk of one source: the part after the last "_" is
      all digits, so neither the url nor the index can be changed without changing the id. */
  lemma ChunkIdInjective(u1: string, i: nat, u2: string, j: nat)
    requires ChunkId(u1, i) == ChunkId(u2, j)
    ensures u1 == u2 && i == j
  {
    var d1, d2 := NatToString(i), NatToString(j);
    assert '_' !in d1 && '_' !in d2;
    JoinedAtSep(u1, d1, u2, d2, '_');
    NatToStringInjective(i, j);
  }

  // ---------------------------------------------------------------- WRITE_CHUNKS

  /** Chunks 0..k of `url` exist with the text and index of their row, later ones do
      not, and chunks 0..k are linked by NEXT in order. */
  ghost predicate ChunkChain(g: Graph, url: string, rows: seq<ChunkRow>, k: nat)
    requires k < |rows|
  {
    ChunksWritten(g.chunks, url, rows, k) && ChunksEndAt(g.chunks, url, k) && ChunksLinked(g.rels, url, k)
  }

  ghost predicate ChunksWritten(chunks: map<string, Chunk>, url: string, rows: seq<ChunkRow>, k: nat)
    requires k < |rows|
  {
    forall i :: 0 <= i <= k ==> ChunkId(url, i) in chunks && chunks[ChunkId(url, i)] == Chunk(Some(rows[i].text), i, None)
  }

  ghost predicate ChunksEndAt(chunks: map<string, Chunk>, url: string, k: nat) {
    forall i :: i > k ==> ChunkId(url, i) !in chunks
  }

  ghost predicate ChunksLinked(rels: seq<Rel>, url: string, k: nat) {
    forall i :: 0 <= i < k ==> Rel(Next, ChunkNode(ChunkId(url, i)), ChunkNode(ChunkId(url, i + 1))) in rels
  }

  /** Rows numbered 0, 1, 2, ... as the maintenance job numbers its slices. */
  predicate Numbered(rows: seq<ChunkRow>) {
    forall i :: 0 <= i < |rows| ==> rows[i].index == i
  }

  /** Chunk k is the one id that writing chunk k changes. */
  lemma ChunkWriteStep(chunks: map<string, Chunk>, url: string, rows: seq<ChunkRow>, k: nat)
    requires 1 <= k < |rows| && ChunksWritten(chunks, url, rows, k - 1) && ChunksEndAt(chunks, url, k - 1)
    ensures var chunks' := chunks[ChunkId(url, k) := Chunk(Some(rows[k].text), k, None)];
            ChunksWritten(chunks', url, rows, k) && ChunksEndAt(chunks', url, k)
  {
    forall i | i != k
      ensures ChunkId(url, i) != ChunkId(url, k)
    {
      if ChunkId(url, i) == ChunkId(url, k) {
        ChunkIdInjective(url, i, url, k);
      }
    }
  }

  lemma ChunkPairStep(g: Graph, url: string, rows: seq<ChunkRow>, k: nat)
    requires 1 <= k < |rows| && Numbered(rows) && ChunkChain(g, url, rows, k - 1)
    ensures ChunkChain(ChunkPair(g, url, rows[k - 1], rows[k]), url, rows, k)
    ensures g.rels <= ChunkPair(g, url, rows[k - 1], rows[k]).rels
  {
    var id, c := ChunkId(url, k), Chunk(Some(rows[k].text), k, None);
    assert ChunkId(url, k - 1) in g.chunks && id !in g.chunks;
    var g' := ChunkPair(g, url, rows[k - 1], rows[k]);
    var r := Rel(Next, ChunkNode(ChunkId(url, k - 1)), ChunkNode(id));
    assert g'.chunks == g.chunks[id := c];
    assert g'.rels == MergeRel(g, r).rels;
    ChunkWriteStep(g.chunks, url, rows, k);
    assert ChunksLinked(g'.rels, url, k);
  }

  lemma {:induction false} ChunkPairsChain(g: Graph, url: string, rows: seq<ChunkRow>, k: nat)
    requires k < |rows| && Numbered(rows) && ChunkChain(g, url, rows, 0)
    ensures ChunkChain(ChunkPairs(g, url, rows, k), url, rows, k)
    ensures g.rels <= ChunkPairs(g, url, rows, k).rels
  {
    if k > 0 {
      ChunkPairsChain(g, url, rows, k - 1);
      ChunkPairStep(ChunkPairs(g, url, rows, k - 1), url, rows, k);
    }
  }

  /** Nothing the source has yet: no chunk with one of its ids. */
  ghost predicate Unchunked(g: Graph, url: string) {
    forall i :: ChunkId(url, i) !in g.chunks
  }

  /** WRITE_CHUNKS as evidently intended, on a Source with no chunks yet and K >= 1
      numbered slices: the Source gets its FIRST edge to chunk 0, chunk i holds slice i
      and index i, chunks i and i + 1 are joined by NEXT, and no chunk past K - 1 exists. */
  lemma WriteChunksBuildsChain(g: Graph, url: string, rows: seq<ChunkRow>)
    requires url in g.sources && Unchunked(g, url)
    requires |rows| >= 1 && Numbered(rows)
    ensures var g' := WriteChunksChained(g, url, rows);
            && Rel(First, SourceNode(url), ChunkNode(ChunkId(url, 0))) in g'.rels
            && ChunkChain(g', url, rows, |rows| - 1)
  {
    var g2 := ChunkZeroWritten(g, url, rows);
    ChunkPairsChain(g2, url, rows, |rows| - 1);
  }

  /** Before the UNWIND of WRITE_CHUNKS on a Source with no chunks, chunk 0 is the one
      chunk of the Source and the Source has its FIRST. */
  lemma ChunkZeroWritten(g: Graph, url: string, rows: seq<ChunkRow>) returns (g2: Graph)
    requires url in g.sources && Unchunked(g, url)
    requires |rows| >= 1 && Numbered(rows)
    ensures g2 == WriteChunkZero(g, url, rows)
    ensures Rel(First, SourceNode(url), ChunkNode(ChunkId(url, 0))) in g2.rels && ChunkChain(g2, url, rows, 0)
  {
    var c0 := ChunkId(url, 0);
    var g1 := MergeChunk(g, c0, Chunk(Some(rows[0].text), 0, None));
    assert g1.chunks == g.chunks[c0 := Chunk(Some(rows[0].text), 0, None)];
    forall i | i != 0
      ensures ChunkId(url, i) != c0
    {
      if ChunkId(url, i) == c0 {
        ChunkIdInjective(url, i, url, 0);
      }
    }
    g2 := MergeRel(g1, Rel(First, SourceNode(url), ChunkNode(c0)));
    assert Rel(First, SourceNode(url), ChunkNode(c0)) in g2.rels;
    ChunkZero(g1, g2, url, rows);
  }

  /** A pair survives the MATCH exactly when it is a pair of consecutive rows whose
      first row names a chunk that exists before the UNWIND. */
  lemma {:induction false} MatchedPairsSpec(base: Graph, url: string, rows: seq<ChunkRow>, k: nat)
    requires k < |rows|
    ensures forall p :: p in MatchedPairs(base, url, rows, k) <==>
              exists j :: 0 < j <= k && p == (rows[j - 1], rows[j]) && ChunkId(url, rows[j - 1].index) in base.chunks
  {
    if k > 0 {
      MatchedPairsSpec(base, url, rows, k - 1);
    }
  }

  /** On a Source whose only chunk is chunk 0, only the first pair survives the MATCH. */
  lemma {:induction false} MatchedOnlyFirst(base: Graph, url: string, rows: seq<ChunkRow>, k: nat)
    requires 1 <= k < |rows| && Numbered(rows)
    requires ChunkId(url, 0) in base.chunks && forall i :: i != 0 ==> ChunkId(url, i) !in base.chunks
    ensures MatchedPairs(base, url, rows, k) == [(rows[0], rows[1])]
  {
    if k > 1 {
      MatchedOnlyFirst(base, url, rows, k - 1);
      assert ChunkId(url, rows[k - 1].index) !in base.chunks;
    }
  }

  /** WRITE_CHUNKS as written, on a Source with no chunks yet and K >= 1 numbered slices:
      the Source gets its FIRST edge to chunk 0, and the chain stops at chunk 1. Pair
      (i, i + 1) for i >= 1 looks for chunk i before any pair has created it, so chunks
      2..K-1 are never created. */
  lemma WriteChunksStopsAtChunkOne(g: Graph, url: string, rows: seq<ChunkRow>)
    requires url in g.sources && Unchunked(g, url)
    requires |rows| >= 1 && Numbered(rows)
    ensures var g' := WriteChunks(g, url, rows);
            && Rel(First, SourceNode(url), ChunkNode(ChunkId(url, 0))) in g'.rels
            && ChunkChain(g', url, rows, if |rows| == 1 then 0 else 1)
  {
    var g2 := ChunkZeroWritten(g, url, rows);
    if |rows| >= 2 {
      MatchedOnlyFirst(g2, url, rows, |rows| - 1);
      assert LinkPairs(g2, url, [(rows[0], rows[1])]) == ChunkPair(g2, url, rows[0], rows[1]);
      ChunkPairStep(g2, url, rows, 1);
    }
  }

  /** With three or more slices, the chunk the intended chain has at position 2 is
      missing from what WRITE_CHUNKS writes. */
  lemma WriteChunksDropsLaterChunks(g: Graph, url: string, rows: seq<ChunkRow>)
    requires url in g.sources && Unchunked(g, url)
    requires |rows| >= 3 && Numbered(rows)
    ensures ChunkId(url, 2) !in WriteChunks(g, url, rows).chunks
    ensures ChunkId(url, 2) in WriteChunksChained(g, url, rows).chunks
  {
    WriteChunksStopsAtChunkOne(g, url, rows);
    WriteChunksBuildsChain(g, url, rows);
  }

  lemma ChunkZero(g1: Graph, g2: Graph, url: string, rows: seq<ChunkRow>)
    requires |rows| >= 1 && Numbered(rows)
    requires ChunkId(url, 0) in g1.chunks && g1.chunks[ChunkId(url, 0)] == Chunk(Some(rows[0].text), 0, None)
    requires forall i :: i != 0 ==> ChunkId(url, i) !in g1.chunks
    requires g2.chunks == g1.chunks
    ensures ChunkChain(g2, url, rows, 0)
  {
  }

  lemma ChunkLinkExtends(g: Graph, url: string, r0: ChunkRow, r1: ChunkRow)
    ensures Extends(g, ChunkLink(g, url, r0, r1))
  {
  }

  lemma {:induction false} LinkPairsExtends(g: Graph, url: string, ps: seq<(ChunkRow, ChunkRow)>)
    ensures Extends(g, LinkPairs(g, url, ps))
  {
    if |ps| > 0 {
      var g1 := LinkPairs(g, url, ps[..|ps| - 1]);
      LinkPairsExtends(g, url, ps[..|ps| - 1]);
      ChunkLinkExtends(g1, url, ps[|ps| - 1].0, ps[|ps| - 1].1);
      ExtendsTrans(g, g1, LinkPairs(g, url, ps));
    }
  }

  lemma WriteChunksExtends(g: Graph, url: string, rows: seq<ChunkRow>)
    ensures Extends(g, WriteChunks(g, url, rows))
  {
    if url in g.sources {
      var g2 := WriteChunkZero(g, url, rows);
      assert Extends(g, g2);
      if |rows| > 0 {
        var ps := MatchedPairs(g2, url, rows, |rows| - 1);
        LinkPairsExtends(g2, url, ps);
        ExtendsTrans(g, g2, LinkPairs(g2, url, ps));
      }
    }
  }

  /** After WRITE_CHUNKS the Source has a FIRST. */
  lemma WriteChunksLinksFirst(g: Graph, url: string, rows: seq<ChunkRow>)
    requires url in g.sources
    ensures FirstOf(WriteChunks(g, url, rows).rels, SourceNode(url)).Some?
  {
    var c0 := ChunkId(url, 0);
    var g2 := WriteChunkZero(g, url, rows);
    assert Rel(First, SourceNode(url), ChunkNode(c0)) in g2.rels;
    if |rows| > 0 {
      LinkPairsExtends(g2, url, MatchedPairs(g2, url, rows, |rows| - 1));
    }
    assert Rel(First, SourceNode(url), ChunkNode(c0)) in WriteChunks(g, url, rows).rels;
  }

  /** WRITE_CHUNKS never rewrites a chunk that exists (ON CREATE SET only) and never
      drops a relationship, and afterwards the Source is no longer unprocessed. */
  lemma WriteChunksWritesOnce(g: Graph, url: string, rows: seq<ChunkRow>)
    ensures Extends(g, WriteChunks(g, url, rows))
    ensures url in g.sources ==> (forall text :: (url, text) !in UnprocessedSources(WriteChunks(g, url, rows)))
  {
    WriteChunksExtends(g, url, rows);
    if url in g.sources {
      WriteChunksLinksFirst(g, url, rows);
    }
  }

  // ---------------------------------------------------------------- WRITE_VECTOR_BATCH

  /** WRITE_VECTOR_BATCH changes embeddings only: the same nodes, with the same role,
      content and index, and the same relationships. */
  lemma {:induction false} WriteVectorsOnlyEmbeds(g: Graph, lab: Label, rows: seq<VectorRow>)
    ensures var g' := WriteVectors(g, lab, rows);
            && g'.(messages := g.messages, chunks := g.chunks) == g
            && g'.messages.Keys == g.messages.Keys && g'.chunks.Keys == g.chunks.Keys
            && (forall id :: id in g.messages ==> g'.messages[id].(embedding := None) == g.messages[id].(embedding := None))
            && (forall id :: id in g.chunks ==> g'.chunks[id].(embedding := None) == g.chunks[id].(embedding := None))
  {
    if |rows| > 0 {
      WriteVectorsOnlyEmbeds(g, lab, rows[..|rows| - 1]);
    }
  }

  /** After WRITE_VECTOR_BATCH("Message"), every Message a row named carries that
      row's vector, or that of a later row with the same id. */
  lemma {:induction false} WriteVectorsEmbed(g: Graph, rows: seq<VectorRow>)
    ensures var g' := WriteVectors(g, MessageLabel, rows);
            forall j :: 0 <= j < |rows| && rows[j].id in g.messages ==> rows[j].id in g'.messages && g'.messages[rows[j].id].embedding.Some?
  {
    if |rows| > 0 {
      var init := rows[..|rows| - 1];
      WriteVectorsEmbed(g, init);
      WriteVectorsOnlyEmbeds(g, MessageLabel, init);
      var g' := WriteVectors(g, MessageLabel, rows);
      forall j | 0 <= j < |rows| && rows[j].id in g.messages
        ensures rows[j].id in g'.messages && g'.messages[rows[j].id].embedding.Some?
      {
        if j < |rows| - 1 {
          assert rows[j] == init[j];
        }
      }
    }
  }

  /** A Message written by WRITE_VECTOR_BATCH is not fetched by FETCH_UNEMBEDDED_MESSAGES
      again. */
  lemma WrittenNotRefetched(g: Graph, rows: seq<VectorRow>, j: nat)
    requires j < |rows| && rows[j].id in g.messages
    ensures forall c :: (rows[j].id, c) !in UnembeddedMessages(WriteVectors(g, MessageLabel, rows))
  {
    WriteVectorsEmbed(g, rows);
    WriteVectorsOnlyEmbeds(g, MessageLabel, rows);
  }

  /** Writing the rows in two batches is writing them in one. */
  lemma {:induction false} WriteVectorsAppend(g: Graph, lab: Label, a: seq<VectorRow>, b: seq<VectorRow>)
    ensures WriteVectors(g, lab, a + b) == WriteVectors(WriteVectors(g, lab, a), lab, b)
  {
    if |b| == 0 {
      assert a + b == a;
    } else {
      assert (a + b)[..|a + b| - 1] == a + b[..|b| - 1];
      WriteVectorsAppend(g, lab, a, b[..|b| - 1]);
    }
  }

  // ---------------------------------------------------------------- LINK_SOURCES_FROM_VECTOR_LOOKUP

  /** What the link-back may add from `m`: SOURCED to an existing Chunk or Message whose
      id is one of `ids`. */
  ghost predicate LinkTarget(g: Graph, m: NodeRef, ids: seq<Option<string>>, r: Rel) {
    && r.kind == Sourced && r.from == m
    && ((r.to.ChunkNode? && r.to.cid in g.chunks && Some(r.to.cid) in ids)
        || (r.to.MessageNode? && r.to.mid in g.messages && Some(r.to.mid) in ids))
  }

  /** MERGE of one relationship adds that relationship and nothing else. */
  lemma MergeRelAdds(g: Graph, r: Rel)
    ensures var g' := MergeRel(g, r);
            && g'.(rels := g.rels) == g && g.rels <= g'.rels && r in g'.rels
            && (forall x :: x in g.rels ==> x in g'.rels)
            && (forall x :: x in g'.rels ==> x in g.rels || x == r)
  {
  }

  lemma LinkOneEdges(g: Graph, m: NodeRef, sid: Option<string>)
    ensures var g' := LinkOne(g, m, sid);
            && g'.(rels := g.rels) == g && g.rels <= g'.rels
            && (forall r :: r in g.rels ==> r in g'.rels)
            && (sid.Some? && sid.value in g.chunks ==> Rel(Sourced, m, ChunkNode(sid.value)) in g'.rels)
            && (sid.Some? && sid.value in g.messages ==> Rel(Sourced, m, MessageNode(sid.value)) in g'.rels)
            && (forall r :: r in g'.rels ==> r in g.rels || LinkTarget(g, m, [sid], r))
  {
    if sid.Some? {
      var s := sid.value;
      var rc, rm := Rel(Sourced, m, ChunkNode(s)), Rel(Sourced, m, MessageNode(s));
      var g1 := if s in g.chunks then MergeRel(g, rc) else g;
      if s in g.chunks {
        MergeRelAdds(g, rc);
      }
      if s in g1.messages {
        MergeRelAdds(g1, rm);
      }
      assert LinkOne(g, m, sid) == if s in g1.messages then MergeRel(g1, rm) else g1;
    }
  }

  lemma {:induction false} LinkAllEdges(g: Graph, m: NodeRef, ids: seq<Option<string>>)
    ensures var g' := LinkAll(g, m, ids);
            && g'.(rels := g.rels) == g && g.rels <= g'.rels
            && (forall k :: 0 <= k < |ids| && ids[k].Some? && ids[k].value in g.chunks ==> Rel(Sourced, m, ChunkNode(ids[k].value)) in g'.rels)
            && (forall k :: 0 <= k < |ids| && ids[k].Some? && ids[k].value in g.messages ==> Rel(Sourced, m, MessageNode(ids[k].value)) in g'.rels)
            && (forall r :: r in g'.rels ==> r in g.rels || LinkTarget(g, m, ids, r))
  {
    if |ids| > 0 {
      var init, last := ids[..|ids| - 1], ids[|ids| - 1];
      LinkAllEdges(g, m, init);
      var g1 := LinkAll(g, m, init);
      LinkOneEdges(g1, m, last);
      var g' := LinkAll(g, m, ids);
      assert g' == LinkOne(g1, m, last);
      forall k | 0 <= k < |ids| - 1
        ensures ids[k] == init[k]
      {
      }
      forall r | r in g'.rels
        ensures r in g.rels || LinkTarget(g, m, ids, r)
      {
        if r !in g1.rels {
          assert LinkTarget(g1, m, [last], r);
        } else if r !in g.rels {
          assert LinkTarget(g, m, init, r);
        }
      }
    }
  }

  /** LINK_SOURCES_FROM_VECTOR_LOOKUP: nothing when the Message is missing; otherwise
      SOURCED from it to every existing Chunk and Message listed, and nothing else. */
  lemma LinkSourcesEdges(g: Graph, msgId: string, ids: seq<Option<string>>)
    ensures var g' := LinkSources(g, msgId, ids);
            && g'.(rels := g.rels) == g && g.rels <= g'.rels
            && (msgId !in g.messages ==> g' == g)
            && (msgId in g.messages ==>
                  && (forall k :: 0 <= k < |ids| && ids[k].Some? && ids[k].value in g.chunks ==> Rel(Sourced, MessageNode(msgId), ChunkNode(ids[k].value)) in g'.rels)
                  && (forall k :: 0 <= k < |ids| && ids[k].Some? && ids[k].value in g.messages ==> Rel(Sourced, MessageNode(msgId), MessageNode(ids[k].value)) in g'.rels))
            && (forall r :: r in g'.rels ==> r in g.rels || LinkTarget(g, MessageNode(msgId), ids, r))
  {
    LinkAllEdges(g, MessageNode(msgId), ids);
  }

  // ---------------------------------------------------------------- legacy writer

  /** The legacy chain query: NEXT from each Message of `order` to the one after it,
      and nothing else. */
  lemma {:induction false} LinkConsecutiveEdges(g: Graph, order: seq<string>)
    ensures var g' := LinkConsecutive(g, order);
            && g'.(rels := g.rels) == g && g.rels <= g'.rels
            && (forall i :: 0 <= i < |order| - 1 ==> Rel(Next, MessageNode(order[i]), MessageNode(order[i + 1])) in g'.rels)
            && (forall r :: r in g'.rels ==> r in g.rels || exists i :: 0 <= i < |order| - 1 && r == Rel(Next, MessageNode(order[i]), MessageNode(order[i + 1])))
  {
    if |order| >= 2 {
      var n := |order|;
      var init := order[..n - 1];
      LinkConsecutiveEdges(g, init);
      var g1 := LinkConsecutive(g, init);
      var g' := LinkConsecutive(g, order);
      var last := Rel(Next, MessageNode(order[n - 2]), MessageNode(order[n - 1]));
      assert g' == MergeRel(g1, last);
      assert forall r :: r in g1.rels ==> r in g'.rels;
      forall i | 0 <= i < n - 1
        ensures Rel(Next, MessageNode(order[i]), MessageNode(order[i + 1])) in g'.rels
      {
        if i < n - 2 {
          assert init[i] == order[i] && init[i + 1] == order[i + 1];
        }
      }
      forall r | r in g'.rels
        ensures r in g.rels || exists i :: 0 <= i < n - 1 && r == Rel(Next, MessageNode(order[i]), MessageNode(order[i + 1]))
      {
        if r == last {
        } else if r !in g.rels {
          var i :| 0 <= i < |init| - 1 && r == Rel(Next, MessageNode(init[i]), MessageNode(init[i + 1]));
          assert init[i] == order[i] && init[i + 1] == order[i + 1];
        }
      }
    }
  }

  /** The legacy node query merges each entry's Message and its HAS_MESSAGE edge, and
      never rewrites a node that exists. */
  lemma PersistOneMerges(g: Graph, t: string, e: LegacyEntry)
    requires UrlsKeyed(e.sources)
    ensures var g' := PersistOne(g, t, e);
            && Extends(g, g')
            && e.id in g'.messages && Rel(HasMessage, ThreadNode(t), MessageNode(e.id)) in g'.rels
  {
    var g1 := MergeMessage(g, e.id, Turn(e.role, Some(e.content), e.index, None));
    var r := Rel(HasMessage, ThreadNode(t), MessageNode(e.id));
    var g2 := MergeRel(g1, r);
    MergeMessageExtends(g, e.id, Turn(e.role, Some(e.content), e.index, None));
    RelsOnlyExtends(g1, g2);
    ExtendsTrans(g, g1, g2);
    assert e.id in g2.messages && r in g2.rels;
    MergeSourcesExtends(g2, MessageNode(e.id), e.sources);
    ExtendsTrans(g, g2, PersistOne(g, t, e));
  }

  lemma {:induction false} PersistAllMerges(g: Graph, t: string, batch: seq<LegacyEntry>)
    requires LegacyKeyed(batch)
    ensures var g' := PersistAll(g, t, batch);
            && Extends(g, g')
            && forall i :: 0 <= i < |batch| ==> batch[i].id in g'.messages && Rel(HasMessage, ThreadNode(t), MessageNode(batch[i].id)) in g'.rels
  {
    if |batch| > 0 {
      var init := batch[..|batch| - 1];
      assert LegacyKeyed(init) by {
        assert forall k :: 0 <= k < |init| ==> init[k] == batch[k];
      }
      PersistAllMerges(g, t, init);
      var g1 := PersistAll(g, t, init);
      PersistOneMerges(g1, t, batch[|batch| - 1]);
      var g' := PersistAll(g, t, batch);
      forall i | 0 <= i < |batch| - 1
        ensures batch[i].id in g'.messages && Rel(HasMessage, ThreadNode(t), MessageNode(batch[i].id)) in g'.rels
      {
        assert batch[i] == init[i];
      }
    }
  }

  /** After the legacy node query every entry is one of the thread's messages. */
  lemma PersistNodesThread(g: Graph, user: string, t: string, batch: seq<LegacyEntry>)
    requires LegacyKeyed(batch)
    ensures PersistNodes(g, user, t, batch).Some?
    ensures var g' := PersistNodes(g, user, t, batch).value;
            forall i :: 0 <= i < |batch| ==> batch[i].id in ThreadMessages(g', t)
  {
    PersistAllMerges(Upsert(g, user, t), t, batch);
    var g' := PersistNodes(g, user, t, batch).value;
    forall i | 0 <= i < |batch|
      ensures batch[i].id in ThreadMessages(g', t)
    {
      var r := Rel(HasMessage, ThreadNode(t), MessageNode(batch[i].id));
      assert r in g'.rels && r.to.mid == batch[i].id;
    }
  }
}
