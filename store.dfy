/** The Neo4j database as an object whose fields the Cypher statements of
    backend/database/queries.py (and the two statements of the legacy writer) update in
    place: one map per node label keyed by the label's key property, and every
    relationship in creation order. Each statement is a method proved to leave the store
    in the state the matching function of module Graph computes, and to keep the store
    invariant. */
module Store {
  import opened Payload
  import opened Messages
  import opened Seqs
  import opened Graph
  import G = Graph
  import StoreInvariant
  import Maintenance

  class GraphStore {
    var users: set<string>
    var threads: set<string>
    var messages: map<string, Turn>
    var toolCalls: map<string, Turn>
    var sources: map<string, Doc>
    var chunks: map<string, Chunk>
    var rels: seq<Rel>

    /** The store's contents as a value. */
    function Snapshot(): Graph
      reads this
    {
      Graph(users, threads, messages, toolCalls, sources, chunks, rels)
    }

    ghost predicate Valid()
      reads this
    {
      G.Valid(Snapshot())
    }

    /** An empty database. */
    constructor ()
      ensures Snapshot() == EmptyGraph && Valid()
    {
      users, threads := {}, {};
      messages, toolCalls, sources, chunks := map[], map[], map[], map[];
      rels := [];
    }

    // ------------------------------------------------------------ MERGE primitives

    method MergeRel(r: Rel)
      modifies this
      ensures Snapshot() == G.MergeRel(old(Snapshot()), r)
    {
      if r !in rels {
        rels := rels + [r];
      }
    }

    method MergeMessage(id: string, t: Turn)
      modifies this
      ensures Snapshot() == G.MergeMessage(old(Snapshot()), id, t)
    {
      if id !in messages {
        messages := messages[id := t];
      }
    }

    method MergeToolCall(id: string, t: Turn)
      modifies this
      ensures Snapshot() == G.MergeToolCall(old(Snapshot()), id, t)
    {
      if id !in toolCalls {
        toolCalls := toolCalls[id := t];
      }
    }

    method MergeSource(url: string, d: Doc)
      modifies this
      ensures Snapshot() == G.MergeSource(old(Snapshot()), url, d)
    {
      if url !in sources {
        sources := sources[url := d];
      }
    }

    method MergeChunk(id: string, c: Chunk)
      modifies this
      ensures Snapshot() == G.MergeChunk(old(Snapshot()), id, c)
    {
      if id !in chunks {
        chunks := chunks[id := c];
      }
    }

    method MergeRelsTo(kind: RelType, from: NodeRef, targets: seq<NodeRef>)
      modifies this
      ensures Snapshot() == G.MergeRelsTo(old(Snapshot()), kind, from, targets)
    {
      var i := 0;
      while i < |targets|
        invariant i <= |targets|
        invariant Snapshot() == G.MergeRelsTo(old(Snapshot()), kind, from, targets[..i])
      {
        assert targets[..i + 1][..i] == targets[..i];
        ghost var before := Snapshot();
        MergeRel(Rel(kind, from, targets[i]));
        assert Snapshot() == G.MergeRel(before, Rel(kind, from, targets[i]));
        i := i + 1;
      }
      assert targets[..i] == targets;
    }

    /** FOREACH (source IN sources | MERGE Source ... MERGE (from)-[:RETRIEVED]->(s)). */
    method MergeSources(from: NodeRef, srcs: seq<SourceRecord>)
      requires UrlsKeyed(srcs)
      modifies this
      ensures Snapshot() == G.MergeSources(old(Snapshot()), from, srcs)
    {
      ghost var g0 := Snapshot();
      var i := 0;
      while i < |srcs|
        invariant i <= |srcs| && UrlsKeyed(srcs[..i])
        invariant Snapshot() == G.MergeSources(g0, from, srcs[..i])
      {
        MergeSourceRow(g0, from, srcs, i);
        i := i + 1;
      }
      assert srcs[..i] == srcs;
    }

    /** Row i of the UNWIND over the sources: the Source node, then RETRIEVED. */
    method MergeSourceRow(ghost g0: Graph, from: NodeRef, srcs: seq<SourceRecord>, i: nat)
      requires i < |srcs| && UrlsKeyed(srcs) && UrlsKeyed(srcs[..i])
      requires Snapshot() == G.MergeSources(g0, from, srcs[..i])
      modifies this
      ensures UrlsKeyed(srcs[..i + 1]) && Snapshot() == G.MergeSources(g0, from, srcs[..i + 1])
    {
      MergeSourcesStep(g0, from, srcs, i);
      var s := srcs[i];
      MergeSource(s.url.s, Doc(s.title, s.content));
      MergeRel(Rel(Retrieved, from, SourceNode(s.url.s)));
    }

    // ------------------------------------------------------------ MERGE_CONVERSATION_TURN

    method Upsert(user: string, t: string)
      modifies this
      ensures Snapshot() == G.Upsert(old(Snapshot()), user, t)
    {
      users := users + {user};
      threads := threads + {t};
      MergeRel(Rel(ParticipatedIn, UserNode(user), ThreadNode(t)));
    }

    method Root(t: string, batch: seq<Entry>)
      requires FirstOf(rels, ThreadNode(t)).None? ==> |batch| > 0
      modifies this
      ensures Snapshot() == G.Root(old(Snapshot()), t, batch)
    {
      var existingFirst := FirstOf(rels, ThreadNode(t));
      if existingFirst.None? {
        var e := batch[0];
        MergeMessage(e.id, TurnOf(e));
        MergeRel(Rel(First, ThreadNode(t), MessageNode(e.id)));
      }
    }

    method LinkTriggered(m: NodeRef, tc: NodeRef)
      modifies this
      ensures Snapshot() == G.LinkTriggered(old(Snapshot()), m, tc)
    {
      MergeRel(Rel(Triggered, m, tc));
      var retrieved := RetrievedBy(rels, tc);
      MergeRelsTo(Sourced, m, retrieved);
    }

    method AppendToChain(t: string, m: NodeRef)
      modifies this
      ensures Snapshot() == G.AppendToChain(old(Snapshot()), t, m)
    {
      var prev := ChainTail(rels, t);
      if prev.Some? {
        MergeRel(Rel(Next, prev.value, m));
      }
    }

    /** One row of the UNWIND over consecutive pairs. */
    method ApplyPair(t: string, prev: Entry, cur: Entry)
      requires cur.role == Tool ==> UrlsKeyed(SourcesOf(cur))
      modifies this
      ensures Snapshot() == G.ApplyPair(old(Snapshot()), t, prev, cur)
    {
      if cur.role == Tool {
        MergeToolCall(cur.id, TurnOf(cur));
        MergeSources(ToolCallNode(cur.id), SourcesOf(cur));
      } else {
        MergeMessage(cur.id, TurnOf(cur));
        if prev.id in toolCalls {
          LinkTriggered(MessageNode(cur.id), ToolCallNode(prev.id));
        }
        AppendToChain(t, MessageNode(cur.id));
      }
    }

    /** MERGE_CONVERSATION_TURN. The statement runs as one transaction: when it raises,
        `ok` is false and nothing is written. */
    method MergeConversationTurn(user: string, t: string, batch: seq<Entry>) returns (ok: bool)
      modifies this
      ensures ok <==> MergeTurn(old(Snapshot()), user, t, batch).Some?
      ensures ok ==> Snapshot() == MergeTurn(old(Snapshot()), user, t, batch).value
      ensures !ok ==> Snapshot() == old(Snapshot())
      ensures old(Valid()) ==> Valid()
    {
      ghost var g := Snapshot();
      if G.Valid(g) {
        StoreInvariant.MergeTurnValid(g, user, t, batch);
      }
      if TurnFails(G.Upsert(Snapshot(), user, t), t, batch) {
        return false;
      }
      Upsert(user, t);
      assert Snapshot() == G.Upsert(g, user, t);
      Root(t, batch);
      assert Snapshot() == G.Root(G.Upsert(g, user, t), t, batch);
      if |batch| > 0 {
        ApplyPairs(t, batch);
      }
      ok := true;
    }

    /** The UNWIND over the consecutive pairs of the batch. */
    method ApplyPairs(t: string, batch: seq<Entry>)
      requires |batch| > 0 && PairsKeyed(batch)
      modifies this
      ensures Snapshot() == Pairs(old(Snapshot()), t, batch, |batch| - 1)
    {
      var i, n := 0, |batch| - 1;
      while i < n
        invariant i <= n
        invariant Snapshot() == Pairs(old(Snapshot()), t, batch, i)
      {
        PairsStep(old(Snapshot()), t, batch, i + 1);
        ApplyPair(t, batch[i], batch[i + 1]);
        i := i + 1;
      }
      assert i == |batch| - 1;
    }

    // ------------------------------------------------------------ maintenance statements

    /** FETCH_UNEMBEDDED_MESSAGES, in an order the database chooses. */
    method FetchUnembeddedMessages() returns (records: seq<(string, string)>)
      ensures NoDup(records)
      ensures forall p :: p in records <==>
                p.0 in messages && messages[p.0].embedding.None? && messages[p.0].content == Some(p.1)
    {
      var ids := Enumerate(messages.Keys);
      records := [];
      var i := 0;
      while i < |ids|
        invariant i <= |ids|
        invariant NoDup(records)
        invariant forall p :: p in records <==>
                    p.0 in ids[..i] && messages[p.0].embedding.None? && messages[p.0].content == Some(p.1)
      {
        var m := messages[ids[i]];
        if m.embedding.None? && m.content.Some? {
          records := records + [(ids[i], m.content.value)];
        }
        i := i + 1;
      }
      assert ids[..i] == ids;
    }

    /** FETCH_UNPROCESSED_SOURCES, in an order the database chooses. */
    method FetchUnprocessedSources() returns (records: seq<(string, string)>)
      ensures NoDup(records)
      ensures forall p :: p in records <==>
                p.0 in sources && FirstOf(rels, SourceNode(p.0)).None? && sources[p.0].text == p.1
    {
      var urls := Enumerate(sources.Keys);
      records := [];
      var i := 0;
      while i < |urls|
        invariant i <= |urls|
        invariant NoDup(records)
        invariant forall p :: p in records <==>
                    p.0 in urls[..i] && FirstOf(rels, SourceNode(p.0)).None? && sources[p.0].text == p.1
      {
        if FirstOf(rels, SourceNode(urls[i])).None? {
          records := records + [(urls[i], sources[urls[i]].text)];
        }
        i := i + 1;
      }
      assert urls[..i] == urls;
    }

    /** WRITE_CHUNKS. */
    method WriteChunks(url: string, rows: seq<ChunkRow>)
      modifies this
      ensures Snapshot() == G.WriteChunks(old(Snapshot()), url, rows)
      ensures old(Valid()) ==> Valid()
    {
      if G.Valid(Snapshot()) {
        StoreInvariant.WriteChunksValid(Snapshot(), url, rows);
      }
      if url !in sources {
        return;
      }
      var c0 := ChunkId(url, 0);
      MergeChunk(c0, Chunk(if |rows| > 0 then Some(rows[0].text) else None, 0, None));
      MergeRel(Rel(First, SourceNode(url), ChunkNode(c0)));
      if |rows| > 0 {
        var ps := MatchPrevious(url, rows);
        LinkMatched(url, ps);
      }
    }

    /** The `MATCH (prev:Chunk ...)` of the UNWIND, run for every pair before any of
        the MERGEs after it: the pairs whose previous chunk exists now. */
    method MatchPrevious(url: string, rows: seq<ChunkRow>) returns (ps: seq<(ChunkRow, ChunkRow)>)
      requires |rows| > 0
      ensures ps == MatchedPairs(Snapshot(), url, rows, |rows| - 1)
    {
      ps := [];
      var i, n := 0, |rows| - 1;
      while i < n
        invariant i <= n
        invariant ps == MatchedPairs(Snapshot(), url, rows, i)
      {
        if ChunkId(url, rows[i].index) in chunks {
          ps := ps + [(rows[i], rows[i + 1])];
        }
        i := i + 1;
      }
    }

    /** The MERGE clauses of the UNWIND over the matched pairs. */
    method LinkMatched(url: string, ps: seq<(ChunkRow, ChunkRow)>)
      modifies this
      ensures Snapshot() == LinkPairs(old(Snapshot()), url, ps)
    {
      ghost var g0 := Snapshot();
      for i := 0 to |ps|
        invariant Snapshot() == LinkPairs(g0, url, ps[..i])
      {
        assert ps[..i + 1][..i] == ps[..i];
        ChunkLink(url, ps[i].0, ps[i].1);
      }
      assert ps[..|ps|] == ps;
    }

    /** The chunk MERGE and the NEXT MERGE for one matched pair. */
    method ChunkLink(url: string, r0: ChunkRow, r1: ChunkRow)
      modifies this
      ensures Snapshot() == G.ChunkLink(old(Snapshot()), url, r0, r1)
    {
      var id := ChunkId(url, r1.index);
      MergeChunk(id, Chunk(Some(r1.text), r1.index, None));
      MergeRel(Rel(Next, ChunkNode(ChunkId(url, r0.index)), ChunkNode(id)));
    }

    /** WRITE_VECTOR_BATCH(label). */
    method WriteVectorBatch(lab: Label, batch: seq<VectorRow>)
      modifies this
      ensures Snapshot() == WriteVectors(old(Snapshot()), lab, batch)
      ensures old(Valid()) ==> Valid()
    {
      if G.Valid(Snapshot()) {
        StoreInvariant.WriteVectorsValid(Snapshot(), lab, batch);
      }
      var i := 0;
      while i < |batch|
        invariant i <= |batch|
        invariant Snapshot() == WriteVectors(old(Snapshot()), lab, batch[..i])
      {
        assert batch[..i + 1][..i] == batch[..i];
        var row := batch[i];
        match lab {
          case MessageLabel =>
            if row.id in messages {
              messages := messages[row.id := messages[row.id].(embedding := Some(row.vector))];
            }
          case ChunkLabel =>
            if row.id in chunks {
              chunks := chunks[row.id := chunks[row.id].(embedding := Some(row.vector))];
            }
        }
        i := i + 1;
      }
      assert batch[..i] == batch;
    }

    // ------------------------------------------------------------ VECTOR_LOOKUP

    /** VECTOR_LOOKUP, given what each vector index yields for the query vector, in an
        order the database chooses. */
    method VectorLookup(messageRanking: seq<Hit>, chunkRanking: seq<Hit>) returns (rows: seq<Row>)
      ensures NoDup(rows)
      ensures forall r :: r in rows <==> r in LookupRows(Snapshot(), messageRanking, chunkRanking)
    {
      rows := Enumerate(LookupRows(Snapshot(), messageRanking, chunkRanking));
    }

    // ------------------------------------------------------------ LINK_SOURCES_FROM_VECTOR_LOOKUP

    method LinkOne(m: NodeRef, sid: Option<string>)
      modifies this
      ensures Snapshot() == G.LinkOne(old(Snapshot()), m, sid)
    {
      if sid.Some? {
        if sid.value in chunks {
          MergeRel(Rel(Sourced, m, ChunkNode(sid.value)));
        }
        if sid.value in messages {
          MergeRel(Rel(Sourced, m, MessageNode(sid.value)));
        }
      }
    }

    /** LINK_SOURCES_FROM_VECTOR_LOOKUP. */
    method LinkSourcesFromVectorLookup(msgId: string, sourceIds: seq<Option<string>>)
      modifies this
      ensures Snapshot() == LinkSources(old(Snapshot()), msgId, sourceIds)
      ensures old(Valid()) ==> Valid()
    {
      if G.Valid(Snapshot()) {
        StoreInvariant.LinkSourcesValid(Snapshot(), msgId, sourceIds);
      }
      if msgId !in messages {
        return;
      }
      var i := 0;
      while i < |sourceIds|
        invariant i <= |sourceIds|
        invariant Snapshot() == LinkAll(old(Snapshot()), MessageNode(msgId), sourceIds[..i])
      {
        assert sourceIds[..i + 1][..i] == sourceIds[..i];
        LinkOne(MessageNode(msgId), sourceIds[i]);
        i := i + 1;
      }
      assert sourceIds[..i] == sourceIds;
    }

    // ------------------------------------------------------------ legacy writer

    method PersistOne(t: string, e: LegacyEntry)
      requires UrlsKeyed(e.sources)
      modifies this
      ensures Snapshot() == G.PersistOne(old(Snapshot()), t, e)
    {
      MergeMessage(e.id, Turn(e.role, Some(e.content), e.index, None));
      MergeRel(Rel(HasMessage, ThreadNode(t), MessageNode(e.id)));
      MergeSources(MessageNode(e.id), e.sources);
    }

    /** The legacy node query, one transaction: when it raises, `ok` is false and
        nothing is written. */
    method PersistNodeQuery(user: string, t: string, batch: seq<LegacyEntry>) returns (ok: bool)
      modifies this
      ensures ok <==> PersistNodes(old(Snapshot()), user, t, batch).Some?
      ensures ok ==> Snapshot() == PersistNodes(old(Snapshot()), user, t, batch).value
      ensures !ok ==> Snapshot() == old(Snapshot())
      ensures old(Valid()) ==> Valid()
    {
      if G.Valid(Snapshot()) {
        StoreInvariant.PersistNodesValid(Snapshot(), user, t, batch);
      }
      if !LegacyKeyed(batch) {
        return false;
      }
      Upsert(user, t);
      ghost var g0 := Snapshot();
      var i := 0;
      while i < |batch|
        invariant i <= |batch|
        invariant LegacyKeyed(batch[..i])
        invariant Snapshot() == PersistAll(g0, t, batch[..i])
      {
        PersistAllStep(g0, t, batch, i);
        PersistOne(t, batch[i]);
        i := i + 1;
      }
      assert i == |batch|;
      assert batch[..i] == batch;
      ok := true;
    }

    /** The legacy chain query: collect the thread's Messages by ascending index (ties in
        an order the database chooses) and MERGE NEXT between consecutive ones. */
    method ChainQuery(t: string) returns (order: seq<string>)
      modifies this
      ensures NoDup(order)
      ensures forall id :: id in order <==> id in ThreadMessages(old(Snapshot()), t)
      ensures forall i :: 0 <= i < |order| ==> order[i] in old(messages)
      ensures forall i, j :: 0 <= i < j < |order| ==> old(messages)[order[i]].index <= old(messages)[order[j]].index
      ensures Snapshot() == LinkConsecutive(old(Snapshot()), order)
      ensures forall i :: 0 <= i < |order| - 1 ==> Rel(Next, MessageNode(order[i]), MessageNode(order[i + 1])) in rels
      ensures old(Valid()) ==> Valid()
    {
      var ids := ThreadMessages(Snapshot(), t);
      order := SortByIndex(ids, messages);
      ghost var g := Snapshot();
      var i := 0;
      while i + 1 < |order|
        invariant i <= |order|
        invariant Snapshot() == LinkConsecutive(g, order[..if i + 1 < |order| then i + 1 else |order|])
        decreases |order| - i
      {
        assert order[..i + 2][..i + 1] == order[..i + 1];
        MergeRel(Rel(Next, MessageNode(order[i]), MessageNode(order[i + 1])));
        i := i + 1;
      }
      assert order[..if i + 1 < |order| then i + 1 else |order|] == order;
      Maintenance.LinkConsecutiveEdges(g, order);
      if G.Valid(g) {
        StoreInvariant.LinkConsecutiveValid(g, order);
      }
    }
  }

  /** A member of a non-empty set of Message ids with the smallest index. */
  lemma {:induction false} MinIndexOf(s: set<string>, m: map<string, Turn>) returns (x: string)
    requires s != {} && s <= m.Keys
    ensures x in s && forall y :: y in s ==> m[x].index <= m[y].index
    decreases |s|
  {
    var z :| z in s;
    var s' := s - {z};
    if s' == {} {
      assert s == {z};
      x := z;
    } else {
      var x' := MinIndexOf(s', m);
      x := if m[z].index < m[x'].index then z else x';
      forall y | y in s
        ensures m[x].index <= m[y].index
      {
        if y != z {
          assert y in s';
        }
      }
    }
  }

  /** `ORDER BY m.index ASC` over a set of Message ids; ties in an order the caller does
      not control. */
  method SortByIndex(ids: set<string>, m: map<string, Turn>) returns (order: seq<string>)
    requires ids <= m.Keys
    ensures NoDup(order)
    ensures forall id :: id in order <==> id in ids
    ensures forall i :: 0 <= i < |order| ==> order[i] in m
    ensures forall i, j :: 0 <= i < j < |order| ==> m[order[i]].index <= m[order[j]].index
  {
    order := [];
    var rest := ids;
    while rest != {}
      invariant rest <= ids
      invariant NoDup(order)
      invariant forall id :: id in order <==> id in ids && id !in rest
      invariant forall i :: 0 <= i < |order| ==> order[i] in m
      invariant forall i, j :: 0 <= i < j < |order| ==> m[order[i]].index <= m[order[j]].index
      invariant forall i, y :: 0 <= i < |order| && y in rest ==> m[order[i]].index <= m[y].index
      decreases |rest|
    {
      ghost var w := MinIndexOf(rest, m);
      var x :| x in rest && forall y :: y in rest ==> m[x].index <= m[y].index;
      order := order + [x];
      rest := rest - {x};
    }
  }
}
