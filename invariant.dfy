/** The store invariant `Graph.Valid` holds after every statement that starts from a
    graph where it holds: no relationship twice, at most one FIRST per node and of the
    right shape, NEXT only between two Messages or two Chunks. */
module StoreInvariant {
  import opened Payload
  import opened Messages
  import opened Seqs
  import opened Graph

  lemma EmptyValid()
    ensures Valid(EmptyGraph)
  {
  }

  /** A relationship that may be merged into `g` without breaking Valid. */
  ghost predicate Admissible(g: Graph, r: Rel) {
    && (r.kind == Next ==> NextShape(r))
    && (r.kind == First ==> FirstShape(r) && forall x :: x in g.rels && x.kind == First && x.from == r.from ==> x == r)
  }

  lemma MergeRelValid(g: Graph, r: Rel)
    requires Valid(g) && Admissible(g, r)
    ensures Valid(MergeRel(g, r))
  {
    if r !in g.rels {
      var rels' := g.rels + [r];
      forall r1, r2 | r1 in rels' && r2 in rels' && r1.kind == First && r2.kind == First && r1.from == r2.from
        ensures r1 == r2
      {
        assert r1 in g.rels || r1 == r;
        assert r2 in g.rels || r2 == r;
      }
    }
  }

  /** Merging relationships that are neither FIRST nor NEXT keeps Valid. */
  lemma {:induction false} MergeRelsToValid(g: Graph, kind: RelType, from: NodeRef, targets: seq<NodeRef>)
    requires Valid(g) && kind != First && kind != Next
    ensures Valid(MergeRelsTo(g, kind, from, targets))
  {
    if |targets| > 0 {
      MergeRelsToValid(g, kind, from, targets[..|targets| - 1]);
      MergeRelValid(MergeRelsTo(g, kind, from, targets[..|targets| - 1]), Rel(kind, from, targets[|targets| - 1]));
    }
  }

  lemma {:induction false} MergeSourcesValid(g: Graph, from: NodeRef, srcs: seq<SourceRecord>)
    requires Valid(g) && UrlsKeyed(srcs)
    ensures Valid(MergeSources(g, from, srcs))
  {
    if |srcs| > 0 {
      var init := srcs[..|srcs| - 1];
      assert UrlsKeyed(init) by {
        assert forall k :: 0 <= k < |init| ==> init[k] == srcs[k];
      }
      MergeSourcesValid(g, from, init);
      var s := srcs[|srcs| - 1];
      var g2 := MergeSource(MergeSources(g, from, init), s.url.s, Doc(s.title, s.content));
      MergeRelValid(g2, Rel(Retrieved, from, SourceNode(s.url.s)));
    }
  }

  lemma UpsertValid(g: Graph, user: string, t: string)
    requires Valid(g)
    ensures Valid(Upsert(g, user, t))
  {
    MergeRelValid(g.(users := g.users + {user}, threads := g.threads + {t}), Rel(ParticipatedIn, UserNode(user), ThreadNode(t)));
  }

  lemma RootValid(g: Graph, t: string, batch: seq<Entry>)
    requires Valid(g) && (FirstOf(g.rels, ThreadNode(t)).None? ==> |batch| > 0)
    ensures Valid(Root(g, t, batch))
  {
    if FirstOf(g.rels, ThreadNode(t)).None? {
      var g1 := MergeMessage(g, batch[0].id, TurnOf(batch[0]));
      var r := Rel(First, ThreadNode(t), MessageNode(batch[0].id));
      forall x | x in g1.rels && x.kind == First
        ensures x.from != r.from
      {
        var k :| 0 <= k < |g.rels| && g.rels[k] == x;
      }
      MergeRelValid(g1, r);
    }
  }

  /** NEXT edges leaving a Message end at a Message. */
  ghost predicate NextClosed(rels: seq<Rel>) {
    forall r :: r in rels && r.kind == Next && r.from.MessageNode? ==> r.to.MessageNode?
  }

  lemma {:induction false} LongestStaysMessage(node: NodeRef, unused: seq<Rel>)
    requires node.MessageNode? && NextClosed(unused)
    ensures Longest(node, unused).1.MessageNode?
    decreases |unused|, 1
  {
    ScanStaysMessage(node, unused, 0);
  }

  lemma {:induction false} ScanStaysMessage(node: NodeRef, unused: seq<Rel>, i: nat)
    requires node.MessageNode? && NextClosed(unused)
    ensures Scan(node, unused, i).1.MessageNode?
    decreases |unused|, 0, |unused| - i
  {
    if i < |unused| {
      ScanStaysMessage(node, unused, i + 1);
      if unused[i].kind == Next && unused[i].from == node {
        var rest := unused[..i] + unused[i + 1..];
        assert forall r :: r in rest ==> r in unused;
        LongestStaysMessage(unused[i].to, rest);
      }
    }
  }

  /** Under Valid, the tail of a thread's chain is a Message: a ToolCall, a Source or a
      Chunk can never be where the next reply is linked. */
  lemma TailIsMessage(g: Graph, t: string)
    requires Valid(g) && ChainTail(g.rels, t).Some?
    ensures ChainTail(g.rels, t).value.MessageNode?
  {
    var root := FirstOf(g.rels, ThreadNode(t)).value;
    assert FirstShape(Rel(First, ThreadNode(t), root));
    LongestStaysMessage(root, g.rels);
  }

  lemma AppendToChainValid(g: Graph, t: string, m: string)
    requires Valid(g)
    ensures Valid(AppendToChain(g, t, MessageNode(m)))
  {
    if ChainTail(g.rels, t).Some? {
      TailIsMessage(g, t);
      MergeRelValid(g, Rel(Next, ChainTail(g.rels, t).value, MessageNode(m)));
    }
  }

  lemma ReplyNodesValid(g: Graph, prev: Entry, cur: Entry)
    requires Valid(g)
    ensures Valid(ReplyNodes(g, prev, cur))
  {
    var g1 := MergeMessage(g, cur.id, TurnOf(cur));
    if prev.id in g1.toolCalls {
      var m := MessageNode(cur.id);
      var tc := ToolCallNode(prev.id);
      MergeRelValid(g1, Rel(Triggered, m, tc));
      var g2 := MergeRel(g1, Rel(Triggered, m, tc));
      MergeRelsToValid(g2, Sourced, m, RetrievedBy(g2.rels, tc));
    }
  }

  lemma ApplyPairValid(g: Graph, t: string, prev: Entry, cur: Entry)
    requires Valid(g) && (cur.role == Tool ==> UrlsKeyed(SourcesOf(cur)))
    ensures Valid(ApplyPair(g, t, prev, cur))
  {
    if cur.role == Tool {
      MergeSourcesValid(MergeToolCall(g, cur.id, TurnOf(cur)), ToolCallNode(cur.id), SourcesOf(cur));
    } else {
      ReplyNodesValid(g, prev, cur);
      AppendToChainValid(ReplyNodes(g, prev, cur), t, cur.id);
    }
  }

  lemma PairsStepValid(g: Graph, t: string, batch: seq<Entry>, k: nat)
    requires 0 < k < |batch| && PairsKeyed(batch) && Valid(Pairs(g, t, batch, k - 1))
    ensures Valid(Pairs(g, t, batch, k))
  {
    PairsStep(g, t, batch, k);
    ApplyPairValid(Pairs(g, t, batch, k - 1), t, batch[k - 1], batch[k]);
  }

  /** Valid at the start of a sequence of graphs, and kept by every step, holds at its end. */
  lemma {:induction false} ValidAlong(gs: seq<Graph>, k: nat)
    requires k < |gs| && Valid(gs[0])
    requires forall j :: 0 < j < |gs| && Valid(gs[j - 1]) ==> Valid(gs[j])
    ensures Valid(gs[k])
  {
    if k > 0 {
      ValidAlong(gs, k - 1);
    }
  }

  lemma PairsValid(g: Graph, t: string, batch: seq<Entry>, k: nat)
    requires Valid(g) && k < |batch| && PairsKeyed(batch)
    ensures Valid(Pairs(g, t, batch, k))
  {
    var gs := Trace(g, t, batch, k);
    forall j | 0 < j < |gs| && Valid(gs[j - 1])
      ensures Valid(gs[j])
    {
      PairsStepValid(g, t, batch, j);
    }
    ValidAlong(gs, k);
  }

  /** The part of the turn merge after User and Thread are merged, when it does not raise. */
  lemma RootPairsValid(g0: Graph, t: string, batch: seq<Entry>)
    requires Valid(g0) && !TurnFails(g0, t, batch)
    ensures |batch| == 0 ==> Valid(Root(g0, t, batch))
    ensures |batch| > 0 ==> Valid(Pairs(Root(g0, t, batch), t, batch, |batch| - 1))
  {
    RootValid(g0, t, batch);
    if |batch| > 0 {
      PairsValid(Root(g0, t, batch), t, batch, |batch| - 1);
    }
  }

  /** MERGE_CONVERSATION_TURN keeps the invariant, whatever the batch. */
  lemma MergeTurnValid(g: Graph, user: string, t: string, batch: seq<Entry>)
    requires Valid(g)
    ensures MergeTurn(g, user, t, batch).Some? ==> Valid(MergeTurn(g, user, t, batch).value)
  {
    UpsertValid(g, user, t);
    if !TurnFails(Upsert(g, user, t), t, batch) {
      RootPairsValid(Upsert(g, user, t), t, batch);
    }
  }

  lemma LinkOneValid(g: Graph, m: NodeRef, sid: Option<string>)
    requires Valid(g)
    ensures Valid(LinkOne(g, m, sid))
  {
    if sid.Some? {
      var s := sid.value;
      if s in g.chunks {
        MergeRelValid(g, Rel(Sourced, m, ChunkNode(s)));
      }
      var g1 := if s in g.chunks then MergeRel(g, Rel(Sourced, m, ChunkNode(s))) else g;
      if s in g1.messages {
        MergeRelValid(g1, Rel(Sourced, m, MessageNode(s)));
      }
    }
  }

  lemma {:induction false} LinkAllValid(g: Graph, m: NodeRef, ids: seq<Option<string>>)
    requires Valid(g)
    ensures Valid(LinkAll(g, m, ids))
  {
    if |ids| > 0 {
      LinkAllValid(g, m, ids[..|ids| - 1]);
      LinkOneValid(LinkAll(g, m, ids[..|ids| - 1]), m, ids[|ids| - 1]);
    }
  }

  /** LINK_SOURCES_FROM_VECTOR_LOOKUP keeps the invariant. */
  lemma LinkSourcesValid(g: Graph, msgId: string, ids: seq<Option<string>>)
    requires Valid(g)
    ensures Valid(LinkSources(g, msgId, ids))
  {
    if msgId in g.messages {
      LinkAllValid(g, MessageNode(msgId), ids);
    }
  }

  lemma PersistOneValid(g: Graph, t: string, e: LegacyEntry)
    requires Valid(g) && UrlsKeyed(e.sources)
    ensures Valid(PersistOne(g, t, e))
  {
    var g1 := MergeMessage(g, e.id, Turn(e.role, Some(e.content), e.index, None));
    MergeRelValid(g1, Rel(HasMessage, ThreadNode(t), MessageNode(e.id)));
    MergeSourcesValid(MergeRel(g1, Rel(HasMessage, ThreadNode(t), MessageNode(e.id))), MessageNode(e.id), e.sources);
  }

  lemma {:induction false} PersistAllValid(g: Graph, t: string, batch: seq<LegacyEntry>)
    requires Valid(g) && LegacyKeyed(batch)
    ensures Valid(PersistAll(g, t, batch))
  {
    if |batch| > 0 {
      var init := batch[..|batch| - 1];
      assert LegacyKeyed(init) by {
        assert forall k :: 0 <= k < |init| ==> init[k] == batch[k];
      }
      PersistAllValid(g, t, init);
      PersistOneValid(PersistAll(g, t, init), t, batch[|batch| - 1]);
    }
  }

  /** The legacy node query keeps the invariant. */
  lemma PersistNodesValid(g: Graph, user: string, t: string, batch: seq<LegacyEntry>)
    requires Valid(g)
    ensures PersistNodes(g, user, t, batch).Some? ==> Valid(PersistNodes(g, user, t, batch).value)
  {
    if LegacyKeyed(batch) {
      UpsertValid(g, user, t);
      PersistAllValid(Upsert(g, user, t), t, batch);
    }
  }

  /** The legacy chain query keeps the invariant. */
  lemma {:induction false} LinkConsecutiveValid(g: Graph, order: seq<string>)
    requires Valid(g)
    ensures Valid(LinkConsecutive(g, order))
  {
    if |order| >= 2 {
      var n := |order|;
      LinkConsecutiveValid(g, order[..n - 1]);
      MergeRelValid(LinkConsecutive(g, order[..n - 1]), Rel(Next, MessageNode(order[n - 2]), MessageNode(order[n - 1])));
    }
  }

  /** WRITE_VECTOR_BATCH keeps the invariant: it touches no relationship. */
  lemma {:induction false} WriteVectorsKeepRels(g: Graph, lab: Label, rows: seq<VectorRow>)
    ensures WriteVectors(g, lab, rows).rels == g.rels
  {
    if |rows| > 0 {
      WriteVectorsKeepRels(g, lab, rows[..|rows| - 1]);
    }
  }

  lemma WriteVectorsValid(g: Graph, lab: Label, rows: seq<VectorRow>)
    requires Valid(g)
    ensures Valid(WriteVectors(g, lab, rows))
  {
    WriteVectorsKeepRels(g, lab, rows);
  }

  lemma ChunkLinkValid(g: Graph, url: string, r0: ChunkRow, r1: ChunkRow)
    requires Valid(g)
    ensures Valid(ChunkLink(g, url, r0, r1))
  {
    var id := ChunkId(url, r1.index);
    MergeRelValid(MergeChunk(g, id, Chunk(Some(r1.text), r1.index, None)), Rel(Next, ChunkNode(ChunkId(url, r0.index)), ChunkNode(id)));
  }

  lemma {:induction false} LinkPairsValid(g: Graph, url: string, ps: seq<(ChunkRow, ChunkRow)>)
    requires Valid(g)
    ensures Valid(LinkPairs(g, url, ps))
  {
    if |ps| > 0 {
      LinkPairsValid(g, url, ps[..|ps| - 1]);
      ChunkLinkValid(LinkPairs(g, url, ps[..|ps| - 1]), url, ps[|ps| - 1].0, ps[|ps| - 1].1);
    }
  }

  /** WRITE_CHUNKS keeps the invariant: a Source's FIRST always targets its chunk 0, so
      merging it again can never give the Source a second FIRST. */
  lemma WriteChunksValid(g: Graph, url: string, rows: seq<ChunkRow>)
    requires Valid(g)
    ensures Valid(WriteChunks(g, url, rows))
  {
    if url in g.sources {
      var c0 := ChunkId(url, 0);
      var g1 := MergeChunk(g, c0, Chunk(if |rows| > 0 then Some(rows[0].text) else None, 0, None));
      var r := Rel(First, SourceNode(url), ChunkNode(c0));
      forall x | x in g1.rels && x.kind == First && x.from == r.from
        ensures x == r
      {
        assert FirstShape(x);
      }
      MergeRelValid(g1, r);
      if |rows| > 0 {
        LinkPairsValid(MergeRel(g1, r), url, MatchedPairs(MergeRel(g1, r), url, rows, |rows| - 1));
      }
    }
  }
}
