/** Keyed MERGE in MERGE_CONVERSATION_TURN: properties written on creation are never
    overwritten, and re-running a batch creates no node. */
module NodeKeys {
  import opened Payload
  import opened Messages
  import opened Graph

  lemma ExtendsTrans(a: Graph, b: Graph, c: Graph)
    requires Extends(a, b) && Extends(b, c)
    ensures Extends(a, c)
  {
  }

  lemma {:induction false} MergeSourcesExtends(g: Graph, from: NodeRef, srcs: seq<SourceRecord>)
    requires UrlsKeyed(srcs)
    ensures Extends(g, MergeSources(g, from, srcs))
  {
    if |srcs| > 0 {
      var init := srcs[..|srcs| - 1];
      var g1 := MergeSources(g, from, init);
      MergeSourcesExtends(g, from, init);
      var s := srcs[|srcs| - 1];
      var g2 := MergeSource(g1, s.url.s, Doc(s.title, s.content));
      var g3 := MergeRel(g2, Rel(Retrieved, from, SourceNode(s.url.s)));
      assert Extends(g1, g2) && Extends(g2, g3);
      ExtendsTrans(g, g1, g2);
      ExtendsTrans(g, g2, g3);
    }
  }

  lemma ToolNodesExtends(g: Graph, cur: Entry)
    requires UrlsKeyed(SourcesOf(cur))
    ensures Extends(g, ToolNodes(g, cur))
  {
    var g1 := MergeToolCall(g, cur.id, TurnOf(cur));
    MergeSourcesExtends(g1, ToolCallNode(cur.id), SourcesOf(cur));
    ExtendsTrans(g, g1, ToolNodes(g, cur));
  }

  /** A step that only adds relationships extends the graph. */
  lemma RelsOnlyExtends(g: Graph, g': Graph)
    requires g'.(rels := g.rels) == g && g.rels <= g'.rels
    ensures Extends(g, g')
  {
  }

  lemma MergeMessageExtends(g: Graph, id: string, t: Turn)
    ensures Extends(g, MergeMessage(g, id, t))
  {
  }

  lemma ReplyNodesExtends(g: Graph, prev: Entry, cur: Entry)
    ensures Extends(g, ReplyNodes(g, prev, cur))
  {
    var g1 := MergeMessage(g, cur.id, TurnOf(cur));
    MergeMessageExtends(g, cur.id, TurnOf(cur));
    if prev.id in g1.toolCalls {
      var g3 := MergeRel(g1, Rel(Triggered, MessageNode(cur.id), ToolCallNode(prev.id)));
      var g2 := MergeRelsTo(g3, Sourced, MessageNode(cur.id), RetrievedBy(g3.rels, ToolCallNode(prev.id)));
      RelsOnlyExtends(g1, g3);
      RelsOnlyExtends(g3, g2);
      ExtendsTrans(g1, g3, g2);
      ExtendsTrans(g, g1, g2);
    }
  }

  lemma AppendToChainAddsRel(g: Graph, t: string, m: NodeRef)
    ensures AppendToChain(g, t, m).(rels := g.rels) == g
    ensures g.rels <= AppendToChain(g, t, m).rels
  {
  }

  lemma ApplyPairExtends(g: Graph, t: string, prev: Entry, cur: Entry)
    requires cur.role == Tool ==> UrlsKeyed(SourcesOf(cur))
    ensures Extends(g, ApplyPair(g, t, prev, cur))
  {
    if cur.role == Tool {
      ToolNodesExtends(g, cur);
    } else {
      var g2 := ReplyNodes(g, prev, cur);
      ReplyNodesExtends(g, prev, cur);
      AppendToChainAddsRel(g2, t, MessageNode(cur.id));
      ExtendsTrans(g, g2, AppendToChain(g2, t, MessageNode(cur.id)));
    }
  }

  /** One more pair applies one more row of the UNWIND. */
  lemma PairsStepExtends(g: Graph, t: string, batch: seq<Entry>, k: nat)
    requires 0 < k < |batch| && PairsKeyed(batch)
    ensures Extends(Pairs(g, t, batch, k - 1), Pairs(g, t, batch, k))
  {
    PairsStep(g, t, batch, k);
    ApplyPairExtends(Pairs(g, t, batch, k - 1), t, batch[k - 1], batch[k]);
  }

  /** A sequence of graphs each extending the one before ends extending its start. */
  lemma {:induction false} ExtendsAlong(gs: seq<Graph>, k: nat)
    requires k < |gs|
    requires forall j :: 0 < j < |gs| ==> Extends(gs[j - 1], gs[j])
    ensures Extends(gs[0], gs[k])
  {
    if k > 0 {
      ExtendsAlong(gs, k - 1);
      ExtendsTrans(gs[0], gs[k - 1], gs[k]);
    }
  }

  lemma PairsExtends(g: Graph, t: string, batch: seq<Entry>, k: nat)
    requires k < |batch| && PairsKeyed(batch)
    ensures Extends(g, Pairs(g, t, batch, k))
  {
    var gs := Trace(g, t, batch, k);
    forall j | 0 < j < |gs|
      ensures Extends(gs[j - 1], gs[j])
    {
      PairsStepExtends(g, t, batch, j);
    }
    ExtendsAlong(gs, k);
  }

  lemma UpsertExtends(g: Graph, user: string, t: string)
    ensures Extends(g, Upsert(g, user, t))
  {
  }

  lemma RootExtends(g: Graph, t: string, batch: seq<Entry>)
    requires FirstOf(g.rels, ThreadNode(t)).None? ==> |batch| > 0
    ensures Extends(g, Root(g, t, batch))
    ensures FirstOf(Root(g, t, batch).rels, ThreadNode(t)).Some?
  {
    if FirstOf(g.rels, ThreadNode(t)).None? {
      var r := Rel(First, ThreadNode(t), MessageNode(batch[0].id));
      var g2 := MergeMessage(g, batch[0].id, TurnOf(batch[0]));
      var g1 := MergeRel(g2, r);
      assert Root(g, t, batch) == g1;
      assert Extends(g, g2);
      assert Extends(g2, g1);
      ExtendsTrans(g, g2, g1);
      assert r in g1.rels;
      var k :| 0 <= k < |g1.rels| && g1.rels[k] == r;
    }
  }

  lemma UpsertRootExtends(g: Graph, user: string, t: string, batch: seq<Entry>)
    requires FirstOf(Upsert(g, user, t).rels, ThreadNode(t)).None? ==> |batch| > 0
    ensures Extends(g, Root(Upsert(g, user, t), t, batch))
    ensures FirstOf(Root(Upsert(g, user, t), t, batch).rels, ThreadNode(t)).Some?
  {
    var g0 := Upsert(g, user, t);
    UpsertExtends(g, user, t);
    RootExtends(g0, t, batch);
    ExtendsTrans(g, g0, Root(g0, t, batch));
  }

  /** MERGE writes once: every node keeps the properties it had and no relationship is
      removed, whatever the batch; the statement fails exactly when it is refused, and
      then changes nothing. */
  lemma MergeTurnWritesOnce(g: Graph, user: string, t: string, batch: seq<Entry>)
    ensures MergeTurn(g, user, t, batch).None? <==> TurnFails(Upsert(g, user, t), t, batch)
    ensures MergeTurn(g, user, t, batch).Some? ==> Extends(g, MergeTurn(g, user, t, batch).value)
  {
    var g0 := Upsert(g, user, t);
    if !TurnFails(g0, t, batch) {
      var g1 := Root(g0, t, batch);
      UpsertRootExtends(g, user, t, batch);
      if |batch| > 0 {
        PairsExtends(g1, t, batch, |batch| - 1);
        ExtendsTrans(g, g1, Pairs(g1, t, batch, |batch| - 1));
      }
    }
  }

  /** The nodes entry i (i >= 1) of the batch is merged into. */
  ghost predicate HasEntryNodes(g: Graph, e: Entry) {
    if e.role == Tool then e.id in g.toolCalls && HasSourceNodes(g, SourcesOf(e))
    else e.id in g.messages
  }

  /** Every source with a string url has its Source node. */
  ghost predicate HasSourceNodes(g: Graph, srcs: seq<SourceRecord>) {
    forall k :: 0 <= k < |srcs| && srcs[k].url.VStr? ==> srcs[k].url.s in g.sources
  }

  lemma HasEntryNodesKept(g: Graph, g': Graph, e: Entry)
    requires Extends(g, g') && HasEntryNodes(g, e)
    ensures HasEntryNodes(g', e)
  {
  }

  /** After a pair, the current entry's nodes exist. */
  lemma ApplyPairMerges(g: Graph, t: string, prev: Entry, cur: Entry)
    requires cur.role == Tool ==> UrlsKeyed(SourcesOf(cur))
    ensures HasEntryNodes(ApplyPair(g, t, prev, cur), cur)
  {
    if cur.role != Tool {
      var g3 := ReplyNodes(g, prev, cur);
      ReplyNodesExtends(g, prev, cur);
      AppendToChainAddsRel(g3, t, MessageNode(cur.id));
    }
  }

  lemma PairsStepMerges(g: Graph, t: string, batch: seq<Entry>, k: nat)
    requires 0 < k < |batch| && PairsKeyed(batch)
    ensures HasEntryNodes(Pairs(g, t, batch, k), batch[k])
  {
    PairsStep(g, t, batch, k);
    ApplyPairMerges(Pairs(g, t, batch, k - 1), t, batch[k - 1], batch[k]);
  }

  /** A pair never removes the nodes of an entry. */
  lemma ApplyPairKeeps(g: Graph, t: string, prev: Entry, cur: Entry, e: Entry)
    requires cur.role == Tool ==> UrlsKeyed(SourcesOf(cur))
    requires HasEntryNodes(g, e)
    ensures HasEntryNodes(ApplyPair(g, t, prev, cur), e)
  {
    ApplyPairExtends(g, t, prev, cur);
    HasEntryNodesKept(g, ApplyPair(g, t, prev, cur), e);
  }

  lemma PairsStepKeeps(g: Graph, t: string, batch: seq<Entry>, k: nat, e: Entry)
    requires 0 < k < |batch| && PairsKeyed(batch)
    requires HasEntryNodes(Pairs(g, t, batch, k - 1), e)
    ensures HasEntryNodes(Pairs(g, t, batch, k), e)
  {
    PairsStep(g, t, batch, k);
    ApplyPairKeeps(Pairs(g, t, batch, k - 1), t, batch[k - 1], batch[k], e);
  }

  /** A property of an entry that every step keeps holds from where it first holds on. */
  lemma {:induction false} KeptAlong(gs: seq<Graph>, e: Entry, i: nat, k: nat)
    requires i <= k < |gs| && HasEntryNodes(gs[i], e)
    requires forall j :: 0 < j < |gs| && HasEntryNodes(gs[j - 1], e) ==> HasEntryNodes(gs[j], e)
    ensures HasEntryNodes(gs[k], e)
  {
    if i < k {
      KeptAlong(gs, e, i, k - 1);
    }
  }

  /** After the first k pairs, entry i (1 <= i <= k) has its nodes. */
  lemma PairsMergeEntry(g: Graph, t: string, batch: seq<Entry>, k: nat, i: nat)
    requires 1 <= i <= k < |batch| && PairsKeyed(batch)
    ensures HasEntryNodes(Pairs(g, t, batch, k), batch[i])
  {
    var gs := Trace(g, t, batch, k);
    PairsStepMerges(g, t, batch, i);
    forall j | 0 < j < |gs| && HasEntryNodes(gs[j - 1], batch[i])
      ensures HasEntryNodes(gs[j], batch[i])
    {
      PairsStepKeeps(g, t, batch, j, batch[i]);
    }
    KeptAlong(gs, batch[i], i, k);
  }

  lemma PairsMergeEntries(g: Graph, t: string, batch: seq<Entry>, k: nat)
    requires k < |batch| && PairsKeyed(batch)
    ensures forall i :: 1 <= i <= k ==> HasEntryNodes(Pairs(g, t, batch, k), batch[i])
  {
    forall i | 1 <= i <= k
      ensures HasEntryNodes(Pairs(g, t, batch, k), batch[i])
    {
      PairsMergeEntry(g, t, batch, k, i);
    }
  }

  lemma {:induction false} MergeSourcesKnown(g: Graph, from: NodeRef, srcs: seq<SourceRecord>)
    requires UrlsKeyed(srcs)
    requires forall k :: 0 <= k < |srcs| ==> srcs[k].url.s in g.sources
    ensures MergeSources(g, from, srcs).(rels := g.rels) == g
  {
    if |srcs| > 0 {
      MergeSourcesKnown(g, from, srcs[..|srcs| - 1]);
    }
  }

  /** A pair whose nodes all exist adds relationships only. */
  lemma ApplyPairKnown(g: Graph, t: string, prev: Entry, cur: Entry)
    requires cur.role == Tool ==> UrlsKeyed(SourcesOf(cur))
    requires HasEntryNodes(g, cur)
    ensures ApplyPair(g, t, prev, cur).(rels := g.rels) == g
  {
    if cur.role == Tool {
      MergeSourcesKnown(g, ToolCallNode(cur.id), SourcesOf(cur));
    } else {
      var g2 := ReplyNodes(g, prev, cur);
      ReplyNodesKnown(g, prev, cur);
      AppendToChainAddsRel(g2, t, MessageNode(cur.id));
    }
  }

  lemma ReplyNodesKnown(g: Graph, prev: Entry, cur: Entry)
    requires cur.id in g.messages
    ensures ReplyNodes(g, prev, cur).(rels := g.rels) == g
  {
    var g1 := MergeMessage(g, cur.id, TurnOf(cur));
    assert g1 == g;
    if prev.id in g1.toolCalls {
      var g3 := MergeRel(g1, Rel(Triggered, MessageNode(cur.id), ToolCallNode(prev.id)));
      assert ReplyNodes(g, prev, cur) == MergeRelsTo(g3, Sourced, MessageNode(cur.id), RetrievedBy(g3.rels, ToolCallNode(prev.id)));
    }
  }

  lemma HasEntryNodesSameNodes(g: Graph, g': Graph, e: Entry)
    requires g'.(rels := g.rels) == g && HasEntryNodes(g, e)
    ensures HasEntryNodes(g', e)
  {
  }

  lemma {:induction false} PairsKnown(g: Graph, t: string, batch: seq<Entry>, k: nat)
    requires k < |batch| && PairsKeyed(batch)
    requires forall i :: 1 <= i <= k ==> HasEntryNodes(g, batch[i])
    ensures Pairs(g, t, batch, k).(rels := g.rels) == g
  {
    if k > 0 {
      PairsKnown(g, t, batch, k - 1);
      PairsStepKnown(g, t, batch, k);
    }
  }

  /** One more pair whose nodes exist adds relationships only. */
  lemma PairsStepKnown(g: Graph, t: string, batch: seq<Entry>, k: nat)
    requires 0 < k < |batch| && PairsKeyed(batch) && HasEntryNodes(g, batch[k])
    requires Pairs(g, t, batch, k - 1).(rels := g.rels) == g
    ensures Pairs(g, t, batch, k).(rels := g.rels) == g
  {
    var g1 := Pairs(g, t, batch, k - 1);
    PairsStep(g, t, batch, k);
    HasEntryNodesSameNodes(g, g1, batch[k]);
    ApplyPairKnown(g1, t, batch[k - 1], batch[k]);
    SameNodesTrans(g, g1, Pairs(g, t, batch, k));
  }

  lemma SameNodesTrans(a: Graph, b: Graph, c: Graph)
    requires b.(rels := a.rels) == a && c.(rels := b.rels) == b
    ensures c.(rels := a.rels) == a
  {
  }

  lemma FirstOfKept(rels: seq<Rel>, rels': seq<Rel>, x: NodeRef)
    requires rels <= rels' && FirstOf(rels, x).Some?
    ensures FirstOf(rels', x).Some?
  {
    var r := Rel(First, x, FirstOf(rels, x).value);
    var k :| 0 <= k < |rels| && rels[k] == r;
    assert rels'[k] == r;
  }

  lemma FirstRunEntries(g: Graph, user: string, t: string, batch: seq<Entry>, g1: Graph)
    requires MergeTurn(g, user, t, batch) == Some(g1)
    ensures PairsKeyed(batch) && Extends(Root(Upsert(g, user, t), t, batch), g1)
    ensures forall i :: 1 <= i < |batch| ==> HasEntryNodes(g1, batch[i])
  {
    if |batch| > 0 {
      MergeTurnEntries(g, user, t, batch, |batch| - 1, g1);
    }
  }

  /** FirstRunEntries on a non-empty batch, whose last pair is n. */
  lemma MergeTurnEntries(g: Graph, user: string, t: string, batch: seq<Entry>, n: nat, g1: Graph)
    requires n == |batch| - 1 && MergeTurn(g, user, t, batch) == Some(g1)
    ensures PairsKeyed(batch) && Extends(Root(Upsert(g, user, t), t, batch), g1)
    ensures forall i :: 1 <= i < |batch| ==> HasEntryNodes(g1, batch[i])
  {
    var r0 := Root(Upsert(g, user, t), t, batch);
    MergeTurnRuns(g, user, t, batch, n);
    PairsExtends(r0, t, batch, n);
    PairsMergeEntries(r0, t, batch, n);
  }

  /** What a turn that went through leaves behind: the thread's FIRST, the User, Thread
      and PARTICIPATED_IN, and the nodes of every entry after the first. */
  lemma FirstRun(g: Graph, user: string, t: string, batch: seq<Entry>, g1: Graph)
    requires MergeTurn(g, user, t, batch) == Some(g1)
    ensures FirstOf(g1.rels, ThreadNode(t)).Some? && Upsert(g1, user, t) == g1 && PairsKeyed(batch)
    ensures forall i :: 1 <= i < |batch| ==> HasEntryNodes(g1, batch[i])
  {
    var g0 := Upsert(g, user, t);
    var r0 := Root(g0, t, batch);
    RootExtends(g0, t, batch);
    FirstRunEntries(g, user, t, batch, g1);
    FirstOfKept(r0.rels, g1.rels, ThreadNode(t));
    assert Rel(ParticipatedIn, UserNode(user), ThreadNode(t)) in g0.rels;
    assert g0.rels <= r0.rels <= g1.rels;
    UpsertIdle(g1, user, t);
  }

  /** Merging a User, Thread and PARTICIPATED_IN that all exist changes nothing. */
  lemma UpsertIdle(g: Graph, user: string, t: string)
    requires user in g.users && t in g.threads && Rel(ParticipatedIn, UserNode(user), ThreadNode(t)) in g.rels
    ensures Upsert(g, user, t) == g
  {
    assert g.users + {user} == g.users;
    assert g.threads + {t} == g.threads;
  }

  lemma SecondRun(g1: Graph, user: string, t: string, batch: seq<Entry>)
    requires FirstOf(g1.rels, ThreadNode(t)).Some? && Upsert(g1, user, t) == g1 && PairsKeyed(batch)
    requires forall i :: 1 <= i < |batch| ==> HasEntryNodes(g1, batch[i])
    ensures MergeTurn(g1, user, t, batch).Some? && MergeTurn(g1, user, t, batch).value.(rels := g1.rels) == g1
  {
    assert !TurnFails(g1, t, batch);
    assert Root(g1, t, batch) == g1;
    if |batch| > 0 {
      PairsKnown(g1, t, batch, |batch| - 1);
    }
  }

  /** Re-running a batch that went through creates no node and changes no property:
      only relationships can be added. */
  lemma RerunAddsNoNodes(g: Graph, user: string, t: string, batch: seq<Entry>)
    requires MergeTurn(g, user, t, batch).Some?
    ensures var g1 := MergeTurn(g, user, t, batch).value;
            MergeTurn(g1, user, t, batch).Some? && MergeTurn(g1, user, t, batch).value.(rels := g1.rels) == g1
  {
    FirstRun(g, user, t, batch, MergeTurn(g, user, t, batch).value);
    SecondRun(MergeTurn(g, user, t, batch).value, user, t, batch);
  }
}
