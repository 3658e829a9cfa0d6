/** What MERGE_CONVERSATION_TURN does to a thread's FIRST/NEXT chain, to the nodes it
    merges and to the ToolCall side branches. */
module Conversation {
  import opened Payload
  import opened Messages
  import opened Seqs
  import opened Graph

  /** The thread's chain is exactly the Messages `c`, in order: one FIRST edge, to c[0];
      a NEXT edge from each c[j] to c[j+1]; no other NEXT edge leaves a node of c. */
  ghost predicate ChainShape(rels: seq<Rel>, t: string, c: seq<string>) {
    |c| > 0 && NoDup(c) && RootedAt(rels, t, c[0]) && LinkedInOrder(rels, c) && OnlyForward(rels, c)
  }

  /** The thread's one FIRST edge goes to x. */
  ghost predicate RootedAt(rels: seq<Rel>, t: string, x: string) {
    && Rel(First, ThreadNode(t), MessageNode(x)) in rels
    && forall r :: r in rels && r.kind == First && r.from == ThreadNode(t) ==> r.to == MessageNode(x)
  }

  /** A NEXT edge from each c[i] to c[j], j = i + 1. (Naming both neighbours keeps the
      quantifier from generating c[i + 1], c[i + 2], ... on its own.) */
  ghost predicate LinkedInOrder(rels: seq<Rel>, c: seq<string>) {
    forall i, j :: 0 <= i && j == i + 1 < |c| ==> Rel(Next, MessageNode(c[i]), MessageNode(c[j])) in rels
  }

  /** No NEXT edge leaves the last node of c, and the one from c[i] goes to c[i + 1]. */
  ghost predicate OnlyForward(rels: seq<Rel>, c: seq<string>)
    requires |c| > 0
  {
    && (forall r :: r in rels && r.kind == Next ==> r.from != MessageNode(c[|c| - 1]))
    && (forall r, i, j :: r in rels && 0 <= i && j == i + 1 < |c| && r.kind == Next && r.from == MessageNode(c[i])
          ==> r.to == MessageNode(c[j]))
  }

  lemma RemoveAt<T>(s: seq<T>, k: nat)
    requires k < |s| && NoDup(s)
    ensures NoDup(s[..k] + s[k + 1..])
    ensures forall x :: x in s[..k] + s[k + 1..] <==> x in s && x != s[k]
  {
    var s' := s[..k] + s[k + 1..];
    assert forall m :: 0 <= m < |s'| ==> s'[m] == if m < k then s[m] else s[m + 1];
    forall x | x in s && x != s[k]
      ensures x in s'
    {
      var m :| 0 <= m < |s| && s[m] == x;
      if m < k {
        assert s'[m] == x;
      } else {
        assert s'[m - 1] == x;
      }
    }
  }

  lemma {:induction false} ScanNone(x: NodeRef, u: seq<Rel>, j: nat)
    requires forall m :: j <= m < |u| ==> !(u[m].kind == Next && u[m].from == x)
    ensures Scan(x, u, j) == (0, x)
    decreases |u| - j
  {
    if j < |u| {
      ScanNone(x, u, j + 1);
    }
  }

  lemma {:induction false} ScanOne(x: NodeRef, u: seq<Rel>, j: nat, k: nat)
    requires j <= k < |u| && u[k].kind == Next && u[k].from == x
    requires forall m :: j <= m < |u| && m != k ==> !(u[m].kind == Next && u[m].from == x)
    ensures var sub := Longest(u[k].to, u[..k] + u[k + 1..]); Scan(x, u, j) == (sub.0 + 1, sub.1)
    decreases k - j
  {
    if j < k {
      ScanOne(x, u, j + 1, k);
    } else {
      ScanNone(x, u, k + 1);
    }
  }

  /** Along a chain the longest trail from c[i] runs to the chain's last node. */
  lemma {:induction false} LongestOnChain(c: seq<string>, i: nat, u: seq<Rel>)
    requires i < |c| && NoDup(c) && NoDup(u)
    requires forall a, b :: i <= a && b == a + 1 < |c| ==> Rel(Next, MessageNode(c[a]), MessageNode(c[b])) in u
    requires forall r :: r in u && r.kind == Next ==> r.from != MessageNode(c[|c| - 1])
    requires forall r, a, b :: r in u && i <= a && b == a + 1 < |c| && r.kind == Next && r.from == MessageNode(c[a])
               ==> r.to == MessageNode(c[b])
    ensures Longest(MessageNode(c[i]), u) == (|c| - 1 - i, MessageNode(c[|c| - 1]))
    decreases |c| - i
  {
    var x := MessageNode(c[i]);
    if i == |c| - 1 {
      forall m | 0 <= m < |u|
        ensures !(u[m].kind == Next && u[m].from == x)
      {
        assert u[m] in u;
      }
      ScanNone(x, u, 0);
    } else {
      var e := Rel(Next, x, MessageNode(c[i + 1]));
      var k :| 0 <= k < |u| && u[k] == e;
      forall m | 0 <= m < |u| && m != k
        ensures !(u[m].kind == Next && u[m].from == x)
      {
        assert u[m] in u;
        assert u[m] != u[k];
      }
      ScanOne(x, u, 0, k);
      var u' := u[..k] + u[k + 1..];
      RemoveAt(u, k);
      forall a, b | i + 1 <= a && b == a + 1 < |c|
        ensures Rel(Next, MessageNode(c[a]), MessageNode(c[b])) in u'
      {
        assert c[a] != c[i];
      }
      LongestOnChain(c, i + 1, u');
    }
  }

  /** On a chain, the tail the statement appends to is the chain's last Message. */
  lemma ChainTailIsLast(rels: seq<Rel>, t: string, c: seq<string>)
    requires ChainShape(rels, t, c) && NoDup(rels)
    ensures ChainTail(rels, t) == Some(MessageNode(c[|c| - 1]))
  {
    var k :| 0 <= k < |rels| && rels[k] == Rel(First, ThreadNode(t), MessageNode(c[0]));
    assert FirstOf(rels, ThreadNode(t)) == Some(MessageNode(c[0]));
    LongestOnChain(c, 0, rels);
  }

  /** Adding relationships that are neither FIRST nor NEXT keeps a chain. */
  lemma ChainGrow(rels: seq<Rel>, rels': seq<Rel>, t: string, c: seq<string>)
    requires ChainShape(rels, t, c)
    requires forall r :: r in rels ==> r in rels'
    requires forall r :: r in rels' ==> r in rels || (r.kind != First && r.kind != Next)
    ensures ChainShape(rels', t, c)
  {
  }

  /** The chain after k pairs of the batch: the root batch[0], then every later entry
      that is not a tool entry, in batch order. */
  function ChainIds(batch: seq<Entry>, k: nat): (c: seq<string>)
    requires k < |batch|
    ensures |c| >= 1 && c[0] == batch[0].id
  {
    if k == 0 then [batch[0].id]
    else ChainIds(batch, k - 1) + (if batch[k].role == Tool then [] else [batch[k].id])
  }

  /** Every id on the chain after k pairs is the id of an entry i <= k. */
  lemma {:induction false} ChainIdsFromBatch(batch: seq<Entry>, k: nat, x: string) returns (i: nat)
    requires k < |batch| && x in ChainIds(batch, k)
    ensures i <= k && batch[i].id == x
  {
    if k > 0 && x in ChainIds(batch, k - 1) {
      i := ChainIdsFromBatch(batch, k - 1, x);
    } else {
      i := k;
    }
  }

  /** The tail of the chain after k pairs is the id of an entry i <= k. */
  lemma ChainTailFromBatch(batch: seq<Entry>, k: nat, c: seq<string>) returns (i: nat)
    requires k < |batch| && c == ChainIds(batch, k)
    ensures i <= k && batch[i].id == c[|c| - 1]
  {
    i := ChainIdsFromBatch(batch, k, c[|c| - 1]);
  }

  /** The ids of `es`, in order. */
  function IdsOf(es: seq<Entry>): (ids: seq<string>)
    ensures |ids| == |es| && forall i :: 0 <= i < |es| ==> ids[i] == es[i].id
  {
    if |es| == 0 then [] else IdsOf(es[..|es| - 1]) + [es[|es| - 1].id]
  }

  lemma IdsOfAppend(a: seq<Entry>, b: seq<Entry>)
    ensures IdsOf(a + b) == IdsOf(a) + IdsOf(b)
  {
    assert IdsOf(a + b) == IdsOf(a) + IdsOf(b) by {
      var l, r := IdsOf(a + b), IdsOf(a) + IdsOf(b);
      assert |l| == |r|;
      forall i | 0 <= i < |l|
        ensures l[i] == r[i]
      {
        if i < |a| { assert (a + b)[i] == a[i]; } else { assert (a + b)[i] == b[i - |a|]; }
      }
    }
  }

  function NotTool(e: Entry): bool {
    e.role != Tool
  }

  /** ChainIds is the root followed by the ids of the non-tool entries among batch[1..k]. */
  lemma {:induction false} ChainIdsAreFiltered(batch: seq<Entry>, k: nat)
    requires k < |batch|
    ensures ChainIds(batch, k) == [batch[0].id] + IdsOf(Filter(NotTool, batch[1..k + 1]))
  {
    if k > 0 {
      ChainIdsAreFiltered(batch, k - 1);
      var e := batch[k];
      var f := Filter(NotTool, batch[1..k]);
      assert batch[1..k + 1] == batch[1..k] + [e];
      FilterSnoc(NotTool, batch[1..k], e);
      var rest := [batch[0].id] + IdsOf(f);
      assert ChainIds(batch, k - 1) == rest;
      if NotTool(e) {
        assert (f + [e])[..|f|] == f;
        assert IdsOf(Filter(NotTool, batch[1..k + 1])) == IdsOf(f) + [e.id];
        assert ChainIds(batch, k) == rest + [e.id];
      } else {
        assert Filter(NotTool, batch[1..k + 1]) == f + [];
        assert ChainIds(batch, k) == rest + [];
      }
    } else {
      assert batch[1..1] == [];
      assert IdsOf([]) == [];
    }
  }

  /** The id of entry i: the term DistinctIds is triggered on, so that it is instantiated
      only for the positions a proof names. */
  function IdAt(batch: seq<Entry>, i: nat): string
    requires i < |batch|
  {
    batch[i].id
  }

  ghost predicate DistinctIds(batch: seq<Entry>) {
    forall i, j :: 0 <= i < j < |batch| ==> IdAt(batch, i) != IdAt(batch, j)
  }

  /** No NEXT edge leaves the Message of any batch entry from position `from` on. */
  ghost predicate NoNextFrom(rels: seq<Rel>, batch: seq<Entry>, from: nat) {
    forall i, r :: from <= i < |batch| && r in rels && r.kind == Next ==> r.from != MessageNode(batch[i].id)
  }

  ghost predicate ChainInv(g: Graph, t: string, batch: seq<Entry>, k: nat)
    requires k < |batch|
  {
    NoDup(g.rels) && ChainShape(g.rels, t, ChainIds(batch, k)) && NoNextFrom(g.rels, batch, k + 1)
  }

  lemma UpsertRels(g: Graph, user: string, t: string)
    ensures var g' := Upsert(g, user, t);
            && g.rels <= g'.rels && (NoDup(g.rels) ==> NoDup(g'.rels))
            && forall r :: r in g'.rels ==> r in g.rels || r.kind == ParticipatedIn
  {
  }

  lemma ReplyNodesRels(g: Graph, prev: Entry, cur: Entry)
    ensures var g' := ReplyNodes(g, prev, cur);
            && g.rels <= g'.rels && (NoDup(g.rels) ==> NoDup(g'.rels))
            && forall r :: r in g'.rels ==> r in g.rels || (r.from == MessageNode(cur.id) && (r.kind == Triggered || r.kind == Sourced))
  {
    var m := MessageNode(cur.id);
    var g1 := MergeMessage(g, cur.id, TurnOf(cur));
    assert g1.rels == g.rels;
    if prev.id in g1.toolCalls {
      var g3 := MergeRel(g1, Rel(Triggered, m, ToolCallNode(prev.id)));
      assert g.rels <= g3.rels;
      assert forall r :: r in g3.rels ==> r in g.rels || r == Rel(Triggered, m, ToolCallNode(prev.id));
      var g2 := MergeRelsTo(g3, Sourced, m, RetrievedBy(g3.rels, ToolCallNode(prev.id)));
      assert ReplyNodes(g, prev, cur) == g2;
    }
  }

  lemma ToolNodesRels(g: Graph, cur: Entry)
    requires UrlsKeyed(SourcesOf(cur))
    ensures var g' := ToolNodes(g, cur);
            && g.rels <= g'.rels && (NoDup(g.rels) ==> NoDup(g'.rels))
            && forall r :: r in g'.rels ==> r in g.rels || r.kind == Retrieved
  {
  }

  lemma FirstOfGrow(rels: seq<Rel>, rels': seq<Rel>, x: NodeRef)
    requires forall r :: r in rels' ==> r in rels || r.kind != First
    requires FirstOf(rels, x).None?
    ensures FirstOf(rels', x).None?
  {
    forall k | 0 <= k < |rels'|
      ensures !(rels'[k].kind == First && rels'[k].from == x)
    {
      assert rels'[k] in rels';
      if rels'[k] in rels {
        var j :| 0 <= j < |rels| && rels[j] == rels'[k];
      }
    }
  }

  /** Appending a Message that has no outgoing NEXT to a chain extends the chain by it. */
  lemma AppendExtendsChain(g: Graph, t: string, c: seq<string>, x: string) returns (g': Graph, e: Rel)
    requires NoDup(g.rels) && ChainShape(g.rels, t, c) && x !in c
    requires forall r :: r in g.rels && r.kind == Next ==> r.from != MessageNode(x)
    ensures g' == AppendToChain(g, t, MessageNode(x)) && e == Rel(Next, MessageNode(c[|c| - 1]), MessageNode(x))
    ensures NoDup(g'.rels) && ChainShape(g'.rels, t, c + [x])
    ensures forall r :: r in g'.rels ==> r in g.rels || r == e
  {
    ChainTailIsLast(g.rels, t, c);
    var c' := c + [x];
    e := Rel(Next, MessageNode(c[|c| - 1]), MessageNode(x));
    g' := MergeRel(g, e);
    assert AppendToChain(g, t, MessageNode(x)) == g';
    forall r, j | r in g'.rels && 0 <= j < |c'| && r.kind == Next && r.from == MessageNode(c'[j])
      ensures j + 1 < |c'| && r.to == MessageNode(c'[j + 1])
    {
      if r in g.rels {
        assert j < |c|;
      } else {
        assert j < |c|;
        assert c[j] == c[|c| - 1];
      }
    }
  }

  /** On a thread with no FIRST, the root entry starts a one-Message chain. */
  lemma RootChain(g0: Graph, t: string, batch: seq<Entry>)
    requires |batch| > 0 && NoDup(g0.rels) && FirstOf(g0.rels, ThreadNode(t)).None?
    requires NoNextFrom(g0.rels, batch, 0)
    ensures ChainInv(Root(g0, t, batch), t, batch, 0)
  {
    forall r | r in g0.rels && r.kind == First
      ensures r.from != ThreadNode(t)
    {
      var j :| 0 <= j < |g0.rels| && g0.rels[j] == r;
    }
    var e := batch[0];
    var g1 := MergeRel(MergeMessage(g0, e.id, TurnOf(e)), Rel(First, ThreadNode(t), MessageNode(e.id)));
    assert Root(g0, t, batch) == g1;
    assert RootedAt(g1.rels, t, e.id);
    assert OnlyForward(g1.rels, [e.id]);
    assert NoNextFrom(g1.rels, batch, 1);
  }

  lemma RootStartsChain(g: Graph, user: string, t: string, batch: seq<Entry>)
    requires |batch| > 0 && NoDup(g.rels) && FirstOf(g.rels, ThreadNode(t)).None?
    requires NoNextFrom(g.rels, batch, 0)
    ensures FirstOf(Upsert(g, user, t).rels, ThreadNode(t)).None?
    ensures ChainInv(Root(Upsert(g, user, t), t, batch), t, batch, 0)
  {
    var g0 := Upsert(g, user, t);
    UpsertRels(g, user, t);
    FirstOfGrow(g.rels, g0.rels, ThreadNode(t));
    assert NoNextFrom(g0.rels, batch, 0);
    RootChain(g0, t, batch);
  }

  /** The step that appends a non-tool entry: the chain grows by that entry. */
  lemma MessageStep(g: Graph, t: string, batch: seq<Entry>, k: nat)
    requires 1 <= k < |batch| && DistinctIds(batch) && batch[k].role != Tool
    requires ChainInv(g, t, batch, k - 1)
    ensures ChainInv(ApplyPair(g, t, batch[k - 1], batch[k]), t, batch, k)
  {
    var g2 := ReplyNodes(g, batch[k - 1], batch[k]);
    ReplyKeepsInv(g, t, batch, k);
    ApplyPairReply(g, t, batch[k - 1], batch[k]);
    AppendKeepsInv(g2, t, batch, k);
  }

  /** The reply nodes of entry k add no FIRST or NEXT edge. */
  lemma ReplyKeepsInv(g: Graph, t: string, batch: seq<Entry>, k: nat)
    requires 1 <= k < |batch| && ChainInv(g, t, batch, k - 1)
    ensures var g2 := ReplyNodes(g, batch[k - 1], batch[k]);
            NoDup(g2.rels) && ChainShape(g2.rels, t, ChainIds(batch, k - 1)) && NoNextFrom(g2.rels, batch, k)
  {
    var g2 := ReplyNodes(g, batch[k - 1], batch[k]);
    ReplyNodesRels(g, batch[k - 1], batch[k]);
    ChainGrow(g.rels, g2.rels, t, ChainIds(batch, k - 1));
    assert NoNextFrom(g2.rels, batch, k);
  }

  /** Linking entry k, whose Message has no NEXT edge yet, to the tail grows the chain by it. */
  lemma AppendKeepsInv(g: Graph, t: string, batch: seq<Entry>, k: nat)
    requires 1 <= k < |batch| && DistinctIds(batch) && batch[k].role != Tool
    requires NoDup(g.rels) && ChainShape(g.rels, t, ChainIds(batch, k - 1)) && NoNextFrom(g.rels, batch, k)
    ensures ChainInv(AppendToChain(g, t, MessageNode(batch[k].id)), t, batch, k)
  {
    LinkNewEntry(g, t, batch, k, ChainIds(batch, k - 1));
  }

  /** AppendKeepsInv, given the chain c before entry k. */
  lemma LinkNewEntry(g: Graph, t: string, batch: seq<Entry>, k: nat, c: seq<string>)
    requires 1 <= k < |batch| && DistinctIds(batch) && batch[k].role != Tool && c == ChainIds(batch, k - 1)
    requires NoDup(g.rels) && ChainShape(g.rels, t, c) && NoNextFrom(g.rels, batch, k)
    ensures ChainInv(AppendToChain(g, t, MessageNode(batch[k].id)), t, batch, k)
  {
    var i0 := NewEntryAfterTail(batch, k, c);
    LinkAfterTail(g, t, batch, k, c, i0);
  }

  /** Entry k is off the chain before it, and that chain ends at an entry i0 < k. */
  lemma NewEntryAfterTail(batch: seq<Entry>, k: nat, c: seq<string>) returns (i0: nat)
    requires 1 <= k < |batch| && DistinctIds(batch) && c == ChainIds(batch, k - 1)
    ensures batch[k].id !in c && i0 < k && batch[i0].id == c[|c| - 1]
  {
    NewIdOffChain(batch, k, k - 1);
    i0 := ChainTailFromBatch(batch, k - 1, c);
  }

  /** LinkNewEntry, given that entry k is off the chain and the chain ends at entry i0. */
  lemma LinkAfterTail(g: Graph, t: string, batch: seq<Entry>, k: nat, c: seq<string>, i0: nat)
    requires 1 <= k < |batch| && DistinctIds(batch) && batch[k].role != Tool && c == ChainIds(batch, k - 1)
    requires batch[k].id !in c && i0 < k && batch[i0].id == c[|c| - 1]
    requires NoDup(g.rels) && ChainShape(g.rels, t, c) && NoNextFrom(g.rels, batch, k)
    ensures ChainInv(AppendToChain(g, t, MessageNode(batch[k].id)), t, batch, k)
  {
    var g', e := AppendExtendsChain(g, t, c, batch[k].id);
    LinkedInv(g, g', t, batch, k, c, e, i0);
  }

  /** The appended graph g' keeps ChainInv: its one new relationship e leaves an entry before k. */
  lemma LinkedInv(g: Graph, g': Graph, t: string, batch: seq<Entry>, k: nat, c: seq<string>, e: Rel, i0: nat)
    requires i0 < k < |batch| && DistinctIds(batch) && batch[k].role != Tool && c == ChainIds(batch, k - 1)
    requires NoNextFrom(g.rels, batch, k) && e.from == MessageNode(batch[i0].id)
    requires NoDup(g'.rels) && ChainShape(g'.rels, t, c + [batch[k].id])
    requires forall r :: r in g'.rels ==> r in g.rels || r == e
    ensures ChainInv(g', t, batch, k)
  {
    NoNextAfterLink(g.rels, g'.rels, batch, k, e, i0);
    ChainInvOf(g', t, batch, k, c + [batch[k].id]);
  }

  /** ChainInv from its parts, the chain given as c'. */
  lemma ChainInvOf(g: Graph, t: string, batch: seq<Entry>, k: nat, c': seq<string>)
    requires 0 < k < |batch| && batch[k].role != Tool && c' == ChainIds(batch, k - 1) + [batch[k].id]
    requires NoDup(g.rels) && ChainShape(g.rels, t, c') && NoNextFrom(g.rels, batch, k + 1)
    ensures ChainInv(g, t, batch, k)
  {
  }

  /** An entry's id is not on the chain of entries 0..m before it. */
  lemma {:induction false} NewIdOffChain(batch: seq<Entry>, k: nat, m: nat)
    requires m < k < |batch| && DistinctIds(batch)
    ensures batch[k].id !in ChainIds(batch, m)
  {
    if m > 0 {
      NewIdOffChain(batch, k, m - 1);
    }
    assert IdAt(batch, m) != IdAt(batch, k);
  }

  /** A NEXT edge out of an entry before k leaves no NEXT edge out of the entries after k. */
  lemma NoNextAfterLink(rels: seq<Rel>, rels': seq<Rel>, batch: seq<Entry>, k: nat, e: Rel, i0: nat)
    requires i0 < k < |batch| && DistinctIds(batch) && NoNextFrom(rels, batch, k)
    requires forall r :: r in rels' ==> r in rels || r == e
    requires e.from == MessageNode(batch[i0].id)
    ensures NoNextFrom(rels', batch, k + 1)
  {
    forall i, r | k + 1 <= i < |batch| && r in rels' && r.kind == Next
      ensures r.from != MessageNode(batch[i].id)
    {
      assert IdAt(batch, i0) != IdAt(batch, i);
    }
  }

  /** The step that handles a tool entry: the chain is unchanged. */
  lemma ToolStep(g: Graph, t: string, batch: seq<Entry>, k: nat)
    requires 1 <= k < |batch| && batch[k].role == Tool && PairsKeyed(batch)
    requires ChainInv(g, t, batch, k - 1)
    ensures ChainInv(ApplyPair(g, t, batch[k - 1], batch[k]), t, batch, k)
  {
    ToolNodesRels(g, batch[k]);
    ChainGrow(g.rels, ToolNodes(g, batch[k]).rels, t, ChainIds(batch, k - 1));
  }

  lemma PairsChainStep(g: Graph, t: string, batch: seq<Entry>, k: nat)
    requires 1 <= k < |batch| && DistinctIds(batch) && PairsKeyed(batch)
    requires ChainInv(Pairs(g, t, batch, k - 1), t, batch, k - 1)
    ensures ChainInv(Pairs(g, t, batch, k), t, batch, k)
  {
    PairsStep(g, t, batch, k);
    if batch[k].role == Tool {
      ToolStep(Pairs(g, t, batch, k - 1), t, batch, k);
    } else {
      MessageStep(Pairs(g, t, batch, k - 1), t, batch, k);
    }
  }

  /** A chain invariant that holds at graph 0 and that each step carries from graph j - 1
      to graph j holds at every graph of the sequence. */
  lemma {:induction false} ChainAlong(gs: seq<Graph>, t: string, batch: seq<Entry>, k: nat)
    requires k < |gs| <= |batch| && ChainInv(gs[0], t, batch, 0)
    requires forall j :: 0 < j < |gs| && ChainInv(gs[j - 1], t, batch, j - 1) ==> ChainInv(gs[j], t, batch, j)
    ensures ChainInv(gs[k], t, batch, k)
  {
    if k > 0 {
      ChainAlong(gs, t, batch, k - 1);
    }
  }

  lemma PairsKeepChain(g: Graph, t: string, batch: seq<Entry>, k: nat)
    requires k < |batch| && DistinctIds(batch) && PairsKeyed(batch)
    requires ChainInv(g, t, batch, 0)
    ensures ChainInv(Pairs(g, t, batch, k), t, batch, k)
  {
    var gs := Trace(g, t, batch, k);
    forall j | 0 < j < |gs| && ChainInv(gs[j - 1], t, batch, j - 1)
      ensures ChainInv(gs[j], t, batch, j)
    {
      PairsChainStep(g, t, batch, j);
    }
    ChainAlong(gs, t, batch, k);
  }

  /** On a thread with no chain yet, a batch of distinct messages none of which already
      has a NEXT edge becomes one FIRST/NEXT chain: the first entry is the root, then
      the non-tool entries in batch order; ToolCalls stay off it. The tail the next
      turn appends to is its last entry. */
  lemma FreshThreadChain(g: Graph, user: string, t: string, batch: seq<Entry>)
    requires |batch| > 0 && DistinctIds(batch) && PairsKeyed(batch)
    requires NoDup(g.rels) && FirstOf(g.rels, ThreadNode(t)).None? && NoNextFrom(g.rels, batch, 0)
    ensures MergeTurn(g, user, t, batch).Some?
    ensures var c := [batch[0].id] + IdsOf(Filter(NotTool, batch[1..]));
            var g' := MergeTurn(g, user, t, batch).value;
            ChainShape(g'.rels, t, c) && ChainTail(g'.rels, t) == Some(MessageNode(c[|c| - 1]))
  {
    var n := |batch| - 1;
    var g' := FreshThreadInv(g, user, t, batch, n);
    ChainInvTail(g', t, batch, n);
    ChainIdsOfBatch(batch, n);
  }

  /** The chain invariant after the whole batch (n + 1 entries) on a thread with no
      chain yet; `g'` is the graph the turn leaves. */
  lemma FreshThreadInv(g: Graph, user: string, t: string, batch: seq<Entry>, n: nat) returns (g': Graph)
    requires n == |batch| - 1 && DistinctIds(batch) && PairsKeyed(batch)
    requires NoDup(g.rels) && FirstOf(g.rels, ThreadNode(t)).None? && NoNextFrom(g.rels, batch, 0)
    ensures MergeTurn(g, user, t, batch) == Some(g') && ChainInv(g', t, batch, n)
  {
    RootStartsChain(g, user, t, batch);
    g' := PairsFromRoot(Root(Upsert(g, user, t), t, batch), t, batch, n);
    MergeTurnRuns(g, user, t, batch, n);
  }

  /** The pairs carry the invariant from the rooted graph `g0` to entry n. */
  lemma PairsFromRoot(g0: Graph, t: string, batch: seq<Entry>, n: nat) returns (g': Graph)
    requires n < |batch| && DistinctIds(batch) && PairsKeyed(batch) && ChainInv(g0, t, batch, 0)
    ensures g' == Pairs(g0, t, batch, n) && ChainInv(g', t, batch, n)
  {
    PairsKeepChain(g0, t, batch, n);
    g' := Pairs(g0, t, batch, n);
  }

  lemma ChainInvTail(g: Graph, t: string, batch: seq<Entry>, k: nat)
    requires k < |batch| && ChainInv(g, t, batch, k)
    ensures var c := ChainIds(batch, k);
            ChainShape(g.rels, t, c) && ChainTail(g.rels, t) == Some(MessageNode(c[|c| - 1]))
  {
    ChainTailIsLast(g.rels, t, ChainIds(batch, k));
  }

  lemma ChainIdsOfBatch(batch: seq<Entry>, n: nat)
    requires n == |batch| - 1
    ensures ChainIds(batch, n) == [batch[0].id] + IdsOf(Filter(NotTool, batch[1..]))
  {
    ChainIdsAreFiltered(batch, n);
    assert batch[1..n + 1] == batch[1..];
  }

  /** Re-ingesting a Message already on the chain still MERGEs a NEXT edge from the
      current tail to it: a self-loop when it is the tail, a second incoming NEXT edge
      when it is inside the chain, an edge back to the root (a cycle) when it is the root. */
  lemma ReingestLinksTail(g: Graph, t: string, prev: Entry, cur: Entry, c: seq<string>, j: nat)
    requires NoDup(g.rels) && ChainShape(g.rels, t, c) && cur.role != Tool
    requires j < |c| && cur.id == c[j]
    ensures var g' := ApplyPair(g, t, prev, cur);
            && Rel(Next, MessageNode(c[|c| - 1]), MessageNode(cur.id)) in g'.rels
            && (j == |c| - 1 ==> Rel(Next, MessageNode(cur.id), MessageNode(cur.id)) in g'.rels)
            && (0 < j < |c| - 1 ==>
                  Rel(Next, MessageNode(c[j - 1]), MessageNode(cur.id)) in g'.rels && c[j - 1] != c[|c| - 1])
            && (j == 0 < |c| - 1 ==> exists r :: r in g'.rels && r.kind == Next && r.to == MessageNode(c[0]))
  {
    var g2 := ReplyKeepsChain(g, t, prev, cur, c);
    LinkToOnChain(g2, t, c, j, |c| - 1);
  }

  /** A non-tool entry's reply nodes keep the chain; `g2` is the graph before its link. */
  lemma ReplyKeepsChain(g: Graph, t: string, prev: Entry, cur: Entry, c: seq<string>) returns (g2: Graph)
    requires NoDup(g.rels) && ChainShape(g.rels, t, c) && cur.role != Tool
    ensures NoDup(g2.rels) && ChainShape(g2.rels, t, c)
    ensures ApplyPair(g, t, prev, cur) == AppendToChain(g2, t, MessageNode(cur.id))
  {
    g2 := ReplyNodes(g, prev, cur);
    ReplyNodesRels(g, prev, cur);
    ChainGrow(g.rels, g2.rels, t, c);
    ApplyPairReply(g, t, prev, cur);
  }

  /** Appending c[j], already on the chain c, links the tail c[n] to it; the NEXT edge
      into it from c[j - 1], or from the tail when it is the root, is then not its only one. */
  lemma LinkToOnChain(g: Graph, t: string, c: seq<string>, j: nat, n: nat)
    requires NoDup(g.rels) && ChainShape(g.rels, t, c) && n == |c| - 1 && j < |c|
    ensures var g' := AppendToChain(g, t, MessageNode(c[j]));
            && Rel(Next, MessageNode(c[n]), MessageNode(c[j])) in g'.rels
            && (j == n ==> Rel(Next, MessageNode(c[j]), MessageNode(c[j])) in g'.rels)
            && (0 < j < n ==> Rel(Next, MessageNode(c[j - 1]), MessageNode(c[j])) in g'.rels && c[j - 1] != c[n])
            && (j == 0 < n ==> exists r :: r in g'.rels && r.kind == Next && r.to == MessageNode(c[0]))
  {
    ChainTailIsLast(g.rels, t, c);
    var e := Rel(Next, MessageNode(c[n]), MessageNode(c[j]));
    var g' := MergeRel(g, e);
    assert AppendToChain(g, t, MessageNode(c[j])) == g';
    assert e in g'.rels && forall r :: r in g.rels ==> r in g'.rels;
  }

  /** A two-entry first turn whose second entry is not a tool entry chains both. */
  lemma FirstTurnOfTwo(g: Graph, user: string, t: string, batch: seq<Entry>)
    requires |batch| == 2 && batch[0].id != batch[1].id && batch[1].role != Tool
    requires NoDup(g.rels) && FirstOf(g.rels, ThreadNode(t)).None? && NoNextFrom(g.rels, batch, 0)
    ensures MergeTurn(g, user, t, batch).Some?
    ensures NoDup(MergeTurn(g, user, t, batch).value.rels)
    ensures ChainShape(MergeTurn(g, user, t, batch).value.rels, t, [batch[0].id, batch[1].id])
  {
    assert DistinctIds(batch) && PairsKeyed(batch);
    var g' := FreshThreadInv(g, user, t, batch, 1);
    assert ChainIds(batch, 1) == [batch[0].id, batch[1].id];
  }

  /** Ingesting the same two-message history twice, as the agent does with its whole
      accumulated history, leaves a NEXT self-loop on the second message. */
  lemma ReingestSelfLoop(g: Graph, user: string, t: string, a: Entry, b: Entry)
    requires a.id != b.id && b.role != Tool
    requires NoDup(g.rels) && FirstOf(g.rels, ThreadNode(t)).None? && NoNextFrom(g.rels, [a, b], 0)
    ensures MergeTurn(g, user, t, [a, b]).Some?
    ensures var g1 := MergeTurn(g, user, t, [a, b]).value;
            && MergeTurn(g1, user, t, [a, b]).Some?
            && Rel(Next, MessageNode(b.id), MessageNode(b.id)) in MergeTurn(g1, user, t, [a, b]).value.rels
  {
    var batch := [a, b];
    var c := [a.id, b.id];
    FirstTurnOfTwo(g, user, t, batch);
    var g1 := MergeTurn(g, user, t, batch).value;
    var g2 := Upsert(g1, user, t);
    UpsertRels(g1, user, t);
    ChainGrow(g1.rels, g2.rels, t, c);
    assert FirstOf(g2.rels, ThreadNode(t)).Some?;
    assert PairsKeyed(batch);
    assert !TurnFails(g2, t, batch);
    assert Root(g2, t, batch) == g2;
    assert Pairs(g2, t, batch, 1) == ApplyPair(g2, t, a, b);
    assert MergeTurn(g1, user, t, batch) == Some(Pairs(g2, t, batch, 1));
    ReingestLinksTail(g2, t, a, b, c, 1);
  }

  /** A tool entry becomes a ToolCall with a RETRIEVED edge to the Source of each url it
      lists; it adds no other relationship, so it never gets a NEXT edge. */
  lemma ToolEntryRetrieves(g: Graph, t: string, prev: Entry, cur: Entry)
    requires cur.role == Tool && UrlsKeyed(SourcesOf(cur))
    ensures var g' := ApplyPair(g, t, prev, cur);
            && cur.id in g'.toolCalls
            && (forall k :: 0 <= k < |SourcesOf(cur)| ==>
                  SourcesOf(cur)[k].url.s in g'.sources
                  && Rel(Retrieved, ToolCallNode(cur.id), SourceNode(SourcesOf(cur)[k].url.s)) in g'.rels)
            && (forall r :: r in g'.rels && r !in g.rels ==> r.kind == Retrieved)
  {
    ToolNodesRels(g, cur);
  }

  /** A non-tool entry right after a tool entry whose ToolCall exists gets TRIGGERED to
      it and SOURCED to every Source that ToolCall RETRIEVED. */
  lemma ReplyTriggeredAndSourced(g: Graph, t: string, prev: Entry, cur: Entry)
    requires cur.role != Tool && prev.id in g.toolCalls
    ensures var g' := ApplyPair(g, t, prev, cur);
            && Rel(Triggered, MessageNode(cur.id), ToolCallNode(prev.id)) in g'.rels
            && (forall s :: Rel(Retrieved, ToolCallNode(prev.id), s) in g.rels && s.SourceNode?
                  ==> Rel(Sourced, MessageNode(cur.id), s) in g'.rels)
  {
    var g2 := ReplyNodes(g, prev, cur);
    ReplyLinksToolCall(g, prev, cur);
    ApplyPairReply(g, t, prev, cur);
    AppendKeepsRels(g2, t, MessageNode(cur.id));
  }

  /** ReplyTriggeredAndSourced before the chain link. */
  lemma ReplyLinksToolCall(g: Graph, prev: Entry, cur: Entry)
    requires prev.id in g.toolCalls
    ensures var g2 := ReplyNodes(g, prev, cur);
            && Rel(Triggered, MessageNode(cur.id), ToolCallNode(prev.id)) in g2.rels
            && (forall s :: Rel(Retrieved, ToolCallNode(prev.id), s) in g.rels && s.SourceNode?
                  ==> Rel(Sourced, MessageNode(cur.id), s) in g2.rels)
  {
    var g1 := MergeMessage(g, cur.id, TurnOf(cur));
    assert g1.rels == g.rels && g1.toolCalls == g.toolCalls;
    LinkTriggeredRels(g1, MessageNode(cur.id), ToolCallNode(prev.id));
  }

  /** LinkTriggered adds TRIGGERED, and SOURCED to every Source the ToolCall retrieved. */
  lemma LinkTriggeredRels(g: Graph, m: NodeRef, tc: NodeRef)
    ensures var g2 := LinkTriggered(g, m, tc);
            && Rel(Triggered, m, tc) in g2.rels
            && (forall s :: Rel(Retrieved, tc, s) in g.rels && s.SourceNode? ==> Rel(Sourced, m, s) in g2.rels)
  {
    var g3 := MergeRel(g, Rel(Triggered, m, tc));
    var xs := RetrievedBy(g3.rels, tc);
    var g2 := MergeRelsTo(g3, Sourced, m, xs);
    assert g.rels <= g3.rels;
    forall s | Rel(Retrieved, tc, s) in g.rels && s.SourceNode?
      ensures Rel(Sourced, m, s) in g2.rels
    {
      assert s in xs;
      var k :| 0 <= k < |xs| && xs[k] == s;
    }
  }

  /** Linking onto the chain only adds relationships. */
  lemma AppendKeepsRels(g: Graph, t: string, m: NodeRef)
    ensures g.rels <= AppendToChain(g, t, m).rels
  {
  }
}
