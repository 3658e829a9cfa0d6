/** The graph the memory subsystem keeps in Neo4j, and what each Cypher statement of
    backend/database/queries.py (and the two statements of the legacy writer) does to it,
    as functions from the graph before the statement to the graph after it.

    Nodes are kept in one map per label, keyed by the property the uniqueness constraint
    is on, so MERGE on a key can never create a second node with that key. Relationships
    are kept in creation order; MERGE on a relationship appends it only when absent. */
module Graph {
  import opened Payload
  import opened Text
  import opened Messages
  import opened Seqs

  type Vector = seq<real>

  datatype NodeRef =
    | UserNode(email: string)
    | ThreadNode(tid: string)
    | MessageNode(mid: string)
    | ToolCallNode(tcid: string)
    | SourceNode(url: string)
    | ChunkNode(cid: string)

  datatype RelType = ParticipatedIn | HasMessage | First | Next | Triggered | Retrieved | Sourced

  datatype Rel = Rel(kind: RelType, from: NodeRef, to: NodeRef)

  /** Properties of a Message or a ToolCall node. */
  datatype Turn = Turn(role: Role, content: Option<string>, index: nat, embedding: Option<Vector>)

  /** Properties of a Source node. */
  datatype Doc = Doc(title: Value, text: string)

  /** Properties of a Chunk node. */
  datatype Chunk = Chunk(content: Option<string>, index: nat, embedding: Option<Vector>)

  datatype Graph = Graph(
    users: set<string>,
    threads: set<string>,
    messages: map<string, Turn>,
    toolCalls: map<string, Turn>,
    sources: map<string, Doc>,
    chunks: map<string, Chunk>,
    rels: seq<Rel>)

  const EmptyGraph := Graph({}, {}, map[], map[], map[], map[], [])

  /** Id of chunk `index` of the source at `url`: `url + "_" + toString(index)`. */
  function ChunkId(url: string, index: nat): string {
    url + "_" + NatToString(index)
  }

  // ---------------------------------------------------------------- invariant

  predicate FirstShape(r: Rel) {
    || (r.from.ThreadNode? && r.to.MessageNode?)
    || (r.from.SourceNode? && r.to == ChunkNode(ChunkId(r.from.url, 0)))
  }

  predicate NextShape(r: Rel) {
    (r.from.MessageNode? && r.to.MessageNode?) || (r.from.ChunkNode? && r.to.ChunkNode?)
  }

  /** What every statement keeps: no relationship twice; FIRST leaves a Thread for a
      Message or a Source for its chunk 0, at most once per node; NEXT joins two
      Messages or two Chunks (so a ToolCall is never on a NEXT edge). */
  ghost predicate Valid(g: Graph) {
    NoDup(g.rels) && FirstsShaped(g.rels) && FirstsUnique(g.rels) && NextsShaped(g.rels)
  }

  ghost predicate FirstsShaped(rels: seq<Rel>) {
    forall r :: r in rels && r.kind == First ==> FirstShape(r)
  }

  ghost predicate FirstsUnique(rels: seq<Rel>) {
    forall r1, r2 ::
      r1 in rels && r2 in rels && r1.kind == First && r2.kind == First && r1.from == r2.from
      ==> r1 == r2
  }

  ghost predicate NextsShaped(rels: seq<Rel>) {
    forall r :: r in rels && r.kind == Next ==> NextShape(r)
  }

  /** g' keeps every node of g with the same properties, and every relationship. */
  ghost predicate Extends(g: Graph, g': Graph) {
    && g.users <= g'.users && g.threads <= g'.threads
    && KeepsEntries(g.messages, g'.messages) && KeepsEntries(g.toolCalls, g'.toolCalls)
    && KeepsEntries(g.sources, g'.sources) && KeepsEntries(g.chunks, g'.chunks)
    && g.rels <= g'.rels
  }

  /** Every key of m is still in m', with the same value. */
  ghost predicate KeepsEntries<V>(m: map<string, V>, m': map<string, V>) {
    forall k :: k in m ==> k in m' && m'[k] == m[k]
  }

  // ---------------------------------------------------------------- MERGE primitives

  /** MERGE (a)-[:T]->(b). */
  function MergeRel(g: Graph, r: Rel): (g': Graph)
    ensures NoDup(g.rels) ==> NoDup(g'.rels)
  {
    if r in g.rels then g else g.(rels := g.rels + [r])
  }

  /** MERGE (m:Message {id}) ON CREATE SET ... */
  function MergeMessage(g: Graph, id: string, t: Turn): Graph
  {
    if id in g.messages then g else g.(messages := g.messages[id := t])
  }

  /** MERGE (m:ToolCall {id}) ON CREATE SET ... */
  function MergeToolCall(g: Graph, id: string, t: Turn): Graph
  {
    if id in g.toolCalls then g else g.(toolCalls := g.toolCalls[id := t])
  }

  /** MERGE (s:Source {url}) ON CREATE SET s.title, s.text */
  function MergeSource(g: Graph, url: string, d: Doc): Graph
  {
    if url in g.sources then g else g.(sources := g.sources[url := d])
  }

  /** MERGE (c:Chunk {id}) ON CREATE SET c.content, c.index */
  function MergeChunk(g: Graph, id: string, c: Chunk): Graph
  {
    if id in g.chunks then g else g.(chunks := g.chunks[id := c])
  }

  /** MERGE (from)-[:kind]->(t) for each t of `targets`, in order. */
  function MergeRelsTo(g: Graph, kind: RelType, from: NodeRef, targets: seq<NodeRef>): (g': Graph)
    ensures g'.(rels := g.rels) == g && g.rels <= g'.rels
    ensures forall k :: 0 <= k < |targets| ==> Rel(kind, from, targets[k]) in g'.rels
    ensures forall x :: x in g'.rels ==> x in g.rels || (x.kind == kind && x.from == from && x.to in targets)
    ensures NoDup(g.rels) ==> NoDup(g'.rels)
  {
    if |targets| == 0 then g
    else MergeRel(MergeRelsTo(g, kind, from, targets[..|targets| - 1]), Rel(kind, from, targets[|targets| - 1]))
  }

  // ---------------------------------------------------------------- MERGE_CONVERSATION_TURN

  /** The properties an entry's node is created with. */
  function TurnOf(e: Entry): Turn {
    Turn(e.role, e.content, e.index, None)
  }

  function SourcesOf(e: Entry): seq<SourceRecord> {
    if e.sources.Some? then e.sources.value else []
  }

  /** Neo4j refuses MERGE on a null key; the model also refuses any other non-string url. */
  predicate UrlsKeyed(srcs: seq<SourceRecord>) {
    forall k :: 0 <= k < |srcs| ==> srcs[k].url.VStr?
  }

  /** FOREACH (source IN sources | MERGE Source ON CREATE SET title, text
      MERGE (from)-[:RETRIEVED]->(s)). */
  function MergeSources(g: Graph, from: NodeRef, srcs: seq<SourceRecord>): (g': Graph)
    requires UrlsKeyed(srcs)
    ensures g'.(sources := g.sources, rels := g.rels) == g && g.rels <= g'.rels
    ensures g.sources.Keys <= g'.sources.Keys
    ensures forall k :: 0 <= k < |srcs| ==> srcs[k].url.s in g'.sources
    ensures forall k :: 0 <= k < |srcs| ==> Rel(Retrieved, from, SourceNode(srcs[k].url.s)) in g'.rels
    ensures forall x :: x in g'.rels ==> x in g.rels || (x.kind == Retrieved && x.from == from && x.to.SourceNode?)
    ensures NoDup(g.rels) ==> NoDup(g'.rels)
  {
    if |srcs| == 0 then g
    else
      var g1 := MergeSources(g, from, srcs[..|srcs| - 1]);
      var s := srcs[|srcs| - 1];
      var g2 := MergeSource(g1, s.url.s, Doc(s.title, s.content));
      var g3 := MergeRel(g2, Rel(Retrieved, from, SourceNode(s.url.s)));
      assert forall k :: 0 <= k < |srcs| - 1 ==> srcs[k] == srcs[..|srcs| - 1][k];
      g3
  }

  /** One more source record: its Source node, then its RETRIEVED edge. */
  lemma MergeSourcesStep(g: Graph, from: NodeRef, srcs: seq<SourceRecord>, i: nat)
    requires i < |srcs| && UrlsKeyed(srcs)
    ensures UrlsKeyed(srcs[..i]) && UrlsKeyed(srcs[..i + 1])
    ensures var s := srcs[i];
            MergeSources(g, from, srcs[..i + 1])
              == MergeRel(MergeSource(MergeSources(g, from, srcs[..i]), s.url.s, Doc(s.title, s.content)),
                          Rel(Retrieved, from, SourceNode(s.url.s)))
  {
    assert srcs[..i + 1][..i] == srcs[..i];
  }

  /** The Sources `tc` has a RETRIEVED edge to, in the order the edges were created. */
  function RetrievedBy(rels: seq<Rel>, tc: NodeRef): (r: seq<NodeRef>)
    ensures forall n :: n in r <==> Rel(Retrieved, tc, n) in rels && n.SourceNode?
  {
    if |rels| == 0 then []
    else
      var x := rels[|rels| - 1];
      var init := RetrievedBy(rels[..|rels| - 1], tc);
      assert rels == rels[..|rels| - 1] + [x];
      if x.kind == Retrieved && x.from == tc && x.to.SourceNode? then init + [x.to] else init
  }

  /** The earliest FIRST edge leaving `x`, if any. */
  function FirstOf(rels: seq<Rel>, x: NodeRef): (r: Option<NodeRef>)
    ensures r.None? <==> forall k :: 0 <= k < |rels| ==> !(rels[k].kind == First && rels[k].from == x)
    ensures r.Some? ==> Rel(First, x, r.value) in rels
  {
    if |rels| == 0 then None
    else if rels[0].kind == First && rels[0].from == x then Some(rels[0].to)
    else
      var r := FirstOf(rels[1..], x);
      assert forall k :: 1 <= k < |rels| ==> rels[k] == rels[1..][k - 1];
      r
  }

  /** The last node of a longest trail (a path using each NEXT edge at most once) from
      `node` along the NEXT edges of `unused`, with the trail's length. Among equally
      long trails the one whose first edge was created earliest wins. */
  function Longest(node: NodeRef, unused: seq<Rel>): (nat, NodeRef)
    decreases |unused|, 1
  {
    Scan(node, unused, 0)
  }

  /** The best trail from `node` whose first edge is `unused[j]` for some j >= i,
      or the empty trail. */
  function Scan(node: NodeRef, unused: seq<Rel>, i: nat): (nat, NodeRef)
    decreases |unused|, 0, |unused| - i
  {
    if i >= |unused| then (0, node)
    else
      var rest := Scan(node, unused, i + 1);
      if unused[i].kind == Next && unused[i].from == node then
        var sub := Longest(unused[i].to, unused[..i] + unused[i + 1..]);
        if sub.0 + 1 >= rest.0 then (sub.0 + 1, sub.1) else rest
      else rest
  }

  /** `MATCH (t)-[:FIRST]->()-[:NEXT]->*(prev) ... ORDER BY length DESC LIMIT 1`:
      the current tail of the thread's chain; None when the thread has no FIRST. */
  function ChainTail(rels: seq<Rel>, t: string): Option<NodeRef> {
    match FirstOf(rels, ThreadNode(t))
    case None => None
    case Some(root) => Some(Longest(root, rels).1)
  }

  /** MERGE the user, the thread and PARTICIPATED_IN. */
  function Upsert(g: Graph, user: string, t: string): (g': Graph)
    ensures NoDup(g.rels) ==> NoDup(g'.rels)
  {
    MergeRel(g.(users := g.users + {user}, threads := g.threads + {t}),
             Rel(ParticipatedIn, UserNode(user), ThreadNode(t)))
  }

  /** The thread's chain root: created from the batch's first entry, whatever its role,
      as a Message with a FIRST edge, only when the thread has no FIRST yet. */
  function Root(g: Graph, t: string, batch: seq<Entry>): Graph
    requires FirstOf(g.rels, ThreadNode(t)).None? ==> |batch| > 0
  {
    if FirstOf(g.rels, ThreadNode(t)).Some? then g
    else
      var e := batch[0];
      MergeRel(MergeMessage(g, e.id, TurnOf(e)), Rel(First, ThreadNode(t), MessageNode(e.id)))
  }

  /** TRIGGERED from the reply to the ToolCall it follows, and SOURCED to every Source
      that ToolCall retrieved. */
  function LinkTriggered(g: Graph, m: NodeRef, tc: NodeRef): Graph {
    var g1 := MergeRel(g, Rel(Triggered, m, tc));
    MergeRelsTo(g1, Sourced, m, RetrievedBy(g1.rels, tc))
  }

  /** The tool branch: the ToolCall and its sources. */
  function ToolNodes(g: Graph, cur: Entry): Graph
    requires UrlsKeyed(SourcesOf(cur))
  {
    MergeSources(MergeToolCall(g, cur.id, TurnOf(cur)), ToolCallNode(cur.id), SourcesOf(cur))
  }

  /** The message branch before the chain link: the Message, and TRIGGERED/SOURCED
      when the previous entry is a ToolCall. */
  function ReplyNodes(g: Graph, prev: Entry, cur: Entry): Graph {
    var g1 := MergeMessage(g, cur.id, TurnOf(cur));
    if prev.id in g1.toolCalls then LinkTriggered(g1, MessageNode(cur.id), ToolCallNode(prev.id)) else g1
  }

  /** MERGE (tail)-[:NEXT]->(m) for the thread's current tail, if it has a chain. */
  function AppendToChain(g: Graph, t: string, m: NodeRef): Graph {
    match ChainTail(g.rels, t)
    case None => g
    case Some(tail) => MergeRel(g, Rel(Next, tail, m))
  }

  /** One row of the UNWIND over consecutive pairs (msg_0, msg_1). */
  function ApplyPair(g: Graph, t: string, prev: Entry, cur: Entry): Graph
    requires cur.role == Tool ==> UrlsKeyed(SourcesOf(cur))
  {
    if cur.role == Tool then ToolNodes(g, cur)
    else AppendToChain(ReplyNodes(g, prev, cur), t, MessageNode(cur.id))
  }

  /** A non-tool entry: its reply nodes, then the chain link. */
  lemma ApplyPairReply(g: Graph, t: string, prev: Entry, cur: Entry)
    requires cur.role != Tool
    ensures ApplyPair(g, t, prev, cur) == AppendToChain(ReplyNodes(g, prev, cur), t, MessageNode(cur.id))
  {
  }

  /** Every tool entry after the first has string urls only. */
  predicate PairsKeyed(batch: seq<Entry>) {
    forall i :: 1 <= i < |batch| && batch[i].role == Tool ==> UrlsKeyed(SourcesOf(batch[i]))
  }

  /** The graph after the first k pairs of the batch. */
  function Pairs(g: Graph, t: string, batch: seq<Entry>, k: nat): Graph
    requires k < |batch| && PairsKeyed(batch)
  {
    if k == 0 then g else ApplyPair(Pairs(g, t, batch, k - 1), t, batch[k - 1], batch[k])
  }

  /** One step of Pairs, stated over the previous graph so that callers need not unfold it. */
  lemma PairsStep(g: Graph, t: string, batch: seq<Entry>, k: nat)
    requires 0 < k < |batch| && PairsKeyed(batch)
    ensures batch[k].role == Tool ==> UrlsKeyed(SourcesOf(batch[k]))
    ensures Pairs(g, t, batch, k) == ApplyPair(Pairs(g, t, batch, k - 1), t, batch[k - 1], batch[k])
  {
  }

  /** The graphs after 0, 1, ..., k pairs. */
  ghost function Trace(g: Graph, t: string, batch: seq<Entry>, k: nat): (gs: seq<Graph>)
    requires k < |batch| && PairsKeyed(batch)
    ensures |gs| == k + 1 && forall j :: 0 <= j <= k ==> gs[j] == Pairs(g, t, batch, j)
  {
    seq(k + 1, j requires 0 <= j <= k => Pairs(g, t, batch, j))
  }

  /** The statement raises (and, being one transaction, changes nothing) when the thread
      has no FIRST once User and Thread are merged and the batch is empty (MERGE on
      `$messages[0].id`, a null), or when a source url it merges is not a string. */
  predicate TurnFails(g: Graph, t: string, batch: seq<Entry>) {
    (FirstOf(g.rels, ThreadNode(t)).None? && |batch| == 0) || !PairsKeyed(batch)
  }

  /** MERGE_CONVERSATION_TURN; None when the statement raises. */
  function MergeTurn(g: Graph, user: string, t: string, batch: seq<Entry>): Option<Graph> {
    var g0 := Upsert(g, user, t);
    if TurnFails(g0, t, batch) then None
    else
      var g1 := Root(g0, t, batch);
      Some(if |batch| == 0 then g1 else Pairs(g1, t, batch, |batch| - 1))
  }

  /** The turn merge on a non-empty batch that does not raise: the pairs applied to the
      rooted, upserted graph. */
  lemma MergeTurnRuns(g: Graph, user: string, t: string, batch: seq<Entry>, n: nat)
    requires n == |batch| - 1 && PairsKeyed(batch)
    ensures MergeTurn(g, user, t, batch) == Some(Pairs(Root(Upsert(g, user, t), t, batch), t, batch, n))
  {
  }

  // ---------------------------------------------------------------- LINK_SOURCES_FROM_VECTOR_LOOKUP

  /** SOURCED from the Message to every Chunk and every Message whose id is `sid`. */
  function LinkOne(g: Graph, m: NodeRef, sid: Option<string>): Graph {
    match sid
    case None => g
    case Some(s) =>
      var g1 := if s in g.chunks then MergeRel(g, Rel(Sourced, m, ChunkNode(s))) else g;
      if s in g1.messages then MergeRel(g1, Rel(Sourced, m, MessageNode(s))) else g1
  }

  function LinkAll(g: Graph, m: NodeRef, ids: seq<Option<string>>): Graph {
    if |ids| == 0 then g else LinkOne(LinkAll(g, m, ids[..|ids| - 1]), m, ids[|ids| - 1])
  }

  /** LINK_SOURCES_FROM_VECTOR_LOOKUP: nothing when the Message does not exist. */
  function LinkSources(g: Graph, msgId: string, ids: seq<Option<string>>): Graph {
    if msgId !in g.messages then g else LinkAll(g, MessageNode(msgId), ids)
  }

  // ---------------------------------------------------------------- legacy writer

  /** The tool entries of the legacy batch have string urls only. */
  predicate LegacyKeyed(batch: seq<LegacyEntry>) {
    forall i :: 0 <= i < |batch| ==> UrlsKeyed(batch[i].sources)
  }

  /** One row of the legacy UNWIND: the Message, HAS_MESSAGE, its Sources and RETRIEVED. */
  function PersistOne(g: Graph, t: string, e: LegacyEntry): Graph
    requires UrlsKeyed(e.sources)
  {
    var g1 := MergeMessage(g, e.id, Turn(e.role, Some(e.content), e.index, None));
    var g2 := MergeRel(g1, Rel(HasMessage, ThreadNode(t), MessageNode(e.id)));
    MergeSources(g2, MessageNode(e.id), e.sources)
  }

  function PersistAll(g: Graph, t: string, batch: seq<LegacyEntry>): Graph
    requires LegacyKeyed(batch)
  {
    if |batch| == 0 then g
    else PersistOne(PersistAll(g, t, batch[..|batch| - 1]), t, batch[|batch| - 1])
  }

  /** One more row of the legacy UNWIND. */
  lemma PersistAllStep(g: Graph, t: string, batch: seq<LegacyEntry>, i: nat)
    requires i < |batch| && LegacyKeyed(batch)
    ensures LegacyKeyed(batch[..i]) && LegacyKeyed(batch[..i + 1])
    ensures PersistAll(g, t, batch[..i + 1]) == PersistOne(PersistAll(g, t, batch[..i]), t, batch[i])
  {
    assert batch[..i + 1][..i] == batch[..i];
  }

  /** The legacy node query; None when it raises. */
  function PersistNodes(g: Graph, user: string, t: string, batch: seq<LegacyEntry>): Option<Graph> {
    if !LegacyKeyed(batch) then None else Some(PersistAll(Upsert(g, user, t), t, batch))
  }

  /** The ids of the Messages the thread has a HAS_MESSAGE edge to. */
  function ThreadMessages(g: Graph, t: string): set<string> {
    set r | r in g.rels && r.kind == HasMessage && r.from == ThreadNode(t) && r.to.MessageNode?
              && r.to.mid in g.messages :: r.to.mid
  }

  /** The legacy chain query after ORDER BY: NEXT between consecutive Messages. */
  function LinkConsecutive(g: Graph, order: seq<string>): Graph {
    if |order| < 2 then g
    else
      var n := |order|;
      MergeRel(LinkConsecutive(g, order[..n - 1]), Rel(Next, MessageNode(order[n - 2]), MessageNode(order[n - 1])))
  }

  // ---------------------------------------------------------------- maintenance statements

  /** FETCH_UNEMBEDDED_MESSAGES: (id, content) of Messages with content and no embedding. */
  function UnembeddedMessages(g: Graph): set<(string, string)> {
    set id | id in g.messages && g.messages[id].embedding.None? && g.messages[id].content.Some?
      :: (id, g.messages[id].content.value)
  }

  /** FETCH_UNPROCESSED_SOURCES: (url, text) of Sources with no outgoing FIRST. */
  function UnprocessedSources(g: Graph): set<(string, string)> {
    set url | url in g.sources && FirstOf(g.rels, SourceNode(url)).None? :: (url, g.sources[url].text)
  }

  datatype Label = MessageLabel | ChunkLabel

  datatype VectorRow = VectorRow(id: string, vector: Vector)

  /** One row of WRITE_VECTOR_BATCH: overwrite the embedding of the node with that id. */
  function WriteVector(g: Graph, lab: Label, row: VectorRow): Graph {
    match lab
    case MessageLabel =>
      if row.id in g.messages then g.(messages := g.messages[row.id := g.messages[row.id].(embedding := Some(row.vector))]) else g
    case ChunkLabel =>
      if row.id in g.chunks then g.(chunks := g.chunks[row.id := g.chunks[row.id].(embedding := Some(row.vector))]) else g
  }

  /** WRITE_VECTOR_BATCH(label) over `rows`, in order. */
  function WriteVectors(g: Graph, lab: Label, rows: seq<VectorRow>): Graph {
    if |rows| == 0 then g else WriteVector(WriteVectors(g, lab, rows[..|rows| - 1]), lab, rows[|rows| - 1])
  }

  datatype ChunkRow = ChunkRow(index: nat, text: string)

  /** The two MERGE clauses of WRITE_CHUNKS for one pair whose previous chunk was
      matched: the next chunk, created with its text and index, and NEXT to it. */
  function ChunkLink(g: Graph, url: string, r0: ChunkRow, r1: ChunkRow): Graph {
    var id := ChunkId(url, r1.index);
    MergeRel(MergeChunk(g, id, Chunk(Some(r1.text), r1.index, None)), Rel(Next, ChunkNode(ChunkId(url, r0.index)), ChunkNode(id)))
  }

  /** The UNWIND pairs of WRITE_CHUNKS up to pair k that survive `MATCH (prev:Chunk ...)`.
      Cypher runs a clause over all rows before the next clause, so every row's MATCH
      runs before any of the MERGEs after it: a row finds its previous chunk only in
      `base`, the graph before the UNWIND. */
  function MatchedPairs(base: Graph, url: string, rows: seq<ChunkRow>, k: nat): seq<(ChunkRow, ChunkRow)>
    requires k < |rows| || k == 0
  {
    if k == 0 then []
    else
      MatchedPairs(base, url, rows, k - 1)
      + (if ChunkId(url, rows[k - 1].index) in base.chunks then [(rows[k - 1], rows[k])] else [])
  }

  /** The MERGE clauses over the matched pairs, in row order. A chunk MERGE touches only
      the chunks and a NEXT MERGE only the relationships, so running both per row gives
      the graph that running each clause over all rows gives. */
  function LinkPairs(g: Graph, url: string, ps: seq<(ChunkRow, ChunkRow)>): Graph {
    if |ps| == 0 then g else ChunkLink(LinkPairs(g, url, ps[..|ps| - 1]), url, ps[|ps| - 1].0, ps[|ps| - 1].1)
  }

  /** WRITE_CHUNKS: nothing when the Source does not exist; chunk 0 takes the first
      row's text (none when there are no rows) and the Source's FIRST edge; then the
      pairs whose previous chunk exists at that point are merged. */
  function WriteChunks(g: Graph, url: string, rows: seq<ChunkRow>): Graph {
    if url !in g.sources then g
    else
      var g2 := WriteChunkZero(g, url, rows);
      if |rows| == 0 then g2 else LinkPairs(g2, url, MatchedPairs(g2, url, rows, |rows| - 1))
  }

  /** The part of WRITE_CHUNKS before the UNWIND: chunk 0 and the Source's FIRST. */
  function WriteChunkZero(g: Graph, url: string, rows: seq<ChunkRow>): Graph {
    var c0 := ChunkId(url, 0);
    var g1 := MergeChunk(g, c0, Chunk(if |rows| > 0 then Some(rows[0].text) else None, 0, None));
    MergeRel(g1, Rel(First, SourceNode(url), ChunkNode(c0)))
  }

  /** One UNWIND row of WRITE_CHUNKS as it was evidently meant to run, seeing the chunks
      the earlier rows created (as a per-row `CALL { ... }` subquery would): nothing when
      the previous chunk is missing. */
  function ChunkPair(g: Graph, url: string, r0: ChunkRow, r1: ChunkRow): Graph {
    if ChunkId(url, r0.index) !in g.chunks then g else ChunkLink(g, url, r0, r1)
  }

  function ChunkPairs(g: Graph, url: string, rows: seq<ChunkRow>, k: nat): Graph
    requires k < |rows| || k == 0
  {
    if k == 0 then g else ChunkPair(ChunkPairs(g, url, rows, k - 1), url, rows[k - 1], rows[k])
  }

  /** WRITE_CHUNKS as evidently intended: every pair sees the chunks the pairs before it
      created, so the slices become one chain. */
  function WriteChunksChained(g: Graph, url: string, rows: seq<ChunkRow>): Graph {
    if url !in g.sources then g
    else
      var g2 := WriteChunkZero(g, url, rows);
      if |rows| == 0 then g2 else ChunkPairs(g2, url, rows, |rows| - 1)
  }

  // ---------------------------------------------------------------- VECTOR_LOOKUP

  /** 1.0 - EP with EP = 0.1. */
  const Threshold: real := 0.9
  const TopK: nat := 3

  /** A row yielded by db.index.vector.queryNodes: a node key and its score. */
  datatype Hit = Hit(id: string, score: real)

  /** A row of VECTOR_LOOKUP: `id` and `content`, either possibly null. */
  datatype Row = Row(id: Option<string>, content: Option<string>)

  /** The hits one branch keeps: the index's first TopK, then `score > Threshold`. */
  function KeptHits(ranking: seq<Hit>): (kept: seq<Hit>)
    ensures |kept| <= TopK
    ensures forall k :: 0 <= k < |kept| ==> kept[k].score > Threshold && kept[k] in ranking[..if |ranking| < TopK then |ranking| else TopK]
  {
    var top := if |ranking| < TopK then ranking else ranking[..TopK];
    FilterSpec((h: Hit) => h.score > Threshold, top);
    Filter((h: Hit) => h.score > Threshold, top)
  }

  function IdOf(n: NodeRef): Option<string> {
    match n
    case UserNode(_) => None
    case SourceNode(_) => None
    case ThreadNode(id) => Some(id)
    case MessageNode(id) => Some(id)
    case ToolCallNode(id) => Some(id)
    case ChunkNode(id) => Some(id)
  }

  function ContentOf(g: Graph, n: NodeRef): Option<string> {
    match n
    case MessageNode(id) => if id in g.messages then g.messages[id].content else None
    case ToolCallNode(id) => if id in g.toolCalls then g.toolCalls[id].content else None
    case ChunkNode(id) => if id in g.chunks then g.chunks[id].content else None
    case _ => None
  }

  predicate IsDocument(n: NodeRef) {
    n.SourceNode? || n.ChunkNode?
  }

  /** The nodes `n` of `(m)-[:NEXT]->{0,1}()-[:SOURCED]->(:Source|Chunk)-[:FIRST]->*(n)`
      with content, for an unbound `m`: every Source or Chunk that anything has a
      SOURCED edge to, or its FIRST target. (Valid makes longer FIRST paths impossible:
      FIRST edges end at Messages and Chunks, which have none.) */
  function Expansion(g: Graph): set<NodeRef> {
    (set r | r in g.rels && r.kind == Sourced && IsDocument(r.to) && ContentOf(g, r.to).Some? :: r.to)
    + (set r, f | r in g.rels && f in g.rels && r.kind == Sourced && IsDocument(r.to)
                  && f.kind == First && f.from == r.to && ContentOf(g, f.to).Some? :: f.to)
  }

  /** The message branch: each kept hit paired with every expansion id, or with a null
      id when the OPTIONAL MATCH finds nothing; the content is the hit's own. */
  function MessageRows(g: Graph, ranking: seq<Hit>): set<Row> {
    var kept := KeptHits(ranking);
    var exp := Expansion(g);
    if exp == {} then
      set h | h in kept :: Row(None, ContentOf(g, MessageNode(h.id)))
    else
      set h, n | h in kept && n in exp :: Row(IdOf(n), ContentOf(g, MessageNode(h.id)))
  }

  /** The chunk branch: each kept hit's own id and content. */
  function ChunkRows(g: Graph, ranking: seq<Hit>): set<Row> {
    set h | h in KeptHits(ranking) :: Row(Some(h.id), ContentOf(g, ChunkNode(h.id)))
  }

  /** VECTOR_LOOKUP: the UNION DISTINCT of both branches. */
  function LookupRows(g: Graph, messageRanking: seq<Hit>, chunkRanking: seq<Hit>): set<Row> {
    MessageRows(g, messageRanking) + ChunkRows(g, chunkRanking)
  }
}
