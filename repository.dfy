/** The current ingestion serializer of backend/database/repository.py: how a message
    payload becomes text, how tool sources are extracted, which messages are kept and
    with which index, and which entry the retrieved context is linked back to. */
module Repository {
  import opened Payload
  import opened Text
  import opened Messages
  import opened Seqs
  import opened Graph
  import G = Graph
  import Store
  import NodeKeys
  import Maintenance

  // ---------------------------------------------------------------- _generate_id

  /** md5 of "thread-index-role-" followed by the first 50 characters of the content. */
  function GenerateId(o: Oracles, threadId: string, index: int, role: string, content: string): string {
    o.md5(threadId + "-" + IntToString(index) + "-" + role + "-" + Take(content, 50))
  }

  /** Only the first 50 characters of the content enter the id: a content that extends
      the first 50 characters of another gets the same id. */
  lemma GenerateIdStable(o: Oracles, threadId: string, index: int, role: string, c1: string, c2: string)
    requires |c1| >= 50 && c1[..50] <= c2
    ensures GenerateId(o, threadId, index, role, c1) == GenerateId(o, threadId, index, role, c2)
  {
    assert Take(c1, 50) == c1[..50];
    assert c2[..50] == c1[..50];
    assert Take(c2, 50) == c2[..50];
  }

  // ---------------------------------------------------------------- _clean_content

  /** The text `_clean_content` makes of a payload. */
  function CleanedText(o: Oracles, v: Value): string {
    if !Truthy(v) then ""
    else
      match v
      case VStr(s) => s
      case VList(items) => ListText(o, items)
      case VDict(fields) => DictText(o, fields)
      case _ => Str(o, v)
  }

  /** What `_clean_content` promises for each kind of payload: "" for every falsy value,
      a string unchanged, a non-empty dict as str() of its "text" field or else its JSON
      dump, and a list as its list text. */
  lemma CleanedTextCases(o: Oracles, v: Value)
    ensures !Truthy(v) ==> CleanedText(o, v) == ""
    ensures v.VStr? ==> CleanedText(o, v) == v.s
    ensures v.VDict? && v.fields != map[] ==>
              CleanedText(o, v) == if "text" in v.fields then Str(o, v.fields["text"]) else o.dumps(v)
    ensures v.VList? && v.items != [] ==> CleanedText(o, v) == ListText(o, v.items)
  {
  }

  /** `_clean_content`, with the loop that collects the parts of a list payload. */
  method CleanContent(o: Oracles, v: Value) returns (text: string)
    ensures text == CleanedText(o, v)
  {
    if !Truthy(v) {
      return "";
    }
    match v {
      case VStr(s) =>
        text := s;
      case VList(items) =>
        var parts: seq<string> := [];
        for i := 0 to |items|
          invariant parts == ListParts(o, items[..i])
        {
          assert items[..i + 1][..i] == items[..i];
          var item := items[i];
          if item.VStr? {
            parts := parts + [item.s];
          } else if item.VDict? && "text" in item.fields {
            parts := parts + [Str(o, item.fields["text"])];
          }
        }
        assert items[..|items|] == items;
        text := Concat(parts);
      case VDict(fields) =>
        text := DictText(o, fields);
      case _ =>
        text := Str(o, v);
    }
  }

  // ---------------------------------------------------------------- _extract_sources

  /** The list `_extract_sources` iterates: a string payload goes through json.loads
      (nothing when that raises), a dict stands for a one-element list, and anything that
      is then not a list gives nothing. */
  function ParsedItems(o: Oracles, content: Value): seq<Value> {
    var data := if content.VStr? then o.loads(content.s) else Some(content);
    match data
    case None => []
    case Some(VDict(fields)) => [VDict(fields)]
    case Some(VList(items)) => items
    case Some(_) => []
  }

  /** The record built from one url item. */
  function SourceOf(o: Oracles, fields: map<string, Value>): SourceRecord {
    SourceRecord(Get(fields, "url", VNone), Get(fields, "title", VStr("No Title")), CleanedText(o, Get(fields, "content", VStr(""))))
  }

  function ExtractSources(o: Oracles, content: Value): seq<SourceRecord> {
    UrlRecords(ParsedItems(o, content), (fields: map<string, Value>) => SourceOf(o, fields))
  }

  /** Nothing is extracted from a string that does not parse, nor from a payload that is
      neither a list nor a dict once parsed. */
  lemma ExtractNothing(o: Oracles, content: Value)
    requires || (content.VStr? && o.loads(content.s).None?)
             || (content.VStr? && o.loads(content.s).Some? && !o.loads(content.s).value.VList? && !o.loads(content.s).value.VDict?)
             || (!content.VStr? && !content.VList? && !content.VDict?)
    ensures ExtractSources(o, content) == []
  {
  }

  /** A single dict, given directly or as JSON text, is read as a one-element list. */
  lemma ExtractSingleDict(o: Oracles, content: Value, fields: map<string, Value>)
    requires content == VDict(fields) || (content.VStr? && o.loads(content.s) == Some(VDict(fields)))
    ensures ExtractSources(o, content) == if "url" in fields then [SourceOf(o, fields)] else []
  {
    var record := (f: map<string, Value>) => SourceOf(o, f);
    assert ParsedItems(o, content) == [VDict(fields)];
    assert [VDict(fields)][..0] == [];
    assert UrlRecords([VDict(fields)], record) == UrlRecords([], record) + if "url" in fields then [record(fields)] else [];
  }

  /** The extracted records are those of the dict items holding "url", one each, in
      their order, with the item's url, its title or "No Title", and its cleaned content. */
  lemma ExtractKeepsUrlItems(o: Oracles, content: Value)
    ensures var kept := Filter(IsUrlItem, ParsedItems(o, content));
            var r := ExtractSources(o, content);
            && |r| == |kept|
            && forall k :: 0 <= k < |kept| ==>
                 && kept[k].VDict? && "url" in kept[k].fields
                 && r[k].url == kept[k].fields["url"]
                 && r[k].title == (if "title" in kept[k].fields then kept[k].fields["title"] else VStr("No Title"))
                 && r[k].content == CleanedText(o, Get(kept[k].fields, "content", VStr("")))
  {
    var items := ParsedItems(o, content);
    UrlRecordsOfFilter(items, (fields: map<string, Value>) => SourceOf(o, fields));
    FilterSpec(IsUrlItem, items);
  }

  // ---------------------------------------------------------------- the serialisation loop

  /** The role a message is stored with: "unknown" unless its class says otherwise. A
      SystemMessage is skipped before its role is used. */
  function RoleOf(k: Kind): Role {
    match k
    case HumanMessage => User
    case AIMessage => Assistant
    case ToolMessage => Tool
    case _ => Unknown
  }

  /** A message is serialised unless it is a SystemMessage or its cleaned text is blank. */
  predicate Kept(o: Oracles, m: ChatMessage) {
    m.kind != SystemMessage && Strip(CleanedText(o, m.content)) != ""
  }

  /** The entry a kept message becomes at position `index`. */
  function EntryOf(o: Oracles, m: ChatMessage, index: nat): Entry {
    var role := RoleOf(m.kind);
    Entry(
      m.id,
      index,
      role,
      if role == User || role == Assistant then Some(CleanedText(o, m.content)) else None,
      if role == Tool then Some(ExtractSources(o, m.content)) else None)
  }

  /** `serialized_msgs` after the loop over `msgs`. */
  function Serialized(o: Oracles, msgs: seq<ChatMessage>): seq<Entry> {
    Numbered((m: ChatMessage) => Kept(o, m), (m: ChatMessage, index: nat) => EntryOf(o, m, index), msgs)
  }

  /** The serialisation loop of `save_chat_history`, with its `current_index` counter. */
  method SerializeMessages(o: Oracles, msgs: seq<ChatMessage>) returns (batch: seq<Entry>)
    ensures batch == Serialized(o, msgs)
  {
    batch := [];
    var currentIndex: nat := 0;
    for i := 0 to |msgs|
      invariant batch == Serialized(o, msgs[..i]) && currentIndex == |batch|
    {
      assert msgs[..i + 1][..i] == msgs[..i];
      var m := msgs[i];
      if m.kind == SystemMessage {
        continue;
      }
      var role := RoleOf(m.kind);
      var content := CleanContent(o, m.content);
      if Strip(content) == "" {
        continue;
      }
      var sources := if role == Tool then Some(ExtractSources(o, m.content)) else None;
      batch := batch + [Entry(m.id, currentIndex, role, if role == User || role == Assistant then Some(content) else None, sources)];
      currentIndex := currentIndex + 1;
    }
    assert msgs[..|msgs|] == msgs;
  }

  /** The batch is the kept messages, in input order, entry i built from the i-th kept
      message with index i: a dropped message does not use up an index. */
  lemma SerializedIsFilter(o: Oracles, msgs: seq<ChatMessage>)
    ensures var kept := Filter((m: ChatMessage) => Kept(o, m), msgs);
            && |Serialized(o, msgs)| == |kept|
            && forall i :: 0 <= i < |kept| ==> Kept(o, kept[i]) && Serialized(o, msgs)[i] == EntryOf(o, kept[i], i)
  {
    var p := (m: ChatMessage) => Kept(o, m);
    var mk := (m: ChatMessage, index: nat) => EntryOf(o, m, index);
    NumberedIsFilter(p, mk, msgs);
    FilterSpec(p, msgs);
  }

  /** Entry `e` sits at position `i`: its index is i, it is not a system turn, it carries
      content exactly when its role is user or assistant, and sources exactly when it is
      tool. */
  predicate EntryShape(e: Entry, i: nat) {
    && e.index == i
    && e.role != System
    && (e.content.Some? <==> e.role == User || e.role == Assistant)
    && (e.sources.Some? <==> e.role == Tool)
  }

  lemma EntryOfShape(o: Oracles, m: ChatMessage, i: nat)
    ensures EntryShape(EntryOf(o, m, i), i)
  {
  }

  /** Every entry of the batch has the shape of its position. */
  lemma SerializedEntries(o: Oracles, msgs: seq<ChatMessage>)
    ensures var batch := Serialized(o, msgs);
            forall i :: 0 <= i < |batch| ==> EntryShape(batch[i], i)
  {
    SerializedIsFilter(o, msgs);
    var kept := Filter((m: ChatMessage) => Kept(o, m), msgs);
    forall i | 0 <= i < |kept|
      ensures EntryShape(Serialized(o, msgs)[i], i)
    {
      EntryOfShape(o, kept[i], i);
    }
  }

  /** No SystemMessage and no message with blank text reaches the batch. */
  lemma SerializedDrops(o: Oracles, msgs: seq<ChatMessage>, m: ChatMessage)
    requires m.kind == SystemMessage || Strip(CleanedText(o, m.content)) == ""
    ensures Serialized(o, msgs + [m]) == Serialized(o, msgs)
  {
    assert (msgs + [m])[..|msgs|] == msgs;
  }

  // ---------------------------------------------------------------- the link-back

  /** Position of the last assistant entry of the batch, if any. */
  function LastAssistant(batch: seq<Entry>): (r: Option<nat>)
    ensures r.Some? ==> r.value < |batch| && batch[r.value].role == Assistant
  {
    if |batch| == 0 then None
    else if batch[|batch| - 1].role == Assistant then Some(|batch| - 1)
    else LastAssistant(batch[..|batch| - 1])
  }

  /** LastAssistant finds an assistant entry with no assistant entry after it, and finds
      nothing exactly when the batch has no assistant entry. */
  lemma {:induction false} LastAssistantIsLast(batch: seq<Entry>)
    ensures LastAssistant(batch).None? <==> forall i :: 0 <= i < |batch| ==> batch[i].role != Assistant
    ensures LastAssistant(batch).Some? ==> forall j :: LastAssistant(batch).value < j < |batch| ==> batch[j].role != Assistant
  {
    if |batch| > 0 && batch[|batch| - 1].role != Assistant {
      var init := batch[..|batch| - 1];
      LastAssistantIsLast(init);
      assert forall i :: 0 <= i < |init| ==> init[i] == batch[i];
    }
  }

  /** `next(m for m in reversed(serialized_msgs) if m["role"] == "assistant")`. */
  method FindLastAssistant(batch: seq<Entry>) returns (last: Option<nat>)
    ensures last == LastAssistant(batch)
  {
    var i := |batch|;
    assert batch[..i] == batch;
    while i > 0
      invariant 0 <= i <= |batch|
      invariant LastAssistant(batch) == LastAssistant(batch[..i])
    {
      if batch[i - 1].role == Assistant {
        return Some(i - 1);
      }
      assert batch[..i][..i - 1] == batch[..i - 1];
      i := i - 1;
    }
    return None;
  }

  /** The graph after `save_chat_history`. `connected` says whether the driver is
      initialised (every query raises otherwise); a statement that raises is logged and
      the function returns normally. */
  function SaveOutcome(g: G.Graph, o: Oracles, user: string, t: string, msgs: seq<ChatMessage>,
                       contextIds: seq<Option<string>>, connected: bool): G.Graph
  {
    if !connected then g
    else
      var batch := Serialized(o, msgs);
      match MergeTurn(g, user, t, batch)
      case None => g
      case Some(g1) =>
        if |contextIds| == 0 then g1
        else
          match LastAssistant(batch)
          case None => g1
          case Some(i) => LinkSources(g1, batch[i].id, contextIds)
  }

  /** Beyond the turn merge, saving adds no node and only SOURCED edges from the last
      assistant entry, and those only when there are context ids; a failed merge leaves
      the graph as it was. */
  lemma SaveLinkBack(g: G.Graph, o: Oracles, user: string, t: string, msgs: seq<ChatMessage>,
                     contextIds: seq<Option<string>>)
    ensures var batch := Serialized(o, msgs);
            var g' := SaveOutcome(g, o, user, t, msgs, contextIds, true);
            match MergeTurn(g, user, t, batch)
            case None => g' == g
            case Some(g1) =>
              && g'.(rels := g1.rels) == g1
              && forall r :: r in g'.rels ==>
                   || r in g1.rels
                   || (&& |contextIds| > 0 && LastAssistant(batch).Some?
                       && r.kind == Sourced && r.from == MessageNode(batch[LastAssistant(batch).value].id))
  {
    var batch := Serialized(o, msgs);
    if MergeTurn(g, user, t, batch).Some? && |contextIds| > 0 && LastAssistant(batch).Some? {
      var g1 := MergeTurn(g, user, t, batch).value;
      Maintenance.LinkSourcesEdges(g1, batch[LastAssistant(batch).value].id, contextIds);
    }
  }

  /** When the last assistant entry is not the first of the batch, its Message exists
      after the merge, so it gets a SOURCED edge to every listed Chunk and Message. */
  lemma SaveLinksContext(g: G.Graph, o: Oracles, user: string, t: string, msgs: seq<ChatMessage>,
                         contextIds: seq<Option<string>>, i: nat)
    requires MergeTurn(g, user, t, Serialized(o, msgs)).Some?
    requires |contextIds| > 0 && LastAssistant(Serialized(o, msgs)) == Some(i) && i >= 1
    ensures var g1 := MergeTurn(g, user, t, Serialized(o, msgs)).value;
            var g' := SaveOutcome(g, o, user, t, msgs, contextIds, true);
            var m := MessageNode(Serialized(o, msgs)[i].id);
            && (forall k :: 0 <= k < |contextIds| && contextIds[k].Some? && contextIds[k].value in g1.chunks ==>
                  Rel(Sourced, m, ChunkNode(contextIds[k].value)) in g'.rels)
            && (forall k :: 0 <= k < |contextIds| && contextIds[k].Some? && contextIds[k].value in g1.messages ==>
                  Rel(Sourced, m, MessageNode(contextIds[k].value)) in g'.rels)
  {
    var batch := Serialized(o, msgs);
    var g1 := MergeTurn(g, user, t, batch).value;
    NodeKeys.FirstRun(g, user, t, batch, g1);
    assert NodeKeys.HasEntryNodes(g1, batch[i]);
    Maintenance.LinkSourcesEdges(g1, batch[i].id, contextIds);
  }

  /** `save_chat_history` on the store. */
  method SaveChatHistory(store: Store.GraphStore, connected: bool, o: Oracles, user: string, t: string,
                         msgs: seq<ChatMessage>, contextIds: seq<Option<string>>)
    modifies store
    ensures store.Snapshot() == SaveOutcome(old(store.Snapshot()), o, user, t, msgs, contextIds, connected)
    ensures old(store.Valid()) ==> store.Valid()
  {
    var batch := SerializeMessages(o, msgs);
    if !connected {
      return;
    }
    var ok := store.MergeConversationTurn(user, t, batch);
    if !ok {
      return;
    }
    if |contextIds| > 0 {
      var last := FindLastAssistant(batch);
      if last.Some? {
        store.LinkSourcesFromVectorLookup(batch[last.value].id, contextIds);
      }
    }
  }
}
