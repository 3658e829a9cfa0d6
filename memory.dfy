/** The legacy ingestion path of backend/memory.py: md5 message ids, its own payload
    sanitizer and source extractor, a serialisation loop that keeps system turns, and the
    node query followed by the chain query that links the thread's messages by index. */
module LegacyMemory {
  import opened Payload
  import opened Text
  import opened Messages
  import opened Seqs
  import opened Graph
  import G = Graph
  import Store
  import Repository
  import Maintenance

  // ---------------------------------------------------------------- generate_message_id

  /** md5 of "thread-index-role-" followed by the first 50 characters of the content. */
  function GenerateMessageId(o: Oracles, threadId: string, index: int, role: string, content: string): string {
    o.md5(threadId + "-" + IntToString(index) + "-" + role + "-" + Take(content, 50))
  }

  /** The legacy id scheme is the one of the current serializer's `_generate_id`, so it
      too depends on the content only through its first 50 characters. */
  lemma MessageIdStable(o: Oracles, threadId: string, index: int, role: string, c1: string, c2: string)
    requires |c1| >= 50 && c1[..50] <= c2
    ensures GenerateMessageId(o, threadId, index, role, c1) == Repository.GenerateId(o, threadId, index, role, c1)
    ensures GenerateMessageId(o, threadId, index, role, c1) == GenerateMessageId(o, threadId, index, role, c2)
  {
    Repository.GenerateIdStable(o, threadId, index, role, c1, c2);
  }

  // ---------------------------------------------------------------- clean_content

  /** The text `clean_content` makes of a payload: only None becomes "". */
  function LegacyCleanedText(o: Oracles, v: Value): string {
    match v
    case VNone => ""
    case VStr(s) => s
    case VList(items) => ListText(o, items)
    case VDict(fields) => DictText(o, fields)
    case _ => Str(o, v)
  }

  /** The two sanitizers agree on None and on every truthy payload. */
  lemma CleanersAgree(o: Oracles, v: Value)
    requires v == VNone || Truthy(v)
    ensures LegacyCleanedText(o, v) == Repository.CleanedText(o, v)
  {
  }

  /** They differ on the other falsy payloads: the legacy sanitizer dumps an empty dict
      and renders False and 0, where the current one returns "". */
  lemma CleanersDiffer(o: Oracles)
    ensures LegacyCleanedText(o, VDict(map[])) == o.dumps(VDict(map[]))
    ensures LegacyCleanedText(o, VBool(false)) == "False" && LegacyCleanedText(o, VInt(0)) == "0"
    ensures Repository.CleanedText(o, VDict(map[])) == "" && Repository.CleanedText(o, VBool(false)) == ""
    ensures Repository.CleanedText(o, VInt(0)) == ""
  {
  }

  /** `clean_content`, with the loop that collects the text parts of a list payload. */
  method CleanContent(o: Oracles, v: Value) returns (text: string)
    ensures text == LegacyCleanedText(o, v)
  {
    match v {
      case VNone =>
        text := "";
      case VStr(s) =>
        text := s;
      case VList(items) =>
        var textParts: seq<string> := [];
        for i := 0 to |items|
          invariant textParts == ListParts(o, items[..i])
        {
          assert items[..i + 1][..i] == items[..i];
          var item := items[i];
          if item.VStr? {
            textParts := textParts + [item.s];
          } else if item.VDict? {
            if "text" in item.fields {
              textParts := textParts + [Str(o, item.fields["text"])];
            }
          }
        }
        assert items[..|items|] == items;
        text := Concat(textParts);
      case VDict(fields) =>
        text := DictText(o, fields);
      case _ =>
        text := Str(o, v);
    }
  }

  // ---------------------------------------------------------------- extract_sources

  /** The list `extract_sources` iterates: a string goes through json.loads (nothing when
      it is not JSON), a list is used as it is, and any other payload leaves `data` empty;
      a dict that came out of json.loads stands for a one-element list. A parsed value
      that is neither (a string, a number, null) has no dict items or raises inside the
      outer try, and gives nothing either way. */
  function LegacyItems(o: Oracles, content: Value): seq<Value> {
    match content
    case VStr(s) =>
      (match o.loads(s)
       case None => []
       case Some(VDict(fields)) => [VDict(fields)]
       case Some(VList(items)) => items
       case Some(_) => [])
    case VList(items) => items
    case _ => []
  }

  /** The record built from one url item; its content is cut to 500 characters. */
  function LegacySourceOf(o: Oracles, fields: map<string, Value>): SourceRecord {
    SourceRecord(
      Get(fields, "url", VNone),
      Get(fields, "title", VStr("No Title")),
      Take(LegacyCleanedText(o, Get(fields, "content", VStr(""))), 500))
  }

  function LegacyRecords(o: Oracles, items: seq<Value>): seq<SourceRecord> {
    UrlRecords(items, (fields: map<string, Value>) => LegacySourceOf(o, fields))
  }

  function LegacyExtracted(o: Oracles, content: Value): seq<SourceRecord> {
    LegacyRecords(o, LegacyItems(o, content))
  }

  /** `extract_sources`, with its loop over the parsed items. */
  method ExtractSources(o: Oracles, content: Value) returns (validSources: seq<SourceRecord>)
    ensures validSources == LegacyExtracted(o, content)
  {
    var data := LegacyItems(o, content);
    validSources := [];
    for i := 0 to |data|
      invariant validSources == LegacyRecords(o, data[..i])
    {
      assert data[..i + 1][..i] == data[..i];
      var item := data[i];
      if item.VDict? && "url" in item.fields {
        var text := CleanContent(o, Get(item.fields, "content", VStr("")));
        validSources := validSources + [SourceRecord(item.fields["url"], Get(item.fields, "title", VStr("No Title")), Take(text, 500))];
      }
    }
    assert data[..|data|] == data;
  }

  /** How the payload is read: a string that is not JSON gives nothing, a JSON object is
      a one-element list, list content is used directly, and a dict that was not a string
      gives nothing. */
  lemma LegacyPayloads(o: Oracles, content: Value)
    ensures content.VStr? && o.loads(content.s).None? ==> LegacyExtracted(o, content) == []
    ensures content.VStr? && o.loads(content.s).Some? && o.loads(content.s).value.VDict? ==>
              var fields := o.loads(content.s).value.fields;
              LegacyExtracted(o, content) == if "url" in fields then [LegacySourceOf(o, fields)] else []
    ensures content.VList? ==> LegacyExtracted(o, content) == LegacyRecords(o, content.items)
    ensures content.VDict? ==> LegacyExtracted(o, content) == []
  {
    if content.VStr? && o.loads(content.s).Some? && o.loads(content.s).value.VDict? {
      var fields := o.loads(content.s).value.fields;
      var record := (f: map<string, Value>) => LegacySourceOf(o, f);
      assert [VDict(fields)][..0] == [];
      assert UrlRecords([VDict(fields)], record) == UrlRecords([], record) + if "url" in fields then [record(fields)] else [];
    }
  }

  /** Every extracted source comes from a dict item with "url", in order: it carries that
      url, the title or "No Title", and a prefix of at most 500 characters of the item's
      cleaned content. */
  lemma LegacySourcesBounded(o: Oracles, content: Value)
    ensures var kept := Filter(IsUrlItem, LegacyItems(o, content));
            var r := LegacyExtracted(o, content);
            && |r| == |kept|
            && forall k :: 0 <= k < |kept| ==>
                 && kept[k].VDict? && "url" in kept[k].fields
                 && r[k].url == kept[k].fields["url"]
                 && r[k].title == (if "title" in kept[k].fields then kept[k].fields["title"] else VStr("No Title"))
                 && |r[k].content| <= 500
                 && r[k].content <= LegacyCleanedText(o, Get(kept[k].fields, "content", VStr("")))
  {
    var items := LegacyItems(o, content);
    UrlRecordsOfFilter(items, (fields: map<string, Value>) => LegacySourceOf(o, fields));
    FilterSpec(IsUrlItem, items);
  }

  // ---------------------------------------------------------------- the serialisation loop

  /** The role string: system turns are kept, unrecognised classes become "unknown". */
  function LegacyRoleOf(k: Kind): Role {
    match k
    case HumanMessage => User
    case AIMessage => Assistant
    case SystemMessage => System
    case ToolMessage => Tool
    case OtherMessage => Unknown
  }

  /** A message is persisted unless its cleaned content is empty or blank. */
  predicate LegacyKept(o: Oracles, m: ChatMessage) {
    Strip(LegacyCleanedText(o, m.content)) != ""
  }

  /** The entry a kept message becomes at position `index`. */
  function LegacyEntryOf(o: Oracles, threadId: string, m: ChatMessage, index: nat): LegacyEntry {
    var role := LegacyRoleOf(m.kind);
    var content := LegacyCleanedText(o, m.content);
    LegacyEntry(
      GenerateMessageId(o, threadId, index, role.Name(), content),
      index,
      role,
      content,
      if m.kind == ToolMessage then LegacyExtracted(o, m.content) else [])
  }

  /** `serialized_messages` after the loop over `msgs`. */
  function LegacySerialized(o: Oracles, threadId: string, msgs: seq<ChatMessage>): seq<LegacyEntry> {
    Numbered((m: ChatMessage) => LegacyKept(o, m), (m: ChatMessage, index: nat) => LegacyEntryOf(o, threadId, m, index), msgs)
  }

  /** The serialisation loop of `persist_chat`, with its `current_index` counter. */
  method SerializeLegacy(o: Oracles, threadId: string, msgs: seq<ChatMessage>) returns (serialized: seq<LegacyEntry>)
    ensures serialized == LegacySerialized(o, threadId, msgs)
  {
    serialized := [];
    var currentIndex: nat := 0;
    for i := 0 to |msgs|
      invariant serialized == LegacySerialized(o, threadId, msgs[..i]) && currentIndex == |serialized|
    {
      assert msgs[..i + 1][..i] == msgs[..i];
      var m := msgs[i];
      var role := LegacyRoleOf(m.kind);
      var contentStr := CleanContent(o, m.content);
      if contentStr == "" || Strip(contentStr) == "" {
        continue;
      }
      var msgId := GenerateMessageId(o, threadId, currentIndex, role.Name(), contentStr);
      var sources: seq<SourceRecord> := [];
      if m.kind == ToolMessage {
        sources := ExtractSources(o, m.content);
      }
      serialized := serialized + [LegacyEntry(msgId, currentIndex, role, contentStr, sources)];
      currentIndex := currentIndex + 1;
    }
    assert msgs[..|msgs|] == msgs;
  }

  /** The batch is the non-blank messages, in input order, entry i built from the i-th of
      them with index i. */
  lemma LegacySerializedIsFilter(o: Oracles, threadId: string, msgs: seq<ChatMessage>)
    ensures var kept := Filter((m: ChatMessage) => LegacyKept(o, m), msgs);
            && |LegacySerialized(o, threadId, msgs)| == |kept|
            && forall i :: 0 <= i < |kept| ==>
                 LegacyKept(o, kept[i]) && LegacySerialized(o, threadId, msgs)[i] == LegacyEntryOf(o, threadId, kept[i], i)
  {
    var p := (m: ChatMessage) => LegacyKept(o, m);
    var mk := (m: ChatMessage, index: nat) => LegacyEntryOf(o, threadId, m, index);
    NumberedIsFilter(p, mk, msgs);
    var kept := Filter(p, msgs);
    forall i | 0 <= i < |kept|
      ensures LegacyKept(o, kept[i])
    {
      FilterSpec(p, msgs);
      assert p(kept[i]);
    }
  }

  /** Entry `e` at position i, built from message `m`: index i, the role of its message
      (a SystemMessage stays "system", an unrecognised class is "unknown"), non-blank
      content, and sources only if the message is a ToolMessage. */
  predicate LegacyEntryShape(e: LegacyEntry, m: ChatMessage, i: nat) {
    && e.index == i
    && e.role == LegacyRoleOf(m.kind)
    && (m.kind == SystemMessage ==> e.role == System)
    && (m.kind == OtherMessage ==> e.role == Unknown)
    && Strip(e.content) != ""
    && (e.sources != [] ==> m.kind == ToolMessage && e.role == Tool)
  }

  lemma LegacyEntryOfShape(o: Oracles, threadId: string, m: ChatMessage, i: nat)
    requires LegacyKept(o, m)
    ensures LegacyEntryShape(LegacyEntryOf(o, threadId, m, i), m, i)
  {
    var e := LegacyEntryOf(o, threadId, m, i);
    assert e.index == i && e.role == LegacyRoleOf(m.kind) && e.content == LegacyCleanedText(o, m.content);
    assert m.kind != ToolMessage ==> e.sources == [];
  }

  /** Entry i is built from the i-th kept message and has the shape of position i. */
  lemma LegacyEntries(o: Oracles, threadId: string, msgs: seq<ChatMessage>)
    ensures var kept := Filter((m: ChatMessage) => LegacyKept(o, m), msgs);
            var batch := LegacySerialized(o, threadId, msgs);
            && |batch| == |kept|
            && forall i :: 0 <= i < |batch| ==> LegacyEntryShape(batch[i], kept[i], i)
  {
    LegacySerializedIsFilter(o, threadId, msgs);
    var kept := Filter((m: ChatMessage) => LegacyKept(o, m), msgs);
    forall i | 0 <= i < |kept|
      ensures LegacyEntryShape(LegacySerialized(o, threadId, msgs)[i], kept[i], i)
    {
      LegacyEntryOfShape(o, threadId, kept[i], i);
    }
  }

  /** A blank message is skipped without using up an index. */
  lemma LegacySkipsBlank(o: Oracles, threadId: string, msgs: seq<ChatMessage>, m: ChatMessage)
    requires Strip(LegacyCleanedText(o, m.content)) == ""
    ensures LegacySerialized(o, threadId, msgs + [m]) == LegacySerialized(o, threadId, msgs)
  {
    assert (msgs + [m])[..|msgs|] == msgs;
  }

  // ---------------------------------------------------------------- persist_chat

  /** `persist_chat` on the store. `connected` says whether `get_driver()` returned a
      driver; the node query runs, then the chain query, and an exception from either is
      logged. `order` is the thread's messages in the order the chain query linked them. */
  method PersistChat(store: Store.GraphStore, connected: bool, o: Oracles, user: string, t: string, msgs: seq<ChatMessage>)
    returns (order: seq<string>)
    modifies store
    ensures !connected ==> store.Snapshot() == old(store.Snapshot()) && order == []
    ensures connected && PersistNodes(old(store.Snapshot()), user, t, LegacySerialized(o, t, msgs)).None? ==>
              store.Snapshot() == old(store.Snapshot()) && order == []
    ensures connected && PersistNodes(old(store.Snapshot()), user, t, LegacySerialized(o, t, msgs)).Some? ==>
              var g1 := PersistNodes(old(store.Snapshot()), user, t, LegacySerialized(o, t, msgs)).value;
              && NoDup(order)
              && (forall id :: id in order <==> id in ThreadMessages(g1, t))
              && (forall e :: e in LegacySerialized(o, t, msgs) ==> e.id in order)
              && (forall i :: 0 <= i < |order| ==> order[i] in g1.messages)
              && (forall i, j :: 0 <= i < j < |order| ==> g1.messages[order[i]].index <= g1.messages[order[j]].index)
              && store.Snapshot() == LinkConsecutive(g1, order)
              && (forall i :: 0 <= i < |order| - 1 ==> Rel(Next, MessageNode(order[i]), MessageNode(order[i + 1])) in store.rels)
    ensures old(store.Valid()) ==> store.Valid()
  {
    order := [];
    if !connected {
      return;
    }
    var serializedMessages := SerializeLegacy(o, t, msgs);
    var ok := store.PersistNodeQuery(user, t, serializedMessages);
    if !ok {
      return;
    }
    Maintenance.PersistNodesThread(old(store.Snapshot()), user, t, serializedMessages);
    order := store.ChainQuery(t);
    forall e | e in serializedMessages
      ensures e.id in order
    {
      var i :| 0 <= i < |serializedMessages| && serializedMessages[i] == e;
    }
  }
}
