/** Chat messages as LangChain hands them to the memory subsystem, the records the two
    serializers build from them, and the normalisation steps both serializers share. */
module Messages {
  import opened Payload
  import opened Text
  import opened Seqs

  /** The concrete LangChain message class. */
  datatype Kind = HumanMessage | AIMessage | SystemMessage | ToolMessage | OtherMessage

  /** A message: its class, its raw `content` payload and its `id`. */
  datatype ChatMessage = ChatMessage(kind: Kind, content: Value, id: string)

  /** The role string stored on a Message node. */
  datatype Role = User | Assistant | Tool | System | Unknown {
    function Name(): string {
      match this
      case User => "user"
      case Assistant => "assistant"
      case Tool => "tool"
      case System => "system"
      case Unknown => "unknown"
    }
  }

  /** One extracted tool source: `{"url", "title", "content"}`. */
  datatype SourceRecord = SourceRecord(url: Value, title: Value, content: string)

  /** An entry of the batch that the current serializer hands to the conversation merge. */
  datatype Entry = Entry(
    id: string,
    index: nat,
    role: Role,
    content: Option<string>,
    sources: Option<seq<SourceRecord>>)

  /** An entry of the batch that the legacy serializer hands to its node query. */
  datatype LegacyEntry = LegacyEntry(
    id: string,
    index: nat,
    role: Role,
    content: string,
    sources: seq<SourceRecord>)

  /** What one list element contributes to the cleaned text: a string itself, a dict
      with a "text" key str() of that field, anything else nothing. */
  function ItemParts(o: Oracles, item: Value): (parts: seq<string>)
    ensures |parts| <= 1
  {
    match item
    case VStr(s) => [s]
    case VDict(fields) => if "text" in fields then [Str(o, fields["text"])] else []
    case _ => []
  }

  /** The `parts` list both sanitizers build from a list payload. */
  function ListParts(o: Oracles, items: seq<Value>): seq<string> {
    if |items| == 0 then [] else ListParts(o, items[..|items| - 1]) + ItemParts(o, items[|items| - 1])
  }

  /** Parts are collected element by element: the parts of a concatenation are the
      parts of the first list followed by those of the second. */
  lemma {:induction false} ListPartsAppend(o: Oracles, a: seq<Value>, b: seq<Value>)
    ensures ListParts(o, a + b) == ListParts(o, a) + ListParts(o, b)
  {
    if |b| == 0 {
      assert a + b == a;
    } else {
      var b' := b[..|b| - 1];
      assert (a + b)[..|a + b| - 1] == a + b';
      ListPartsAppend(o, a, b');
    }
  }

  lemma {:induction false} ConcatAppend(p: seq<string>, q: seq<string>)
    ensures Concat(p + q) == Concat(p) + Concat(q)
  {
    if |q| == 0 {
      assert p + q == p;
    } else {
      var q', x := q[..|q| - 1], q[|q| - 1];
      assert q == q' + [x] && p + q == (p + q') + [x];
      ConcatAppend(p, q');
      ConcatSnoc(p + q', x);
      ConcatSnoc(q', x);
    }
  }

  lemma ConcatSnoc(p: seq<string>, x: string)
    ensures Concat(p + [x]) == Concat(p) + x
  {
    assert (p + [x])[..|p|] == p;
  }

  /** The text of a list payload: the in-order concatenation of its string elements and
      of the "text" fields of its dict elements. */
  function ListText(o: Oracles, items: seq<Value>): string {
    Concat(ListParts(o, items))
  }

  /** An element that is neither a string nor a dict with "text" does not change the
      text of the list it sits in. */
  lemma ListTextIgnores(o: Oracles, a: seq<Value>, item: Value, b: seq<Value>)
    requires !item.VStr? && !(item.VDict? && "text" in item.fields)
    ensures ListText(o, a + [item] + b) == ListText(o, a + b)
  {
    ListPartsAppend(o, a + [item], b);
    ListPartsAppend(o, a, b);
    assert (a + [item])[..|a|] == a;
    assert ListParts(o, a + [item]) == ListParts(o, a);
  }

  /** The list text is the string elements joined, when every element is a string. */
  lemma {:induction false} ListTextOfStrings(o: Oracles, items: seq<Value>)
    requires forall k :: 0 <= k < |items| ==> items[k].VStr?
    ensures ListText(o, items) == Concat(seq(|items|, k requires 0 <= k < |items| => items[k].s))
  {
    if |items| > 0 {
      var init := items[..|items| - 1];
      ListTextOfStrings(o, init);
      var strs := seq(|items|, k requires 0 <= k < |items| => items[k].s);
      assert strs[..|strs| - 1] == seq(|init|, k requires 0 <= k < |init| => init[k].s);
    }
  }

  /** The text of a dict payload: str() of its "text" field if present, otherwise its
      JSON dump. */
  function DictText(o: Oracles, fields: map<string, Value>): string {
    Str(o, Get(fields, "text", VStr(o.dumps(VDict(fields)))))
  }

  /** A tool payload item that names a source: a dict with a "url" key. */
  predicate IsUrlItem(item: Value) {
    item.VDict? && "url" in item.fields
  }

  /** `[record(item) for item in items if isinstance(item, dict) and "url" in item]`. */
  function UrlRecords(items: seq<Value>, record: map<string, Value> -> SourceRecord): seq<SourceRecord> {
    if |items| == 0 then []
    else
      var last := items[|items| - 1];
      UrlRecords(items[..|items| - 1], record) + if IsUrlItem(last) then [record(last.fields)] else []
  }

  /** The records are those of the url items, one each, in their order. */
  lemma {:induction false} UrlRecordsOfFilter(items: seq<Value>, record: map<string, Value> -> SourceRecord)
    ensures var kept := Filter(IsUrlItem, items);
            && |UrlRecords(items, record)| == |kept|
            && forall k :: 0 <= k < |kept| ==> kept[k].VDict? && UrlRecords(items, record)[k] == record(kept[k].fields)
  {
    if |items| > 0 {
      var init, last := items[..|items| - 1], items[|items| - 1];
      assert items == init + [last];
      UrlRecordsOfFilter(init, record);
      FilterSnoc(IsUrlItem, init, last);
      UrlRecordsSnoc(init, last, record);
    }
  }

  lemma UrlRecordsSnoc(items: seq<Value>, last: Value, record: map<string, Value> -> SourceRecord)
    ensures UrlRecords(items + [last], record) == UrlRecords(items, record) + if IsUrlItem(last) then [record(last.fields)] else []
  {
    assert (items + [last])[..|items|] == items;
  }
}
