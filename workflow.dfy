/** `retrieve_context_node` of backend/graph/workflow.py: embed the latest message, run
    VECTOR_LOOKUP, keep the records that have content, and inject them as one system
    message; fall back to "no context" when nothing is found or the search raises. */
module Workflow {
  import opened Payload
  import opened Text
  import opened Seqs
  import opened Messages
  import opened Graph

  /** The state update the node returns: the messages it adds (their contents; each is a
      SystemMessage), `context` and `context_ids`. */
  datatype Update = Update(added: seq<string>, context: Option<string>, contextIds: seq<Option<string>>)

  /** The node either raises or returns an update. */
  datatype Outcome = Raised | Returned(update: Update)

  const Header := "INTERNAL KNOWLEDGE FOUND:\n"

  const Instructions :=
    "\n\nINSTRUCTIONS: The above messages are from the user's past conversations. "
    + "Use them to answer the question if relevant. "
    + "If the answer is fully contained here, you do NOT need to search the web."

  const Separator := "\n---\n"

  /** `{"context": None, "context_ids": []}`, with no message added. */
  const NoContext := Update([], None, [])

  /** `record["content"]` is truthy. */
  predicate HasContent(r: Row) {
    r.content.Some? && r.content.value != ""
  }

  /** `record["content"]` of a record that has one. */
  function ContentText(r: Row): string {
    if r.content.Some? then r.content.value else ""
  }

  /** `[record["id"] for record in records if record["content"]]`. */
  function SourceIds(rows: seq<Row>): seq<Option<string>> {
    MapFilter(HasContent, (r: Row) => r.id, rows)
  }

  /** `[record["content"] for record in records if record["content"]]`. */
  function Contents(rows: seq<Row>): seq<string> {
    MapFilter(HasContent, ContentText, rows)
  }

  /** The content of the injected SystemMessage. */
  function ContextMessage(contextText: string): string {
    Header + contextText + Instructions
  }

  /** `retrieve_context_node`, given the providers it calls: `embedQuery` is
      `aembed_query` (None when it raises) and `search` runs VECTOR_LOOKUP (None when it
      raises). Indexing the last message and embedding happen before the try, so their
      failures propagate. */
  function RetrieveContext(history: seq<ChatMessage>, embedQuery: Value -> Option<Vector>,
                           search: Vector -> Option<seq<Row>>): Outcome
  {
    if |history| == 0 then Raised
    else
      match embedQuery(history[|history| - 1].content)
      case None => Raised
      case Some(queryVector) =>
        match search(queryVector)
        case None => Returned(NoContext)
        case Some(rows) =>
          var contents := Contents(rows);
          if |contents| == 0 then Returned(NoContext)
          else
            var contextText := Join(contents, Separator);
            Returned(Update([ContextMessage(contextText)], Some(contextText), SourceIds(rows)))
  }

  /** Ids and contents are selected by the same test: both are the records with content,
      in record order, so they have the same length and line up index by index. */
  lemma IdsAlignWithContents(rows: seq<Row>)
    ensures var kept := Filter(HasContent, rows);
            && IsSubseq(kept, rows)
            && |SourceIds(rows)| == |kept| && |Contents(rows)| == |kept|
            && forall k :: 0 <= k < |kept| ==>
                 && HasContent(kept[k])
                 && SourceIds(rows)[k] == kept[k].id
                 && kept[k].content == Some(Contents(rows)[k])
  {
    FilterSpec(HasContent, rows);
    MapFilterIsFilter(HasContent, (r: Row) => r.id, rows);
    MapFilterIsFilter(HasContent, ContentText, rows);
  }

  /** There are no contents exactly when no record has content. */
  lemma NoContentsNoRecords(rows: seq<Row>)
    ensures Contents(rows) == [] <==> forall k :: 0 <= k < |rows| ==> !HasContent(rows[k])
  {
    MapFilterIsFilter(HasContent, ContentText, rows);
    FilterSpec(HasContent, rows);
    if Contents(rows) == [] {
      forall k | 0 <= k < |rows|
        ensures !HasContent(rows[k])
      {
        assert rows[k] in rows;
      }
    } else {
      assert Filter(HasContent, rows)[0] in rows;
    }
  }

  /** An empty history and a failing embedding call are not caught. */
  lemma RetrieveRaises(history: seq<ChatMessage>, embedQuery: Value -> Option<Vector>, search: Vector -> Option<seq<Row>>)
    requires |history| == 0 || embedQuery(history[|history| - 1].content).None?
    ensures RetrieveContext(history, embedQuery, search) == Raised
  {
  }

  /** A failing search, or a search whose records all lack content, yields exactly the
      default update and adds no message. */
  lemma RetrieveFallsBack(history: seq<ChatMessage>, embedQuery: Value -> Option<Vector>, search: Vector -> Option<seq<Row>>)
    requires |history| > 0 && embedQuery(history[|history| - 1].content).Some?
    requires var rows := search(embedQuery(history[|history| - 1].content).value);
             rows.None? || forall k :: 0 <= k < |rows.value| ==> !HasContent(rows.value[k])
    ensures RetrieveContext(history, embedQuery, search) == Returned(NoContext)
  {
    var rows := search(embedQuery(history[|history| - 1].content).value);
    if rows.Some? {
      NoContentsNoRecords(rows.value);
    }
  }

  /** When some record has content, the node adds exactly one SystemMessage, which holds
      the contents joined by "\n---\n" after the header; that text is the context, and the
      context ids are the ids of the same records. */
  lemma RetrieveFindsContext(history: seq<ChatMessage>, embedQuery: Value -> Option<Vector>,
                             search: Vector -> Option<seq<Row>>, rows: seq<Row>, k: nat)
    requires |history| > 0 && embedQuery(history[|history| - 1].content).Some?
    requires search(embedQuery(history[|history| - 1].content).value) == Some(rows)
    requires k < |rows| && HasContent(rows[k])
    ensures var out := RetrieveContext(history, embedQuery, search);
            var contextText := Join(Contents(rows), Separator);
            && out.Returned?
            && |out.update.added| == 1
            && out.update.added[0][|Header|..|Header| + |contextText|] == contextText
            && out.update.context == Some(contextText)
            && out.update.contextIds == SourceIds(rows)
            && |out.update.contextIds| == |Contents(rows)| >= 1
  {
    NoContentsNoRecords(rows);
    IdsAlignWithContents(rows);
    var contextText := Join(Contents(rows), Separator);
    var msg := ContextMessage(contextText);
    assert msg == Header + contextText + Instructions;
    assert msg[|Header|..|Header| + |contextText|] == contextText;
  }

  /** The separator sits between consecutive contents: the joined text is the first
      content, the separator, and the join of the rest. */
  lemma JoinSplits(contents: seq<string>)
    requires |contents| >= 2
    ensures Join(contents, Separator) == contents[0] + Separator + Join(contents[1..], Separator)
    ensures Join(contents, Separator)[..|contents[0]|] == contents[0]
  {
  }
}
