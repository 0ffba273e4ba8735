/**
  `rag_pipeline.py`: the history-enhanced query used for reranking, the
  empty-chunk filter in front of `VectorStore.add`, and the strings `query`
  builds from the reranked passages (context, memory block, prompt, sources).

  The embedder, the cross-encoder and the language model are function
  parameters; the two result lists of the vector collection are inputs.
 */
module RagPipeline {
  import opened PyStr
  import opened PySeq
  import opened VectorStore
  import opened Reranker

  // ------------------------------------------------------------------ history

  /** One history entry: a tuple or list, its fields rendered as text, or any
      other value (a bare string, say). */
  datatype HistoryItem = Fields(fields: seq<string>) | Other(text: string)

  /** `isinstance(item, (tuple, list)) and len(item) > 1` */
  predicate IsTurn(item: HistoryItem) {
    item.Fields? && |item.fields| > 1
  }

  /** `f"Q: {item[0]}\nA: {item[1]}\n"` */
  function TurnLine(item: HistoryItem): (s: string)
    requires IsTurn(item)
    ensures s != ""
  {
    "Q: " + item.fields[0] + "\nA: " + item.fields[1] + "\n"
  }

  /** `recent_history` once the loop has visited `items`: the line of every
      turn, malformed entries contributing nothing. */
  function RecentHistory(items: seq<HistoryItem>): string
    decreases |items|
  {
    if |items| == 0 then ""
    else
      var last := items[|items| - 1];
      RecentHistory(items[..|items| - 1]) + (if IsTurn(last) then TurnLine(last) else "")
  }

  /** The value of `build_history_enhanced_query`. */
  function EnhancedQuery(query: string, history: seq<HistoryItem>, historyTurns: int): string {
    var recent := RecentHistory(Last(history, historyTurns));
    if recent != "" then "Conversation so far:\n" + recent + "Current question: " + query else query
  }

  /** `build_history_enhanced_query`, accumulating `recent_history` in a loop. */
  method BuildHistoryEnhancedQuery(query: string, history: seq<HistoryItem>, historyTurns: int)
    returns (r: string)
    ensures r == EnhancedQuery(query, history, historyTurns)
  {
    var items := Last(history, historyTurns);
    var recentHistory := "";
    for i := 0 to |items|
      invariant recentHistory == RecentHistory(items[..i])
    {
      assert items[..i + 1][..i] == items[..i];
      var item := items[i];
      if item.Fields? && |item.fields| > 1 {
        recentHistory := recentHistory + "Q: " + item.fields[0] + "\nA: " + item.fields[1] + "\n";
      }
    }
    assert items[..|items|] == items;
    if recentHistory != "" {
      r := "Conversation so far:\n" + recentHistory + "Current question: " + query;
    } else {
      r := query;
    }
  }

  /** The turns among the entries, in order. */
  function Turns(items: seq<HistoryItem>): (ts: seq<HistoryItem>)
    ensures |ts| <= |items|
    ensures forall k :: 0 <= k < |ts| ==> IsTurn(ts[k])
    decreases |items|
  {
    if |items| == 0 then []
    else
      var last := items[|items| - 1];
      Turns(items[..|items| - 1]) + (if IsTurn(last) then [last] else [])
  }

  /** No turn among the entries: `recent_history` stays empty. */
  predicate NoTurn(items: seq<HistoryItem>) {
    forall k :: 0 <= k < |items| ==> !IsTurn(items[k])
  }

  /** `recent_history` is empty exactly when no entry is a turn, and it is the
      turn lines of the turns alone, in history order. */
  lemma {:induction false} RecentHistorySpec(items: seq<HistoryItem>)
    ensures RecentHistory(items) == "" <==> NoTurn(items)
    ensures RecentHistory(items) == Concat(TurnLines(Turns(items)))
    decreases |items|
  {
    if |items| > 0 {
      var init := items[..|items| - 1];
      var last := items[|items| - 1];
      RecentHistorySpec(init);
      var f := Turns(init);
      if IsTurn(last) {
        assert Turns(items) == f + [last];
        var ls := TurnLines(f + [last]);
        assert ls[..|f|] == TurnLines(f);
        assert ls[|f|] == TurnLine(last);
        assert Concat(ls) == Concat(TurnLines(f)) + TurnLine(last);
        assert RecentHistory(items) == RecentHistory(init) + TurnLine(last);
      } else {
        assert Turns(items) == f;
        assert RecentHistory(items) == RecentHistory(init) + "" == RecentHistory(init);
        assert NoTurn(init) ==> NoTurn(items) by {
          forall k | 0 <= k < |items| && NoTurn(init) ensures !IsTurn(items[k]) {
            if k < |init| { assert items[k] == init[k]; }
          }
        }
      }
    }
  }

  /** The turn lines of a list of turns. */
  function TurnLines(turns: seq<HistoryItem>): (ls: seq<string>)
    requires forall k :: 0 <= k < |turns| ==> IsTurn(turns[k])
    ensures |ls| == |turns|
  {
    seq(|turns|, k requires 0 <= k < |turns| => TurnLine(turns[k]))
  }

  /** The query comes back unchanged exactly when none of the last
      `history_turns` entries is a turn; otherwise it is the header, the turns
      in order, and the query. */
  lemma EnhancedQuerySpec(query: string, history: seq<HistoryItem>, historyTurns: int)
    ensures var window := Last(history, historyTurns);
      (EnhancedQuery(query, history, historyTurns) == query <==> NoTurn(window)) &&
      (!NoTurn(window) ==>
         (EnhancedQuery(query, history, historyTurns) ==
          "Conversation so far:\n" + Concat(TurnLines(Turns(window))) + "Current question: " + query))
  {
    var window := Last(history, historyTurns);
    RecentHistorySpec(window);
    if !NoTurn(window) {
      var r := "Conversation so far:\n" + RecentHistory(window) + "Current question: " + query;
      assert |r| > |query|;
    }
  }

  /** `history_turns = 0` consults the whole history, since `history[-0:]`
      is all of it. */
  lemma ZeroTurnsUseWholeHistory(query: string, history: seq<HistoryItem>)
    ensures EnhancedQuery(query, history, 0) == EnhancedQuery(query, history, |history|)
    ensures MemoryBlock(history, 0) == MemoryBlock(history, |history|)
  {
    assert Last(history, 0) == history == Last(history, |history|);
  }

  /** A malformed entry changes nothing, wherever it stands. */
  lemma {:induction false} MalformedEntriesIgnored(items: seq<HistoryItem>, more: seq<HistoryItem>, junk: string)
    ensures RecentHistory(items + [Other(junk)] + more) == RecentHistory(items + more)
    decreases |more|
  {
    if |more| == 0 {
      assert items + [Other(junk)] + more == items + [Other(junk)];
      assert items + more == items;
      RecentHistorySnoc(items, Other(junk));
    } else {
      var m := more[..|more| - 1];
      var x := more[|more| - 1];
      MalformedEntriesIgnored(items, m, junk);
      assert items + [Other(junk)] + more == (items + [Other(junk)] + m) + [x];
      assert items + more == (items + m) + [x];
      RecentHistorySnoc(items + [Other(junk)] + m, x);
      RecentHistorySnoc(items + m, x);
    }
  }

  /** One more entry adds its turn line, if it is a turn. */
  lemma RecentHistorySnoc(items: seq<HistoryItem>, x: HistoryItem)
    ensures RecentHistory(items + [x]) == RecentHistory(items) + (if IsTurn(x) then TurnLine(x) else "")
  {
    assert (items + [x])[..|items|] == items;
  }

  /** One earlier question and answer, one turn consulted: the result holds
      the earlier question, its answer and the current question. */
  lemma CachingExample()
    ensures EnhancedQuery("what about those?", [Fields(["explain caching", "caching stores results"])], 1)
         == "Conversation so far:\n" + "Q: " + "explain caching" + "\nA: " + "caching stores results" + "\n"
            + "Current question: " + "what about those?"
  {
    var h := [Fields(["explain caching", "caching stores results"])];
    assert Last(h, 1) == h;
    assert h[..0] == [];
    assert RecentHistory([]) == "";
    assert IsTurn(h[0]);
    assert RecentHistory(h) == TurnLine(h[0]);
  }

  // ------------------------------------------------------------------ indexing

  /** One `(file_path, chunk_text, chunk_metadata)` entry; `None` metadata is
      the falsy case (an empty dict is falsy too, and stays `{}`). */
  datatype Document = Document(filePath: string, text: string, metadata: Option<Metadata>)

  /** The filter test, `not chunk_text or len(chunk_text.strip()) == 0`, negated. */
  predicate HasText(d: Document) {
    !IsBlank(d.text)
  }

  /** `chunk_metadata if chunk_metadata else {}` */
  function MetadataOrEmpty(m: Option<Metadata>): Metadata {
    if m.Some? then m.value else map[]
  }

  function ChunkColumn(ds: seq<Document>): (r: seq<string>)
    ensures |r| == |ds|
  {
    seq(|ds|, k requires 0 <= k < |ds| => ds[k].text)
  }

  function PathColumn(ds: seq<Document>): (r: seq<string>)
    ensures |r| == |ds|
  {
    seq(|ds|, k requires 0 <= k < |ds| => ds[k].filePath)
  }

  function MetadataColumn(ds: seq<Document>): (r: seq<Metadata>)
    ensures |r| == |ds|
  {
    seq(|ds|, k requires 0 <= k < |ds| => MetadataOrEmpty(ds[k].metadata))
  }

  /** The documents the loop keeps, in order. */
  function Kept(documents: seq<Document>): (ks: seq<Document>)
    ensures |ks| <= |documents|
    decreases |documents|
  {
    if |documents| == 0 then []
    else
      var last := documents[|documents| - 1];
      Kept(documents[..|documents| - 1]) + (if HasText(last) then [last] else [])
  }

  /** The filter keeps exactly the documents with non-blank text, and keeps
      their order: it distributes over concatenation. */
  lemma {:induction false} KeptSpec(documents: seq<Document>)
    ensures forall d :: d in Kept(documents) <==> d in documents && !IsBlank(d.text)
    decreases |documents|
  {
    if |documents| > 0 {
      var init := documents[..|documents| - 1];
      KeptSpec(init);
      assert documents == init + [documents[|documents| - 1]];
    }
  }

  lemma {:induction false} KeptAppend(a: seq<Document>, b: seq<Document>)
    ensures Kept(a + b) == Kept(a) + Kept(b)
    decreases |b|
  {
    if |b| > 0 {
      var b' := b[..|b| - 1];
      assert (a + b)[..|a + b| - 1] == a + b';
      KeptAppend(a, b');
    } else {
      assert a + b == a;
    }
  }

  /** What the vector store holds: its id set, its records, its write log. */
  datatype StoreState = StoreState(ids: set<string>, collection: seq<Record>, addCalls: seq<seq<Record>>)

  function StateOf(store: Store): StoreState
    reads store
  {
    StoreState(store.ids, store.collection, store.addCalls)
  }

  /** Which foreign call inside `index_documents` raises: the embedder, or
      `collection.add` call number `call` inside `add` (counting from 0; none
      raises when `add` makes fewer calls). */
  datatype Fault = EmbedRaises | WriteRaises(call: nat)

  /** The write call that raises, if any. */
  function RejectAt(fault: Option<Fault>): Option<nat> {
    if fault.Some? && fault.value.WriteRaises? then Some(fault.value.call) else None
  }

  /** The positions `add(embeddings, chunks, filepaths, metadatas=metas)` writes in state `st`. */
  function AddEntries(st: StoreState, embeddings: seq<Vector>, chunks: seq<string>, paths: seq<string>,
                      metas: seq<Metadata>): seq<Entry>
  {
    Entries(st.ids, PositionIds(paths), chunks, StoredMetadatas(metas, paths),
            ZipLength(embeddings, chunks, paths, metas))
  }

  /** The `collection.add` calls that `add` makes when none raises. */
  function AddCalls(st: StoreState, embeddings: seq<Vector>, chunks: seq<string>, paths: seq<string>,
                    metas: seq<Metadata>): seq<seq<Record>>
  {
    Partition(AddedRecords(AddEntries(st, embeddings, chunks, paths, metas), embeddings), BatchSize)
  }

  /** The state after `add(embeddings, chunks, filepaths, metadatas=metas)`:
      every new id is recorded, and the write calls before the one that
      raises are stored. */
  function AddEffect(st: StoreState, embeddings: seq<Vector>, chunks: seq<string>, paths: seq<string>,
                     metas: seq<Metadata>, rejectAt: Option<nat>): StoreState
  {
    var calls := AddCalls(st, embeddings, chunks, paths, metas);
    var sent := Accepted(|calls|, rejectAt);
    StoreState(st.ids + EntryIds(AddEntries(st, embeddings, chunks, paths, metas)),
               st.collection + Flatten(calls[..sent]), st.addCalls + calls[..sent])
  }

  /** Whether that `add` raises. */
  function AddRaises(st: StoreState, embeddings: seq<Vector>, chunks: seq<string>, paths: seq<string>,
                     metas: seq<Metadata>, rejectAt: Option<nat>): bool
  {
    var calls := AddCalls(st, embeddings, chunks, paths, metas);
    Accepted(|calls|, rejectAt) < |calls|
  }

  /** The state after `index_documents(documents)`: unchanged when no chunk
      survives the filter or the embedder raises, otherwise the surviving
      chunks embedded and added. */
  function IndexEffect(st: StoreState, embed: seq<string> -> seq<Vector>, documents: seq<Document>,
                       fault: Option<Fault>): StoreState
  {
    var kept := Kept(documents);
    if kept == [] || fault == Some(EmbedRaises) then st
    else
      var chunks := ChunkColumn(kept);
      AddEffect(st, embed(chunks), chunks, PathColumn(kept), MetadataColumn(kept), RejectAt(fault))
  }

  /** Whether `index_documents(documents)` raises: only when some chunk
      survives, from the embedder or from a write call. */
  function IndexRaises(st: StoreState, embed: seq<string> -> seq<Vector>, documents: seq<Document>,
                       fault: Option<Fault>): bool
  {
    var kept := Kept(documents);
    kept != [] &&
    (fault == Some(EmbedRaises) ||
     var chunks := ChunkColumn(kept);
     AddRaises(st, embed(chunks), chunks, PathColumn(kept), MetadataColumn(kept), RejectAt(fault)))
  }

  /** How many surviving positions `add`'s `zip` visits. */
  function Visited(embed: seq<string> -> seq<Vector>, documents: seq<Document>): nat {
    var kept := Kept(documents);
    var chunks := ChunkColumn(kept);
    ZipLength(embed(chunks), chunks, PathColumn(kept), MetadataColumn(kept))
  }

  /** `RAGPipeline.index_documents`: the three lists of the surviving chunks,
      aligned; `add` (with the chunks embedded) only when one survives. */
  method IndexDocuments(store: Store, embed: seq<string> -> seq<Vector>, documents: seq<Document>,
                        fault: Option<Fault>) returns (raised: bool)
    requires store.Valid()
    modifies store
    ensures store.Valid()
    ensures StateOf(store) == IndexEffect(old(StateOf(store)), embed, documents, fault)
    ensures raised == IndexRaises(old(StateOf(store)), embed, documents, fault)
  {
    var allChunks: seq<string> := [];
    var allFilepaths: seq<string> := [];
    var allMetadatas: seq<Metadata> := [];
    for i := 0 to |documents|
      invariant var kept := Kept(documents[..i]);
        allChunks == ChunkColumn(kept) && allFilepaths == PathColumn(kept) && allMetadatas == MetadataColumn(kept)
      invariant unchanged(store)
    {
      assert documents[..i + 1][..i] == documents[..i];
      var d := documents[i];
      if IsBlank(d.text) {
        continue;
      }
      ColumnsSnoc(Kept(documents[..i]), d);
      allChunks := allChunks + [d.text];
      allFilepaths := allFilepaths + [d.filePath];
      allMetadatas := allMetadatas + [MetadataOrEmpty(d.metadata)];
    }
    assert documents[..|documents|] == documents;
    raised := false;
    if |allChunks| > 0 {
      if fault == Some(EmbedRaises) {
        return true;
      }
      var embeddings := embed(allChunks);
      raised := store.Add(embeddings, allChunks, allFilepaths, Some(allMetadatas), RejectAt(fault));
    }
  }

  /** The columns of one more kept document. */
  lemma ColumnsSnoc(kept: seq<Document>, d: Document)
    ensures ChunkColumn(kept + [d]) == ChunkColumn(kept) + [d.text]
    ensures PathColumn(kept + [d]) == PathColumn(kept) + [d.filePath]
    ensures MetadataColumn(kept + [d]) == MetadataColumn(kept) + [MetadataOrEmpty(d.metadata)]
  {
  }

  /** Indexing the same documents again stores nothing new and makes no
      write call, once a first call got past the embedder: every id the
      first call visited is known to the second, whether or not its writes
      went through. */
  lemma IndexTwiceWritesNothing(st: StoreState, embed: seq<string> -> seq<Vector>, documents: seq<Document>,
                                first: Option<Fault>, again: Option<Fault>)
    requires first != Some(EmbedRaises)
    ensures var once := IndexEffect(st, embed, documents, first);
      IndexEffect(once, embed, documents, again) == once &&
      (again != Some(EmbedRaises) ==> !IndexRaises(once, embed, documents, again))
  {
    var kept := Kept(documents);
    if kept != [] {
      var chunks, paths, metas := ChunkColumn(kept), PathColumn(kept), MetadataColumn(kept);
      var embeddings := embed(chunks);
      var n := ZipLength(embeddings, chunks, paths, metas);
      var pids, stored := PositionIds(paths), StoredMetadatas(metas, paths);
      AddTwiceWritesNothing(st.ids, chunks, paths, metas, n);
      var once := IndexEffect(st, embed, documents, first);
      assert once.ids == st.ids + EntryIds(AddEntries(st, embeddings, chunks, paths, metas));
      assert AddEntries(once, embeddings, chunks, paths, metas) == [];
      assert EntryIds([]) == {};
      assert AddedRecords([], embeddings) == [];
      assert AddCalls(once, embeddings, chunks, paths, metas) == [];
      assert once.collection + Flatten([]) == once.collection;
      assert once.addCalls + [] == once.addCalls;
    }
  }

  /** When the first write call of a batch raises, nothing of the batch is
      stored, yet its new ids are recorded as the successful call records
      them. So a store whose id set mirrored its collection no longer does
      whenever the batch had something to store, and by
      `IndexTwiceWritesNothing` a retry of the batch stores none of it. */
  lemma RejectedWriteKeepsIds(st: StoreState, embed: seq<string> -> seq<Vector>, documents: seq<Document>)
    requires st.ids == RecordIds(st.collection)
    ensures var failed := IndexEffect(st, embed, documents, Some(WriteRaises(0)));
      var ok := IndexEffect(st, embed, documents, None);
      failed.collection == st.collection && failed.addCalls == st.addCalls && failed.ids == ok.ids &&
      (ok.collection != st.collection ==> failed.ids != RecordIds(failed.collection))
  {
    var kept := Kept(documents);
    if kept != [] {
      var chunks, paths, metas := ChunkColumn(kept), PathColumn(kept), MetadataColumn(kept);
      var embeddings := embed(chunks);
      var es := AddEntries(st, embeddings, chunks, paths, metas);
      var records := AddedRecords(es, embeddings);
      var calls := AddCalls(st, embeddings, chunks, paths, metas);
      assert Flatten(calls[..0]) == [];
      assert st.collection + [] == st.collection && st.addCalls + [] == st.addCalls;
      var ok := IndexEffect(st, embed, documents, None);
      if ok.collection != st.collection {
        SentIdsAreNew(records, |calls|);
        assert records != [];
        AddedIdsAreRecordIds(es, embeddings);
        assert records[0].id in EntryIds(es);
        NewIdsUnknown(st, embeddings, chunks, paths, metas);
      }
    }
  }

  /** A new entry's id was not known. */
  lemma NewIdsUnknown(st: StoreState, embeddings: seq<Vector>, chunks: seq<string>, paths: seq<string>,
                      metas: seq<Metadata>)
    ensures EntryIds(AddEntries(st, embeddings, chunks, paths, metas)) !! st.ids
  {
    var n := ZipLength(embeddings, chunks, paths, metas);
    EntryIdsSpec(st.ids, chunks, paths, metas, n);
  }

  /** A call that does not raise keeps the id set mirroring the collection. */
  lemma MirrorKept(st: StoreState, embed: seq<string> -> seq<Vector>, documents: seq<Document>,
                   fault: Option<Fault>)
    requires st.ids == RecordIds(st.collection)
    requires !IndexRaises(st, embed, documents, fault)
    ensures var after := IndexEffect(st, embed, documents, fault);
      after.ids == RecordIds(after.collection)
  {
    var kept := Kept(documents);
    if kept != [] && fault != Some(EmbedRaises) {
      var chunks, paths, metas := ChunkColumn(kept), PathColumn(kept), MetadataColumn(kept);
      var embeddings := embed(chunks);
      var es := AddEntries(st, embeddings, chunks, paths, metas);
      var records := AddedRecords(es, embeddings);
      var calls := AddCalls(st, embeddings, chunks, paths, metas);
      SentIdsAreNew(records, |calls|);
      RecordIdsAppend(st.collection, records);
      AddedIdsAreRecordIds(es, embeddings);
    }
  }

  /** Every position `add` visits has its id in the id set afterwards, unless
      the embedder raised: known before, or recorded by the first loop. */
  lemma KnownAfterIndex(st: StoreState, embed: seq<string> -> seq<Vector>, documents: seq<Document>,
                        fault: Option<Fault>)
    requires fault != Some(EmbedRaises)
    ensures var after := IndexEffect(st, embed, documents, fault);
      forall p :: 0 <= p < Visited(embed, documents) ==> MakeId(Kept(documents)[p].filePath, p) in after.ids
  {
    var kept := Kept(documents);
    var chunks, paths, metas := ChunkColumn(kept), PathColumn(kept), MetadataColumn(kept);
    var embeddings := embed(chunks);
    var n := ZipLength(embeddings, chunks, paths, metas);
    EntryIdsSpec(st.ids, chunks, paths, metas, n);
    forall p | 0 <= p < n
      ensures MakeId(kept[p].filePath, p) in IndexEffect(st, embed, documents, fault).ids
    {
      assert paths[p] == kept[p].filePath;
    }
  }

  /** Indexing never forgets an id. */
  lemma IdsOnlyGrow(st: StoreState, embed: seq<string> -> seq<Vector>, documents: seq<Document>,
                    fault: Option<Fault>)
    ensures st.ids <= IndexEffect(st, embed, documents, fault).ids
  {
  }

  // ------------------------------------------------------------------ query

  /** What `query` returns: the answer, with the sources when asked for. */
  datatype Answer = Answer(text: string) | AnswerWithSources(text: string, sources: seq<string>)

  /** `meta.get('source', 'unknown')` */
  function SourceOf(s: Scored): string {
    if "source" in s.metadata then s.metadata["source"] else "unknown"
  }

  /** `reranked_sources`: one source per reranked passage, in rerank order. */
  function Sources(ranked: seq<Scored>): (r: seq<string>)
    ensures |r| == |ranked|
  {
    seq(|ranked|, k requires 0 <= k < |ranked| => SourceOf(ranked[k]))
  }

  /** One passage of the context: prefixed by its heading when it has one. */
  function Section(s: Scored): string {
    var h := Heading(s.metadata);
    if h != "" then "[Section: " + h + "] " + s.text else s.text
  }

  function Sections(ranked: seq<Scored>): (r: seq<string>)
    ensures |r| == |ranked|
  {
    seq(|ranked|, k requires 0 <= k < |ranked| => Section(ranked[k]))
  }

  /** `context`: the sections joined by blank lines, in rerank order. */
  function Context(ranked: seq<Scored>): string {
    Join("\n\n", Sections(ranked))
  }

  /** `f"Q: {item[0]}\nA: {item[1]}"` */
  function TurnEntry(item: HistoryItem): (s: string)
    requires IsTurn(item)
    ensures s != ""
  {
    "Q: " + item.fields[0] + "\nA: " + item.fields[1]
  }

  function TurnEntries(turns: seq<HistoryItem>): (r: seq<string>)
    requires forall k :: 0 <= k < |turns| ==> IsTurn(turns[k])
    ensures |r| == |turns|
  {
    seq(|turns|, k requires 0 <= k < |turns| => TurnEntry(turns[k]))
  }

  /** `conversation_history`: the turns among the last `history_turns`
      entries, one line pair each. */
  function ConversationHistory(history: seq<HistoryItem>, historyTurns: int): string {
    Join("\n", TurnEntries(Turns(Last(history, historyTurns))))
  }

  /** `memory_block` */
  function MemoryBlock(history: seq<HistoryItem>, historyTurns: int): string {
    var c := ConversationHistory(history, historyTurns);
    if c != "" then "Previous Conversation:\n" + c + "\n\n" else ""
  }

  /** The fixed instructions at the head of the prompt. */
  const Preamble: string :=
    "You are a helpful expert assistant. Carefully read the previous conversation and the context below. "
    + "Answer the user's latest question by linking it to any relevant prior topics or examples. "
    + "Use ONLY the information in the context for facts, but you may refer to previous Q&As to maintain coherence or connect ideas. "
    + "If the context contains multiple relevant methods or ideas, name and compare them directly, with examples if possible. "
    + "If the answer cannot be found in the context, reply with 'Not enough information in the context.'\n\n"

  /** `prompt` */
  function Prompt(userQuery: string, memoryBlock: string, context: string): string {
    Preamble + memoryBlock + "Context:\n" + context + "\n\nQuestion: " + userQuery + "\nDetailed Answer:"
  }

  /** The candidates: `hybrid_search` over both result lists, or `search`
      over the dense one. */
  function Retrieved(dense: QueryResult, sparse: QueryResult, topK: int, useHybrid: bool): seq<Passage> {
    if useHybrid then HybridMerge(Pairs(dense) + Pairs(sparse), topK) else Pairs(dense)
  }

  /** `history if history is not None else []` */
  function HistoryOrEmpty(history: Option<seq<HistoryItem>>): seq<HistoryItem> {
    if history.Some? then history.value else []
  }

  /** `RAGPipeline.query`. `dense` and `sparse` are what the collection
      returns for the embedded query and for the query text. The reranker
      sees the history-enhanced query; the prompt quotes the raw one. */
  method Query(store: Store, userQuery: string, topK: int, finalK: int, returnSources: bool,
               useHybrid: bool, history: Option<seq<HistoryItem>>, historyTurns: int,
               dense: QueryResult, sparse: QueryResult,
               predict: seq<(string, string)> -> seq<real>, generate: string -> string)
    returns (answer: Answer)
    requires forall ps :: |predict(ps)| == |ps|
    ensures var h := HistoryOrEmpty(history);
      var candidates := Retrieved(dense, sparse, topK, useHybrid);
      var ranked := RerankResult(EnhancedQuery(userQuery, h, historyTurns), candidates, predict, finalK, true);
      var text := generate(Prompt(userQuery, MemoryBlock(h, historyTurns), Context(ranked)));
      answer == if returnSources then AnswerWithSources(text, Sources(ranked)) else Answer(text)
  {
    var h := HistoryOrEmpty(history);
    var retrieved;
    if useHybrid {
      retrieved := store.HybridSearch(dense, sparse, topK);
    } else {
      retrieved := store.Search(dense);
      assert retrieved == Pairs(dense);
    }
    var historyEnhancedQuery := BuildHistoryEnhancedQuery(userQuery, h, historyTurns);
    var reranked := Rerank(historyEnhancedQuery, retrieved, predict, finalK, true);
    var context := Context(reranked);
    var memoryBlock := MemoryBlock(h, historyTurns);
    var prompt := Prompt(userQuery, memoryBlock, context);
    var text := generate(prompt);
    if returnSources {
      answer := AnswerWithSources(text, Sources(reranked));
    } else {
      answer := Answer(text);
    }
  }

  /** A list holds a turn exactly when its turns are not empty. */
  lemma {:induction false} TurnsSpec(items: seq<HistoryItem>)
    ensures Turns(items) == [] <==> NoTurn(items)
    decreases |items|
  {
    if |items| > 0 {
      var init := items[..|items| - 1];
      TurnsSpec(init);
      if !IsTurn(items[|items| - 1]) {
        assert NoTurn(init) ==> NoTurn(items) by {
          forall k | 0 <= k < |items| && NoTurn(init) ensures !IsTurn(items[k]) {
            if k < |init| { assert items[k] == init[k]; }
          }
        }
      }
    }
  }

  /** The memory block and the enhanced query read the same window: the block
      is empty exactly when the query comes back unchanged, that is when no
      consulted entry is a turn; otherwise it frames the turns with a header
      and a blank line. */
  lemma MemoryBlockSpec(query: string, history: seq<HistoryItem>, historyTurns: int)
    ensures var window := Last(history, historyTurns);
      (MemoryBlock(history, historyTurns) == "" <==> NoTurn(window)) &&
      (MemoryBlock(history, historyTurns) == "" <==> EnhancedQuery(query, history, historyTurns) == query) &&
      (!NoTurn(window) ==>
         (MemoryBlock(history, historyTurns) ==
          "Previous Conversation:\n" + Join("\n", TurnEntries(Turns(window))) + "\n\n"))
  {
    var window := Last(history, historyTurns);
    var turns := Turns(window);
    TurnsSpec(window);
    EnhancedQuerySpec(query, history, historyTurns);
    if !NoTurn(window) {
      JoinNonEmpty("\n", TurnEntries(turns));
    }
  }

  /** The context lists the passages in rerank order: the first passage's
      section, a blank line, then the context of the rest. */
  lemma ContextSpec(first: Scored, rest: seq<Scored>)
    ensures Context([]) == ""
    ensures Context([first]) == Section(first)
    ensures |rest| >= 1 ==> Context([first] + rest) == Section(first) + "\n\n" + Context(rest)
    ensures Heading(first.metadata) != "" ==> Section(first) == "[Section: " + Heading(first.metadata) + "] " + first.text
    ensures Heading(first.metadata) == "" ==> Section(first) == first.text
  {
    if |rest| >= 1 {
      assert Sections([first] + rest) == [Section(first)] + Sections(rest);
      JoinCons("\n\n", Section(first), Sections(rest));
    }
  }

  /** Source `k` is the `source` metadata of passage `k`, or "unknown". */
  lemma SourcesSpec(ranked: seq<Scored>)
    ensures forall k :: 0 <= k < |ranked| ==>
      ("source" in ranked[k].metadata ==> Sources(ranked)[k] == ranked[k].metadata["source"]) &&
      ("source" !in ranked[k].metadata ==> Sources(ranked)[k] == "unknown")
  {
  }
}
