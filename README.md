# Invenere RAG core in Dafny

A model of the deterministic core of the Invenere retrieval-augmented
question-answering tool, together with proofs about that model:

- **the chunker** (`robust_chunker`, `chunk_text`). It cuts a document into
  heading sections. When there are fewer than two heading matches, it packs
  sentences greedily instead. When that yields nothing, it cuts fixed
  character windows.
- **the vector store's bookkeeping**. Metadata is sanitised. Record ids are
  built as `f"{filepath}_{idx}"`. The in-memory id set keeps `add` from
  writing an id twice. Writes go out in batches of 5000. The store pairs
  query result lists and runs the dense-first, deduplicating merge of
  `hybrid_search`.
- **the reranker**. It scores each (query, passage) pair, adds a fixed heading
  boost, runs a stable descending sort and keeps the first `top_n`.
- **the pipeline** (`rag_pipeline.py`):
  - the history-enhanced query used for reranking;
  - the empty-chunk filter in front of `add`;
  - what `query` builds from the reranked passages: the context, the
    conversation memory block, the prompt and the source list.
- **the batch-indexing driver** (`index_documents.py`). It cuts the files into
  batches of 200 and chunks and flattens each batch. A bad item, an empty
  batch or a failing batch is skipped, and the later batches still run.
  Which foreign call raises is an input: the embedder, or one of the
  store's `collection.add` calls.
- **the command-line helpers** (`query.py`):
  - vague-term detection;
  - entity-aware query rewriting;
  - the bounded conversation history, which keeps the last 10 turns once more
    than 20 have been recorded.

Module by file:

| file | module | contents |
|---|---|---|
| `pystr.dfy` | `PyStr` | `str.isspace`, `strip`, ASCII `lower`, `split`, `in`, `join`, `str(int)`, `splitlines` |
| `pyseq.dfy` | `PySeq` | Python slices, `Option`, fixed-size batching (`Partition`), flattening |
| `chunker.dfy` | `Chunker` | `chunker.py` |
| `vector_store.dfy` | `VectorStore` | `vector_store.py`; `Store` is the class with the id set and the collection |
| `reranker.dfy` | `Reranker` | `reranker.py`; the boost loop works in place on an `array<real>` |
| `rag_pipeline.dfy` | `RagPipeline` | `rag_pipeline.py` |
| `index_documents.dfy` | `IndexDriver` | `index_documents.py` |
| `query_cli.dfy` | `QueryCli` | the helpers and the history update of `query.py`; `Conversation` is the class holding `history` and `summary` |

Each loop of the source is a method with a `while` or `for` loop. It is
proved equal to a specification function, and the properties the source
promises are proved as lemmas about that function. The external
collaborators are parameters or inputs:

- the embedder, the cross-encoder's `predict`, the language model chains and
  `summarize_history` are function parameters;
- the heading-regex matches, the output of `sent_tokenize` and the result
  lists of the Chroma queries are inputs.

Behaviours of the code that a reader might not expect. The model follows
the code:

- **Sentence overlap.** The comment at `chunker.py:62` says the next chunk
  backtracks by `overlap // 20` sentences. The code computes `overlap_idx`
  but never uses it (`chunker.py:63`), so sentence chunks tile the sentences
  with no overlap (`Chunker.SentenceTiling`).
- **Whitespace-only text.** When no sentence is found, the window tier
  (`chunker.py:78-93`) cuts such a text into chunks whose stripped text is
  `""` (`Chunker.WindowTier`: no chunks only for empty text). Both callers
  drop blank input before it is indexed.
- **Heading boost by substring.** The boost (`reranker.py:28-31`) asks whether
  a query word occurs in the lowercased heading. The query `"pricing"` gives
  no boost to a chunk headed `"Section 2"`, even when that section is about
  pricing (`Reranker.PricingExampleGetsNoBoost`). It does boost
  `"Pricing Details"` (`Reranker.MatchingHeadingGetsBoost`).
- **`top_k` of 0 or less.** Because the loop of `hybrid_search` tests
  `len(merged) >= top_k` after appending (`vector_store.py:72-77`), a `top_k`
  of 0 or less still returns the first passage (`VectorStore.Cap`).
- **Vague terms match as substrings**, not whole words (`query.py:70-71`):
  `"mathematics"` needs entities because it contains `"them"`
  (`QueryCli.MathematicsIsVague`).

A behaviour of `add` as written: `embeddings[start:end]` slices the
unfiltered embedding list with positions of the filtered lists. So once a
position is skipped because its id is already stored, each later record is
stored with an earlier position's embedding (`VectorStore.EmbeddingShiftAfterSkip`).
`Store.Add` models this as written.

Another behaviour of `add` as written: the first loop puts every new id into
`self.ids` (`vector_store.py:36`) before any `collection.add` call
(`vector_store.py:45`). When a write call raises, the batch loop stops, and
the id set then holds ids whose records were never stored. So the id set no
longer mirrors the collection (`RagPipeline.RejectedWriteKeepsIds`). A retry
of the same documents in the same process then finds every id known and
stores nothing (`RagPipeline.IndexTwiceWritesNothing`). `Store.Valid` is
therefore only "every stored id is in the id set". The mirror holds while no
call raises (`RagPipeline.MirrorKept`, `IndexDriver.EmbedFailuresKeepMirror`).

## Model

| member | source | states |
|---|---|---|
| Chunker.RobustChunker | Invenere_Rag/rag_engine/chunker.py:8-93 | The chunks built by the three tier loops are the heading chunks when there are two or more heading matches; otherwise the sentence chunks when the tokenizer gave some; otherwise the character windows (`RobustChunks`). |
| Chunker.HeadingSections | Invenere_Rag/rag_engine/chunker.py:26-44 | The heading loop yields exactly the heading-section chunks. |
| Chunker.HeadingTier | Invenere_Rag/rag_engine/chunker.py:26-44 | With two or more matches there is one chunk per match. Chunk `i` spans from match `i` to the next match, or to the end of the text. Its text is that span stripped. Its heading is the first line of that text, and the heading is empty exactly when the text is. |
| Chunker.HeadingIsFirstLine | Invenere_Rag/rag_engine/chunker.py:33-34 | For a stripped text, the first non-blank line is the text's first line; it is "" only for "". |
| Chunker.HeadingEnd | Invenere_Rag/rag_engine/chunker.py:30 | A section ends at or after its own start and within the text. |
| Chunker.PackSentences | Invenere_Rag/rag_engine/chunker.py:52-72 | The nested sentence loops yield exactly `SentenceChunks`. |
| Chunker.NextSentenceChunk | Invenere_Rag/rag_engine/chunker.py:55-72 | One pass of the outer loop emits the first chunk from sentence `from` and moves strictly forward. |
| Chunker.GrowChunk | Invenere_Rag/rag_engine/chunker.py:56-61 | The inner loop stops at the greedy end, and the chunk is the space-joined sentences up to it. |
| Chunker.GreedyEnd | Invenere_Rag/rag_engine/chunker.py:59 | Every sentence taken passed the length test `len(chunk) + len(next) < max_length`. The first sentence not taken, if any, failed it. |
| Chunker.SentenceTiling | Invenere_Rag/rag_engine/chunker.py:54-72 | The sentence chunks tile the sentences in order with no overlap. The first starts at sentence 0, each next one starts right after the previous one ends, and the last ends at the last sentence. |
| Chunker.SentencePacking | Invenere_Rag/rag_engine/chunker.py:56-65 | Every sentence chunk follows the greedy rule. Its text is its sentences joined by spaces and stripped, each added sentence passed the length test, and the sentence after it failed the test. |
| Chunker.MultiSentenceChunkFits | Invenere_Rag/rag_engine/chunker.py:59-60 | A sentence chunk with two or more sentences is at most `max_length` characters long. |
| Chunker.LongSentenceIsKept | Invenere_Rag/rag_engine/chunker.py:56-57 | A single sentence longer than `max_length` is kept whole as its own chunk. |
| Chunker.SentenceTier | Invenere_Rag/rag_engine/chunker.py:46-74 | With fewer than two heading matches and at least one sentence, the result is the sentence chunks. There is at least one, and all are of the sentence kind. |
| Chunker.SlideWindows | Invenere_Rag/rag_engine/chunker.py:79-93 | The window loop yields exactly `WindowChunks` with step `max_length - overlap`. |
| Chunker.CutWindow | Invenere_Rag/rag_engine/chunker.py:82-91 | One window is `text[i:i + max_length]` stripped, spanning `i` to `min(i + max_length, n)`. |
| Chunker.WindowStarts | Invenere_Rag/rag_engine/chunker.py:79-92 | Window `k` starts at `k * step`. There are no windows exactly when the text is empty. The last window starts before the end, and one more step would reach the end. |
| Chunker.WindowCoverage | Invenere_Rag/rag_engine/chunker.py:79-92 | Every character position `p` lies inside window `p / step`, and no window spans more than `max_length` characters. |
| Chunker.StartCovering | Invenere_Rag/rag_engine/chunker.py:81-92 | The window starting at `(p / step) * step` exists and covers the next `step` positions from it. |
| Chunker.WindowTier | Invenere_Rag/rag_engine/chunker.py:78-93 | With fewer than two matches and no sentence, the result is the windows. It is empty exactly for empty text. Window `k` spans `k * step` to `min(k * step + max_length, len(text))`. |
| Chunker.NonEmptyTextHasChunks | Invenere_Rag/rag_engine/chunker.py:8-93 | Every non-empty text yields at least one chunk, whichever tier runs. |
| Chunker.ChunkText | Invenere_Rag/rag_engine/chunker.py:96-102 | `chunk_text` returns the texts of the chunks for `max_length` 350 and `overlap` 50, same count, same order. |
| VectorStore.Sanitize | Invenere_Rag/rag_engine/vector_store.py:14-18 | The same keys are kept, `None` becomes "", a string stays as it is, and an integer becomes its decimal text. |
| VectorStore.SanitizeIdempotent | Invenere_Rag/rag_engine/vector_store.py:14-18 | Sanitising already sanitised metadata changes nothing. |
| VectorStore.WithSource | Invenere_Rag/rag_engine/vector_store.py:32-33 | The metadata gains the key `"source"` set to the file path, and every other key keeps its value. |
| VectorStore.MetadataList | Invenere_Rag/rag_engine/vector_store.py:24-25 | With no metadatas there is one empty dict per chunk; otherwise the list given is used. |
| VectorStore.ZipLength | Invenere_Rag/rag_engine/vector_store.py:26 | `zip` visits as many positions as the shortest of the four lists. |
| VectorStore.MakeIdInjective | Invenere_Rag/rag_engine/vector_store.py:27 | Equal ids `f"{filepath}_{idx}"` have the same file path and the same index, because the index's digits hold no `_`. |
| VectorStore.PositionIdsDistinct | Invenere_Rag/rag_engine/vector_store.py:26-27 | No two positions of one call share an id, whatever the file paths. |
| VectorStore.EntriesSpec | Invenere_Rag/rag_engine/vector_store.py:26-36 | A position is written exactly when its id was not already known. Each written entry holds its own position's chunk and sanitised metadata with source. Entries are in input order. |
| VectorStore.EntryIdsSpec | Invenere_Rag/rag_engine/vector_store.py:27-36 | The ids a call adds are exactly the ids of its positions that were not known before, in both directions. |
| VectorStore.AddTwiceWritesNothing | Invenere_Rag/rag_engine/vector_store.py:20-50 | Repeating an `add` call with the same arguments writes no record and makes no `collection.add` call. |
| VectorStore.AddedRecords | Invenere_Rag/rag_engine/vector_store.py:39-50 | Record `j` carries the id, document and metadata of written entry `j`, and embedding `j` of the unfiltered input. |
| VectorStore.EmbeddingShiftAfterSkip | Invenere_Rag/rag_engine/vector_store.py:28-41 | As written, after a skipped id the next record gets the embedding of the skipped position. |
| VectorStore.Store.constructor | Invenere_Rag/rag_engine/vector_store.py:6-12 | The store opens an existing collection, and its id set is that collection's ids. |
| VectorStore.Store.Add | Invenere_Rag/rag_engine/vector_store.py:20-50 | The id set grows by all the new ids. The records are cut into batches of 5000. The collection and the write log grow by the batches sent before the write call that raises, or by all of them. `raised` says whether a call raised. Every stored id stays in the id set. |
| VectorStore.Store.CollectNew | Invenere_Rag/rag_engine/vector_store.py:26-36 | The first loop leaves the three lists as the columns of the entries (ids, documents, metadatas), adds their ids to the id set, and leaves the collection untouched. |
| VectorStore.Store.VisitPosition | Invenere_Rag/rag_engine/vector_store.py:27-36 | One pass skips a known id, or records the position and adds its id, and keeps the loop state. |
| VectorStore.Store.SendBatches | Invenere_Rag/rag_engine/vector_store.py:37-50 | The batch loop appends the records in order, one `collection.add` per consecutive slice of 5000. It stops at the call that raises and reports it. It does not touch the id set. |
| VectorStore.Accepted | Invenere_Rag/rag_engine/vector_store.py:39-50 | Fewer calls than planned go through exactly when the rejected call number is one that the loop makes. |
| VectorStore.SentIdsAreNew | Invenere_Rag/rag_engine/vector_store.py:39-50 | The batches sent before a failure are a prefix of the records, so their ids are among the new ids. When every batch went through, they are all the records. |
| VectorStore.Store.Search | Invenere_Rag/rag_engine/vector_store.py:52-57 | `search` pairs document `j` with metadata `j`, for as many as the shorter list holds. |
| VectorStore.Store.HybridSearch | Invenere_Rag/rag_engine/vector_store.py:59-78 | `hybrid_search` returns the merge of the dense pairs followed by the lexical pairs. |
| VectorStore.MergeLoop | Invenere_Rag/rag_engine/vector_store.py:70-78 | The dedupe loop with its early `break` returns `HybridMerge`. |
| VectorStore.FirstOccurrencesSpec | Invenere_Rag/rag_engine/vector_store.py:72-75 | `FirstOccurrences`, the deduplication, keeps each text once and loses none. |
| VectorStore.FirstPositionsSpec | Invenere_Rag/rag_engine/vector_store.py:70-75 | Kept passage `j` of `FirstOccurrences` is the input passage at position `FirstPositions[j]`, and no earlier input passage has its text. These positions strictly increase, so input order is kept. Every position whose text is new is kept. |
| VectorStore.HybridMergeSpec | Invenere_Rag/rag_engine/vector_store.py:70-78 | The result holds `min(max(top_k, 1), #distinct texts)` passages, no two with the same text. It is a prefix of the first occurrences of each text. |
| VectorStore.HybridMergeDenseFirst | Invenere_Rag/rag_engine/vector_store.py:72 | The deduplicated dense results come first. The result either starts with all of them or is a prefix of them. |
| Reranker.QueryPairs | Invenere_Rag/rag_engine/reranker.py:23 | There is one `(query, text)` pair per passage, in passage order. |
| Reranker.Keywords | Invenere_Rag/rag_engine/reranker.py:28 | Every keyword is a non-empty run of non-space characters. |
| Reranker.FinalScoresSpec | Invenere_Rag/rag_engine/reranker.py:27-32 | A passage gains exactly 0.3 if and only if the boost is on and its heading is non-empty and contains a query keyword. Otherwise its score is unchanged. |
| Reranker.ApplyHeadingBoost | Invenere_Rag/rag_engine/reranker.py:29-32 | The in-place loop leaves the score array equal to the boosted scores. |
| Reranker.SortOrderSpec | Invenere_Rag/rag_engine/reranker.py:35-39 | The sort order is a permutation of the positions, by score highest first, ties in input order. |
| Reranker.RankedSpec | Invenere_Rag/rag_engine/reranker.py:35-39 | The sorted list is a permutation (as a multiset) of the `(text, metadata, score)` entries, and its scores do not increase. |
| Reranker.RerankResultSpec | Invenere_Rag/rag_engine/reranker.py:35-40 | For `top_n >= 0` the result holds `min(top_n, len(passages))` entries. For a negative `top_n` it holds `max(0, len(passages) + top_n)`, as Python's `[:top_n]` does. Each is an unchanged input passage with its final score, in stable descending order. |
| Reranker.Rerank | Invenere_Rag/rag_engine/reranker.py:10-40 | `rerank` (score, boost in place, sort, cut) returns `RerankResult`. |
| Reranker.HeadingBreaksTies | Invenere_Rag/rag_engine/reranker.py:27-39 | Of two passages with equal model scores, the one whose heading matches is ranked above the one whose heading does not. |
| Reranker.PricingExampleGetsNoBoost | Invenere_Rag/rag_engine/reranker.py:28-31 | The query "pricing" gives no boost to the heading "Section 2". |
| Reranker.MatchingHeadingGetsBoost | Invenere_Rag/rag_engine/reranker.py:28-31 | The query "pricing" does boost the heading "Pricing Details". |
| RagPipeline.BuildHistoryEnhancedQuery | Invenere_Rag/rag_engine/rag_pipeline.py:7-20 | The loop over `history[-history_turns:]` returns `EnhancedQuery`. |
| RagPipeline.RecentHistorySpec | Invenere_Rag/rag_engine/rag_pipeline.py:13-16 | `recent_history` is empty exactly when no entry is a turn. It is the `Q:/A:` lines of exactly the turns, in order. |
| RagPipeline.EnhancedQuerySpec | Invenere_Rag/rag_engine/rag_pipeline.py:7-20 | The query comes back unchanged exactly when no entry in the window is a turn. Otherwise it is the "Conversation so far" block of the window's turns followed by the question. |
| RagPipeline.ZeroTurnsUseWholeHistory | Invenere_Rag/rag_engine/rag_pipeline.py:14 | `history_turns = 0` reads the whole history (`history[-0:]`), in the enhanced query and in the memory block. |
| RagPipeline.MalformedEntriesIgnored | Invenere_Rag/rag_engine/rag_pipeline.py:15-16 | Inserting a malformed entry anywhere leaves `recent_history` unchanged. |
| RagPipeline.CachingExample | Invenere_Rag/rag_engine/rag_pipeline.py:7-20 | One earlier turn gives the exact text with the earlier question, its answer and the current question. |
| RagPipeline.KeptSpec | Invenere_Rag/rag_engine/rag_pipeline.py:37-44 | The filter keeps exactly the documents whose chunk text is not blank. |
| RagPipeline.KeptAppend | Invenere_Rag/rag_engine/rag_pipeline.py:37-44 | The filter works entry by entry: filtering two lists joined is joining their filtered lists. |
| RagPipeline.IndexDocuments | Invenere_Rag/rag_engine/rag_pipeline.py:29-55 | The store becomes `IndexEffect`. It is unchanged when nothing survives the filter or when the embedder raises. Otherwise it is `add` of the embedded surviving chunks, with their paths and metadatas (`{}` for none). `raised` is `IndexRaises`. |
| RagPipeline.IndexTwiceWritesNothing | Invenere_Rag/rag_engine/rag_pipeline.py:29-52 | Once a first call gets past the embedder, indexing the same documents again leaves the store as the first call left it. This holds even when the first call's writes raised. The second call raises only from its embedder. |
| RagPipeline.RejectedWriteKeepsIds | Invenere_Rag/rag_engine/vector_store.py:26-50 | When the first write call raises, the collection and the write log are unchanged. The id set is what a successful call leaves. The id set stops mirroring the collection whenever the call would have stored a record. |
| RagPipeline.MirrorKept | Invenere_Rag/rag_engine/vector_store.py:26-50 | A call that does not raise keeps the id set equal to the ids of the collection. |
| RagPipeline.KnownAfterIndex | Invenere_Rag/rag_engine/vector_store.py:26-36 | Unless the embedder raised, every position that `add` visits has its id `f"{filepath}_{idx}"` in the id set afterwards. |
| RagPipeline.Sources | Invenere_Rag/rag_engine/rag_pipeline.py:93 | There is one source per reranked passage. |
| RagPipeline.SourcesSpec | Invenere_Rag/rag_engine/rag_pipeline.py:93 | Source `k` is passage `k`'s `source` metadata, or "unknown" when it has none. |
| RagPipeline.ContextSpec | Invenere_Rag/rag_engine/rag_pipeline.py:97-101 | `Context` joins the passages by blank lines in rerank order. A passage with a heading is prefixed by `[Section: heading]`. |
| RagPipeline.TurnsSpec | Invenere_Rag/rag_engine/rag_pipeline.py:106 | The list of turns is empty exactly when no entry is a turn. |
| RagPipeline.MemoryBlockSpec | Invenere_Rag/rag_engine/rag_pipeline.py:103-111 | The memory block is empty exactly when the enhanced query is the raw query, that is, when the window has no turn. Otherwise it is "Previous Conversation:" and the window's turns. |
| RagPipeline.Query | Invenere_Rag/rag_engine/rag_pipeline.py:57-133 | `query` reranks the hybrid (or dense) candidates against the history-enhanced query, with the boost on. It prompts the model with `Prompt`: the fixed instructions, the memory block, the context and the raw question (rag_pipeline.py:113-122). It returns the answer, with the sources when asked. |
| IndexDriver.BatchIndex | Invenere_Rag/index_documents.py:10-51 | The final store and the outcome list are `IndexRun`: the batches applied in order, each with its own fault, and one outcome per batch. Empty batches are skipped. |
| IndexDriver.OutcomesSpec | Invenere_Rag/index_documents.py:19-51 | Outcome `k` of the run is that of batch `k + 1` in the state the earlier batches left, and it does not change while later batches run. |
| IndexDriver.ProcessBatch | Invenere_Rag/index_documents.py:20-51 | One batch reports "no valid files" when it yields no entry, "failed" when its indexing raises, and otherwise the chunk count. The store changes by the batch's `IndexEffect`, also when it fails. |
| IndexDriver.CollectBatch | Invenere_Rag/index_documents.py:21-37 | The item loop builds three aligned lists whose zip is the entries of the batch's items, in order. |
| IndexDriver.AppendChunks | Invenere_Rag/index_documents.py:30-33 | The chunk loop appends one aligned entry per chunk. |
| IndexDriver.BatchesSpec | Invenere_Rag/index_documents.py:15 | The batches are non-empty consecutive slices of at most 200 files. Together they are the files in order, and there are `ceil(len / 200)` of them. |
| IndexDriver.ItemDocumentsSpec | Invenere_Rag/index_documents.py:26-37 | A malformed item or a blank text adds nothing. Any other file adds at least one entry, one per chunk, with its path, the chunk text and the chunk metadata. |
| IndexDriver.BatchDocumentsAppend | Invenere_Rag/index_documents.py:25-37 | The entries of a batch are the entries of its items, item after item. |
| IndexDriver.IdsGrow | Invenere_Rag/index_documents.py:19-51 | Over the run the id set only grows. |
| IndexDriver.BatchIdsKnown | Invenere_Rag/index_documents.py:19-51 | A raising batch does not stop the run. Unless batch `k`'s own embedder call raised, every position its `add` visits has its id in the final id set, whatever the other batches raise. |
| IndexDriver.EmbedFailuresKeepMirror | Invenere_Rag/index_documents.py:43-51 | When only embedder calls raise, a store whose id set mirrored its collection still does after every batch. |
| IndexDriver.BatchStored | Invenere_Rag/index_documents.py:19-51 | When only embedder calls raise, every position that a fault-free batch's `add` visits ends up stored in the final collection. |
| IndexDriver.MetaDict | Invenere_Rag/index_documents.py:33 | Every chunk's metadata dict has `chunk_type` and `heading`. |
| IndexDriver.Zip3 | Invenere_Rag/index_documents.py:46 | The zip has one entry per position of the three aligned lists. |
| QueryCli.AnyInSpec | Invenere_Rag/query.py:71 | `any(term in s ...)` holds exactly when some term occurs in `s`. |
| QueryCli.NeedsEntitySpec | Invenere_Rag/query.py:70-71 | `needs_entity` holds exactly when one of the six vague terms occurs in the lowercased query. |
| QueryCli.MathematicsIsVague | Invenere_Rag/query.py:70-71 | The test is on substrings: "mathematics" needs entities. |
| QueryCli.TurnTexts | Invenere_Rag/query.py:68 | There is one `Q:/A:` text per turn, in order. |
| QueryCli.RecentSpec | Invenere_Rag/query.py:65-68 | `recent` is empty exactly without history. With up to three turns it shows them all. With three or more, earlier turns do not change it. |
| QueryCli.LastAnswerSpec | Invenere_Rag/query.py:66-69 | `last_answer` is the response just recorded, and "" without history. |
| QueryCli.ExtractionOnlyWhenNeeded | Invenere_Rag/query.py:72-74 | The entity extractor is consulted only for a vague query with a last answer. Otherwise the entity list is "" and the rewrite cannot depend on it. |
| QueryCli.EnhanceQuerySpec | Invenere_Rag/query.py:76-82 | `EnhanceQueryWithEntities` returns the stripped rewrite when that is not blank, and the original query otherwise. A non-empty query never gives an empty result. |
| QueryCli.AfterTurnSpec | Invenere_Rag/query.py:123-128 | `AfterTurn` appends the new turn and keeps a suffix of the history. It trims only at exactly 20 turns, to 10, summarising the older 11. |
| QueryCli.Conversation.constructor | Invenere_Rag/query.py:52-54 | The conversation starts with an empty history and an empty summary. |
| QueryCli.Conversation.RecordTurn | Invenere_Rag/query.py:123-128 | The loop's update moves the state to `AfterTurn` and keeps the history at 20 turns or fewer. |
| QueryCli.SessionBounds | Invenere_Rag/query.py:94-128 | Over any session the history holds at most 20 turns, no more than were recorded, and at least `min(recorded, 10)`. |
| QueryCli.SessionSuffix | Invenere_Rag/query.py:94-128 | Over any session the history is the newest turns in order. It is all of them up to 20, and it always ends with the latest turn. |
| QueryCli.PairsAreTurns | Invenere_Rag/query.py:109-111 | The pipeline reads every recorded `(query, response)` pair as a valid turn. |

## Left out

- Document loading (`parser.py`), the embedder and the language-model calls (`embedder.py`, `llama_interface.py`) are not part of this model. The embedder, `predict`, `query_llama`, the LangChain chains and `summarize_history` are opaque function parameters.
- `app.py` and the front-end mock-up are not part of this model.
- The regular-expression search for headings and NLTK's `sent_tokenize` are not modelled. Their results are inputs: the match offsets, and the sentence list or `None` when the tokenizer raises.
- How Chroma ranks results for `collection.query` is not modelled (dense similarity, lexical match, `n_results`). Its result lists are inputs to `search`, `hybrid_search` and `query`.
- The persistent Chroma client, and creating or opening a collection by name, are not modelled. The collection is a sequence of records plus a log of `collection.add` calls.
- Scores are `real`. Floating-point rounding of the cross-encoder scores and of the `+ 0.3` boost is not modelled.
- Embeddings are sequences of reals. numpy's `.tolist()` is the identity here.
- `lower()` is modelled on ASCII letters only. Unicode case mapping is not modelled.
- All printing is left out: the progress and skip messages, the prompt dump, `print_metadata` and the history listing.
- The `input()` loop of `query.py` is left out: reading queries, the `EOFError` exit and the `exit` command. The model keeps the steps it drives: `EnhanceQueryWithEntities`, `RagPipeline.Query` and `Conversation.RecordTurn`.
- `summary` in `query.py` is written but never read. The model records it and nothing depends on it.
- Exceptions are modelled only by where they occur: the embedder, or `collection.add` call number `c` of one `add`. Which call raises is an input (`Fault`). Exception types and messages are not modelled. An item that raises inside the item loop of `index_documents.py` is the `Malformed` item. Other exceptions inside `add`, such as one from `str()` while sanitising, are not modelled.
- Chunker.RobustChunker: when `max_length <= overlap` and non-empty text reaches the window tier, the source loops forever. That case is excluded by the precondition `WindowTierTerminates` instead of being modelled as divergence.
- An embedder that returns fewer vectors than chunks is modelled as `zip` stopping at the shorter list.
- `search` receives the query embedding, but only uses it to ask Chroma. The model takes the result lists directly.
