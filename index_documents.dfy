/**
  `index_documents.py`: the batch-indexing driver. The loaded files are cut
  into batches of 200; each batch's files are chunked and flattened into
  three aligned lists, which go to `RAGPipeline.index_documents`. A bad item
  is skipped on its own, a batch without chunks is skipped, and a batch whose
  indexing raises is given up while the later batches still run.

  The loaded files are an input (the parser is not part of this model); for
  each file the heading matches and the sentence split the chunker would
  compute are part of the item. Which batches raise, and in which foreign
  call (the embedder or one of the store's write calls), is an input too.
 */
module IndexDriver {
  import opened PyStr
  import opened PySeq
  import opened Chunker
  import opened VectorStore
  import opened RagPipeline

  /** `BATCH_SIZE`: files per batch. */
  const FileBatchSize: nat := 200

  /** One loaded item: a file path and its text (with what the chunker's regex
      and sentence splitter yield for that text), or an item that `item[:2]`
      cannot unpack into a path and a text. */
  datatype DocItem =
    | FileText(filePath: string, text: string, headings: seq<nat>, sentences: Option<seq<string>>)
    | Malformed

  /** What the outer loop reports for one batch. */
  datatype BatchOutcome = Indexed(chunks: nat) | NoValidFiles | Failed

  /** The heading matches of a file are offsets into its text, in order. */
  predicate WellFormed(item: DocItem) {
    item.FileText? ==> ValidHeadings(item.text, item.headings)
  }

  /** A loaded item as the source can meet it. */
  type Item = item: DocItem | WellFormed(item) witness Malformed

  /** The metadata dict `robust_chunker` attaches to a chunk. */
  function MetaDict(m: ChunkMeta): (d: Metadata)
    ensures "chunk_type" in d && "heading" in d
  {
    match m
    case HeadingMeta(h, s, e) =>
      map["heading" := Str(h), "chunk_start" := Int(s), "chunk_end" := Int(e), "chunk_type" := Str("heading")]
    case SentenceMeta(a, b) =>
      map["heading" := NoneValue, "chunk_start_sentence" := Int(a), "chunk_end_sentence" := Int(b),
          "chunk_type" := Str("sentence")]
    case WindowMeta(s, e) =>
      map["heading" := NoneValue, "chunk_start" := Int(s), "chunk_end" := Int(e), "chunk_type" := Str("window")]
  }

  /** The `(file_path, chunk_text, metadata)` entries of a file's chunks. */
  function ChunkDocuments(path: string, cs: seq<Chunk>): (ds: seq<Document>)
    ensures |ds| == |cs|
  {
    seq(|cs|, k requires 0 <= k < |cs| => Document(path, cs[k].text, Some(MetaDict(cs[k].metadata))))
  }

  /** What one item adds to the batch lists: nothing for a malformed item or a
      blank text, otherwise one entry per chunk of the text. */
  function ItemDocuments(item: Item): seq<Document>
  {
    if item.Malformed? || IsBlank(item.text) then []
    else ChunkDocuments(item.filePath, RobustChunks(item.text, DefaultMaxLength, DefaultOverlap,
                                                    item.headings, item.sentences))
  }

  /** The entries of a batch, item after item. */
  function BatchDocuments(batch: seq<Item>): seq<Document> {
    FlatMap(batch, ItemDocuments)
  }

  /** `list(zip(all_filepaths, all_chunks, all_metadatas))` */
  function Zip3(paths: seq<string>, chunks: seq<string>, metas: seq<Metadata>): (ds: seq<Document>)
    requires |chunks| == |paths| && |metas| == |paths|
    ensures |ds| == |paths|
  {
    seq(|paths|, k requires 0 <= k < |paths| => Document(paths[k], chunks[k], Some(metas[k])))
  }

  /** The foreign call that raises while batch number `num` is indexed, if any. */
  function FaultOf(faults: map<nat, Fault>, num: nat): Option<Fault> {
    if num in faults then Some(faults[num]) else None
  }

  /** The outcome of batch number `num` (counting from 1), indexed in state `st`. */
  function Outcome(st: StoreState, embed: seq<string> -> seq<Vector>, batch: seq<Item>, num: nat,
                   faults: map<nat, Fault>): BatchOutcome
  {
    var ds := BatchDocuments(batch);
    if ds == [] then NoValidFiles
    else if IndexRaises(st, embed, ds, FaultOf(faults, num)) then Failed
    else Indexed(|ds|)
  }

  /** The state after batch number `num`. */
  function BatchEffect(st: StoreState, embed: seq<string> -> seq<Vector>, batch: seq<Item>, num: nat,
                       faults: map<nat, Fault>): StoreState
  {
    var ds := BatchDocuments(batch);
    if ds == [] then st else IndexEffect(st, embed, ds, FaultOf(faults, num))
  }

  /** The store and the reported outcomes after the first `n` batches. */
  datatype Run = Run(state: StoreState, outcomes: seq<BatchOutcome>)

  function IndexRun(st: StoreState, embed: seq<string> -> seq<Vector>, batches: seq<seq<Item>>,
                    faults: map<nat, Fault>, n: nat): (r: Run)
    requires n <= |batches|
    ensures |r.outcomes| == n
    decreases n
  {
    if n == 0 then Run(st, [])
    else
      var before := IndexRun(st, embed, batches, faults, n - 1);
      Run(BatchEffect(before.state, embed, batches[n - 1], n, faults),
          before.outcomes + [Outcome(before.state, embed, batches[n - 1], n, faults)])
  }

  /** The state after the first `n` batches. */
  function IndexedState(st: StoreState, embed: seq<string> -> seq<Vector>, batches: seq<seq<Item>>,
                        faults: map<nat, Fault>, n: nat): StoreState
    requires n <= |batches|
  {
    IndexRun(st, embed, batches, faults, n).state
  }

  /** `[docs[i:i+BATCH_SIZE] for i in range(0, total, BATCH_SIZE)]` */
  function Batches(docs: seq<Item>): seq<seq<Item>> {
    Partition(docs, FileBatchSize)
  }

  /** `batch_index`. */
  method BatchIndex(store: Store, embed: seq<string> -> seq<Vector>, docs: seq<Item>, faults: map<nat, Fault>)
    returns (outcomes: seq<BatchOutcome>)
    requires store.Valid()
    modifies store
    ensures store.Valid()
    ensures Run(StateOf(store), outcomes) == IndexRun(old(StateOf(store)), embed, Batches(docs), faults, |Batches(docs)|)
  {
    var batches := Batches(docs);
    ghost var st := StateOf(store);
    outcomes := [];
    for k := 0 to |batches|
      invariant store.Valid()
      invariant Run(StateOf(store), outcomes) == IndexRun(st, embed, batches, faults, k)
    {
      var outcome := ProcessBatch(store, embed, batches[k], k + 1, faults);
      outcomes := outcomes + [outcome];
    }
  }

  /** Outcome `k` is that of batch `k + 1` in the state the batches before it
      left, and it stays as reported while later batches run. */
  lemma OutcomesSpec(st: StoreState, embed: seq<string> -> seq<Vector>,
                     batches: seq<seq<Item>>, faults: map<nat, Fault>, k: nat, n: nat)
    requires k < n <= |batches|
    ensures IndexRun(st, embed, batches, faults, n).outcomes[k]
         == Outcome(IndexedState(st, embed, batches, faults, k), embed, batches[k], k + 1, faults)
  {
    OutcomeStays(st, embed, batches, faults, k, n);
  }

  lemma {:induction false} OutcomeStays(st: StoreState, embed: seq<string> -> seq<Vector>,
                                        batches: seq<seq<Item>>, faults: map<nat, Fault>, k: nat, n: nat)
    requires k < n <= |batches|
    ensures IndexRun(st, embed, batches, faults, n).outcomes[k] == IndexRun(st, embed, batches, faults, k + 1).outcomes[k]
    decreases n
  {
    if k < n - 1 {
      OutcomeStays(st, embed, batches, faults, k, n - 1);
      var before := IndexRun(st, embed, batches, faults, n - 1).outcomes;
      var after := IndexRun(st, embed, batches, faults, n).outcomes;
      assert after == before + [after[n - 1]];
      assert after[k] == before[k];
    }
  }

  /** One pass of the batch loop: collect the batch's lists; skip the batch
      when they are empty; otherwise index them, unless that call raises. */
  method ProcessBatch(store: Store, embed: seq<string> -> seq<Vector>, batch: seq<Item>, batchNum: nat,
                      faults: map<nat, Fault>)
    returns (outcome: BatchOutcome)
    requires store.Valid()
    modifies store
    ensures store.Valid()
    ensures outcome == Outcome(old(StateOf(store)), embed, batch, batchNum, faults)
    ensures StateOf(store) == BatchEffect(old(StateOf(store)), embed, batch, batchNum, faults)
  {
    var allChunks, allFilepaths, allMetadatas := CollectBatch(batch);
    if |allChunks| == 0 {
      return NoValidFiles;
    }
    var raised := IndexDocuments(store, embed, Zip3(allFilepaths, allChunks, allMetadatas),
                                 FaultOf(faults, batchNum));
    if raised {
      return Failed;
    }
    outcome := Indexed(|allChunks|);
  }

  /** The item loop of one batch: the three lists, aligned, zipping to the
      entries of the batch. */
  method CollectBatch(batch: seq<Item>)
    returns (allChunks: seq<string>, allFilepaths: seq<string>, allMetadatas: seq<Metadata>)
    ensures |allChunks| == |allFilepaths| == |allMetadatas|
    ensures Zip3(allFilepaths, allChunks, allMetadatas) == BatchDocuments(batch)
  {
    allChunks, allFilepaths, allMetadatas := [], [], [];
    for i := 0 to |batch|
      invariant |allChunks| == |allFilepaths| == |allMetadatas|
      invariant Zip3(allFilepaths, allChunks, allMetadatas) == BatchDocuments(batch[..i])
    {
      FlatMapSnoc(batch, i, ItemDocuments);
      var item := batch[i];
      if item.Malformed? {
        continue;
      }
      if !IsBlank(item.text) {
        var chunkDicts := RobustChunker(item.text, DefaultMaxLength, DefaultOverlap, item.headings, item.sentences);
        allChunks, allFilepaths, allMetadatas := AppendChunks(item.filePath, chunkDicts,
                                                              allChunks, allFilepaths, allMetadatas);
      }
    }
    assert batch[..|batch|] == batch;
  }

  /** The chunk loop of one file: one entry per chunk, appended to each list. */
  method AppendChunks(path: string, chunkDicts: seq<Chunk>,
                      allChunks: seq<string>, allFilepaths: seq<string>, allMetadatas: seq<Metadata>)
    returns (chunks': seq<string>, paths': seq<string>, metas': seq<Metadata>)
    requires |allChunks| == |allFilepaths| == |allMetadatas|
    ensures |chunks'| == |paths'| == |metas'|
    ensures Zip3(paths', chunks', metas') == Zip3(allFilepaths, allChunks, allMetadatas) + ChunkDocuments(path, chunkDicts)
  {
    chunks', paths', metas' := allChunks, allFilepaths, allMetadatas;
    ghost var before := Zip3(allFilepaths, allChunks, allMetadatas);
    for j := 0 to |chunkDicts|
      invariant |chunks'| == |paths'| == |metas'|
      invariant Zip3(paths', chunks', metas') == before + ChunkDocuments(path, chunkDicts[..j])
    {
      ghost var done := ChunkDocuments(path, chunkDicts[..j]);
      assert ChunkDocuments(path, chunkDicts[..j + 1]) == done + [ChunkDocuments(path, chunkDicts)[j]];
      var chunkDict := chunkDicts[j];
      chunks' := chunks' + [chunkDict.text];
      paths' := paths' + [path];
      metas' := metas' + [MetaDict(chunkDict.metadata)];
      assert Zip3(paths', chunks', metas') == before + done + [ChunkDocuments(path, chunkDicts)[j]];
    }
    assert chunkDicts[..|chunkDicts|] == chunkDicts;
  }

  // ------------------------------------------------------------------ properties

  /** The batches are consecutive slices of at most 200 files, none empty;
      together they are the loaded files, in order, and there are
      ceil(len(docs) / 200) of them. */
  lemma BatchesSpec(docs: seq<Item>)
    ensures var bs := Partition(docs, FileBatchSize);
      Flatten(bs) == docs && |bs| == (|docs| + FileBatchSize - 1) / FileBatchSize &&
      forall k :: 0 <= k < |bs| ==> 1 <= |bs[k]| <= FileBatchSize
  {
    var bs := Partition(docs, FileBatchSize);
    PartitionSpec(docs, FileBatchSize);
    if |bs| > 0 {
      OffsetIsProduct(|bs| - 1, FileBatchSize);
      OffsetIsProduct(|bs|, FileBatchSize);
    }
    forall k | 0 <= k < |bs| ensures 1 <= |bs[k]| <= FileBatchSize {
      assert IsBatch(docs, FileBatchSize, k, bs[k]);
    }
  }

  /** A malformed item or a blank text adds nothing; any other file adds one
      entry per chunk, in chunk order, at least one, each carrying the file's
      path, the chunk's text and the chunk's metadata. */
  lemma ItemDocumentsSpec(item: Item)
    ensures item.Malformed? || IsBlank(item.text) ==> ItemDocuments(item) == []
    ensures item.FileText? && !IsBlank(item.text) ==>
      var cs := RobustChunks(item.text, DefaultMaxLength, DefaultOverlap, item.headings, item.sentences);
      var ds := ItemDocuments(item);
      |ds| == |cs| >= 1 &&
      forall k :: 0 <= k < |ds| ==>
        ds[k].filePath == item.filePath && ds[k].text == cs[k].text && ds[k].metadata == Some(MetaDict(cs[k].metadata))
  {
    if item.FileText? && !IsBlank(item.text) {
      assert |item.text| > 0;
      NonEmptyTextHasChunks(item.text, DefaultMaxLength, DefaultOverlap, item.headings, item.sentences);
    }
  }

  /** The entries follow the items: those of a batch made of two parts are
      the first part's followed by the second's. */
  lemma BatchDocumentsAppend(a: seq<Item>, b: seq<Item>)
    ensures BatchDocuments(a + b) == BatchDocuments(a) + BatchDocuments(b)
  {
    FlatMapAppend(a, b, ItemDocuments);
  }

  /** The id set only grows over the run. */
  lemma {:induction false} IdsGrow(st: StoreState, embed: seq<string> -> seq<Vector>, batches: seq<seq<Item>>,
                                   faults: map<nat, Fault>, n: nat, m: nat)
    requires n <= m <= |batches|
    ensures IndexedState(st, embed, batches, faults, n).ids <= IndexedState(st, embed, batches, faults, m).ids
    decreases m - n
  {
    if n < m {
      IdsGrow(st, embed, batches, faults, n + 1, m);
      var before := IndexedState(st, embed, batches, faults, n);
      IdsOnlyGrow(before, embed, BatchDocuments(batches[n]), FaultOf(faults, n + 1));
    }
  }

  /** A raising batch does not stop the run: every position that the `add`
      of batch `k` visits has its id in the final id set, whatever the other
      batches raise, unless batch `k`'s own embedder call raised. */
  lemma BatchIdsKnown(st: StoreState, embed: seq<string> -> seq<Vector>, batches: seq<seq<Item>>,
                      faults: map<nat, Fault>, k: nat)
    requires k < |batches| && FaultOf(faults, k + 1) != Some(EmbedRaises)
    ensures var ds := BatchDocuments(batches[k]);
      var final := IndexedState(st, embed, batches, faults, |batches|);
      forall p :: 0 <= p < Visited(embed, ds) ==> MakeId(Kept(ds)[p].filePath, p) in final.ids
  {
    var ds := BatchDocuments(batches[k]);
    var before := IndexedState(st, embed, batches, faults, k);
    KnownAfterIndex(before, embed, ds, FaultOf(faults, k + 1));
    IdsGrow(st, embed, batches, faults, k + 1, |batches|);
  }

  /** When only embedder calls raise, a store whose id set mirrors its
      collection still does after the run. */
  lemma {:induction false} EmbedFailuresKeepMirror(st: StoreState, embed: seq<string> -> seq<Vector>,
                                                   batches: seq<seq<Item>>, faults: map<nat, Fault>, n: nat)
    requires n <= |batches|
    requires st.ids == RecordIds(st.collection)
    requires forall num :: num in faults ==> faults[num].EmbedRaises?
    ensures var after := IndexedState(st, embed, batches, faults, n);
      after.ids == RecordIds(after.collection)
  {
    if n > 0 {
      EmbedFailuresKeepMirror(st, embed, batches, faults, n - 1);
      var before := IndexedState(st, embed, batches, faults, n - 1);
      var ds := BatchDocuments(batches[n - 1]);
      var fault := FaultOf(faults, n);
      if fault == Some(EmbedRaises) {
        assert IndexEffect(before, embed, ds, fault) == before;
      } else {
        assert fault == None;
        NoFaultNoRaise(before, embed, ds);
        MirrorKept(before, embed, ds, fault);
      }
    }
  }

  /** Without a fault `index_documents` does not raise. */
  lemma NoFaultNoRaise(st: StoreState, embed: seq<string> -> seq<Vector>, documents: seq<Document>)
    ensures !IndexRaises(st, embed, documents, None)
  {
  }

  /** So when only embedder calls raise, every position that the `add` of a
      batch without a fault visits ends up stored in the collection. */
  lemma BatchStored(st: StoreState, embed: seq<string> -> seq<Vector>, batches: seq<seq<Item>>,
                    faults: map<nat, Fault>, k: nat)
    requires st.ids == RecordIds(st.collection)
    requires forall num :: num in faults ==> faults[num].EmbedRaises?
    requires k < |batches| && k + 1 !in faults
    ensures var ds := BatchDocuments(batches[k]);
      var final := IndexedState(st, embed, batches, faults, |batches|);
      forall p :: 0 <= p < Visited(embed, ds) ==> MakeId(Kept(ds)[p].filePath, p) in RecordIds(final.collection)
  {
    BatchIdsKnown(st, embed, batches, faults, k);
    EmbedFailuresKeepMirror(st, embed, batches, faults, |batches|);
  }
}
