/**
  The bookkeeping of `VectorStore`: metadata sanitising, record ids, the
  in-memory id set that keeps `add` from writing an id twice, the 5000-record
  write batches, the zipping of query results, and the dense-then-lexical
  merge of `hybrid_search`.

  The Chroma collection is an append-only sequence of records, and every
  `collection.add` call is logged as one batch. Query results (what
  `collection.query` ranks) are inputs.
 */
module VectorStore {
  import opened PyStr
  import opened PySeq

  /** A metadata value before sanitising: a string, an integer or `None`. */
  datatype Value = NoneValue | Str(s: string) | Int(i: int)

  type Metadata = map<string, Value>

  /** What the collection stores: every value a string. */
  type StoredMetadata = map<string, string>

  type Vector = seq<real>

  datatype Record = Record(id: string, document: string, metadata: StoredMetadata, embedding: Vector)

  /** A `(document, metadata)` pair as a query returns it. */
  datatype Passage = Passage(text: string, metadata: StoredMetadata)

  /** One query's result lists, `result["documents"][0]` and `result["metadatas"][0]`. */
  datatype QueryResult = QueryResult(documents: seq<string>, metadatas: seq<StoredMetadata>)

  const BatchSize: nat := 5000

  // ------------------------------------------------------------------ metadata

  /** `"" if v is None else str(v)` */
  function ValueString(v: Value): string {
    match v
    case NoneValue => ""
    case Str(s) => s
    case Int(i) => IntToString(i)
  }

  /** `sanitize_metadata`: every key is kept, no value is `None` any more:
      `None` becomes "", a string stays as it is, an integer becomes its
      decimal text. */
  function Sanitize(meta: Metadata): (r: StoredMetadata)
    ensures r.Keys == meta.Keys
    ensures forall k :: k in meta && meta[k].NoneValue? ==> r[k] == ""
    ensures forall k :: k in meta && meta[k].Str? ==> r[k] == meta[k].s
    ensures forall k :: k in meta && meta[k].Int? ==> r[k] == IntToString(meta[k].i)
  {
    map k | k in meta :: ValueString(meta[k])
  }

  /** Stored metadata read back as metadata values. */
  function Lift(m: StoredMetadata): (r: Metadata)
    ensures r.Keys == m.Keys
  {
    map k | k in m :: Str(m[k])
  }

  /** Sanitising is idempotent: sanitised metadata passes through unchanged. */
  lemma SanitizeIdempotent(meta: Metadata)
    ensures Sanitize(Lift(Sanitize(meta))) == Sanitize(meta)
  {
    var once := Sanitize(meta);
    var twice := Sanitize(Lift(once));
    assert forall k :: k in twice ==> twice[k] == once[k];
  }

  /** `meta_with_source`: the metadata with `"source"` set to the file path. */
  function WithSource(meta: Metadata, filepath: string): (r: Metadata)
    ensures r.Keys == meta.Keys + {"source"}
    ensures r["source"] == Str(filepath)
    ensures forall k :: k in meta && k != "source" ==> r[k] == meta[k]
  {
    meta["source" := Str(filepath)]
  }

  // ----------------------------------------------------------------------- ids

  /** `f"{filepath}_{idx}"` */
  function MakeId(filepath: string, idx: nat): string {
    filepath + "_" + NatToString(idx)
  }

  /** The position of the last occurrence of `c` in `s`, or -1. */
  function LastIndexOf(s: string, c: char): (r: int)
    ensures -1 <= r < |s|
    decreases |s|
  {
    if |s| == 0 then -1 else if s[|s| - 1] == c then |s| - 1 else LastIndexOf(s[..|s| - 1], c)
  }

  /** In an id, the last `_` is the one `MakeId` put after the file path, since
      the index text that follows it is all digits. */
  lemma {:induction false} IdSeparator(filepath: string, digits: string)
    requires forall i :: 0 <= i < |digits| ==> IsDigit(digits[i])
    ensures LastIndexOf(filepath + "_" + digits, '_') == |filepath|
    decreases |digits|
  {
    var s := filepath + "_" + digits;
    if |digits| > 0 {
      var d := digits[..|digits| - 1];
      assert s[..|s| - 1] == filepath + "_" + d;
      assert s[|s| - 1] == digits[|digits| - 1];
      IdSeparator(filepath, d);
    }
  }

  /** An id names one position of one file: the text after its last `_` is the
      index, and the text before it the file path. */
  lemma MakeIdInjective(f1: string, i1: nat, f2: string, i2: nat)
    requires MakeId(f1, i1) == MakeId(f2, i2)
    ensures f1 == f2 && i1 == i2
  {
    var n1, n2 := NatToString(i1), NatToString(i2);
    var s := MakeId(f1, i1);
    IdSeparator(f1, n1);
    IdSeparator(f2, n2);
    assert |f1| == |f2|;
    assert n1 == s[|f1| + 1..] == n2;
    assert f1 == s[..|f1|] == f2;
    NatToStringInjective(i1, i2);
  }

  // ---------------------------------------------------------------- add: plan

  /** The id of every input position: `f"{filepaths[p]}_{p}"`. */
  function PositionIds(filepaths: seq<string>): (pids: seq<string>)
    ensures |pids| == |filepaths|
    ensures forall p :: 0 <= p < |filepaths| ==> pids[p] == MakeId(filepaths[p], p)
  {
    seq(|filepaths|, p requires 0 <= p < |filepaths| => MakeId(filepaths[p], p))
  }

  /** No id occurs at two positions. */
  ghost predicate Distinct(pids: seq<string>) {
    forall p, q :: 0 <= p < q < |pids| ==> pids[p] != pids[q]
  }

  /** Two positions of one call never share an id, whatever the file paths. */
  lemma PositionIdsDistinct(filepaths: seq<string>)
    ensures Distinct(PositionIds(filepaths))
  {
    var pids := PositionIds(filepaths);
    forall p, q | 0 <= p < q < |pids| ensures pids[p] != pids[q] {
      if pids[p] == pids[q] {
        MakeIdInjective(filepaths[p], p, filepaths[q], q);
      }
    }
  }

  /** A position of the `add` call that is written: its id, its input position,
      its document and its sanitised metadata. */
  datatype Entry = Entry(id: string, position: nat, document: string, metadata: StoredMetadata)

  function EntryIds(es: seq<Entry>): (r: set<string>)
    ensures forall j :: 0 <= j < |es| ==> es[j].id in r
    decreases |es|
  {
    if |es| == 0 then {} else EntryIds(es[..|es| - 1]) + {es[|es| - 1].id}
  }

  /** Every id in `EntryIds(es)` is the id of an entry of `es`. */
  lemma {:induction false} EntryIdsMember(es: seq<Entry>, id: string) returns (j: nat)
    requires id in EntryIds(es)
    ensures j < |es| && es[j].id == id
    decreases |es|
  {
    if es[|es| - 1].id == id {
      j := |es| - 1;
    } else {
      j := EntryIdsMember(es[..|es| - 1], id);
    }
  }

  function RecordIds(rs: seq<Record>): set<string> {
    set j | 0 <= j < |rs| :: rs[j].id
  }

  /** The metadata list `add` works with: `[{} for _ in chunks]` when none is given. */
  function MetadataList(chunks: seq<string>, metadatas: Option<seq<Metadata>>): (ms: seq<Metadata>)
    ensures metadatas.None? ==> |ms| == |chunks| && forall j :: 0 <= j < |ms| ==> ms[j] == map[]
    ensures metadatas.Some? ==> ms == metadatas.value
  {
    if metadatas.None? then seq(|chunks|, _ => map[]) else metadatas.value
  }

  /** The number of positions `zip` visits. */
  function ZipLength(embeddings: seq<Vector>, chunks: seq<string>, filepaths: seq<string>,
                     metas: seq<Metadata>): (n: nat)
    ensures n <= |embeddings| && n <= |chunks| && n <= |filepaths| && n <= |metas|
    ensures n == |embeddings| || n == |chunks| || n == |filepaths| || n == |metas|
  {
    Min(Min(|embeddings|, |chunks|), Min(|filepaths|, |metas|))
  }

  /** What `add` stores as the metadata of each position: the position's
      metadata with `"source"` set to its file path, sanitised. */
  function StoredMetadatas(metas: seq<Metadata>, filepaths: seq<string>): (ms: seq<StoredMetadata>)
    ensures |ms| == Min(|metas|, |filepaths|)
    ensures forall p :: 0 <= p < |ms| ==> ms[p] == Sanitize(WithSource(metas[p], filepaths[p]))
  {
    seq(Min(|metas|, |filepaths|), p requires 0 <= p < Min(|metas|, |filepaths|) =>
      Sanitize(WithSource(metas[p], filepaths[p])))
  }

  /** Both positions are in range of the lists the entries are built from. */
  predicate InRange(pids: seq<string>, chunks: seq<string>, stored: seq<StoredMetadata>, n: nat) {
    n <= |pids| && n <= |chunks| && n <= |stored|
  }

  /** The entry of position `p`. */
  function NewEntry(pids: seq<string>, chunks: seq<string>, stored: seq<StoredMetadata>,
                    p: nat): (e: Entry)
    requires p < |pids| && p < |chunks| && p < |stored|
    ensures EntryOf(e, pids, chunks, stored) && e.position == p
  {
    Entry(pids[p], p, chunks[p], stored[p])
  }

  /** The entries that the first loop of `add` collects from the first `n`
      positions, whose ids are `pids`, given the ids `known` before the call:
      a position is skipped when its id is known already, either from before
      or from this call. */
  function Entries(known: set<string>, pids: seq<string>, chunks: seq<string>, stored: seq<StoredMetadata>,
                   n: nat): (es: seq<Entry>)
    requires InRange(pids, chunks, stored, n)
    ensures |es| <= n
    ensures forall j :: 0 <= j < |es| ==> es[j].position < n
  {
    if n == 0 then []
    else
      var es := Entries(known, pids, chunks, stored, n - 1);
      if pids[n - 1] in known || pids[n - 1] in EntryIds(es) then es
      else es + [NewEntry(pids, chunks, stored, n - 1)]
  }

  /** What one entry holds: the id of its position, its own chunk, and its own
      metadata with the source set, sanitised. */
  predicate EntryOf(e: Entry, pids: seq<string>, chunks: seq<string>, stored: seq<StoredMetadata>) {
    e.position < |pids| && e.position < |chunks| && e.position < |stored| &&
    e.id == pids[e.position] && e.document == chunks[e.position] && e.metadata == stored[e.position]
  }

  /** Every entry is its own position's chunk and metadata under its own id,
      and that id was not known before the call. */
  ghost predicate Sound(es: seq<Entry>, known: set<string>, pids: seq<string>, chunks: seq<string>,
                        stored: seq<StoredMetadata>) {
    forall j :: 0 <= j < |es| ==> EntryOf(es[j], pids, chunks, stored) && es[j].id !in known
  }

  /** The entries are in input order. */
  ghost predicate Ordered(es: seq<Entry>) {
    forall j, k :: 0 <= j < k < |es| ==> es[j].position < es[k].position
  }

  /** The input positions the entries come from. */
  function Positions(es: seq<Entry>): (r: set<nat>)
    ensures forall j :: 0 <= j < |es| ==> es[j].position in r
    decreases |es|
  {
    if |es| == 0 then {} else Positions(es[..|es| - 1]) + {es[|es| - 1].position}
  }

  /** Every one of the first `n` positions whose id was not known has an entry. */
  ghost predicate Complete(es: seq<Entry>, known: set<string>, pids: seq<string>, n: nat)
    requires n <= |pids|
  {
    forall p :: 0 <= p < n && pids[p] !in known ==> p in Positions(es)
  }

  /** The entries of an `add` call: each is its own position's chunk and
      metadata under its own id `f"{filepath}_{idx}"`, they are in input order,
      and a position is written exactly when its id was not known before the
      call (two positions of one call never share an id). */
  lemma EntriesSpec(known: set<string>, chunks: seq<string>, filepaths: seq<string>,
                    metas: seq<Metadata>, n: nat)
    requires n <= |chunks| && n <= |filepaths| && n <= |metas|
    ensures var pids, stored := PositionIds(filepaths), StoredMetadatas(metas, filepaths);
      var es := Entries(known, pids, chunks, stored, n);
      Sound(es, known, pids, chunks, stored) && Ordered(es) && Complete(es, known, pids, n)
  {
    var pids, stored := PositionIds(filepaths), StoredMetadatas(metas, filepaths);
    PositionIdsDistinct(filepaths);
    EntriesSound(known, pids, chunks, stored, n);
    EntriesOrdered(known, pids, chunks, stored, n);
    EntriesComplete(known, pids, chunks, stored, n);
  }

  lemma {:induction false} EntriesSound(known: set<string>, pids: seq<string>, chunks: seq<string>,
                                        stored: seq<StoredMetadata>, n: nat)
    requires InRange(pids, chunks, stored, n)
    ensures Sound(Entries(known, pids, chunks, stored, n), known, pids, chunks, stored)
    decreases n
  {
    if n > 0 {
      var es := Entries(known, pids, chunks, stored, n - 1);
      EntriesSound(known, pids, chunks, stored, n - 1);
      if !(pids[n - 1] in known || pids[n - 1] in EntryIds(es)) {
        var e := NewEntry(pids, chunks, stored, n - 1);
        var es' := es + [e];
        assert Entries(known, pids, chunks, stored, n) == es';
        forall j | 0 <= j < |es'| ensures EntryOf(es'[j], pids, chunks, stored) && es'[j].id !in known {
          if j < |es| {
            assert es'[j] == es[j];
          } else {
            assert es'[j] == e;
          }
        }
      }
    }
  }

  lemma {:induction false} EntriesOrdered(known: set<string>, pids: seq<string>, chunks: seq<string>,
                                          stored: seq<StoredMetadata>, n: nat)
    requires InRange(pids, chunks, stored, n)
    ensures Ordered(Entries(known, pids, chunks, stored, n))
    decreases n
  {
    if n > 0 {
      var es := Entries(known, pids, chunks, stored, n - 1);
      EntriesOrdered(known, pids, chunks, stored, n - 1);
      if !(pids[n - 1] in known || pids[n - 1] in EntryIds(es)) {
        var e := NewEntry(pids, chunks, stored, n - 1);
        var es' := es + [e];
        assert Entries(known, pids, chunks, stored, n) == es';
        forall j, k | 0 <= j < k < |es'| ensures es'[j].position < es'[k].position {
          assert es'[j] == es[j];
          if k < |es| {
            assert es'[k] == es[k];
          } else {
            assert es'[k] == e;
          }
        }
      }
    }
  }

  lemma {:induction false} EntriesComplete(known: set<string>, pids: seq<string>, chunks: seq<string>,
                                           stored: seq<StoredMetadata>, n: nat)
    requires InRange(pids, chunks, stored, n) && Distinct(pids)
    ensures Complete(Entries(known, pids, chunks, stored, n), known, pids, n)
    decreases n
  {
    if n > 0 {
      EntriesComplete(known, pids, chunks, stored, n - 1);
      if pids[n - 1] !in known {
        CompleteTake(known, pids, chunks, stored, n - 1);
      } else {
        CompleteSkip(known, pids, chunks, stored, n - 1);
      }
    }
  }

  lemma CompleteTake(known: set<string>, pids: seq<string>, chunks: seq<string>, stored: seq<StoredMetadata>,
                     n: nat)
    requires InRange(pids, chunks, stored, n + 1) && Distinct(pids) && pids[n] !in known
    requires Complete(Entries(known, pids, chunks, stored, n), known, pids, n)
    ensures Complete(Entries(known, pids, chunks, stored, n + 1), known, pids, n + 1)
  {
    var es := Entries(known, pids, chunks, stored, n);
    NoSelfCollision(known, pids, chunks, stored, n);
    var e := NewEntry(pids, chunks, stored, n);
    assert Entries(known, pids, chunks, stored, n + 1) == es + [e];
    PositionsAppend(es, e);
  }

  lemma CompleteSkip(known: set<string>, pids: seq<string>, chunks: seq<string>, stored: seq<StoredMetadata>,
                     n: nat)
    requires InRange(pids, chunks, stored, n + 1) && pids[n] in known
    requires Complete(Entries(known, pids, chunks, stored, n), known, pids, n)
    ensures Complete(Entries(known, pids, chunks, stored, n + 1), known, pids, n + 1)
  {
    assert Entries(known, pids, chunks, stored, n + 1) == Entries(known, pids, chunks, stored, n);
  }

  /** The entry a complete list holds for position `p`. */
  lemma CompleteAt(es: seq<Entry>, known: set<string>, pids: seq<string>, n: nat, p: nat) returns (j: nat)
    requires n <= |pids| && Complete(es, known, pids, n)
    requires p < n && pids[p] !in known
    ensures j < |es| && es[j].position == p
  {
    j := PositionsMember(es, p);
  }

  /** Every position in `Positions(es)` is the position of an entry of `es`. */
  lemma {:induction false} PositionsMember(es: seq<Entry>, p: nat) returns (j: nat)
    requires p in Positions(es)
    ensures j < |es| && es[j].position == p
    decreases |es|
  {
    if es[|es| - 1].position == p {
      j := |es| - 1;
    } else {
      j := PositionsMember(es[..|es| - 1], p);
    }
  }

  /** The id of position `n` is not among the ids of the earlier entries. */
  lemma NoSelfCollision(known: set<string>, pids: seq<string>, chunks: seq<string>,
                        stored: seq<StoredMetadata>, n: nat)
    requires n < |pids| && InRange(pids, chunks, stored, n) && Distinct(pids)
    ensures pids[n] !in EntryIds(Entries(known, pids, chunks, stored, n))
  {
    var es := Entries(known, pids, chunks, stored, n);
    EntriesSound(known, pids, chunks, stored, n);
    if pids[n] in EntryIds(es) {
      var j := EntryIdsMember(es, pids[n]);
    }
  }

  /** The ids the call writes are exactly the positions' ids that were not known. */
  lemma EntryIdsSpec(known: set<string>, chunks: seq<string>, filepaths: seq<string>,
                     metas: seq<Metadata>, n: nat)
    requires n <= |chunks| && n <= |filepaths| && n <= |metas|
    ensures EntryIds(Entries(known, PositionIds(filepaths), chunks, StoredMetadatas(metas, filepaths), n))
         == (set p | 0 <= p < n && MakeId(filepaths[p], p) !in known :: MakeId(filepaths[p], p))
  {
    var pids, stored := PositionIds(filepaths), StoredMetadatas(metas, filepaths);
    var es := Entries(known, pids, chunks, stored, n);
    var want := set p | 0 <= p < n && MakeId(filepaths[p], p) !in known :: MakeId(filepaths[p], p);
    EntryIdsWanted(known, chunks, filepaths, metas, n);
    WantedEntryIds(known, chunks, filepaths, metas, n);
    assert EntryIds(es) <= want && want <= EntryIds(es);
  }

  lemma EntryIdsWanted(known: set<string>, chunks: seq<string>, filepaths: seq<string>,
                       metas: seq<Metadata>, n: nat)
    requires n <= |chunks| && n <= |filepaths| && n <= |metas|
    ensures EntryIds(Entries(known, PositionIds(filepaths), chunks, StoredMetadatas(metas, filepaths), n))
         <= (set p | 0 <= p < n && MakeId(filepaths[p], p) !in known :: MakeId(filepaths[p], p))
  {
    var pids, stored := PositionIds(filepaths), StoredMetadatas(metas, filepaths);
    var es := Entries(known, pids, chunks, stored, n);
    EntriesSound(known, pids, chunks, stored, n);
    forall id | id in EntryIds(es)
      ensures id in (set p | 0 <= p < n && MakeId(filepaths[p], p) !in known :: MakeId(filepaths[p], p))
    {
      var j := EntryIdsMember(es, id);
      assert EntryOf(es[j], pids, chunks, stored) && es[j].id !in known;
      var p := es[j].position;
      assert id == MakeId(filepaths[p], p);
    }
  }

  lemma WantedEntryIds(known: set<string>, chunks: seq<string>, filepaths: seq<string>,
                       metas: seq<Metadata>, n: nat)
    requires n <= |chunks| && n <= |filepaths| && n <= |metas|
    ensures (set p | 0 <= p < n && MakeId(filepaths[p], p) !in known :: MakeId(filepaths[p], p))
         <= EntryIds(Entries(known, PositionIds(filepaths), chunks, StoredMetadatas(metas, filepaths), n))
  {
    var pids, stored := PositionIds(filepaths), StoredMetadatas(metas, filepaths);
    var es := Entries(known, pids, chunks, stored, n);
    EntriesSpec(known, chunks, filepaths, metas, n);
    forall id | id in (set p | 0 <= p < n && MakeId(filepaths[p], p) !in known :: MakeId(filepaths[p], p))
      ensures id in EntryIds(es)
    {
      var p :| 0 <= p < n && MakeId(filepaths[p], p) !in known && id == MakeId(filepaths[p], p);
      assert pids[p] == id;
      EntryIdAt(es, known, pids, chunks, stored, n, p);
    }
  }

  /** A sound and complete entry list holds the id of every new position. */
  lemma EntryIdAt(es: seq<Entry>, known: set<string>, pids: seq<string>, chunks: seq<string>,
                  stored: seq<StoredMetadata>, n: nat, p: nat)
    requires n <= |pids| && Sound(es, known, pids, chunks, stored) && Complete(es, known, pids, n)
    requires p < n && pids[p] !in known
    ensures pids[p] in EntryIds(es)
  {
    var j := CompleteAt(es, known, pids, n, p);
    assert EntryOf(es[j], pids, chunks, stored);
  }

  /** Repeating an `add` call writes nothing: once its ids are known, every
      position is skipped. */
  lemma AddTwiceWritesNothing(known: set<string>, chunks: seq<string>, filepaths: seq<string>,
                              metas: seq<Metadata>, n: nat)
    requires n <= |chunks| && n <= |filepaths| && n <= |metas|
    ensures var pids, stored := PositionIds(filepaths), StoredMetadatas(metas, filepaths);
      var es := Entries(known, pids, chunks, stored, n);
      Entries(known + EntryIds(es), pids, chunks, stored, n) == []
  {
    var pids, stored := PositionIds(filepaths), StoredMetadatas(metas, filepaths);
    var es := Entries(known, pids, chunks, stored, n);
    var known' := known + EntryIds(es);
    var again := Entries(known', pids, chunks, stored, n);
    EntriesSpec(known, chunks, filepaths, metas, n);
    EntriesSound(known', pids, chunks, stored, n);
    if again != [] {
      var e := again[0];
      var k := CompleteAt(es, known, pids, n, e.position);
    }
  }

  /** The records the call writes, as the source builds them: the `j`-th
      written entry is paired with `embeddings[j]`, the `j`-th embedding of the
      unfiltered input (`embeddings[start:end]` slices the input list with
      positions of the filtered lists). */
  function AddedRecords(es: seq<Entry>, embeddings: seq<Vector>): (rs: seq<Record>)
    requires |es| <= |embeddings|
    ensures |rs| == |es|
    ensures forall j :: 0 <= j < |es| ==>
      rs[j].id == es[j].id && rs[j].document == es[j].document && rs[j].metadata == es[j].metadata
  {
    seq(|es|, j requires 0 <= j < |es| => Record(es[j].id, es[j].document, es[j].metadata, embeddings[j]))
  }

  /** As written, a skip shifts the embeddings: with `a.txt_0` already stored,
      the call for the chunks "x", "y" of `a.txt` writes only "y", and pairs it
      with the embedding of "x". */
  lemma EmbeddingShiftAfterSkip()
    ensures var chunks, paths, metas := ["x", "y"], ["a.txt", "a.txt"], [map[], map[]];
      var embeddings: seq<Vector> := [[0.0], [1.0]];
      var es := Entries({MakeId("a.txt", 0)}, PositionIds(paths), chunks, StoredMetadatas(metas, paths), 2);
      var rs := AddedRecords(es, embeddings);
      |rs| == 1 && rs[0].document == "y" && rs[0].embedding == [0.0] && rs[0].embedding != embeddings[1]
  {
    var chunks, paths, metas := ["x", "y"], ["a.txt", "a.txt"], [map[], map[]];
    var pids, stored := PositionIds(paths), StoredMetadatas(metas, paths);
    var known := {MakeId("a.txt", 0)};
    assert pids[0] == MakeId("a.txt", 0) && pids[1] == MakeId("a.txt", 1);
    assert Entries(known, pids, chunks, stored, 1) == [];
    assert MakeId("a.txt", 1) != MakeId("a.txt", 0) by {
      if MakeId("a.txt", 1) == MakeId("a.txt", 0) {
        MakeIdInjective("a.txt", 1, "a.txt", 0);
      }
    }
    assert EntryIds([]) == {};
  }

  // ---------------------------------------------------------------- the store

  /** The collection `VectorStore` writes to, and its in-memory id set. */
  class Store {
    /** `self.ids` */
    var ids: set<string>
    /** The records of the collection, in the order they were added. */
    var collection: seq<Record>
    /** One entry per `collection.add` call, holding the records it sent. */
    var addCalls: seq<seq<Record>>

    /** Every stored record's id is in the id set. The set holds more when a
        `collection.add` call raised after the first loop of `add` had
        already recorded the call's new ids. */
    predicate Valid()
      reads this
    {
      RecordIds(collection) <= ids
    }

    /** `__init__`: open a collection holding `existing` and load its ids. */
    constructor (existing: seq<Record>)
      ensures Valid()
      ensures ids == RecordIds(existing) && collection == existing && addCalls == []
    {
      ids := RecordIds(existing);
      collection := existing;
      addCalls := [];
    }

    /** `add`: collect the positions whose ids are new, then send their records
        to the collection in batches of `BatchSize`. When `rejectAt` is
        `Some(c)`, the collection raises on call number `c` (counting from 0),
        if the call makes that many; `raised` says that it did. */
    method Add(embeddings: seq<Vector>, chunks: seq<string>, filepaths: seq<string>,
               metadatas: Option<seq<Metadata>>, rejectAt: Option<nat>) returns (raised: bool)
      requires Valid()
      modifies this
      ensures Valid()
      ensures var metas := MetadataList(chunks, metadatas);
        var es := Entries(old(ids), PositionIds(filepaths), chunks, StoredMetadatas(metas, filepaths),
                          ZipLength(embeddings, chunks, filepaths, metas));
        var calls := Partition(AddedRecords(es, embeddings), BatchSize);
        var sent := Accepted(|calls|, rejectAt);
        ids == old(ids) + EntryIds(es) &&
        collection == old(collection) + Flatten(calls[..sent]) &&
        addCalls == old(addCalls) + calls[..sent] &&
        raised == (sent < |calls|)
    {
      var metas := MetadataList(chunks, metadatas);
      var n := ZipLength(embeddings, chunks, filepaths, metas);
      ghost var es := Entries(ids, PositionIds(filepaths), chunks, StoredMetadatas(metas, filepaths), n);
      var newIds, documents, allMetadatas := CollectNew(chunks, filepaths, metas, n);
      raised := SendBatches(es, newIds, documents, allMetadatas, embeddings, rejectAt);
      ghost var records := AddedRecords(es, embeddings);
      SentIdsAreNew(records, Accepted(|Partition(records, BatchSize)|, rejectAt));
      RecordIdsAppend(old(collection), Flatten(Partition(records, BatchSize)[..Accepted(|Partition(records, BatchSize)|, rejectAt)]));
      AddedIdsAreRecordIds(es, embeddings);
    }

    /** The first loop of `add`: the positions among the first `n` whose ids
        are new, as the id, document and metadata lists, with every such id
        added to `ids` as it is met. */
    method CollectNew(chunks: seq<string>, filepaths: seq<string>, metas: seq<Metadata>, n: nat)
      returns (newIds: seq<string>, documents: seq<string>, allMetadatas: seq<StoredMetadata>)
      requires n <= |chunks| && n <= |filepaths| && n <= |metas|
      modifies this
      ensures var es := Entries(old(ids), PositionIds(filepaths), chunks, StoredMetadatas(metas, filepaths), n);
        ids == old(ids) + EntryIds(es) && Columns(es, newIds, documents, allMetadatas)
      ensures collection == old(collection) && addCalls == old(addCalls)
    {
      ghost var known := ids;
      newIds, documents, allMetadatas := [], [], [];
      var idx := 0;
      while idx < n
        invariant idx <= n
        invariant Collected(known, chunks, filepaths, metas, idx, ids, newIds, documents, allMetadatas)
        invariant collection == old(collection) && addCalls == old(addCalls)
      {
        newIds, documents, allMetadatas := VisitPosition(chunks, filepaths, metas, idx, known,
                                                         newIds, documents, allMetadatas);
        idx := idx + 1;
      }
    }

    /** One pass of the first loop of `add`: skip position `idx` when its id is
        in `ids`, otherwise record its id, document and metadata. */
    method VisitPosition(chunks: seq<string>, filepaths: seq<string>, metas: seq<Metadata>, idx: nat,
                         ghost known: set<string>, newIds: seq<string>, documents: seq<string>,
                         allMetadatas: seq<StoredMetadata>)
      returns (newIds': seq<string>, documents': seq<string>, allMetadatas': seq<StoredMetadata>)
      requires idx < |chunks| && idx < |filepaths| && idx < |metas|
      requires Collected(known, chunks, filepaths, metas, idx, ids, newIds, documents, allMetadatas)
      modifies this
      ensures Collected(known, chunks, filepaths, metas, idx + 1, ids, newIds', documents', allMetadatas')
      ensures collection == old(collection) && addCalls == old(addCalls)
    {
      ghost var pids, stored := PositionIds(filepaths), StoredMetadatas(metas, filepaths);
      newIds', documents', allMetadatas' := newIds, documents, allMetadatas;
      var idStr := MakeId(filepaths[idx], idx);
      assert idStr == pids[idx];
      if idStr in ids {
        SkipStep(known, pids, chunks, stored, idx, ids);
        return;
      }
      TakeStep(known, pids, chunks, stored, idx, ids, newIds, documents, allMetadatas);
      newIds' := newIds + [idStr];
      documents' := documents + [chunks[idx]];
      var metaWithSource := WithSource(metas[idx], filepaths[idx]);
      assert Sanitize(metaWithSource) == stored[idx];
      allMetadatas' := allMetadatas + [Sanitize(metaWithSource)];
      ids := ids + {idStr};
    }

    /** The batch loop of `add`: the collected records go to the collection
        `BatchSize` at a time, each batch in one `collection.add` call, until
        call number `rejectAt` raises. */
    method SendBatches(ghost es: seq<Entry>, newIds: seq<string>, documents: seq<string>,
                       allMetadatas: seq<StoredMetadata>, embeddings: seq<Vector>, rejectAt: Option<nat>)
      returns (raised: bool)
      requires Columns(es, newIds, documents, allMetadatas) && |es| <= |embeddings|
      modifies this
      ensures ids == old(ids)
      ensures var calls := Partition(AddedRecords(es, embeddings), BatchSize);
        var sent := Accepted(|calls|, rejectAt);
        collection == old(collection) + Flatten(calls[..sent]) &&
        addCalls == old(addCalls) + calls[..sent] &&
        raised == (sent < |calls|)
    {
      ghost var records := AddedRecords(es, embeddings);
      ghost var calls := Partition(records, BatchSize);
      ghost var done: seq<seq<Record>> := [];
      var total := |newIds|;
      var start := 0;
      var callNum := 0;
      while start < total
        invariant start <= total
        invariant calls == done + Partition(records[start..], BatchSize)
        invariant callNum == |done|
        invariant rejectAt.None? || callNum <= rejectAt.value
        invariant collection == old(collection) + Flatten(done)
        invariant addCalls == old(addCalls) + done
        invariant ids == old(ids)
      {
        var end := Min(start + BatchSize, total);
        NextCall(records, calls, done, start);
        if rejectAt == Some(callNum) {
          return true;
        }
        var batch := BatchRecords(newIds[start..end], documents[start..end],
                                  allMetadatas[start..end], embeddings[start..end]);
        BatchIsSlice(es, embeddings, newIds, documents, allMetadatas, start, end);
        collection := collection + batch;
        addCalls := addCalls + [batch];
        FlattenSnoc(done, batch);
        done := done + [batch];
        callNum := callNum + 1;
        start := end;
      }
      assert records[start..] == [];
      assert calls == done;
      assert calls[..callNum] == done;
      return false;
    }

    /** `search`: the documents and the metadatas of one query result, paired. */
    method Search(result: QueryResult) returns (passages: seq<Passage>)
      ensures |passages| == Min(|result.documents|, |result.metadatas|)
      ensures forall j :: 0 <= j < |passages| ==>
        passages[j] == Passage(result.documents[j], result.metadatas[j])
    {
      passages := Pairs(result);
    }

    /** `hybrid_search`: dense results, then lexical results, each text kept
        once, stopping once `topK` passages are collected. */
    method HybridSearch(dense: QueryResult, sparse: QueryResult, topK: int) returns (merged: seq<Passage>)
      ensures merged == HybridMerge(Pairs(dense) + Pairs(sparse), topK)
    {
      var denseDocs := Pairs(dense);
      var sparseDocs := Pairs(sparse);
      merged := MergeLoop(denseDocs + sparseDocs, topK);
    }
  }

  /** The four lists the first loop of `add` fills are the columns of the entries. */
  ghost predicate Columns(es: seq<Entry>, ids: seq<string>, documents: seq<string>, metadatas: seq<StoredMetadata>) {
    |ids| == |es| && |documents| == |es| && |metadatas| == |es| &&
    forall j :: 0 <= j < |es| ==>
      ids[j] == es[j].id && documents[j] == es[j].document && metadatas[j] == es[j].metadata
  }

  /** The state of the first loop of `add` after `idx` positions: `ids` holds
      the ids known before the call and those of the entries so far, and the
      three lists are the columns of those entries. */
  ghost predicate Collected(known: set<string>, chunks: seq<string>, filepaths: seq<string>, metas: seq<Metadata>,
                            idx: nat, ids: set<string>, newIds: seq<string>, documents: seq<string>,
                            allMetadatas: seq<StoredMetadata>) {
    idx <= |chunks| && idx <= |filepaths| && idx <= |metas| &&
    var es := Entries(known, PositionIds(filepaths), chunks, StoredMetadatas(metas, filepaths), idx);
    ids == known + EntryIds(es) && Columns(es, newIds, documents, allMetadatas)
  }

  /** A position whose id is already known leaves the entries as they are. */
  lemma SkipStep(known: set<string>, pids: seq<string>, chunks: seq<string>, stored: seq<StoredMetadata>,
                 idx: nat, ids: set<string>)
    requires InRange(pids, chunks, stored, idx + 1)
    requires ids == known + EntryIds(Entries(known, pids, chunks, stored, idx)) && pids[idx] in ids
    ensures Entries(known, pids, chunks, stored, idx + 1) == Entries(known, pids, chunks, stored, idx)
  {
  }

  /** A position whose id is new adds its entry: its id to the known ids and
      a row to each column. */
  lemma TakeStep(known: set<string>, pids: seq<string>, chunks: seq<string>, stored: seq<StoredMetadata>,
                 idx: nat, ids: set<string>, newIds: seq<string>, documents: seq<string>,
                 metadatas: seq<StoredMetadata>)
    requires InRange(pids, chunks, stored, idx + 1)
    requires ids == known + EntryIds(Entries(known, pids, chunks, stored, idx)) && pids[idx] !in ids
    requires Columns(Entries(known, pids, chunks, stored, idx), newIds, documents, metadatas)
    ensures ids + {pids[idx]} == known + EntryIds(Entries(known, pids, chunks, stored, idx + 1))
    ensures Columns(Entries(known, pids, chunks, stored, idx + 1),
                    newIds + [pids[idx]], documents + [chunks[idx]], metadatas + [stored[idx]])
  {
    var es := Entries(known, pids, chunks, stored, idx);
    var e := NewEntry(pids, chunks, stored, idx);
    assert Entries(known, pids, chunks, stored, idx + 1) == es + [e];
    EntryIdsAppend(es, e);
    UnionStep(ids, known, EntryIds(es), pids[idx]);
    ColumnsStep(es, e, newIds, documents, metadatas);
  }

  lemma PositionsAppend(es: seq<Entry>, e: Entry)
    ensures Positions(es + [e]) == Positions(es) + {e.position}
  {
    assert (es + [e])[..|es|] == es;
  }

  lemma EntryIdsAppend(es: seq<Entry>, e: Entry)
    ensures EntryIds(es + [e]) == EntryIds(es) + {e.id}
  {
    assert (es + [e])[..|es|] == es;
  }

  lemma UnionStep<T>(ids: set<T>, known: set<T>, a: set<T>, x: T)
    requires ids == known + a
    ensures ids + {x} == known + (a + {x})
  {
  }

  /** Recording one more entry adds one more row to each column. */
  lemma ColumnsStep(es: seq<Entry>, e: Entry, ids: seq<string>, documents: seq<string>,
                    metadatas: seq<StoredMetadata>)
    requires Columns(es, ids, documents, metadatas)
    ensures Columns(es + [e], ids + [e.id], documents + [e.document], metadatas + [e.metadata])
  {
    var es' := es + [e];
    forall j | 0 <= j < |es'|
      ensures (ids + [e.id])[j] == es'[j].id && (documents + [e.document])[j] == es'[j].document
           && (metadatas + [e.metadata])[j] == es'[j].metadata
    {
      if j < |es| {
        assert es'[j] == es[j];
      }
    }
  }

  lemma RecordIdsAppend(a: seq<Record>, b: seq<Record>)
    ensures RecordIds(a + b) == RecordIds(a) + RecordIds(b)
  {
    var ab := a + b;
    forall id | id in RecordIds(ab) ensures id in RecordIds(a) + RecordIds(b) {
      var j :| 0 <= j < |ab| && ab[j].id == id;
      if j < |a| {
        assert ab[j] == a[j];
      } else {
        assert ab[j] == b[j - |a|];
      }
    }
    forall id | id in RecordIds(a) + RecordIds(b) ensures id in RecordIds(ab) {
      if id in RecordIds(a) {
        var j :| 0 <= j < |a| && a[j].id == id;
        assert ab[j] == a[j];
      } else {
        var j :| 0 <= j < |b| && b[j].id == id;
        assert ab[|a| + j] == b[j];
      }
    }
  }

  /** How many of `calls` write calls go through when call number `rejectAt`
      (counting from 0) raises: all of them when `rejectAt` is `None` or names
      a call that is never made. */
  function Accepted(calls: nat, rejectAt: Option<nat>): (sent: nat)
    ensures sent <= calls
    ensures sent < calls <==> rejectAt.Some? && rejectAt.value < calls
  {
    if rejectAt.Some? && rejectAt.value < calls then rejectAt.value else calls
  }

  /** The records of the accepted write calls are a prefix of the records,
      so their ids are among the new ids. */
  lemma SentIdsAreNew(records: seq<Record>, sent: nat)
    requires sent <= |Partition(records, BatchSize)|
    ensures RecordIds(Flatten(Partition(records, BatchSize)[..sent])) <= RecordIds(records)
    ensures sent == |Partition(records, BatchSize)| ==> Flatten(Partition(records, BatchSize)[..sent]) == records
  {
    var calls := Partition(records, BatchSize);
    PartitionFlatten(records, BatchSize);
    assert calls == calls[..sent] + calls[sent..];
    FlattenAppend(calls[..sent], calls[sent..]);
    RecordIdsAppend(Flatten(calls[..sent]), Flatten(calls[sent..]));
    assert calls[..|calls|] == calls;
  }

  /** The records of one `collection.add(embeddings=..., documents=..., metadatas=..., ids=...)` call. */
  function BatchRecords(ids: seq<string>, documents: seq<string>, metadatas: seq<StoredMetadata>,
                        embeddings: seq<Vector>): (rs: seq<Record>)
    requires |documents| == |ids| && |metadatas| == |ids| && |embeddings| == |ids|
    ensures |rs| == |ids|
  {
    seq(|ids|, j requires 0 <= j < |ids| => Record(ids[j], documents[j], metadatas[j], embeddings[j]))
  }

  lemma BatchIsSlice(es: seq<Entry>, embeddings: seq<Vector>, ids: seq<string>, documents: seq<string>,
                     metadatas: seq<StoredMetadata>, start: nat, end: nat)
    requires Columns(es, ids, documents, metadatas) && |es| <= |embeddings|
    requires start <= end <= |es|
    ensures BatchRecords(ids[start..end], documents[start..end], metadatas[start..end], embeddings[start..end])
         == AddedRecords(es, embeddings)[start..end]
  {
  }

  /** Cutting the next batch off the unsent records. */
  lemma PartitionStep<T>(xs: seq<T>, start: nat, size: nat)
    requires size > 0 && start < |xs|
    ensures Partition(xs[start..], size)
         == [xs[start..Min(start + size, |xs|)]] + Partition(xs[Min(start + size, |xs|)..], size)
  {
    var rest := xs[start..];
    if |rest| > size {
      assert rest[..size] == xs[start..start + size];
      assert rest[size..] == xs[start + size..];
    } else {
      assert Min(start + size, |xs|) == |xs|;
      assert xs[start..|xs|] == rest;
      assert Partition(xs[|xs|..], size) == [];
    }
  }

  /** The next write call of the batch loop sends the next slice, and it is
      a call the loop has not made yet. */
  lemma NextCall<T>(records: seq<T>, calls: seq<seq<T>>, done: seq<seq<T>>, start: nat)
    requires start < |records| && calls == done + Partition(records[start..], BatchSize)
    ensures var end := Min(start + BatchSize, |records|);
      calls == (done + [records[start..end]]) + Partition(records[end..], BatchSize) &&
      |done| < |calls| && calls[..|done|] == done
  {
    PartitionStep(records, start, BatchSize);
    assert calls[..|done|] == done;
  }

  lemma AddedIdsAreRecordIds(es: seq<Entry>, embeddings: seq<Vector>)
    requires |es| <= |embeddings|
    ensures RecordIds(AddedRecords(es, embeddings)) == EntryIds(es)
  {
    var rs := AddedRecords(es, embeddings);
    forall id | id in EntryIds(es) ensures id in RecordIds(rs) {
      var j := EntryIdsMember(es, id);
      assert rs[j].id == id;
    }
    forall id | id in RecordIds(rs) ensures id in EntryIds(es) {
      var j :| 0 <= j < |rs| && rs[j].id == id;
      assert es[j].id == id;
    }
  }

  // ------------------------------------------------------------ query results

  /** `list(zip(result["documents"][0], result["metadatas"][0]))` */
  function Pairs(result: QueryResult): (ps: seq<Passage>)
    ensures |ps| == Min(|result.documents|, |result.metadatas|)
  {
    var n := Min(|result.documents|, |result.metadatas|);
    seq(n, j requires 0 <= j < n => Passage(result.documents[j], result.metadatas[j]))
  }

  /** The texts among the first `n` passages. */
  function TextsBefore(xs: seq<Passage>, n: nat): (r: set<string>)
    requires n <= |xs|
    ensures forall j :: 0 <= j < n ==> xs[j].text in r
    decreases n
  {
    if n == 0 then {} else TextsBefore(xs, n - 1) + {xs[n - 1].text}
  }

  /** The texts of a list of passages. */
  function Texts(ps: seq<Passage>): set<string>
    decreases |ps|
  {
    if |ps| == 0 then {} else Texts(ps[..|ps| - 1]) + {ps[|ps| - 1].text}
  }

  /** The first passage of each text among the first `n`, in order of first
      occurrence. */
  function FirstOccurrences(xs: seq<Passage>, n: nat): (d: seq<Passage>)
    requires n <= |xs|
    ensures |d| <= n
    decreases n
  {
    if n == 0 then []
    else if xs[n - 1].text in TextsBefore(xs, n - 1) then FirstOccurrences(xs, n - 1)
    else FirstOccurrences(xs, n - 1) + [xs[n - 1]]
  }

  /** No two passages of a list share a text. */
  ghost predicate DistinctTexts(ps: seq<Passage>) {
    forall j, k :: 0 <= j < k < |ps| ==> ps[j].text != ps[k].text
  }

  /** Deduplication keeps every text of the input once: the kept passages have
      pairwise different texts, and together exactly the texts of the input. */
  lemma {:induction false} FirstOccurrencesSpec(xs: seq<Passage>, n: nat)
    requires n <= |xs|
    ensures DistinctTexts(FirstOccurrences(xs, n))
    ensures Texts(FirstOccurrences(xs, n)) == TextsBefore(xs, n)
    decreases n
  {
    if n > 0 {
      var d := FirstOccurrences(xs, n - 1);
      FirstOccurrencesSpec(xs, n - 1);
      var x := xs[n - 1];
      if x.text !in TextsBefore(xs, n - 1) {
        DistinctAppend(d, x);
        TextsAppend(d, x);
      }
    }
  }

  /** The input positions of the passages `FirstOccurrences` keeps. */
  function FirstPositions(xs: seq<Passage>, n: nat): (ps: seq<nat>)
    requires n <= |xs|
    decreases n
  {
    if n == 0 then []
    else if IsFirst(xs, n - 1) then FirstPositions(xs, n - 1) + [n - 1]
    else FirstPositions(xs, n - 1)
  }

  /** Position `i` holds the first passage with its text. */
  predicate IsFirst(xs: seq<Passage>, i: nat)
    requires i < |xs|
  {
    xs[i].text !in TextsBefore(xs, i)
  }

  /** Each kept passage is the first passage with its text, kept passages
      keep their input order, and a passage whose text has not been seen
      before is always kept. */
  lemma FirstPositionsSpec(xs: seq<Passage>, n: nat)
    requires n <= |xs|
    ensures var d, ps := FirstOccurrences(xs, n), FirstPositions(xs, n);
      |ps| == |d| &&
      (forall j :: 0 <= j < |ps| ==> ps[j] < n && d[j] == xs[ps[j]] && IsFirst(xs, ps[j])) &&
      (forall j, l :: 0 <= j < l < |ps| ==> ps[j] < ps[l]) &&
      (forall i :: 0 <= i < n && IsFirst(xs, i) ==> i in ps)
  {
    FirstPositionsAt(xs, n);
    FirstPositionsIncrease(xs, n);
    FirstPositionsComplete(xs, n);
  }

  lemma {:induction false} FirstPositionsAt(xs: seq<Passage>, n: nat)
    requires n <= |xs|
    ensures var d, ps := FirstOccurrences(xs, n), FirstPositions(xs, n);
      |ps| == |d| && forall j :: 0 <= j < |ps| ==> ps[j] < n && d[j] == xs[ps[j]] && IsFirst(xs, ps[j])
    decreases n
  {
    if n > 0 {
      FirstPositionsAt(xs, n - 1);
      var d, ps := FirstOccurrences(xs, n - 1), FirstPositions(xs, n - 1);
      if IsFirst(xs, n - 1) {
        var d', ps' := d + [xs[n - 1]], ps + [n - 1];
        forall j | 0 <= j < |ps'| ensures ps'[j] < n && d'[j] == xs[ps'[j]] && IsFirst(xs, ps'[j]) {
          if j < |ps| {
            assert ps'[j] == ps[j] && d'[j] == d[j];
          }
        }
      }
    }
  }

  lemma {:induction false} FirstPositionsIncrease(xs: seq<Passage>, n: nat)
    requires n <= |xs|
    ensures forall j :: 0 <= j < |FirstPositions(xs, n)| ==> FirstPositions(xs, n)[j] < n
    ensures forall j, l :: 0 <= j < l < |FirstPositions(xs, n)| ==> FirstPositions(xs, n)[j] < FirstPositions(xs, n)[l]
    decreases n
  {
    if n > 0 {
      FirstPositionsIncrease(xs, n - 1);
      var ps := FirstPositions(xs, n - 1);
      if IsFirst(xs, n - 1) {
        var ps' := ps + [n - 1];
        assert FirstPositions(xs, n) == ps';
        forall j, l | 0 <= j < l < |ps'| ensures ps'[j] < ps'[l] {
          assert ps'[j] == ps[j];
          if l < |ps| {
            assert ps'[l] == ps[l];
          }
        }
      } else {
        assert FirstPositions(xs, n) == ps;
      }
    }
  }

  lemma {:induction false} FirstPositionsComplete(xs: seq<Passage>, n: nat)
    requires n <= |xs|
    ensures forall i :: 0 <= i < n && IsFirst(xs, i) ==> i in FirstPositions(xs, n)
    decreases n
  {
    if n > 0 {
      FirstPositionsComplete(xs, n - 1);
      var ps := FirstPositions(xs, n - 1);
      assert forall i :: i in ps ==> i in FirstPositions(xs, n);
    }
  }

  lemma TextsAppend(ps: seq<Passage>, x: Passage)
    ensures Texts(ps + [x]) == Texts(ps) + {x.text}
  {
    assert (ps + [x])[..|ps|] == ps;
  }

  lemma DistinctAppend(ps: seq<Passage>, x: Passage)
    requires DistinctTexts(ps) && x.text !in Texts(ps)
    ensures DistinctTexts(ps + [x])
  {
    var ps' := ps + [x];
    forall j, k | 0 <= j < k < |ps'| ensures ps'[j].text != ps'[k].text {
      assert ps'[j] == ps[j];
      if k < |ps| {
        assert ps'[k] == ps[k];
      } else {
        TextsMember(ps, j);
      }
    }
  }

  lemma TextsMember(ps: seq<Passage>, j: nat)
    requires j < |ps|
    ensures ps[j].text in Texts(ps)
    decreases |ps|
  {
    if j < |ps| - 1 {
      TextsMember(ps[..|ps| - 1], j);
      assert ps[..|ps| - 1][j] == ps[j];
    }
  }

  /** The passages kept from the first `n` depend on those `n` only. */
  lemma {:induction false} FirstOccurrencesOfPrefix(xs: seq<Passage>, ys: seq<Passage>, n: nat)
    requires n <= |xs| && n <= |ys| && xs[..n] == ys[..n]
    ensures TextsBefore(xs, n) == TextsBefore(ys, n)
    ensures FirstOccurrences(xs, n) == FirstOccurrences(ys, n)
    decreases n
  {
    if n > 0 {
      assert xs[n - 1] == xs[..n][n - 1] == ys[..n][n - 1] == ys[n - 1];
      assert xs[..n - 1] == xs[..n][..n - 1] == ys[..n][..n - 1] == ys[..n - 1];
      FirstOccurrencesOfPrefix(xs, ys, n - 1);
    }
  }

  /** The loop checks `len(merged) >= top_k` after every element, so it always
      keeps at least the first one. */
  function Cap(topK: int): nat {
    if topK < 1 then 1 else topK
  }

  /** The result of `hybrid_search` on the concatenated result lists. */
  function HybridMerge(xs: seq<Passage>, topK: int): seq<Passage> {
    var d := FirstOccurrences(xs, |xs|);
    d[..Min(Cap(topK), |d|)]
  }

  /** `hybrid_search` keeps at most `top_k` passages (at least one when there
      is any), never two with the same text, in order of first occurrence. */
  lemma HybridMergeSpec(dense: seq<Passage>, sparse: seq<Passage>, topK: int)
    ensures var r := HybridMerge(dense + sparse, topK);
      var all := FirstOccurrences(dense + sparse, |dense + sparse|);
      |r| == Min(Cap(topK), |all|) && r == all[..|r|] && DistinctTexts(r)
  {
    var xs := dense + sparse;
    var all := FirstOccurrences(xs, |xs|);
    var r := HybridMerge(xs, topK);
    FirstOccurrencesSpec(xs, |xs|);
    assert DistinctTexts(r) by {
      forall j, k | 0 <= j < k < |r| ensures r[j].text != r[k].text {
        assert r[j] == all[j] && r[k] == all[k];
      }
    }
  }

  /** The dense results come before the lexical ones: the result of
      `hybrid_search` starts with the deduplicated dense results, or is a
      prefix of them. */
  lemma HybridMergeDenseFirst(dense: seq<Passage>, sparse: seq<Passage>, topK: int)
    ensures var r := HybridMerge(dense + sparse, topK);
      var d := FirstOccurrences(dense, |dense|);
      (|d| <= |r| ==> r[..|d|] == d) && (|r| <= |d| ==> r == d[..|r|])
  {
    var xs := dense + sparse;
    var all := FirstOccurrences(xs, |xs|);
    assert xs[..|dense|] == dense[..|dense|];
    FirstOccurrencesOfPrefix(xs, dense, |dense|);
    FirstOccurrencesPrefix(xs, |dense|, |xs|);
    PrefixesAgree(all, HybridMerge(xs, topK), FirstOccurrences(dense, |dense|));
  }

  /** Two prefixes of one list: the shorter is a prefix of the longer. */
  lemma PrefixesAgree<T>(all: seq<T>, r: seq<T>, d: seq<T>)
    requires |r| <= |all| && r == all[..|r|]
    requires |d| <= |all| && d == all[..|d|]
    ensures |d| <= |r| ==> r[..|d|] == d
    ensures |r| <= |d| ==> r == d[..|r|]
  {
  }

  /** The dedupe loop of `hybrid_search`. */
  method MergeLoop(docs: seq<Passage>, topK: int) returns (merged: seq<Passage>)
    ensures merged == HybridMerge(docs, topK)
  {
    var seen: set<string> := {};
    merged := [];
    var i := 0;
    while i < |docs|
      invariant i <= |docs|
      invariant merged == FirstOccurrences(docs, i)
      invariant seen == TextsBefore(docs, i)
      invariant i == 0 || |merged| < topK
    {
      var p := docs[i];
      if p.text !in seen {
        seen := seen + {p.text};
        merged := merged + [p];
      } else {
        InSetUnion(seen, p.text);
      }
      i := i + 1;
      if |merged| >= topK {
        CapReached(docs, i, topK);
        return;
      }
    }
  }

  lemma InSetUnion<T>(s: set<T>, x: T)
    requires x in s
    ensures s + {x} == s
  {
  }

  /** Deduplicating a prefix gives a prefix of the deduplicated whole. */
  lemma {:induction false} FirstOccurrencesPrefix(xs: seq<Passage>, i: nat, n: nat)
    requires i <= n <= |xs|
    ensures |FirstOccurrences(xs, i)| <= |FirstOccurrences(xs, n)|
    ensures FirstOccurrences(xs, i) == FirstOccurrences(xs, n)[..|FirstOccurrences(xs, i)|]
    decreases n - i
  {
    if i < n {
      FirstOccurrencesPrefix(xs, i, n - 1);
      var d := FirstOccurrences(xs, n - 1);
      assert (d + [xs[n - 1]])[..|d|] == d;
    }
  }

  /** When the loop breaks after `i` elements, it holds `Cap(topK)` of the
      deduplicated passages, which is what `HybridMerge` keeps. */
  lemma CapReached(xs: seq<Passage>, i: nat, topK: int)
    requires 0 < i <= |xs|
    requires |FirstOccurrences(xs, i)| >= topK
    requires i == 1 || |FirstOccurrences(xs, i - 1)| < topK
    ensures FirstOccurrences(xs, i) == HybridMerge(xs, topK)
  {
    FirstOccurrencesPrefix(xs, i, |xs|);
    FirstOccurrencesPrefix(xs, i - 1, i);
  }
}
