/**
  The three-tier document chunker (`robust_chunker`, `chunk_text`).

  The two foreign calls of the chunker are inputs here: `headings` are the start
  offsets of the heading-pattern matches (what `re.finditer` reports, strictly
  increasing), and `sentences` is what `sent_tokenize` returns, or `None` when
  that call raises, in which case the chunker goes on to the window tier.
 */
module Chunker {
  import opened PyStr
  import opened PySeq

  /** The metadata dict attached to a chunk; the constructor is its `chunk_type`. */
  datatype ChunkMeta =
    | HeadingMeta(heading: string, chunkStart: nat, chunkEnd: nat)
    | SentenceMeta(startSentence: nat, endSentence: nat)
    | WindowMeta(chunkStart: nat, chunkEnd: nat)

  datatype Chunk = Chunk(text: string, metadata: ChunkMeta)

  const DefaultMaxLength: nat := 350
  const DefaultOverlap: int := 50

  /** What a heading match list can be: increasing offsets into the text. */
  predicate ValidHeadings(text: string, hs: seq<nat>) {
    (forall i :: 0 <= i < |hs| ==> hs[i] <= |text|) &&
    (forall i :: 0 < i < |hs| ==> hs[i - 1] < hs[i])
  }

  /** The window tier steps by `maxLength - overlap`; it runs forever when that
      step is not positive and it gets non-empty text to cut. */
  predicate WindowTierTerminates(text: string, maxLength: nat, overlap: int,
                                 hs: seq<nat>, sentences: Option<seq<string>>) {
    |hs| > 1 || (sentences.Some? && |sentences.value| > 0) || |text| == 0 || overlap < maxLength
  }

  // ---------------------------------------------------------------- heading tier

  /** The end of heading section `i`: the next heading, or the end of the text. */
  function HeadingEnd(text: string, hs: seq<nat>, i: nat): (e: nat)
    requires ValidHeadings(text, hs) && i < |hs|
    ensures hs[i] <= e <= |text|
  {
    if i + 1 < |hs| then hs[i + 1] else |text|
  }

  /** The first line `l` with `l.strip()` non-empty, or "" when there is none. */
  function FirstNonBlank(lines: seq<string>): string
    decreases |lines|
  {
    if |lines| == 0 then "" else if Strip(lines[0]) != "" then lines[0] else FirstNonBlank(lines[1..])
  }

  /** The heading recorded for a section whose stripped text is `t`. */
  function HeadingOf(t: string): string {
    FirstNonBlank(Lines(t))
  }

  function HeadingChunkAt(text: string, hs: seq<nat>, i: nat): Chunk
    requires ValidHeadings(text, hs) && i < |hs|
  {
    var e := HeadingEnd(text, hs, i);
    var t := Strip(text[hs[i]..e]);
    Chunk(t, HeadingMeta(HeadingOf(t), hs[i], e))
  }

  function HeadingChunks(text: string, hs: seq<nat>): (cs: seq<Chunk>)
    requires ValidHeadings(text, hs)
  {
    seq(|hs|, i requires 0 <= i < |hs| => HeadingChunkAt(text, hs, i))
  }

  /** For stripped text, the recorded heading is its first line: the text up to
      the first line break. It is "" exactly when the text is empty. */
  lemma HeadingIsFirstLine(t: string)
    requires t == [] || !IsSpace(t[0])
    ensures HeadingOf(t) == t[..LineLength(t)]
    ensures HeadingOf(t) == "" <==> t == ""
  {
    if t != [] {
      var n := LineLength(t);
      assert n >= 1;
      var first := t[..n];
      assert first[0] == t[0];
      assert !IsBlank(first);
      assert Lines(t)[0] == first;
    }
  }

  // --------------------------------------------------------------- sentence tier

  /** `len(current_chunk) + len(sentence) < max_length`, with the chunk holding
      sentences `a..j` and `sentence` being sentence `j`. */
  predicate Fits(ss: seq<string>, a: nat, j: nat, maxLength: int)
    requires a <= j < |ss|
  {
    |Join(" ", ss[a..j])| + |ss[j]| < maxLength
  }

  /** The end (exclusive) of the chunk that starts at sentence `a`, once sentences
      `a..b` are in it: further sentences are taken while the joined chunk plus
      the next sentence stays shorter than `maxLength`. */
  function GreedyEnd(ss: seq<string>, a: nat, b: nat, maxLength: int): (e: nat)
    requires a < b <= |ss|
    ensures b <= e <= |ss|
    ensures forall j :: b <= j < e ==> Fits(ss, a, j, maxLength)
    ensures e < |ss| ==> !Fits(ss, a, e, maxLength)
    decreases |ss| - b
  {
    if b < |ss| && Fits(ss, a, b, maxLength) then GreedyEnd(ss, a, b + 1, maxLength)
    else b
  }

  function SentenceChunksFrom(ss: seq<string>, from: nat, maxLength: int): (cs: seq<Chunk>)
    ensures |cs| == 0 <==> from >= |ss|
    decreases |ss| - from
  {
    if from >= |ss| then []
    else
      var e := GreedyEnd(ss, from, from + 1, maxLength);
      [Chunk(Strip(Join(" ", ss[from..e])), SentenceMeta(from, e - 1))]
        + SentenceChunksFrom(ss, e, maxLength)
  }

  function SentenceChunks(ss: seq<string>, maxLength: int): seq<Chunk> {
    SentenceChunksFrom(ss, 0, maxLength)
  }

  /** Sentence chunks tile the sentences: each holds at least one sentence, the
      first starts at sentence `from`, each next one starts right after the
      previous one ends (no overlap), and the last ends at the last sentence. */
  lemma {:induction false} SentenceTiling(ss: seq<string>, from: nat, maxLength: int)
    requires from <= |ss|
    ensures var cs := SentenceChunksFrom(ss, from, maxLength);
      (forall k :: 0 <= k < |cs| ==>
         cs[k].metadata.SentenceMeta? &&
         from <= cs[k].metadata.startSentence <= cs[k].metadata.endSentence < |ss|) &&
      (|cs| > 0 ==> cs[0].metadata.startSentence == from &&
                    cs[|cs| - 1].metadata.endSentence == |ss| - 1) &&
      (forall k :: 0 < k < |cs| ==>
         cs[k].metadata.startSentence == cs[k - 1].metadata.endSentence + 1)
    decreases |ss| - from
  {
    if from < |ss| {
      var e := GreedyEnd(ss, from, from + 1, maxLength);
      SentenceTiling(ss, e, maxLength);
      var cs := SentenceChunksFrom(ss, from, maxLength);
      var rest := SentenceChunksFrom(ss, e, maxLength);
      assert cs == [cs[0]] + rest;
      forall k | 0 < k < |cs|
        ensures cs[k].metadata.startSentence == cs[k - 1].metadata.endSentence + 1
      {
        assert cs[k] == rest[k - 1];
        if k > 1 { assert cs[k - 1] == rest[k - 2]; }
      }
    }
  }

  /** The greedy rule for one chunk holding sentences `a..e-1`: its text is
      their space-joined text, stripped; every sentence after the first was
      added because the chunk so far plus that sentence was shorter than
      `maxLength`, and the sentence after the chunk, if any, failed that test. */
  predicate GreedyChunk(ss: seq<string>, c: Chunk, maxLength: int) {
    c.metadata.SentenceMeta? &&
    var a, e := c.metadata.startSentence, c.metadata.endSentence + 1;
    a < e <= |ss| &&
    c.text == Strip(Join(" ", ss[a..e])) &&
    GreedyRange(ss, a, e, maxLength)
  }

  /** Sentences `a..e` were taken by the greedy rule. */
  predicate GreedyRange(ss: seq<string>, a: nat, e: nat, maxLength: int)
    requires a < e <= |ss|
  {
    (forall j :: a < j < e ==> Fits(ss, a, j, maxLength)) &&
    (e < |ss| ==> !Fits(ss, a, e, maxLength))
  }

  /** Every sentence chunk obeys the greedy rule. */
  lemma {:induction false} SentencePacking(ss: seq<string>, from: nat, maxLength: int, k: nat)
    requires from <= |ss| && k < |SentenceChunksFrom(ss, from, maxLength)|
    ensures GreedyChunk(ss, SentenceChunksFrom(ss, from, maxLength)[k], maxLength)
    decreases |ss| - from
  {
    var e := GreedyEnd(ss, from, from + 1, maxLength);
    var c := Chunk(Strip(Join(" ", ss[from..e])), SentenceMeta(from, e - 1));
    var rest := SentenceChunksFrom(ss, e, maxLength);
    SentenceStep(ss, from, maxLength);
    if k == 0 {
      FirstChunkIsGreedy(ss, from, e, maxLength);
      assert SentenceChunksFrom(ss, from, maxLength)[k] == c;
    } else {
      ConsIndex(c, rest, k);
      SentencePacking(ss, e, maxLength, k - 1);
      assert SentenceChunksFrom(ss, from, maxLength)[k] == rest[k - 1];
    }
  }

  lemma FirstChunkIsGreedy(ss: seq<string>, from: nat, e: nat, maxLength: int)
    requires from < |ss| && e == GreedyEnd(ss, from, from + 1, maxLength)
    ensures GreedyChunk(ss, Chunk(Strip(Join(" ", ss[from..e])), SentenceMeta(from, e - 1)), maxLength)
  {
    assert GreedyRange(ss, from, e, maxLength);
  }

  lemma ConsIndex<T>(x: T, rest: seq<T>, k: nat)
    requires 0 < k <= |rest|
    ensures ([x] + rest)[k] == rest[k - 1]
  {
  }

  lemma JoinSnoc(ss: seq<string>, a: nat, b: nat)
    requires a < b < |ss|
    ensures Join(" ", ss[a..b + 1]) == Join(" ", ss[a..b]) + " " + ss[b]
  {
    var xs := ss[a..b + 1];
    assert xs[..|xs| - 1] == ss[a..b];
  }

  /** Only a chunk of one sentence can be longer than `maxLength`: a chunk that
      took in a second sentence fits within `maxLength` characters. */
  lemma MultiSentenceChunkFits(ss: seq<string>, maxLength: int, k: nat)
    requires k < |SentenceChunks(ss, maxLength)|
    requires var m := SentenceChunks(ss, maxLength)[k].metadata;
      m.SentenceMeta? && m.startSentence < m.endSentence
    ensures |SentenceChunks(ss, maxLength)[k].text| <= maxLength
  {
    SentencePacking(ss, 0, maxLength, k);
    var c := SentenceChunks(ss, maxLength)[k];
    GreedyChunkFits(ss, c, maxLength);
  }

  lemma GreedyChunkFits(ss: seq<string>, c: Chunk, maxLength: int)
    requires GreedyChunk(ss, c, maxLength)
    requires c.metadata.startSentence < c.metadata.endSentence
    ensures |c.text| <= maxLength
  {
    var a, e := c.metadata.startSentence, c.metadata.endSentence + 1;
    var j := e - 1;
    assert Fits(ss, a, j, maxLength);
    JoinSnoc(ss, a, j);
    assert |c.text| <= |Join(" ", ss[a..e])|;
  }

  /** A single sentence longer than `maxLength` still becomes one chunk, whole. */
  lemma LongSentenceIsKept()
    ensures SentenceChunks(["abcdef"], 3) == [Chunk("abcdef", SentenceMeta(0, 0))]
    ensures |SentenceChunks(["abcdef"], 3)[0].text| > 3
  {
    var ss := ["abcdef"];
    assert GreedyEnd(ss, 0, 1, 3) == 1;
    assert ss[0..1] == ["abcdef"];
    assert Strip("abcdef") == "abcdef" by {
      assert !IsSpace('a') && !IsSpace('f');
    }
  }

  // ----------------------------------------------------------------- window tier

  /** The window `text[start:start + maxLength]` and its bounds. */
  function WindowChunkAt(text: string, start: nat, maxLength: nat): Chunk
    requires start <= |text|
  {
    var e := Min(start + maxLength, |text|);
    Chunk(Strip(text[start..e]), WindowMeta(start, e))
  }

  /** The window starts `start, start + step, ...` that lie inside a text of length `n`. */
  function WindowStartsFrom(n: nat, start: nat, step: int): (ps: seq<nat>)
    requires step > 0 || start >= n
    ensures forall k :: 0 <= k < |ps| ==> start <= ps[k] < n
    decreases n - start
  {
    if start >= n then [] else [start] + WindowStartsFrom(n, start + step, step)
  }

  /** The window chunks of `text` taken at the given starts. */
  function WindowChunksAt(text: string, ps: seq<nat>, maxLength: nat): (cs: seq<Chunk>)
    requires forall k :: 0 <= k < |ps| ==> ps[k] <= |text|
    ensures |cs| == |ps|
  {
    seq(|ps|, k requires 0 <= k < |ps| => WindowChunkAt(text, ps[k], maxLength))
  }

  /** The window tier: a window at every multiple of `step` below `|text|`. */
  function WindowChunks(text: string, maxLength: nat, step: int): (cs: seq<Chunk>)
    requires step > 0 || |text| == 0
  {
    WindowChunksAt(text, WindowStartsFrom(|text|, 0, step), maxLength)
  }

  /** The windows start at `start`, `start + step`, `start + 2 * step`, ..., as
      long as the start is inside the text: so there are ceil((n - start) / step)
      of them. */
  lemma WindowStarts(n: nat, start: nat, step: int)
    requires step > 0
    ensures var ps := WindowStartsFrom(n, start, step);
      (|ps| == 0 <==> start >= n) &&
      (|ps| > 0 ==> start + Offset(|ps| - 1, step) < n <= start + Offset(|ps|, step)) &&
      forall k :: 0 <= k < |ps| ==> ps[k] == start + Offset(k, step)
  {
    WindowCount(n, start, step);
    forall k | 0 <= k < |WindowStartsFrom(n, start, step)|
      ensures WindowStartsFrom(n, start, step)[k] == start + Offset(k, step)
    {
      WindowAt(n, start, step, k);
    }
  }

  lemma {:induction false} WindowCount(n: nat, start: nat, step: int)
    requires step > 0
    ensures var c := |WindowStartsFrom(n, start, step)|;
      (c == 0 <==> start >= n) &&
      (c > 0 ==> start + Offset(c - 1, step) < n <= start + Offset(c, step))
    decreases n - start
  {
    if start < n {
      var c := |WindowStartsFrom(n, start, step)|;
      var m := |WindowStartsFrom(n, start + step, step)|;
      WindowCount(n, start + step, step);
      assert c == m + 1;
      if m > 0 {
        OffsetStep(m - 1, step);
      }
      OffsetStep(m, step);
    }
  }

  /** `Offset(k + 1, size)` read from the front: one batch, then `k` more. */
  lemma {:induction false} OffsetStep(k: nat, size: nat)
    ensures Offset(k + 1, size) == size + Offset(k, size)
  {
  }

  lemma {:induction false} WindowAt(n: nat, start: nat, step: int, k: nat)
    requires step > 0 && k < |WindowStartsFrom(n, start, step)|
    ensures WindowStartsFrom(n, start, step)[k] == start + Offset(k, step)
    decreases k
  {
    var ps := WindowStartsFrom(n, start, step);
    var rest := WindowStartsFrom(n, start + step, step);
    assert ps == [start] + rest;
    if k > 0 {
      assert ps[k] == rest[k - 1];
      WindowAt(n, start + step, step, k - 1);
      OffsetStep(k - 1, step);
    }
  }

  /** With a non-negative overlap the windows leave no gap: every character of
      the text lies in window number `p / step`, and each window spans at most
      `maxLength` characters. */
  lemma WindowCoverage(text: string, maxLength: nat, overlap: int, p: nat)
    requires 0 <= overlap < maxLength && p < |text|
    ensures var cs := WindowChunks(text, maxLength, maxLength - overlap);
      var k := p / (maxLength - overlap);
      k < |cs| && cs[k].metadata.WindowMeta? &&
      cs[k].metadata.chunkStart <= p < cs[k].metadata.chunkEnd &&
      cs[k].metadata.chunkEnd - cs[k].metadata.chunkStart <= maxLength
  {
    var step := maxLength - overlap;
    var ps := WindowStartsFrom(|text|, 0, step);
    var k := p / step;
    StartCovering(|text|, step, p);
    WindowMetaAt(text, ps, maxLength, k);
  }

  /** The span of the window at `ps[k]`. */
  lemma WindowMetaAt(text: string, ps: seq<nat>, maxLength: nat, k: nat)
    requires forall j :: 0 <= j < |ps| ==> ps[j] <= |text|
    requires k < |ps|
    ensures WindowChunksAt(text, ps, maxLength)[k].metadata == WindowMeta(ps[k], Min(ps[k] + maxLength, |text|))
  {
  }

  /** Position `p` lies in the window that starts at `(p / step) * step`. */
  lemma StartCovering(n: nat, step: int, p: nat)
    requires step > 0 && p < n
    ensures var ps := WindowStartsFrom(n, 0, step);
      p / step < |ps| && ps[p / step] <= p < ps[p / step] + step
  {
    var ps := WindowStartsFrom(n, 0, step);
    WindowStarts(n, 0, step);
    var k := p / step;
    DivBounds(p, step);
    OffsetIsProduct(k, step);
    if k >= |ps| {
      OffsetMonotone(|ps|, k, step);
      assert false;
    }
  }

  lemma DivBounds(p: nat, step: int)
    requires step > 0
    ensures (p / step) * step <= p < (p / step) * step + step
  {
    assert p == (p / step) * step + p % step;
  }

  lemma {:induction false} OffsetMonotone(a: nat, b: nat, size: nat)
    requires a <= b
    ensures Offset(a, size) <= Offset(b, size)
    decreases b
  {
    if a < b {
      OffsetMonotone(a, b - 1, size);
    }
  }

  // ------------------------------------------------------------ the three tiers

  /** `robust_chunker`: heading tier when there are two or more heading
      matches; otherwise the sentence tier when it yields anything; otherwise
      fixed character windows. */
  function RobustChunks(text: string, maxLength: nat, overlap: int,
                        hs: seq<nat>, sentences: Option<seq<string>>): seq<Chunk>
    requires ValidHeadings(text, hs)
    requires WindowTierTerminates(text, maxLength, overlap, hs, sentences)
  {
    if |hs| > 1 then HeadingChunks(text, hs)
    else if sentences.Some? && |SentenceChunks(sentences.value, maxLength)| > 0 then
      SentenceChunks(sentences.value, maxLength)
    else WindowChunks(text, maxLength, maxLength - overlap)
  }

  /** The chunker as the source runs it: each tier is a loop that appends to
      `chunks`, and a tier that produced nothing hands over to the next. */
  method RobustChunker(text: string, maxLength: nat, overlap: int,
                       headings: seq<nat>, sentences: Option<seq<string>>)
    returns (chunks: seq<Chunk>)
    requires ValidHeadings(text, headings)
    requires WindowTierTerminates(text, maxLength, overlap, headings, sentences)
    ensures chunks == RobustChunks(text, maxLength, overlap, headings, sentences)
  {
    if |headings| > 1 {
      chunks := HeadingSections(text, headings);
      return;
    }
    if sentences.Some? {
      chunks := PackSentences(sentences.value, maxLength, overlap);
      if |chunks| > 0 {
        return;
      }
    }
    chunks := SlideWindows(text, maxLength, overlap);
  }

  /** Tier 1: one chunk per heading match, from the match to the next one. */
  method HeadingSections(text: string, headings: seq<nat>) returns (chunks: seq<Chunk>)
    requires ValidHeadings(text, headings)
    ensures chunks == HeadingChunks(text, headings)
  {
    chunks := [];
    var i := 0;
    while i < |headings|
      invariant 0 <= i <= |headings|
      invariant chunks == HeadingChunks(text, headings)[..i]
    {
      var start := headings[i];
      var end := if i + 1 < |headings| then headings[i + 1] else |text|;
      var chunkText := Strip(text[start..end]);
      var heading := HeadingOf(chunkText);
      assert HeadingChunks(text, headings)[..i + 1]
          == HeadingChunks(text, headings)[..i] + [HeadingChunkAt(text, headings, i)];
      chunks := chunks + [Chunk(chunkText, HeadingMeta(heading, start, end))];
      i := i + 1;
    }
  }

  /** Tier 2: greedy packing of whole sentences. (`overlap_idx` is computed and
      never used, so consecutive sentence chunks do not overlap.) */
  method PackSentences(ss: seq<string>, maxLength: nat, overlap: int) returns (chunks: seq<Chunk>)
    ensures chunks == SentenceChunks(ss, maxLength)
  {
    chunks := [];
    var sentIdx := 0;
    while sentIdx < |ss|
      invariant 0 <= sentIdx <= |ss|
      invariant chunks + SentenceChunksFrom(ss, sentIdx, maxLength) == SentenceChunks(ss, maxLength)
      decreases |ss| - sentIdx
    {
      var chunkStartIdx := sentIdx;
      var c;
      c, sentIdx := NextSentenceChunk(ss, chunkStartIdx, maxLength, overlap);
      AppendStep(chunks, SentenceChunksFrom(ss, chunkStartIdx, maxLength), c,
                 SentenceChunksFrom(ss, sentIdx, maxLength), SentenceChunks(ss, maxLength));
      chunks := chunks + [c];
    }
    SentenceDone(ss, chunks, sentIdx, maxLength);
  }

  /** Moving the head of the unprocessed part onto the processed part. */
  lemma AppendStep<T>(done: seq<T>, todo: seq<T>, c: T, rest: seq<T>, all: seq<T>)
    requires done + todo == all && todo == [c] + rest
    ensures (done + [c]) + rest == all
  {
    assert (done + [c]) + rest == done + ([c] + rest);
  }

  lemma SentenceDone(ss: seq<string>, done: seq<Chunk>, from: nat, maxLength: int)
    requires from >= |ss|
    requires done + SentenceChunksFrom(ss, from, maxLength) == SentenceChunks(ss, maxLength)
    ensures done == SentenceChunks(ss, maxLength)
  {
    assert SentenceChunksFrom(ss, from, maxLength) == [];
    assert done + [] == done;
  }

  /** One chunk of tier 2: the sentences from `from` that the greedy rule
      takes, joined and stripped; `next` is the first sentence after it. */
  method NextSentenceChunk(ss: seq<string>, from: nat, maxLength: int, overlap: int)
    returns (c: Chunk, next: nat)
    requires from < |ss|
    ensures from < next <= |ss|
    ensures SentenceChunksFrom(ss, from, maxLength) == [c] + SentenceChunksFrom(ss, next, maxLength)
  {
    var chunk;
    chunk, next := GrowChunk(ss, from, maxLength);
    var overlapIdx := if next - overlap / 20 > 0 then next - overlap / 20 else 0;
    c := Chunk(Strip(chunk), SentenceMeta(from, next - 1));
    SentenceStep(ss, from, maxLength);
  }

  /** The inner loop of tier 2: starting from sentence `from`, keep appending
      the next sentence while the chunk plus that sentence is shorter than
      `maxLength`. */
  method GrowChunk(ss: seq<string>, from: nat, maxLength: int) returns (chunk: string, next: nat)
    requires from < |ss|
    ensures next == GreedyEnd(ss, from, from + 1, maxLength)
    ensures chunk == Join(" ", ss[from..next])
  {
    chunk := ss[from];
    next := from + 1;
    assert ss[from..next] == [chunk];
    while next < |ss| && |chunk| + |ss[next]| < maxLength
      invariant from < next <= |ss|
      invariant chunk == Join(" ", ss[from..next])
      invariant GreedyEnd(ss, from, next, maxLength) == GreedyEnd(ss, from, from + 1, maxLength)
    {
      JoinSnoc(ss, from, next);
      chunk := chunk + " " + ss[next];
      next := next + 1;
    }
  }

  /** One step of the sentence recursion, read from the front. */
  lemma SentenceStep(ss: seq<string>, from: nat, maxLength: int)
    requires from < |ss|
    ensures var e := GreedyEnd(ss, from, from + 1, maxLength);
      SentenceChunksFrom(ss, from, maxLength)
        == [Chunk(Strip(Join(" ", ss[from..e])), SentenceMeta(from, e - 1))] + SentenceChunksFrom(ss, e, maxLength)
  {
  }

  /** Tier 3: windows of `maxLength` characters every `maxLength - overlap`. */
  method SlideWindows(text: string, maxLength: nat, overlap: int) returns (chunks: seq<Chunk>)
    requires |text| == 0 || overlap < maxLength
    ensures chunks == WindowChunks(text, maxLength, maxLength - overlap)
  {
    chunks := [];
    var i: nat := 0;
    var n := |text|;
    var step := maxLength - overlap;
    ghost var ps := WindowStartsFrom(n, 0, step);
    ghost var j := 0;
    while i < n
      invariant j <= |ps| && ps[..j] + WindowStartsFrom(n, i, step) == ps
      invariant chunks == WindowChunksAt(text, ps[..j], maxLength)
      decreases n - i
    {
      var c := CutWindow(text, i, maxLength);
      WindowStep(text, maxLength, step, ps, j, i);
      chunks := chunks + [c];
      i := i + step;
      j := j + 1;
    }
    assert ps[..j] == ps;
  }

  /** The chunk of the window starting at `i`. */
  method CutWindow(text: string, i: nat, maxLength: nat) returns (c: Chunk)
    requires i < |text|
    ensures c == WindowChunkAt(text, i, maxLength)
  {
    var end := Min(i + maxLength, |text|);
    var chunkText := text[i..end];
    c := Chunk(Strip(chunkText), WindowMeta(i, end));
  }

  lemma WindowStep(text: string, maxLength: nat, step: int, ps: seq<nat>, j: nat, i: nat)
    requires step > 0 && i < |text|
    requires ps == WindowStartsFrom(|text|, 0, step)
    requires j <= |ps| && ps[..j] + WindowStartsFrom(|text|, i, step) == ps
    ensures j < |ps| && ps[..j + 1] + WindowStartsFrom(|text|, i + step, step) == ps
    ensures WindowChunksAt(text, ps[..j + 1], maxLength)
         == WindowChunksAt(text, ps[..j], maxLength) + [WindowChunkAt(text, i, maxLength)]
  {
    assert WindowStartsFrom(|text|, i, step) == [i] + WindowStartsFrom(|text|, i + step, step);
    assert ps[j] == i;
    assert ps[..j + 1] == ps[..j] + [i];
  }

  /** `chunk_text`: the texts of the chunks, same count and order, with the
      default `max_length` and `overlap`. */
  method ChunkText(docText: string, headings: seq<nat>, sentences: Option<seq<string>>)
    returns (texts: seq<string>)
    requires ValidHeadings(docText, headings)
    ensures var cs := RobustChunks(docText, DefaultMaxLength, DefaultOverlap, headings, sentences);
      |texts| == |cs| && forall i :: 0 <= i < |cs| ==> texts[i] == cs[i].text
  {
    var chunkDicts := RobustChunker(docText, DefaultMaxLength, DefaultOverlap, headings, sentences);
    texts := seq(|chunkDicts|, i requires 0 <= i < |chunkDicts| => chunkDicts[i].text);
  }

  // ------------------------------------------------------- properties of the tiers

  /** Heading chunk `i`: it spans from match `i` to the next match (the last
      one to the end of the text), its text is that span stripped, and its
      heading is the first line of that text, "" only for an empty text. */
  predicate HeadingSection(text: string, hs: seq<nat>, i: nat, c: Chunk)
    requires ValidHeadings(text, hs) && i < |hs|
  {
    c.metadata.HeadingMeta? &&
    c.metadata.chunkStart == hs[i] &&
    c.metadata.chunkEnd == (if i + 1 < |hs| then hs[i + 1] else |text|) &&
    c.text == Strip(text[hs[i]..c.metadata.chunkEnd]) &&
    c.metadata.heading == c.text[..LineLength(c.text)] &&
    (c.metadata.heading == "" <==> c.text == "")
  }

  /** Two or more heading matches: one chunk per match, chunk `i` being heading
      section `i`; so the text before the first match is dropped and the
      chunks are contiguous up to the end of the text. */
  lemma HeadingTier(text: string, maxLength: nat, overlap: int,
                    hs: seq<nat>, sentences: Option<seq<string>>)
    requires ValidHeadings(text, hs) && |hs| > 1
    ensures var cs := RobustChunks(text, maxLength, overlap, hs, sentences);
      |cs| == |hs| &&
      forall i :: 0 <= i < |cs| ==> HeadingSection(text, hs, i, cs[i])
  {
    var cs := RobustChunks(text, maxLength, overlap, hs, sentences);
    assert cs == HeadingChunks(text, hs);
    forall i | 0 <= i < |cs|
      ensures HeadingSection(text, hs, i, cs[i])
    {
      HeadingSectionAt(text, hs, i);
    }
  }

  lemma HeadingSectionAt(text: string, hs: seq<nat>, i: nat)
    requires ValidHeadings(text, hs) && i < |hs|
    ensures HeadingSection(text, hs, i, HeadingChunkAt(text, hs, i))
  {
    HeadingIsFirstLine(HeadingChunkAt(text, hs, i).text);
  }

  /** Fewer than two heading matches and at least one sentence: the sentence
      tier's chunks are the result, all of the sentence kind. */
  lemma SentenceTier(text: string, maxLength: nat, overlap: int, hs: seq<nat>, ss: seq<string>)
    requires ValidHeadings(text, hs) && |hs| <= 1 && |ss| > 0
    ensures var cs := RobustChunks(text, maxLength, overlap, hs, Some(ss));
      cs == SentenceChunks(ss, maxLength) && |cs| >= 1 &&
      forall k :: 0 <= k < |cs| ==> cs[k].metadata.SentenceMeta?
  {
    SentenceTiling(ss, 0, maxLength);
  }

  /** The window tier runs exactly when there are fewer than two heading matches
      and no sentence (the tokenizer raised or found none). */
  lemma WindowTier(text: string, maxLength: nat, overlap: int,
                   hs: seq<nat>, sentences: Option<seq<string>>)
    requires ValidHeadings(text, hs) && |hs| <= 1
    requires sentences.None? || sentences.value == []
    requires WindowTierTerminates(text, maxLength, overlap, hs, sentences)
    ensures var cs := RobustChunks(text, maxLength, overlap, hs, sentences);
      cs == WindowChunks(text, maxLength, maxLength - overlap) &&
      (|text| == 0 <==> cs == []) &&
      forall k :: 0 <= k < |cs| ==>
        (cs[k].metadata.WindowMeta? &&
         cs[k].metadata.chunkStart == k * (maxLength - overlap) &&
         cs[k].metadata.chunkEnd == Min(k * (maxLength - overlap) + maxLength, |text|))
  {
    if |text| > 0 {
      var step := maxLength - overlap;
      WindowStarts(|text|, 0, step);
      var cs := RobustChunks(text, maxLength, overlap, hs, sentences);
      forall k | 0 <= k < |cs|
        ensures cs[k].metadata.WindowMeta?
        ensures cs[k].metadata.chunkStart == k * step
        ensures cs[k].metadata.chunkEnd == Min(k * step + maxLength, |text|)
      {
        OffsetIsProduct(k, step);
      }
    }
  }

  /** Every non-empty text yields at least one chunk, whichever tier runs. */
  lemma NonEmptyTextHasChunks(text: string, maxLength: nat, overlap: int,
                              hs: seq<nat>, sentences: Option<seq<string>>)
    requires ValidHeadings(text, hs) && |text| > 0
    requires WindowTierTerminates(text, maxLength, overlap, hs, sentences)
    ensures |RobustChunks(text, maxLength, overlap, hs, sentences)| >= 1
  {
  }
}
