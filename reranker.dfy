/**
  `Reranker.rerank`: score every (query, passage) pair with the cross-encoder,
  add a fixed boost to the passages whose heading echoes a query word, sort
  by score, highest first and stable on ties, and keep the first `top_n`.

  The cross-encoder's `predict` is a function parameter; scores are `real`.
 */
module Reranker {
  import opened PyStr
  import opened PySeq
  import opened VectorStore

  /** `(text, metadata, score)`, one entry of the result. */
  datatype Scored = Scored(text: string, metadata: StoredMetadata, score: real)

  /** The additive heading boost. */
  const HeadingBoost: real := 0.3

  /** `[(query, passage) for passage, _ in passages]`: one pair per passage,
      in passage order. */
  function QueryPairs(query: string, passages: seq<Passage>): (pairs: seq<(string, string)>)
    ensures |pairs| == |passages|
    ensures forall i :: 0 <= i < |passages| ==> pairs[i] == (query, passages[i].text)
  {
    seq(|passages|, i requires 0 <= i < |passages| => (query, passages[i].text))
  }

  // ------------------------------------------------------------------ boost

  /** `set(query.lower().split())`: every keyword is a non-empty run of
      non-whitespace characters. */
  function Keywords(query: string): (ks: set<string>)
    ensures forall w :: w in ks ==> IsWord(w)
  {
    WordsAreWords(Lower(query));
    set w | w in Words(Lower(query))
  }

  /** `meta.get("heading", "")` */
  function Heading(meta: StoredMetadata): string {
    if "heading" in meta then meta["heading"] else ""
  }

  /** The boost condition: the heading is non-empty and some keyword occurs in
      its lowercase form. */
  predicate HeadingMatches(keywords: set<string>, meta: StoredMetadata) {
    var h := Heading(meta);
    h != "" && exists w :: w in keywords && Contains(Lower(h), w)
  }

  /** The boost of one passage. */
  function BoostOf(keywords: set<string>, meta: StoredMetadata): real {
    if HeadingMatches(keywords, meta) then HeadingBoost else 0.0
  }

  /** The scores after the boost loop has run over every passage. */
  function Boosted(keywords: set<string>, passages: seq<Passage>, raw: seq<real>): (r: seq<real>)
    requires |raw| == |passages|
    ensures |r| == |raw|
  {
    seq(|raw|, i requires 0 <= i < |raw| => raw[i] + BoostOf(keywords, passages[i].metadata))
  }

  /** The scores the sort sees. */
  function FinalScores(query: string, passages: seq<Passage>, raw: seq<real>, boostOnHeading: bool): (r: seq<real>)
    requires |raw| == |passages|
    ensures |r| == |raw|
  {
    if boostOnHeading then Boosted(Keywords(query), passages, raw) else raw
  }

  /** Each passage gains exactly `HeadingBoost`, once, when the boost is on and
      its heading matches, and keeps its raw score otherwise; with the boost off
      the final scores are the raw ones. */
  lemma FinalScoresSpec(query: string, passages: seq<Passage>, raw: seq<real>, boostOnHeading: bool)
    requires |raw| == |passages|
    ensures var r := FinalScores(query, passages, raw, boostOnHeading);
      forall i :: 0 <= i < |raw| ==>
        (r[i] == raw[i] + HeadingBoost <==> boostOnHeading && HeadingMatches(Keywords(query), passages[i].metadata)) &&
        (r[i] == raw[i] <==> !(boostOnHeading && HeadingMatches(Keywords(query), passages[i].metadata)))
    ensures !boostOnHeading ==> FinalScores(query, passages, raw, boostOnHeading) == raw
  {
  }

  /** The boost loop, `scores[idx] += 0.3` for every matching passage, on the
      score array in place. */
  method ApplyHeadingBoost(keywords: set<string>, passages: seq<Passage>, scores: array<real>)
    requires scores.Length == |passages|
    modifies scores
    ensures scores[..] == Boosted(keywords, passages, old(scores[..]))
  {
    ghost var raw := scores[..];
    ghost var target := Boosted(keywords, passages, raw);
    for idx := 0 to scores.Length
      invariant forall i :: 0 <= i < idx ==> scores[i] == target[i]
      invariant forall i :: idx <= i < scores.Length ==> scores[i] == raw[i]
    {
      if HeadingMatches(keywords, passages[idx].metadata) {
        scores[idx] := scores[idx] + HeadingBoost;
      }
    }
    assert scores[..] == target;
  }

  // ------------------------------------------------------------------ sort

  /** Every entry of `o` is a position of `keys`. */
  predicate Indices(keys: seq<real>, o: seq<nat>) {
    forall k :: 0 <= k < |o| ==> o[k] < |keys|
  }

  /** Position `a` goes before position `b`: a higher key, or the same key and
      earlier in the input. */
  predicate Before(keys: seq<real>, a: nat, b: nat)
    requires a < |keys| && b < |keys|
  {
    keys[a] > keys[b] || (keys[a] == keys[b] && a < b)
  }

  /** `o` lists positions by key, highest first, ties in input order: what
      `sorted(..., key=score, reverse=True)` produces, Python's sort being stable. */
  ghost predicate StableDescending(keys: seq<real>, o: seq<nat>)
    requires Indices(keys, o)
  {
    forall k, l :: 0 <= k < l < |o| ==> Before(keys, o[k], o[l])
  }

  /** `o` is a rearrangement of the positions `0 .. m - 1`. */
  ghost predicate IsPermutation(o: seq<nat>, m: nat) {
    |o| == m &&
    (forall k :: 0 <= k < m ==> o[k] < m) &&
    (forall k, l :: 0 <= k < l < m ==> o[k] != o[l])
  }

  /** Insert position `i` into `o`, before the first position it goes before. */
  function Insert(keys: seq<real>, i: nat, o: seq<nat>): (r: seq<nat>)
    requires i < |keys| && Indices(keys, o)
    ensures |r| == |o| + 1 && Indices(keys, r)
    ensures forall k :: 0 <= k < |r| ==> r[k] == i || r[k] in o
    decreases |o|
  {
    if o == [] || keys[i] > keys[o[0]] then [i] + o
    else [o[0]] + Insert(keys, i, o[1..])
  }

  /** The first `m` positions in sorted order (an insertion sort). */
  function Order(keys: seq<real>, m: nat): (o: seq<nat>)
    requires m <= |keys|
    ensures |o| == m && Indices(keys, o)
    ensures forall k :: 0 <= k < |o| ==> o[k] < m
    decreases m
  {
    if m == 0 then [] else Insert(keys, m - 1, Order(keys, m - 1))
  }

  /** All positions in sorted order. */
  function SortOrder(keys: seq<real>): (o: seq<nat>)
    ensures |o| == |keys| && Indices(keys, o)
  {
    Order(keys, |keys|)
  }

  /** The sorted list of `(text, metadata, score)` entries. */
  function Ranked(passages: seq<Passage>, final: seq<real>): (r: seq<Scored>)
    requires |final| == |passages|
    ensures |r| == |passages|
  {
    var o := SortOrder(final);
    seq(|o|, k requires 0 <= k < |o| => Scored(passages[o[k]].text, passages[o[k]].metadata, final[o[k]]))
  }

  /** The input entries, in input order. */
  function Unsorted(passages: seq<Passage>, final: seq<real>): (r: seq<Scored>)
    requires |final| == |passages|
    ensures |r| == |passages|
  {
    seq(|passages|, i requires 0 <= i < |passages| => Scored(passages[i].text, passages[i].metadata, final[i]))
  }

  /** The sort order is a rearrangement of all positions, highest key first,
      equal keys in input order. */
  lemma SortOrderSpec(keys: seq<real>)
    ensures IsPermutation(SortOrder(keys), |keys|)
    ensures StableDescending(keys, SortOrder(keys))
  {
    OrderSorted(keys, |keys|);
    StableDescendingDistinct(keys, SortOrder(keys));
  }

  lemma {:induction false} OrderSorted(keys: seq<real>, m: nat)
    requires m <= |keys|
    ensures StableDescending(keys, Order(keys, m))
    decreases m
  {
    if m > 0 {
      OrderSorted(keys, m - 1);
      InsertSorted(keys, m - 1, Order(keys, m - 1));
    }
  }

  /** Inserting a position later than all of `o` keeps `o` sorted. */
  lemma {:induction false} InsertSorted(keys: seq<real>, i: nat, o: seq<nat>)
    requires i < |keys| && Indices(keys, o) && StableDescending(keys, o)
    requires forall k :: 0 <= k < |o| ==> o[k] < i
    ensures StableDescending(keys, Insert(keys, i, o))
    decreases |o|
  {
    var r := Insert(keys, i, o);
    if o == [] || keys[i] > keys[o[0]] {
      forall k, l | 0 <= k < l < |r| ensures Before(keys, r[k], r[l]) {
        if k == 0 {
          assert r[l] == o[l - 1];
          if l > 1 {
            assert Before(keys, o[0], o[l - 1]);
          }
        } else {
          assert r[k] == o[k - 1] && r[l] == o[l - 1];
        }
      }
    } else {
      var rest := Insert(keys, i, o[1..]);
      InsertSorted(keys, i, o[1..]);
      forall k, l | 0 <= k < l < |r| ensures Before(keys, r[k], r[l]) {
        if k == 0 {
          assert r[l] == rest[l - 1];
          if rest[l - 1] != i {
            var j :| 0 <= j < |o[1..]| && o[1..][j] == rest[l - 1];
            assert Before(keys, o[0], o[j + 1]);
          }
        } else {
          assert r[k] == rest[k - 1] && r[l] == rest[l - 1];
        }
      }
    }
  }

  /** A sorted order names no position twice. */
  lemma StableDescendingDistinct(keys: seq<real>, o: seq<nat>)
    requires Indices(keys, o) && StableDescending(keys, o)
    ensures forall k, l :: 0 <= k < l < |o| ==> o[k] != o[l]
  {
  }

  /** The sorted list is the input list rearranged: the same entries, each as
      many times; and it is ordered by score, highest first. */
  lemma RankedSpec(passages: seq<Passage>, final: seq<real>)
    requires |final| == |passages|
    ensures multiset(Ranked(passages, final)) == multiset(Unsorted(passages, final))
    ensures var r := Ranked(passages, final);
      forall k, l :: 0 <= k < l < |r| ==> r[k].score >= r[l].score
  {
    var xs := Unsorted(passages, final);
    OrderPicks(xs, final, |final|);
    assert xs[..|xs|] == xs;
    assert Ranked(passages, final) == Pick(xs, SortOrder(final));
    SortOrderSpec(final);
  }

  /** The entries of `xs` at the positions `o`, in that order. */
  function Pick<T>(xs: seq<T>, o: seq<nat>): (r: seq<T>)
    requires forall k :: 0 <= k < |o| ==> o[k] < |xs|
    ensures |r| == |o|
  {
    seq(|o|, k requires 0 <= k < |o| => xs[o[k]])
  }

  lemma {:induction false} OrderPicks<T>(xs: seq<T>, keys: seq<real>, m: nat)
    requires |xs| == |keys| && m <= |keys|
    ensures multiset(Pick(xs, Order(keys, m))) == multiset(xs[..m])
    decreases m
  {
    if m > 0 {
      var o := Order(keys, m - 1);
      OrderPicks(xs, keys, m - 1);
      InsertPicks(xs, keys, m - 1, o);
      assert Order(keys, m) == Insert(keys, m - 1, o);
      PrefixSnoc(xs, m);
    }
  }

  lemma PrefixSnoc<T>(xs: seq<T>, m: nat)
    requires 0 < m <= |xs|
    ensures multiset(xs[..m]) == multiset(xs[..m - 1]) + multiset{xs[m - 1]}
  {
    assert xs[..m] == xs[..m - 1] + [xs[m - 1]];
  }

  lemma {:induction false} InsertPicks<T>(xs: seq<T>, keys: seq<real>, i: nat, o: seq<nat>)
    requires |xs| == |keys| && i < |keys| && Indices(keys, o)
    ensures multiset(Pick(xs, Insert(keys, i, o))) == multiset(Pick(xs, o)) + multiset{xs[i]}
    decreases |o|
  {
    if o == [] || keys[i] > keys[o[0]] {
      PickCons(xs, i, o);
    } else {
      var rest := Insert(keys, i, o[1..]);
      InsertPicks(xs, keys, i, o[1..]);
      PickCons(xs, o[0], rest);
      assert o == [o[0]] + o[1..];
      PickCons(xs, o[0], o[1..]);
    }
  }

  lemma PickCons<T>(xs: seq<T>, a: nat, o: seq<nat>)
    requires a < |xs| && forall k :: 0 <= k < |o| ==> o[k] < |xs|
    ensures Pick(xs, [a] + o) == [xs[a]] + Pick(xs, o)
  {
  }

  // ------------------------------------------------------------------ rerank

  /** What `rerank` returns: the entries sorted by final score, cut to `top_n`
      by the slice `[:top_n]`. */
  function RerankResult(query: string, passages: seq<Passage>, predict: seq<(string, string)> -> seq<real>,
                        topN: int, boostOnHeading: bool): seq<Scored>
    requires |predict(QueryPairs(query, passages))| == |passages|
  {
    var raw := predict(QueryPairs(query, passages));
    Upto(Ranked(passages, FinalScores(query, passages, raw, boostOnHeading)), topN)
  }

  /** `rerank`: score, boost in place, sort, cut. */
  method Rerank(query: string, passages: seq<Passage>, predict: seq<(string, string)> -> seq<real>,
                topN: int, boostOnHeading: bool) returns (ranked: seq<Scored>)
    requires |predict(QueryPairs(query, passages))| == |passages|
    ensures ranked == RerankResult(query, passages, predict, topN, boostOnHeading)
  {
    var pairs := QueryPairs(query, passages);
    var raw := predict(pairs);
    var scores := new real[|raw|](i requires 0 <= i < |raw| => raw[i]);
    assert scores[..] == raw;
    if boostOnHeading {
      var keywords := Keywords(query);
      ApplyHeadingBoost(keywords, passages, scores);
    }
    ranked := Upto(Ranked(passages, scores[..]), topN);
  }

  /** For `top_n >= 0` the result holds `min(top_n, len(passages))` entries: the
      best ones, each an unchanged input passage with its final score placed
      by a stable descending sort. */
  lemma RerankResultSpec(passages: seq<Passage>, final: seq<real>, topN: int)
    requires |final| == |passages|
    ensures var r := Upto(Ranked(passages, final), topN);
      var o := SortOrder(final);
      (topN >= 0 ==> |r| == Min(topN, |passages|)) &&
      (topN < 0 ==> |r| == (if -topN <= |passages| then |passages| + topN else 0)) &&
      (forall k :: 0 <= k < |r| ==>
        r[k] == Scored(passages[o[k]].text, passages[o[k]].metadata, final[o[k]])) &&
      (forall k, l :: 0 <= k < l < |r| ==>
        r[k].score > r[l].score || (r[k].score == r[l].score && o[k] < o[l]))
  {
    SortOrderSpec(final);
    var o := SortOrder(final);
    forall k, l | 0 <= k < l < |o| ensures Before(final, o[k], o[l]) {
    }
  }

  /** Of two passages with the same model score, the one whose heading matches
      a query word is ranked strictly above the one whose heading does not. */
  lemma HeadingBreaksTies(query: string, passages: seq<Passage>, raw: seq<real>, i: nat, j: nat)
    requires |raw| == |passages| && i < |raw| && j < |raw| && raw[i] == raw[j]
    requires HeadingMatches(Keywords(query), passages[i].metadata)
    requires !HeadingMatches(Keywords(query), passages[j].metadata)
    ensures var o := SortOrder(FinalScores(query, passages, raw, true));
      forall k, l :: 0 <= k < |o| && 0 <= l < |o| && o[k] == i && o[l] == j ==> k < l
  {
    var final := FinalScores(query, passages, raw, true);
    FinalScoresSpec(query, passages, raw, true);
    SortOrderSpec(final);
    var o := SortOrder(final);
    forall k, l | 0 <= k < |o| && 0 <= l < |o| && o[k] == i && o[l] == j ensures k < l {
    }
  }

  /** The query "pricing" does not boost the heading "Section 2": the keyword
      has to occur in the heading, and it occurs only in the passage text. */
  lemma PricingExampleGetsNoBoost()
    ensures !HeadingMatches(Keywords("pricing"), map["heading" := "Section 2"])
  {
    PricingKeywords();
    SectionTwoLacksPricing();
  }

  /** A heading that does contain the query word gets the boost. */
  lemma MatchingHeadingGetsBoost()
    ensures HeadingMatches(Keywords("pricing"), map["heading" := "Pricing Details"])
  {
    PricingKeywords();
    var h := Lower("Pricing Details");
    assert h[..7] == "pricing";
    assert Contains(h, "pricing");
  }

  lemma PricingKeywords()
    ensures Keywords("pricing") == {"pricing"}
  {
    assert Lower("pricing") == "pricing";
    PricingWords();
  }

  lemma PricingWords()
    ensures Words("pricing") == ["pricing"]
  {
    assert WordLength("pricing") == 7 by {
      assert WordLength("g") == 1;
      assert WordLength("ng") == 2;
      assert WordLength("ing") == 3;
      assert WordLength("cing") == 4;
      assert WordLength("icing") == 5;
      assert WordLength("ricing") == 6;
    }
    assert StripLeft("pricing") == "pricing";
    assert "pricing"[..7] == "pricing" && "pricing"[7..] == "";
    assert Words("") == [];
  }

  lemma SectionTwoLacksPricing()
    ensures !Contains(Lower("Section 2"), "pricing")
  {
    var h := Lower("Section 2");
    assert h == "section 2";
    assert h[1..][1..] == h[2..] && h[2..][1..] == h[3..];
    assert !Contains(h[3..], "pricing");
    assert h[2..][..7] != "pricing" by { assert h[2..][0] == 'c'; }
    assert !Contains(h[2..], "pricing");
    assert h[1..][..7] != "pricing" by { assert h[1..][0] == 'e'; }
    assert !Contains(h[1..], "pricing");
    assert h[..7] != "pricing" by { assert h[0] == 's'; }
  }
}
