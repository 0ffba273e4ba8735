/**
  `query.py`: the command-line front end. Before each search the user's
  question may be rewritten by the language model, given the last three
  turns and, when the question uses a vague term and there is an earlier
  answer, the entities the model extracts from that answer. After each
  answer the turn is appended to the history; once the history holds more
  than twenty turns, the older ones are summarised and only the last ten
  are kept.

  The model's extraction, rewriting and summarising are opaque string
  functions passed in as parameters.
 */
module QueryCli {
  import opened PyStr
  import opened PySeq
  import opened RagPipeline

  /** `MAX_TURNS` */
  const MaxTurns: nat := 10

  /** The turns shown in the rewrite prompt: `history[-3:]`. */
  const RecentTurns: nat := 3

  /** `vague_terms` */
  const VagueTerms: seq<string> := ["these", "them", "those", "the above", "such methods", "those methods"]

  /** One `(query, response)` pair of the history. */
  type Turn = (string, string)

  // ------------------------------------------------------------------ enhance_query_with_entities

  /** `any(term in s for term in terms)` */
  predicate AnyIn(terms: seq<string>, s: string)
    decreases |terms|
  {
    |terms| > 0 && (Contains(s, terms[0]) || AnyIn(terms[1..], s))
  }

  /** `needs_entity` */
  predicate NeedsEntity(query: string) {
    AnyIn(VagueTerms, Lower(query))
  }

  /** `f"Q: {q}\nA: {a}"` */
  function TurnText(t: Turn): (s: string)
    ensures s != ""
  {
    "Q: " + t.0 + "\nA: " + t.1
  }

  function TurnTexts(ts: seq<Turn>): (ss: seq<string>)
    ensures |ss| == |ts|
    ensures forall k :: 0 <= k < |ts| ==> ss[k] == TurnText(ts[k])
  {
    seq(|ts|, k requires 0 <= k < |ts| => TurnText(ts[k]))
  }

  /** `recent`: the last three turns, one after the other; "" without history. */
  function Recent(history: seq<Turn>): string {
    if history == [] then "" else Join("\n", TurnTexts(Last(history, RecentTurns)))
  }

  /** `last_answer`: the response of the final turn; "" without history. */
  function LastAnswer(history: seq<Turn>): string {
    if history == [] then "" else history[|history| - 1].1
  }

  /** `entity_list`: the stripped extraction from the last answer, asked for
      only when the question is vague and there is a last answer. */
  function EntityList(query: string, history: seq<Turn>, extract: string -> string): string {
    if NeedsEntity(query) && LastAnswer(history) != "" then Strip(extract(LastAnswer(history))) else ""
  }

  /** `enhance_query_with_entities`: the stripped rewrite, or the original
      question when the rewrite is blank. `rewrite` takes the original query,
      the recent history and the entity list. */
  function EnhanceQueryWithEntities(query: string, history: seq<Turn>, extract: string -> string,
                                    rewrite: (string, string, string) -> string): string
  {
    var enhanced := Strip(rewrite(query, Recent(history), EntityList(query, history, extract)));
    if enhanced != "" then enhanced else query
  }

  // ------------------------------------------------------------------ the history update of the main loop

  /** The loop's `history` and `summary`. */
  datatype ConversationState = ConversationState(history: seq<Turn>, summary: string)

  /** Steps 4 and 5 of the loop: append the turn; past `2 * MAX_TURNS` turns,
      summarise `history[:-MAX_TURNS]` and keep `history[-MAX_TURNS:]`. */
  function AfterTurn(st: ConversationState, turn: Turn, summarize: seq<Turn> -> string): ConversationState {
    var h := st.history + [turn];
    if |h| > 2 * MaxTurns then ConversationState(h[|h| - MaxTurns..], summarize(h[..|h| - MaxTurns]))
    else ConversationState(h, st.summary)
  }

  /** The state after a session's turns, from the empty start. */
  function Session(turns: seq<Turn>, summarize: seq<Turn> -> string): ConversationState
    decreases |turns|
  {
    if |turns| == 0 then ConversationState([], "")
    else AfterTurn(Session(turns[..|turns| - 1], summarize), turns[|turns| - 1], summarize)
  }

  /** The conversation the main loop keeps. */
  class Conversation {
    var history: seq<Turn>
    var summary: string

    /** `history = []`, `summary = ""` */
    constructor()
      ensures history == [] && summary == ""
    {
      history := [];
      summary := "";
    }

    function State(): ConversationState
      reads this
    {
      ConversationState(history, summary)
    }

    /** The cap the update keeps. */
    predicate Valid()
      reads this
    {
      |history| <= 2 * MaxTurns
    }

    /** `history.append((query, response))`, then the trim. */
    method RecordTurn(query: string, response: string, summarize: seq<Turn> -> string)
      requires Valid()
      modifies this
      ensures Valid()
      ensures State() == AfterTurn(old(State()), (query, response), summarize)
    {
      history := history + [(query, response)];
      if |history| > 2 * MaxTurns {
        summary := summarize(history[..|history| - MaxTurns]);
        history := history[|history| - MaxTurns..];
      }
    }
  }

  /** How `pipeline.query` sees the history: every pair is a two-field entry. */
  function AsHistoryItems(history: seq<Turn>): (items: seq<HistoryItem>)
    ensures |items| == |history|
  {
    seq(|history|, k requires 0 <= k < |history| => Fields([history[k].0, history[k].1]))
  }

  // ------------------------------------------------------------------ properties

  /** `any` holds exactly when one of the terms occurs in the string. */
  lemma {:induction false} AnyInSpec(terms: seq<string>, s: string)
    ensures AnyIn(terms, s) <==> exists k :: 0 <= k < |terms| && Contains(s, terms[k])
    decreases |terms|
  {
    if |terms| > 0 {
      AnyInSpec(terms[1..], s);
      if AnyIn(terms[1..], s) {
        var k :| 0 <= k < |terms[1..]| && Contains(s, terms[1..][k]);
        assert Contains(s, terms[k + 1]);
      }
      if exists k :: 0 <= k < |terms| && Contains(s, terms[k]) {
        var k :| 0 <= k < |terms| && Contains(s, terms[k]);
        if k > 0 {
          assert terms[1..][k - 1] == terms[k];
        }
      }
    }
  }

  /** `needs_entity` holds exactly when a vague term occurs in the lowercased question. */
  lemma NeedsEntitySpec(query: string)
    ensures NeedsEntity(query) <==> exists k :: 0 <= k < |VagueTerms| && Contains(Lower(query), VagueTerms[k])
  {
    AnyInSpec(VagueTerms, Lower(query));
  }

  /** The test is on substrings, not words: "mathematics" holds "them". */
  lemma MathematicsIsVague()
    ensures NeedsEntity("mathematics")
  {
    var q := "mathematics";
    var lq := Lower(q);
    assert lq[2..6] == "them";
    ContainsAt(lq, "them", 2);
    assert VagueTerms[1] == "them";
    NeedsEntitySpec(q);
  }

  /** `recent` is empty exactly without history; it shows the last three
      turns, so what came before them does not change it; a history of at
      most three turns is shown whole. */
  lemma RecentSpec(history: seq<Turn>)
    ensures Recent(history) == "" <==> history == []
    ensures |history| <= RecentTurns ==> Recent(history) == Join("\n", TurnTexts(history))
    ensures |history| >= RecentTurns ==>
      forall earlier: seq<Turn> {:trigger earlier + history} :: Recent(earlier + history) == Recent(history)
  {
    if history != [] {
      JoinNonEmpty("\n", TurnTexts(Last(history, RecentTurns)));
    }
    if |history| >= RecentTurns {
      forall earlier: seq<Turn> ensures Recent(earlier + history) == Recent(history) {
        var h := earlier + history;
        assert h[|h| - RecentTurns..] == history[|history| - RecentTurns..];
      }
    }
  }

  /** `last_answer` is the response just recorded. */
  lemma LastAnswerSpec(history: seq<Turn>, query: string, response: string)
    ensures LastAnswer(history + [(query, response)]) == response
    ensures LastAnswer([]) == ""
  {
  }

  /** The extractor is consulted only for a vague question with a last answer:
      otherwise the entity list is "" and the result does not depend on it. */
  lemma ExtractionOnlyWhenNeeded(query: string, history: seq<Turn>, extract: string -> string,
                                 other: string -> string, rewrite: (string, string, string) -> string)
    ensures !(NeedsEntity(query) && LastAnswer(history) != "") ==>
      EntityList(query, history, extract) == "" &&
      EnhanceQueryWithEntities(query, history, extract, rewrite) ==
      EnhanceQueryWithEntities(query, history, other, rewrite)
    ensures NeedsEntity(query) && LastAnswer(history) != "" ==>
      EntityList(query, history, extract) == Strip(extract(LastAnswer(history)))
  {
  }

  /** The result is the rewrite, stripped, when that is not blank, and the
      original question otherwise; a non-empty question never becomes empty. */
  lemma EnhanceQuerySpec(query: string, history: seq<Turn>, extract: string -> string,
                         rewrite: (string, string, string) -> string)
    ensures var raw := rewrite(query, Recent(history), EntityList(query, history, extract));
      var r := EnhanceQueryWithEntities(query, history, extract, rewrite);
      (IsBlank(raw) ==> r == query) &&
      (!IsBlank(raw) ==> r == Strip(raw) && r != "" && !IsSpace(r[0]) && !IsSpace(r[|r| - 1])) &&
      (query != "" ==> r != "")
  {
  }

  /** One update appends exactly the new turn; it trims only a full history
      of twenty turns, summarising the eleven oldest and keeping the ten
      newest; the cap of twenty always holds afterwards. */
  lemma AfterTurnSpec(st: ConversationState, turn: Turn, summarize: seq<Turn> -> string)
    requires |st.history| <= 2 * MaxTurns
    ensures var st' := AfterTurn(st, turn, summarize);
      var h := st.history + [turn];
      |st'.history| <= 2 * MaxTurns &&
      st'.history[|st'.history| - 1] == turn &&
      h[|h| - |st'.history|..] == st'.history &&
      (|st.history| < 2 * MaxTurns ==> st' == ConversationState(h, st.summary)) &&
      (|st.history| == 2 * MaxTurns ==>
        |st'.history| == MaxTurns && st'.summary == summarize(st.history[..MaxTurns + 1]))
  {
    var h := st.history + [turn];
    if |st.history| == 2 * MaxTurns {
      assert h[..|h| - MaxTurns] == st.history[..MaxTurns + 1];
    }
  }

  /** Over a whole session the history never holds more than twenty turns,
      nor more than were recorded, and never fewer than ten once ten turns
      have been recorded. */
  lemma {:induction false} SessionBounds(turns: seq<Turn>, summarize: seq<Turn> -> string)
    ensures var n := |Session(turns, summarize).history|;
      n <= 2 * MaxTurns && n <= |turns| && Min(|turns|, MaxTurns) <= n
    decreases |turns|
  {
    if |turns| > 0 {
      var init := turns[..|turns| - 1];
      var st := Session(init, summarize);
      SessionBounds(init, summarize);
      AfterTurnSpec(st, turns[|turns| - 1], summarize);
    }
  }

  /** Over a whole session the history is the newest turns, in order: all of
      them while there are at most twenty, and it ends with the latest turn. */
  lemma {:induction false} SessionSuffix(turns: seq<Turn>, summarize: seq<Turn> -> string)
    ensures var h := Session(turns, summarize).history;
      |h| <= |turns| && turns[|turns| - |h|..] == h &&
      (|turns| <= 2 * MaxTurns ==> h == turns) &&
      (|turns| > 0 ==> h[|h| - 1] == turns[|turns| - 1])
    decreases |turns|
  {
    if |turns| > 0 {
      var init := turns[..|turns| - 1];
      var t := turns[|turns| - 1];
      var st := Session(init, summarize);
      SessionSuffix(init, summarize);
      SessionBounds(init, summarize);
      AfterTurnSuffix(turns, st, summarize);
    }
  }

  /** The suffix step of `SessionSuffix`, on one update. */
  lemma AfterTurnSuffix(turns: seq<Turn>, st: ConversationState, summarize: seq<Turn> -> string)
    requires |turns| > 0
    requires var init := turns[..|turns| - 1];
      |st.history| <= 2 * MaxTurns && |st.history| <= |init| &&
      init[|init| - |st.history|..] == st.history &&
      (|init| <= 2 * MaxTurns ==> st.history == init)
    ensures var h := AfterTurn(st, turns[|turns| - 1], summarize).history;
      |h| <= |turns| && turns[|turns| - |h|..] == h &&
      (|turns| <= 2 * MaxTurns ==> h == turns) &&
      h[|h| - 1] == turns[|turns| - 1]
  {
    var init := turns[..|turns| - 1];
    var t := turns[|turns| - 1];
    assert turns == init + [t];
    AfterTurnSpec(st, t, summarize);
    SuffixSnoc(init, t, st.history);
    SuffixOfSuffix(init + [t], st.history + [t], AfterTurn(st, t, summarize).history);
  }

  lemma SuffixSnoc<T>(xs: seq<T>, x: T, s: seq<T>)
    requires |s| <= |xs| && xs[|xs| - |s|..] == s
    ensures (xs + [x])[|xs| - |s|..] == s + [x]
  {
  }

  lemma SuffixOfSuffix<T>(xs: seq<T>, s: seq<T>, s': seq<T>)
    requires |s| <= |xs| && xs[|xs| - |s|..] == s
    requires |s'| <= |s| && s[|s| - |s'|..] == s'
    ensures xs[|xs| - |s'|..] == s'
  {
    assert xs[|xs| - |s'|..] == xs[|xs| - |s|..][|s| - |s'|..];
  }

  /** The pipeline reads every recorded pair as a turn, so its history
      window is the recorded pairs themselves. */
  lemma {:induction false} PairsAreTurns(history: seq<Turn>)
    ensures Turns(AsHistoryItems(history)) == AsHistoryItems(history)
    decreases |history|
  {
    if |history| > 0 {
      var init := history[..|history| - 1];
      PairsAreTurns(init);
      var items := AsHistoryItems(history);
      assert items[..|items| - 1] == AsHistoryItems(init);
      assert IsTurn(items[|items| - 1]);
    }
  }
}
