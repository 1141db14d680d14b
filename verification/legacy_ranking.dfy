/**
 * Keyword scoring of the first service generation
 * (`prompt_recommendation/services/recommendation_service.py`): a prompt
 * earns 2 when one of the user's words occurs in its lower-cased title, 1
 * when one occurs in its lower-cased body, and 1 per extracted tag among its
 * lower-cased keywords; prompts scoring 0 are dropped, the rest sorted by
 * score (stable, highest first) and cut to `top_k`.
 *
 * The ranking is stated on prompt positions, so that the service, which
 * ranks the caller's dict objects themselves, can be proved against it.
 */
module LegacyRanking {
  import opened PyValues
  import opened PyStrings
  import opened PySort
  import opened TagTable

  /** `self.category_keywords` of the first service generation. */
  const LegacyKeywords: Table := [
    ("AI/LLM", ["ai", "llm", "gpt", "claude", "llama", "langchain", "embedding", "vector"]),
    ("백엔드", ["backend", "api", "server", "database", "fastapi", "django", "flask"]),
    ("프론트엔드", ["frontend", "react", "vue", "javascript", "css", "html", "ui"]),
    ("데이터분석", ["data", "pandas", "numpy", "matplotlib", "plotly", "csv", "분석"]),
    ("자동화", ["automation", "script", "bot", "crawling", "selenium", "자동화"])
  ]

  /** `set(self.extract_tags(text))` for non-empty text. */
  function TagsOf(text: string): set<string>
  {
    set k | k in KeywordHits(LegacyKeywords, Lower(text))
  }

  /** The tags are exactly the table keywords occurring in the lower-cased text. */
  lemma TagsOfSpec(text: string)
    ensures forall k :: k in TagsOf(text) <==> KeywordMatched(LegacyKeywords, Lower(text), k)
  {
    forall k ensures k in TagsOf(text) <==> KeywordMatched(LegacyKeywords, Lower(text), k) {
      KeywordHitsMembership(LegacyKeywords, Lower(text), k);
    }
  }

  /** `set(user_input.lower().split())` */
  function UserWords(userInput: string): set<string>
  {
    set w | w in Words(Lower(userInput))
  }

  /** `any(word in field for word in user_words)` */
  predicate AnyWordIn(words: set<string>, field: string)
  {
    exists w | w in words :: Contains(field, w)
  }

  /** `set(kw.lower() for kw in prompt.get("keywords", []))` */
  function LoweredKeywords(d: Dict): set<string>
  {
    set k | k in KeywordItems(d) :: Lower(k)
  }

  /**
   * Scoring `d` raises nothing: its keywords can be iterated and, when there
   * is a user word to look for, title and body are text or absent (the
   * generator calls `.lower()` on them only once it has a first word).
   */
  predicate Scorable(words: set<string>, d: Dict)
  {
    KeywordsIterable(d) && (words != {} ==> TextOrAbsent(d, "title") && TextOrAbsent(d, "prompt"))
  }

  /** The first `m` prompts can all be scored. */
  predicate ScorableUpTo(words: set<string>, ps: seq<Dict>, m: nat)
    requires m <= |ps|
  {
    m == 0 || (ScorableUpTo(words, ps, m - 1) && Scorable(words, ps[m - 1]))
  }

  /** The recursive reading agrees with "every one of the first `m`". */
  lemma {:induction false} ScorableUpToSpec(words: set<string>, ps: seq<Dict>, m: nat)
    requires m <= |ps|
    ensures ScorableUpTo(words, ps, m) <==> forall q :: 0 <= q < m ==> Scorable(words, ps[q])
  {
    if m > 0 {
      ScorableUpToSpec(words, ps, m - 1);
    }
  }

  /** One prompt that cannot be scored spoils every longer prefix. */
  lemma {:induction false} ScorableUpToFalse(words: set<string>, ps: seq<Dict>, i: nat, m: nat)
    requires i < m <= |ps| && !Scorable(words, ps[i])
    ensures !ScorableUpTo(words, ps, m)
  {
    if m > i + 1 { ScorableUpToFalse(words, ps, i, m - 1); }
  }

  /** The score `keyword_recommend` gives one prompt. */
  function WordScore(tags: set<string>, words: set<string>, d: Dict): nat
  {
    (if AnyWordIn(words, Lower(TextField(d, "title"))) then 2 else 0)
    + (if AnyWordIn(words, Lower(TextField(d, "prompt"))) then 1 else 0)
    + |tags * LoweredKeywords(d)|
  }

  /**
   * A prompt scores 0 exactly when no user word is in its title or body and
   * it shares no tag; the score never exceeds 3 plus the number of tags, and
   * without user words only shared tags count.
   */
  lemma WordScoreSpec(tags: set<string>, words: set<string>, d: Dict)
    ensures WordScore(tags, words, d) == 0
            <==> !AnyWordIn(words, Lower(TextField(d, "title"))) && !AnyWordIn(words, Lower(TextField(d, "prompt")))
                 && tags * LoweredKeywords(d) == {}
    ensures WordScore(tags, words, d) <= 3 + |tags|
    ensures words == {} ==> WordScore(tags, words, d) == |tags * LoweredKeywords(d)|
  {
    InterBound(tags, LoweredKeywords(d));
  }

  /** Sharing never yields more tags than there are. */
  lemma InterBound(a: set<string>, b: set<string>)
    ensures |a * b| <= |a|
  {
    assert a == a * b + (a - b);
  }

  /** The score of every prompt, in order. */
  function Scores(tags: set<string>, words: set<string>, ps: seq<Dict>): (r: seq<nat>)
    ensures |r| == |ps| && forall i :: 0 <= i < |ps| ==> r[i] == WordScore(tags, words, ps[i])
  {
    seq(|ps|, i requires 0 <= i < |ps| => WordScore(tags, words, ps[i]))
  }

  /** The positions among the first `m` whose score is positive, in input order. */
  function PositiveAt(sc: seq<nat>, m: nat): (r: seq<nat>)
    requires m <= |sc|
    ensures |r| <= m && forall t :: 0 <= t < |r| ==> r[t] < m
  {
    if m == 0 then []
    else PositiveAt(sc, m - 1) + (if sc[m - 1] > 0 then [m - 1] else [])
  }

  /** The sort key of a position: its score. */
  function ScoreAt(sc: seq<nat>): nat -> Key
  {
    (i: nat) => [Num(if i < |sc| then sc[i] as real else 0.0)]
  }

  /** The positions of `sorted(scored_prompts, key=score, reverse=True)`. */
  function RankedAt(sc: seq<nat>): seq<nat>
  {
    SortedBy(PositiveAt(sc, |sc|), ScoreAt(sc), true)
  }

  /**
   * `keyword_recommend` on positions: nothing for no prompts or empty input;
   * `None` when scoring some prompt raises; otherwise the first `top_k`
   * ranked positions.
   */
  function KeywordPositions(userInput: string, ps: seq<Dict>, topK: int): Option<seq<nat>>
  {
    if ps == [] || userInput == "" then Some([])
    else
      var words := UserWords(userInput);
      if exists i | 0 <= i < |ps| :: !Scorable(words, ps[i]) then None
      else Some(Take(RankedAt(Scores(TagsOf(userInput), words, ps)), topK))
  }

  /** The scores of the prompts for this input. */
  function ScoresFor(userInput: string, ps: seq<Dict>): (r: seq<nat>)
    ensures |r| == |ps|
  {
    Scores(TagsOf(userInput), UserWords(userInput), ps)
  }

  predicate Ascending(s: seq<nat>)
  {
    forall a, b :: 0 <= a < b < |s| ==> s[a] < s[b]
  }

  lemma {:induction false} PositiveAtSpec(sc: seq<nat>, m: nat)
    requires m <= |sc|
    ensures Ascending(PositiveAt(sc, m))
    ensures forall i: nat :: i in PositiveAt(sc, m) <==> i < m && sc[i] > 0
  {
    if m > 0 {
      PositiveAtSpec(sc, m - 1);
    }
  }

  /** In a list of increasing positions, the positions with any one key increase too. */
  lemma {:induction false} WithKeyAscending(s: seq<nat>, key: nat -> Key, k: Key)
    requires Ascending(s)
    ensures Ascending(WithKey(s, key, k))
  {
    if s != [] {
      WithKeyAscending(s[1..], key, k);
      WithKeyMembers(s[1..], key, k);
      var rest := WithKey(s[1..], key, k);
      forall b | 0 <= b < |rest| ensures s[0] < rest[b] {
        assert rest[b] in s[1..];
      }
    }
  }

  /** The ranking holds every position with a positive score exactly once. */
  lemma RankedAtMembers(sc: seq<nat>)
    ensures Distinct(RankedAt(sc))
    ensures |RankedAt(sc)| == |PositiveAt(sc, |sc|)|
    ensures forall i: nat :: i in RankedAt(sc) <==> i < |sc| && sc[i] > 0
  {
    var pos := PositiveAt(sc, |sc|);
    var r := RankedAt(sc);
    PositiveAtSpec(sc, |sc|);
    SortedBySpec(pos, ScoreAt(sc), true);
    assert |multiset(r)| == |multiset(pos)|;
    forall i: nat ensures i in r <==> i in pos {
      assert i in r <==> i in multiset(r);
    }
    DistinctPerm(pos, r);
  }

  /** Scores never increase along the ranking. */
  lemma RankedAtDescending(sc: seq<nat>)
    ensures forall a, b :: 0 <= a < b < |RankedAt(sc)| && RankedAt(sc)[a] < |sc| && RankedAt(sc)[b] < |sc|
              ==> sc[RankedAt(sc)[a]] >= sc[RankedAt(sc)[b]]
  {
    var r := RankedAt(sc);
    SortedBySpec(PositiveAt(sc, |sc|), ScoreAt(sc), true);
    forall a, b | 0 <= a < b < |r| && r[a] < |sc| && r[b] < |sc| ensures sc[r[a]] >= sc[r[b]] {
      NumKeyLess(sc[r[a]] as real, sc[r[b]] as real);
    }
  }

  /** Positions with equal scores keep their input order. */
  lemma RankedAtTies(sc: seq<nat>, a: nat, b: nat)
    requires a < b < |RankedAt(sc)| && RankedAt(sc)[a] < |sc| && RankedAt(sc)[b] < |sc|
    requires sc[RankedAt(sc)[a]] == sc[RankedAt(sc)[b]]
    ensures RankedAt(sc)[a] < RankedAt(sc)[b]
  {
    var pos := PositiveAt(sc, |sc|);
    var key := ScoreAt(sc);
    var r := RankedAt(sc);
    var k := key(r[a]);
    assert key(r[b]) == k;
    var p, q := WithKeyOrder<nat>(r, key, a, b);
    SortedBySpec(pos, key, true);
    assert WithKey(r, key, k) == WithKey(pos, key, k);
    PositiveAtSpec(sc, |sc|);
    WithKeyAscending(pos, key, k);
  }

  /**
   * `keyword_recommend` raises exactly when, for non-empty input and prompts,
   * some prompt cannot be scored; empty input or no prompts give nothing.
   */
  lemma KeywordPositionsRaises(userInput: string, ps: seq<Dict>, topK: int)
    ensures KeywordPositions(userInput, ps, topK).None?
            <==> (ps != [] && userInput != "" && exists i | 0 <= i < |ps| :: !Scorable(UserWords(userInput), ps[i]))
    ensures ps == [] || userInput == "" ==> KeywordPositions(userInput, ps, topK) == Some([])
  {
  }

  /** The first `k` ranked positions are distinct, score above 0, and number `k` or all there are. */
  lemma TopRankedAtMembers(sc: seq<nat>, k: int)
    ensures var r := Take(RankedAt(sc), k);
      && Distinct(r)
      && (forall t :: 0 <= t < |r| ==> r[t] < |sc| && sc[r[t]] > 0)
      && (0 <= k ==> |r| == Min(k, |PositiveAt(sc, |sc|)|))
  {
    var full := RankedAt(sc);
    var r := Take(full, k);
    RankedAtMembers(sc);
    assert r == full[..|r|];
    forall t | 0 <= t < |r| ensures r[t] in full {
      assert r[t] == full[t];
    }
  }

  /** Along the first `k` ranked positions scores never increase, and equal scores keep input order. */
  lemma TopRankedAtOrder(sc: seq<nat>, k: int)
    ensures var r := Take(RankedAt(sc), k);
      && (forall a, b :: 0 <= a < b < |r| && r[a] < |sc| && r[b] < |sc| ==> sc[r[a]] >= sc[r[b]])
      && (forall a, b :: 0 <= a < b < |r| && r[a] < |sc| && r[b] < |sc| && sc[r[a]] == sc[r[b]] ==> r[a] < r[b])
  {
    var full := RankedAt(sc);
    var r := Take(full, k);
    RankedAtDescending(sc);
    assert r == full[..|r|];
    forall a, b | 0 <= a < b < |r| && r[a] < |sc| && r[b] < |sc| && sc[r[a]] == sc[r[b]] ensures r[a] < r[b] {
      assert r[a] == full[a] && r[b] == full[b];
      RankedAtTies(sc, a, b);
    }
  }

  /** No position left out of the first `k` scores higher than one kept. */
  lemma TopRankedAtCut(sc: seq<nat>, k: int)
    requires 0 <= k
    ensures var r := Take(RankedAt(sc), k);
      forall i: nat, t :: i < |sc| && i !in r && sc[i] > 0 && 0 <= t < |r| && r[t] < |sc| ==> sc[i] <= sc[r[t]]
  {
    var full := RankedAt(sc);
    var r := Take(full, k);
    RankedAtMembers(sc);
    RankedAtDescending(sc);
    assert r == full[..|r|];
    forall i: nat, t | i < |sc| && i !in r && sc[i] > 0 && 0 <= t < |r| && r[t] < |sc| ensures sc[i] <= sc[r[t]] {
      assert i in full;
      var a :| 0 <= a < |full| && full[a] == i;
      assert r[t] == full[t];
    }
  }

  /**
   * What `keyword_recommend` returns when it returns: for non-empty input and
   * prompts, the first `top_k` ranked positions of the prompts' scores.
   */
  lemma KeywordPositionsSpec(userInput: string, ps: seq<Dict>, topK: int)
    requires KeywordPositions(userInput, ps, topK).Some?
    ensures var r, sc := KeywordPositions(userInput, ps, topK).value, ScoresFor(userInput, ps);
      && Distinct(r)
      && (forall t :: 0 <= t < |r| ==> r[t] < |ps| && sc[r[t]] > 0)
      && (forall a, b :: 0 <= a < b < |r| ==> sc[r[a]] >= sc[r[b]])
      && (forall a, b :: 0 <= a < b < |r| && sc[r[a]] == sc[r[b]] ==> r[a] < r[b])
      && (0 <= topK && userInput != "" ==> |r| == Min(topK, |PositiveAt(sc, |ps|)|))
      && (0 <= topK && userInput != "" ==> forall i: nat, t :: i < |ps| && i !in r && sc[i] > 0 && 0 <= t < |r| ==> sc[i] <= sc[r[t]])
  {
    var sc := ScoresFor(userInput, ps);
    if ps != [] && userInput != "" {
      assert KeywordPositions(userInput, ps, topK).value == Take(RankedAt(sc), topK);
      TopRankedAtMembers(sc, topK);
      TopRankedAtOrder(sc, topK);
      if 0 <= topK {
        TopRankedAtCut(sc, topK);
      }
    }
  }
}
