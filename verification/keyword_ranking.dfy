/**
 * Keyword scoring and ranking shared by the v0.2 service and the three
 * Streamlit apps: a prompt earns 2 when its category is one of the tagged
 * categories, plus one per tagged keyword among its own keywords; prompts
 * scoring 0 are dropped and the rest are sorted by score, highest first,
 * equal scores keeping their input order.
 */
module KeywordRanking {
  import opened PyValues
  import opened PySort
  import opened TagTable

  /** `prompt.get("category") in tags["categories"]` */
  predicate CategoryHit(tags: TagSet, p: Dict)
  {
    TextOf(p, "category").Some? && TextOf(p, "category").value in tags.categories
  }

  /** The tagged keywords the prompt also carries: `set(tags["keywords"]) & set(prompt.get("keywords", []))`. */
  function SharedKeywords(tags: TagSet, p: Dict): set<string>
  {
    (set k | k in tags.keywords) * KeywordSet(p)
  }

  /** The score the recommendation loop computes for one prompt. */
  function Score(tags: TagSet, p: Dict): (s: nat)
    ensures s == 0 <==> !CategoryHit(tags, p) && SharedKeywords(tags, p) == {}
    ensures s <= 2 + |tags.keywords|
  {
    CountedKeywordsBound(tags, p);
    (if CategoryHit(tags, p) then 2 else 0) + |SharedKeywords(tags, p)|
  }

  lemma CountedKeywordsBound(tags: TagSet, p: Dict)
    ensures |SharedKeywords(tags, p)| <= |tags.keywords|
  {
    var ks := set k | k in tags.keywords;
    SetOfSeqSize(tags.keywords);
    assert SharedKeywords(tags, p) <= ks;
    SubsetSize(SharedKeywords(tags, p), ks);
  }

  lemma {:induction false} SetOfSeqSize(s: seq<string>)
    ensures |set k | k in s| <= |s|
  {
    if s != [] {
      SetOfSeqSize(s[1..]);
      assert (set k | k in s) == {s[0]} + (set k | k in s[1..]);
    }
  }

  lemma SubsetSize(a: set<string>, b: set<string>)
    requires a <= b
    ensures |a| <= |b|
  {
    assert b == a + (b - a);
  }

  /** The sort key of a prompt: its score. */
  function ScoreKey(tags: TagSet): Dict -> Key
  {
    p => [Num(Score(tags, p) as real)]
  }

  /** The prompts that score above 0, in input order (the `scored` list before sorting). */
  function Positive(tags: TagSet, ps: seq<Dict>): (r: seq<Dict>)
    ensures |r| <= |ps|
  {
    if ps == [] then []
    else Positive(tags, ps[..|ps| - 1]) + (if Score(tags, ps[|ps| - 1]) > 0 then [ps[|ps| - 1]] else [])
  }

  /** One more prompt appends its decorated self to the scored list exactly when it scores. */
  lemma ScoredSnoc(tags: TagSet, ps: seq<Dict>, p: Dict)
    ensures Decorate(Positive(tags, ps + [p]), ScoreKey(tags))
         == Decorate(Positive(tags, ps), ScoreKey(tags))
            + (if Score(tags, p) > 0 then [([Num(Score(tags, p) as real)], p)] else [])
  {
    assert (ps + [p])[..|ps|] == ps;
  }

  /** `[item for _, item in sorted(scored, key=score, reverse=True)]` */
  function Ranked(tags: TagSet, ps: seq<Dict>): seq<Dict>
  {
    SortedBy(Positive(tags, ps), ScoreKey(tags), true)
  }

  /** The prompts of `ps` with score `v`, in order. */
  function WithScore(tags: TagSet, ps: seq<Dict>, v: nat): seq<Dict>
  {
    WithKey(ps, ScoreKey(tags), [Num(v as real)])
  }

  lemma {:induction false} PositiveMembers(tags: TagSet, ps: seq<Dict>)
    ensures forall p :: p in Positive(tags, ps) <==> p in ps && Score(tags, p) > 0
  {
    if ps != [] {
      PositiveMembers(tags, ps[..|ps| - 1]);
      assert ps == ps[..|ps| - 1] + [ps[|ps| - 1]];
    }
  }

  lemma {:induction false} WithKeyAppend<T>(s: seq<T>, t: seq<T>, key: T -> Key, k: Key)
    ensures WithKey(s + t, key, k) == WithKey(s, key, k) + WithKey(t, key, k)
  {
    if s == [] {
      assert s + t == t;
    } else {
      var h := if key(s[0]) == k then [s[0]] else [];
      assert (s + t)[0] == s[0] && (s + t)[1..] == s[1..] + t;
      WithKeyAppend(s[1..], t, key, k);
      assert WithKey(s + t, key, k) == h + (WithKey(s[1..], key, k) + WithKey(t, key, k));
      assert WithKey(s, key, k) == h + WithKey(s[1..], key, k);
    }
  }

  /** For a positive score, dropping the zero-score prompts loses none of its prompts. */
  lemma {:induction false} PositiveWithScore(tags: TagSet, ps: seq<Dict>, v: nat)
    requires v > 0
    ensures WithScore(tags, Positive(tags, ps), v) == WithScore(tags, ps, v)
  {
    if ps != [] {
      var front, last := ps[..|ps| - 1], ps[|ps| - 1];
      PositiveWithScore(tags, front, v);
      assert ps == front + [last];
      WithKeyAppend(front, [last], ScoreKey(tags), [Num(v as real)]);
      var tail := if Score(tags, last) > 0 then [last] else [];
      WithKeyAppend(Positive(tags, front), tail, ScoreKey(tags), [Num(v as real)]);
      if Score(tags, last) == 0 {
        assert WithKey([last], ScoreKey(tags), [Num(v as real)]) == [] by {
          assert ScoreKey(tags)(last) != [Num(v as real)] by {
            assert ScoreKey(tags)(last)[0] == Num(0.0);
          }
        }
      }
    }
  }

  /**
   * The ranking holds exactly the prompts that score above 0, each as often as
   * in the input; scores never increase along it; and prompts with equal
   * scores keep their input order.
   */
  lemma RankedSpec(tags: TagSet, ps: seq<Dict>)
    ensures multiset(Ranked(tags, ps)) == multiset(Positive(tags, ps))
    ensures forall p :: p in Ranked(tags, ps) <==> p in ps && Score(tags, p) > 0
    ensures forall i, j :: 0 <= i < j < |Ranked(tags, ps)|
              ==> Score(tags, Ranked(tags, ps)[i]) >= Score(tags, Ranked(tags, ps)[j])
    ensures forall v :: v > 0 ==> WithScore(tags, Ranked(tags, ps), v) == WithScore(tags, ps, v)
  {
    var pos := Positive(tags, ps);
    var r := Ranked(tags, ps);
    SortedBySpec(pos, ScoreKey(tags), true);
    PositiveMembers(tags, ps);
    forall p ensures p in r <==> p in pos {
      assert p in r <==> p in multiset(r);
    }
    forall i, j | 0 <= i < j < |r| ensures Score(tags, r[i]) >= Score(tags, r[j]) {
      NumKeyLess(Score(tags, r[i]) as real, Score(tags, r[j]) as real);
    }
    forall v | v > 0 ensures WithScore(tags, r, v) == WithScore(tags, ps, v) {
      PositiveWithScore(tags, ps, v);
    }
  }

  /** The top `k` of the ranking, for every score, are that score's first prompts in input order. */
  lemma TopKeepsInputOrder(tags: TagSet, ps: seq<Dict>, k: int, v: nat)
    requires v > 0
    ensures WithScore(tags, Take(Ranked(tags, ps), k), v) <= WithScore(tags, ps, v)
  {
    var r := Ranked(tags, ps);
    RankedSpec(tags, ps);
    WithKeyPrefix(r, |Take(r, k)|, ScoreKey(tags), [Num(v as real)]);
  }

  /**
   * The first `k` of the ranking (`[:k]`): prompts of the input scoring above
   * 0, scores non-increasing, for every score a prefix of that score's prompts
   * in input order, and `k` of them or all there are.
   */
  lemma TopRankedSpec(tags: TagSet, ps: seq<Dict>, k: int)
    ensures var r := Take(Ranked(tags, ps), k);
      && (forall p :: p in r ==> p in ps && Score(tags, p) > 0)
      && (forall i, j :: 0 <= i < j < |r| ==> Score(tags, r[i]) >= Score(tags, r[j]))
      && (forall v :: v > 0 ==> WithScore(tags, r, v) <= WithScore(tags, ps, v))
      && (0 <= k ==> |r| == Min(k, |Positive(tags, ps)|))
  {
    var r := Ranked(tags, ps);
    RankedSpec(tags, ps);
    assert |r| == |Positive(tags, ps)| by {
      assert |multiset(r)| == |multiset(Positive(tags, ps))|;
    }
    forall v | v > 0 ensures WithScore(tags, Take(r, k), v) <= WithScore(tags, ps, v) {
      TopKeepsInputOrder(tags, ps, k, v);
    }
  }

  /** The scoring loop: `scored` gets (score, prompt) for each prompt scoring above 0, in input order. */
  method ScorePrompts(tags: TagSet, prompts: seq<Dict>) returns (scored: seq<(Key, Dict)>)
    requires forall p | p in prompts :: KeywordsIterable(p)
    ensures scored == Decorate(Positive(tags, prompts), ScoreKey(tags))
  {
    scored := [];
    var i := 0;
    while i < |prompts|
      invariant 0 <= i <= |prompts|
      invariant scored == Decorate(Positive(tags, prompts[..i]), ScoreKey(tags))
    {
      scored := ScoreStep(tags, prompts, i, scored);
      i := i + 1;
    }
    assert prompts[..i] == prompts;
  }

  /** One pass of the scoring loop: `prompts[i]` joins `scored` when it scores above 0. */
  method ScoreStep(tags: TagSet, prompts: seq<Dict>, i: nat, scored: seq<(Key, Dict)>) returns (r: seq<(Key, Dict)>)
    requires i < |prompts| && KeywordsIterable(prompts[i])
    requires scored == Decorate(Positive(tags, prompts[..i]), ScoreKey(tags))
    ensures r == Decorate(Positive(tags, prompts[..i + 1]), ScoreKey(tags))
  {
    var prompt := prompts[i];
    var score := PromptScore(tags, prompt);
    r := scored;
    if score > 0 {
      r := r + [([Num(score as real)], prompt)];
    }
    assert prompts[..i + 1] == prompts[..i] + [prompt];
    ScoredSnoc(tags, prompts[..i], prompt);
  }

  /** The loop body's score: 2 for a tagged category, plus the shared keywords. */
  method PromptScore(tags: TagSet, prompt: Dict) returns (score: nat)
    requires KeywordsIterable(prompt)
    ensures score == Score(tags, prompt)
  {
    score := 0;
    var category := TextOf(prompt, "category");
    if category.Some? && category.value in tags.categories {
      score := score + 2;
    }
    score := score + |(set k | k in tags.keywords) * KeywordSet(prompt)|;
  }

  /**
   * `recommend` of the vector apps: score, sort by score descending (stable),
   * keep the first `top_k`.
   */
  method Recommend(tags: TagSet, prompts: seq<Dict>, topK: int) returns (r: seq<Dict>)
    requires forall p | p in prompts :: KeywordsIterable(p)
    ensures r == Take(Ranked(tags, prompts), topK)
    ensures forall p :: p in r ==> p in prompts && Score(tags, p) > 0
    ensures forall i, j :: 0 <= i < j < |r| ==> Score(tags, r[i]) >= Score(tags, r[j])
    ensures forall v :: v > 0 ==> WithScore(tags, r, v) <= WithScore(tags, prompts, v)
    ensures 0 <= topK ==> |r| == Min(topK, |Positive(tags, prompts)|)
  {
    var scored := ScorePrompts(tags, prompts);
    scored := SortBy(scored, true);
    r := Take(Items(scored), topK);
    TopRankedSpec(tags, prompts, topK);
  }

  /** Ranking reads the tags only as sets: reordering or repeating tags changes nothing. */
  lemma OnlyTagSetsMatter(t1: TagSet, t2: TagSet, ps: seq<Dict>)
    requires forall c :: c in t1.categories <==> c in t2.categories
    requires forall k :: k in t1.keywords <==> k in t2.keywords
    ensures Ranked(t1, ps) == Ranked(t2, ps)
  {
    assert forall p :: Score(t1, p) == Score(t2, p) by {
      forall p ensures Score(t1, p) == Score(t2, p) {
        assert SharedKeywords(t1, p) == SharedKeywords(t2, p);
      }
    }
    PositiveSame(t1, t2, ps);
    var pos := Positive(t1, ps);
    assert Decorate(pos, ScoreKey(t1)) == Decorate(pos, ScoreKey(t2));
  }

  lemma {:induction false} PositiveSame(t1: TagSet, t2: TagSet, ps: seq<Dict>)
    requires forall p :: Score(t1, p) == Score(t2, p)
    ensures Positive(t1, ps) == Positive(t2, ps)
  {
    if ps != [] {
      PositiveSame(t1, t2, ps[..|ps| - 1]);
    }
  }

  /** Without any tag nothing scores, so nothing is recommended. */
  lemma NoTagsNoRanking(ps: seq<Dict>)
    ensures Ranked(TagSet([], []), ps) == []
  {
    RankedSpec(TagSet([], []), ps);
    forall p ensures p !in Ranked(TagSet([], []), ps) {
      assert SharedKeywords(TagSet([], []), p) == {};
    }
    NoMemberEmpty(Ranked(TagSet([], []), ps));
  }

  lemma ScoresOneTwoThree(tags: TagSet, p1: Dict, p2: Dict, p3: Dict)
    requires tags == TagSet(["백엔드"], ["api"])
    requires p1 == map["category" := Str("기초"), "keywords" := StrList(["api"])]
    requires p2 == map["category" := Str("백엔드")]
    requires p3 == map["category" := Str("백엔드"), "keywords" := StrList(["api"])]
    ensures Score(tags, p1) == 1 && Score(tags, p2) == 2 && Score(tags, p3) == 3
  {
    assert (set k | k in tags.keywords) == {"api"};
    assert KeywordSet(p1) == {"api"} && KeywordSet(p3) == {"api"};
    assert KeywordSet(p2) == {};
    assert SharedKeywords(tags, p1) == {"api"};
    assert SharedKeywords(tags, p2) == {};
    assert SharedKeywords(tags, p3) == {"api"};
  }

  lemma SortThree<T>(x1: (Key, T), x2: (Key, T), x3: (Key, T))
    requires x1.0 == [Num(1.0)] && x2.0 == [Num(2.0)] && x3.0 == [Num(3.0)]
    ensures SortBy([x1, x2, x3], true) == [x3, x2, x1]
  {
    NumKeyLess(1.0, 2.0);
    NumKeyLess(2.0, 3.0);
    var d := [x1, x2, x3];
    assert d[..2] == [x1, x2] && d[..2][..1] == [x1] && [x1][..0] == [];
    assert SortBy([x1], true) == [x1];
    assert Insert(x2, [x1], true) == [x2, x1];
    assert Insert(x3, [x2, x1], true) == [x3, x2, x1];
  }

  /** When every prompt scores, none is dropped. */
  lemma {:induction false} AllPositive(tags: TagSet, ps: seq<Dict>)
    requires forall i :: 0 <= i < |ps| ==> Score(tags, ps[i]) > 0
    ensures Positive(tags, ps) == ps
  {
    if ps != [] {
      AllPositive(tags, ps[..|ps| - 1]);
      assert ps == ps[..|ps| - 1] + [ps[|ps| - 1]];
    }
  }

  lemma ThreeByScore(tags: TagSet, p1: Dict, p2: Dict, p3: Dict)
    requires Score(tags, p1) == 1 && Score(tags, p2) == 2 && Score(tags, p3) == 3
    ensures Ranked(tags, [p1, p2, p3]) == [p3, p2, p1]
  {
    var ps := [p1, p2, p3];
    AllPositive(tags, ps);
    SortedByThree(p1, p2, p3, ScoreKey(tags));
  }

  /** Three items keyed 1, 2 and 3 come out of the descending sort reversed. */
  lemma SortedByThree<T>(p1: T, p2: T, p3: T, key: T -> Key)
    requires key(p1) == [Num(1.0)] && key(p2) == [Num(2.0)] && key(p3) == [Num(3.0)]
    ensures SortedBy([p1, p2, p3], key, true) == [p3, p2, p1]
  {
    var x1, x2, x3 := ([Num(1.0)], p1), ([Num(2.0)], p2), ([Num(3.0)], p3);
    assert Decorate([p1, p2, p3], key) == [x1, x2, x3];
    SortThree(x1, x2, x3);
    assert Items([x3, x2, x1]) == [p3, p2, p1];
  }

  /**
   * A prompt with a category and a keyword hit (3) outranks a category-only
   * prompt (2), which outranks a keyword-only prompt (1): listed in the
   * opposite order, they come out reversed.
   */
  lemma CategoryAndKeywordFirst(tags: TagSet, p1: Dict, p2: Dict, p3: Dict)
    requires tags == TagSet(["백엔드"], ["api"])
    requires p1 == map["category" := Str("기초"), "keywords" := StrList(["api"])]
    requires p2 == map["category" := Str("백엔드")]
    requires p3 == map["category" := Str("백엔드"), "keywords" := StrList(["api"])]
    ensures Ranked(tags, [p1, p2, p3]) == [p3, p2, p1]
  {
    ScoresOneTwoThree(tags, p1, p2, p3);
    ThreeByScore(tags, p1, p2, p3);
  }
}
