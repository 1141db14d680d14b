/**
 * The vector app of the first vector generation: its placeholder vector
 * search is tag extraction followed by keyword recommendation. Its
 * `extract_tags` and `recommend` are the shared `TagTable.ExtractTags` and
 * `KeywordRanking.Recommend` (the table it builds locally is the shared one).
 */
module VectorApp {
  import opened PyValues
  import opened TagTable
  import opened KeywordRanking

  /** `vector_recommend(user_input, prompts, top_k)`: `recommend(extract_tags(user_input), prompts, top_k)`. */
  method VectorRecommend(userInput: string, prompts: seq<Dict>, topK: int) returns (r: seq<Dict>)
    requires forall p | p in prompts :: KeywordsIterable(p)
    ensures r == Take(Ranked(ExtractTagsSpec(CategoryKeywords, userInput), prompts), topK)
    ensures forall p :: p in r ==> p in prompts && Score(ExtractTagsSpec(CategoryKeywords, userInput), p) > 0
  {
    var tags := ExtractTags(CategoryKeywords, userInput);
    r := Recommend(tags, prompts, topK);
  }
}

/**
 * The first, commented app: `extract_tags` returns its lists through
 * `list(set(...))`, in no particular order, and `recommend` reads
 * `prompt["category"]` and `prompt["keywords"]` directly.
 */
module CommentedApp {
  import opened PyValues
  import opened PyStrings
  import opened PySort
  import opened TagTable
  import opened KeywordRanking

  /**
   * `extract_tags`: the same categories and keywords as the sorted variant,
   * without repeats, in an unspecified order; the ranking built on them is the
   * same as on the sorted lists.
   */
  method ExtractTags(text: string) returns (tags: TagSet)
    ensures forall k :: k in tags.keywords <==> KeywordMatched(CategoryKeywords, Lower(text), k)
    ensures forall c :: c in tags.categories <==> CategoryMatched(CategoryKeywords, Lower(text), c)
    ensures Distinct(tags.categories) && Distinct(tags.keywords)
    ensures multiset(tags.categories) == multiset(ExtractTagsSpec(CategoryKeywords, text).categories)
    ensures multiset(tags.keywords) == multiset(ExtractTagsSpec(CategoryKeywords, text).keywords)
    ensures forall ps :: Ranked(tags, ps) == Ranked(ExtractTagsSpec(CategoryKeywords, text), ps)
  {
    var lowered := Lower(text);
    var categoryKeywords := CategoryKeywords;
    var matchedCategories, matchedKeywords := MatchTable(categoryKeywords, lowered);
    var categories := ListOfSet(set c | c in matchedCategories);
    var keywords := ListOfSet(set k | k in matchedKeywords);
    tags := TagSet(categories, keywords);
    var sorted := ExtractTagsSpec(CategoryKeywords, text);
    ExtractTagsMeaning(CategoryKeywords, text);
    StrictlySortedDistinct(sorted.categories);
    StrictlySortedDistinct(sorted.keywords);
    DistinctSameMembers(tags.categories, sorted.categories);
    DistinctSameMembers(tags.keywords, sorted.keywords);
    forall ps ensures Ranked(tags, ps) == Ranked(sorted, ps) {
      OnlyTagSetsMatter(tags, sorted, ps);
    }
  }

  lemma StrictlySortedDistinct(s: seq<string>)
    requires StrictlySorted(s)
    ensures Distinct(s)
  {
    forall i, j | 0 <= i < j < |s| ensures s[i] != s[j] {
      StrLessIrreflexive(s[i]);
    }
  }

  /** Every prompt has the two keys `recommend` reads directly (a missing one is a `KeyError`). */
  predicate HasRecommendKeys(p: Dict)
  {
    "category" in p && "keywords" in p && KeywordsIterable(p)
  }

  /** The scoring loop of `recommend`, reading the two keys directly. */
  method ScoreWithKeyAccess(tags: TagSet, prompts: seq<Dict>) returns (scored: seq<(Key, Dict)>)
    requires forall p | p in prompts :: HasRecommendKeys(p)
    ensures scored == Decorate(Positive(tags, prompts), ScoreKey(tags))
  {
    scored := [];
    var i := 0;
    while i < |prompts|
      invariant 0 <= i <= |prompts|
      invariant scored == Decorate(Positive(tags, prompts[..i]), ScoreKey(tags))
    {
      assert prompts[i] in prompts;
      scored := KeyAccessStep(tags, prompts, i, scored);
      i := i + 1;
    }
    assert prompts[..i] == prompts;
  }

  /** One pass of the scoring loop: `prompts[i]` joins `scored` when it scores above 0. */
  method KeyAccessStep(tags: TagSet, prompts: seq<Dict>, i: nat, scored: seq<(Key, Dict)>) returns (r: seq<(Key, Dict)>)
    requires i < |prompts| && HasRecommendKeys(prompts[i])
    requires scored == Decorate(Positive(tags, prompts[..i]), ScoreKey(tags))
    ensures r == Decorate(Positive(tags, prompts[..i + 1]), ScoreKey(tags))
  {
    var prompt := prompts[i];
    var score := ScoreByKeys(tags, prompt);
    r := scored;
    if score > 0 {
      r := r + [([Num(score as real)], prompt)];
    }
    assert prompts[..i + 1] == prompts[..i] + [prompt];
    ScoredSnoc(tags, prompts[..i], prompt);
  }

  /** The loop body's score, reading `prompt["category"]` and `prompt["keywords"]` directly. */
  method ScoreByKeys(tags: TagSet, prompt: Dict) returns (score: nat)
    requires HasRecommendKeys(prompt)
    ensures score == Score(tags, prompt)
  {
    var category := prompt["category"];
    score := 0;
    if category.Str? && category.s in tags.categories {
      score := score + 2;
    }
    score := score + |(set k | k in tags.keywords) * KeywordSet(prompt)|;
  }

  /** `recommend`: the shared scoring rule, read through direct key access. */
  method Recommend(tags: TagSet, prompts: seq<Dict>, topK: int) returns (r: seq<Dict>)
    requires forall p | p in prompts :: HasRecommendKeys(p)
    ensures r == Take(Ranked(tags, prompts), topK)
    ensures forall p :: p in r ==> p in prompts && Score(tags, p) > 0
    ensures forall i, j :: 0 <= i < j < |r| ==> Score(tags, r[i]) >= Score(tags, r[j])
    ensures forall v :: v > 0 ==> WithScore(tags, r, v) <= WithScore(tags, prompts, v)
    ensures 0 <= topK ==> |r| == Min(topK, |Positive(tags, prompts)|)
  {
    var scored := ScoreWithKeyAccess(tags, prompts);
    scored := SortBy(scored, true);
    r := Take(Items(scored), topK);
    TopRankedSpec(tags, prompts, topK);
  }
}
