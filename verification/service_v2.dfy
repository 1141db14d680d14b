/**
 * The recommendation service of the v0.2 generation: tag extraction with an
 * early return for empty text, keyword recommendation that fails on a prompt
 * whose keywords cannot be turned into a set, the text a prompt is embedded
 * as, the embedding-cache policy, vector recommendation over an index whose
 * search is supplied from outside, and the hybrid of the two.
 */
module ServiceV2 {
  import opened PyValues
  import opened PyStrings
  import opened PySort
  import opened TagTable
  import opened KeywordRanking
  import opened RankFusion
  import opened Embedding

  /** A call that returns a value or raises an exception to its caller. */
  datatype Outcome<T> = Returned(value: T) | Raised

  /**
   * `_build_vector_index` and the state it leaves: no index for an empty list
   * or a model that fails to load; the cached index whenever the cached list
   * has as many prompts as the current one; otherwise a fresh index of the
   * prompt texts, stored in the cache file, and returned even if storing fails.
   * An exception from building the texts or from encoding reaches the caller.
   */
  function BuildSpec(s: State, prompts: seq<Dict>, env: Env, show: Value -> string): (Outcome<Option<Index>>, State)
  {
    if prompts == [] then (Returned(None), s)
    else if !s.modelLoaded && !env.modelLoads then (Returned(None), s)
    else
      var loaded := s.(modelLoaded := true);
      if loaded.cache.Stored? && |loaded.cache.prompts| == |prompts| then (Returned(Some(loaded.cache.index)), loaded)
      else match PromptTexts(prompts, show)
        case None => (Raised, loaded)
        case Some(texts) =>
          if !env.encodeSucceeds then (Raised, loaded)
          else (Returned(Some(Index(texts))), loaded.(cache := SaveCache(loaded.cache, prompts, Index(texts), env.save)))
  }

  /** `invalidate_cache`: the cache file is removed when it exists and removing succeeds. */
  function InvalidateSpec(s: State, env: Env): (r: State)
    ensures r.modelLoaded == s.modelLoaded
    ensures env.removeSucceeds ==> r.cache == Absent
    ensures r.cache == Absent || r.cache == s.cache
  {
    if s.cache != Absent && env.removeSucceeds then s.(cache := Absent) else s
  }

  /**
   * A stored cache is reused on the length of its prompt list alone: any two
   * lists of that length get the cached index back, whatever they hold.
   */
  lemma CacheMatchesOnCountOnly(s: State, p1: seq<Dict>, p2: seq<Dict>, env: Env, show: Value -> string)
    requires s.modelLoaded || env.modelLoads
    requires s.cache.Stored? && |s.cache.prompts| == |p1| == |p2| > 0
    ensures BuildSpec(s, p1, env, show).0 == BuildSpec(s, p2, env, show).0 == Returned(Some(s.cache.index))
    ensures BuildSpec(s, p1, env, show).1 == BuildSpec(s, p2, env, show).1 == s.(modelLoaded := true)
  {
  }

  /**
   * After a build that stored its index, a later build for any list of the
   * same length returns that index without encoding again.
   */
  lemma StoredIndexReused(s: State, ps: seq<Dict>, later: seq<Dict>, env: Env, env2: Env, show: Value -> string)
    requires BuildSpec(s, ps, env, show).0.Returned? && BuildSpec(s, ps, env, show).0.value.Some? && env.save == Saved
    requires |later| == |ps| > 0
    ensures BuildSpec(BuildSpec(s, ps, env, show).1, later, env2, show).0 == BuildSpec(s, ps, env, show).0
  {
    var (out, next) := BuildSpec(s, ps, env, show);
    assert next.modelLoaded;
    if !(s.cache.Stored? && |s.cache.prompts| == |ps|) {
      var texts := PromptTexts(ps, show).value;
      assert next.cache == Stored(ps, Index(texts));
    }
  }

  /**
   * Once the cache is invalidated, a build with a loadable model and
   * encodable prompts returns the index of the current prompt texts.
   */
  lemma InvalidateForcesRebuild(s: State, ps: seq<Dict>, env: Env, show: Value -> string)
    requires env.removeSucceeds && env.encodeSucceeds && (s.modelLoaded || env.modelLoads)
    requires ps != [] && forall p | p in ps :: KeywordsIterable(p)
    ensures BuildSpec(InvalidateSpec(s, env), ps, env, show).0 == Returned(Some(Index(PromptTexts(ps, show).value)))
  {
  }

  /** An index that could not be stored is still returned, and the next build does not find it. */
  lemma UnsavedIndexReturned(s: State, ps: seq<Dict>, env: Env, show: Value -> string)
    requires env.save != Saved && env.encodeSucceeds && (s.modelLoaded || env.modelLoads)
    requires ps != [] && !(s.cache.Stored? && |s.cache.prompts| == |ps|)
    requires forall p | p in ps :: KeywordsIterable(p)
    ensures BuildSpec(s, ps, env, show).0 == Returned(Some(Index(PromptTexts(ps, show).value)))
    ensures BuildSpec(s, ps, env, show).1.cache == if env.save == OpenFailed then s.cache else Unreadable
    ensures var next := BuildSpec(s, ps, env, show).1.cache; !(next.Stored? && |next.prompts| == |ps|)
  {
    var texts := PromptTexts(ps, show).value;
    assert PromptTexts(ps, show) == Some(texts);
  }

  /** The results loop of `vector_recommend`: one scored copy per hit whose index lies in `[0, len(prompts))`. */
  function VectorHits(prompts: seq<Dict>, hits: seq<(real, int)>): (r: seq<Dict>)
    ensures |r| <= |hits|
  {
    if hits == [] then []
    else
      var (score, idx) := hits[|hits| - 1];
      VectorHits(prompts, hits[..|hits| - 1])
        + (if 0 <= idx < |prompts| then [WithSimilarity(prompts[idx], score)] else [])
  }

  /** A hit is kept: its index addresses a prompt. */
  predicate InRange(prompts: seq<Dict>, hit: (real, int))
  {
    0 <= hit.1 < |prompts|
  }

  /**
   * Every result is the scored copy of the prompt of some in-range hit, every
   * in-range hit gives a result, and no hit is dropped when all are in range.
   */
  lemma {:induction false} VectorHitsSpec(prompts: seq<Dict>, hits: seq<(real, int)>)
    ensures forall d: Dict | d in VectorHits(prompts, hits)
              :: exists h | h in hits && InRange(prompts, h) :: d == WithSimilarity(prompts[h.1], h.0)
    ensures forall h | h in hits && InRange(prompts, h) :: WithSimilarity(prompts[h.1], h.0) in VectorHits(prompts, hits)
    ensures (forall h | h in hits :: InRange(prompts, h)) ==> |VectorHits(prompts, hits)| == |hits|
    ensures forall d: Dict | d in VectorHits(prompts, hits) :: "similarity_score" in d && d["similarity_score"].Number?
  {
    if hits != [] {
      var front, last := hits[..|hits| - 1], hits[|hits| - 1];
      VectorHitsSpec(prompts, front);
      assert hits == front + [last];
      assert forall h :: h in hits <==> h in front || h == last;
    }
  }

  /** The results loop of `vector_recommend`. */
  method CollectHits(prompts: seq<Dict>, hits: seq<(real, int)>) returns (results: seq<Dict>)
    ensures results == VectorHits(prompts, hits)
  {
    results := [];
    var i := 0;
    while i < |hits|
      invariant 0 <= i <= |hits|
      invariant results == VectorHits(prompts, hits[..i])
    {
      var (score, idx) := hits[i];
      if 0 <= idx < |prompts| {
        var prompt := prompts[idx];
        prompt := prompt["similarity_score" := Number(score)];
        results := results + [prompt];
      }
      assert hits[..i + 1][..i] == hits[..i];
      i := i + 1;
    }
    assert hits[..i] == hits;
  }

  /**
   * `vector_recommend` and the state it leaves: nothing for empty prompts or
   * empty input, and nothing whenever the model, the index or the search
   * fails; otherwise the in-range hits of a search for `min(top_k, len(prompts))`.
   */
  function VectorSpec(s: State, userInput: string, prompts: seq<Dict>, topK: int, env: Env,
                      show: Value -> string, search: Search): (seq<Dict>, State)
  {
    if prompts == [] || userInput == "" then ([], s)
    else if !s.modelLoaded && !env.modelLoads then ([], s)
    else
      var (built, next) := BuildSpec(s.(modelLoaded := true), prompts, env, show);
      if built.Raised? || built.value.None? then ([], next)
      else match search(built.value.value, userInput, Min(topK, |prompts|))
        case None => ([], next)
        case Some(hits) => (VectorHits(prompts, hits), next)
  }

  /** `d` is a copy of one of the prompts with its `similarity_score` set. */
  predicate ScoredCopy(prompts: seq<Dict>, d: Dict)
  {
    "similarity_score" in d && d["similarity_score"].Number?
    && exists i | 0 <= i < |prompts| :: d == WithSimilarity(prompts[i], d["similarity_score"].n)
  }

  /** Every vector result is a scored copy of one of the prompts. */
  lemma VectorResultsFromPrompts(s: State, userInput: string, prompts: seq<Dict>, topK: int, env: Env,
                                 show: Value -> string, search: Search)
    ensures forall d: Dict | d in VectorSpec(s, userInput, prompts, topK, env, show, search).0 :: ScoredCopy(prompts, d)
  {
    var r := VectorSpec(s, userInput, prompts, topK, env, show, search).0;
    if r != [] {
      var built := BuildSpec(s.(modelLoaded := true), prompts, env, show).0;
      var hits := search(built.value.value, userInput, Min(topK, |prompts|)).value;
      VectorHitsSpec(prompts, hits);
      forall d: Dict | d in r ensures ScoredCopy(prompts, d) {
        var h :| h in hits && InRange(prompts, h) && d == WithSimilarity(prompts[h.1], h.0);
        assert d["similarity_score"].n == h.0;
      }
    }
  }

  /** What `keyword_recommend` returns, or `None` when `set(prompt.get("keywords", []))` raises. */
  function KeywordSpec(tags: TagSet, prompts: seq<Dict>, topK: int): Option<seq<Dict>>
  {
    if exists p | p in prompts :: !KeywordsIterable(p) then None
    else Some(Take(Ranked(tags, prompts), topK))
  }

  /**
   * `hybrid_recommend` and the state it leaves: nothing for empty prompts or
   * input; otherwise the keyword and vector results for `2 * top_k` fused by
   * id and cut to `top_k`, and nothing when anything raises. The vector step
   * runs (and changes the state) only after keyword recommendation succeeded.
   */
  function HybridSpec(s: State, userInput: string, prompts: seq<Dict>, topK: int, weights: Weights,
                      env: Env, show: Value -> string, search: Search): (seq<Dict>, State)
  {
    if prompts == [] || userInput == "" then ([], s)
    else match KeywordSpec(ExtractTagsSpec(CategoryKeywords, userInput), prompts, topK * 2)
      case None => ([], s)
      case Some(keywordResults) =>
        var (vectorResults, next) := VectorSpec(s, userInput, prompts, topK * 2, env, show, search);
        match Fuse(keywordResults, vectorResults, weights)
        case None => ([], next)
        case Some(combined) => (TopItems(combined, topK), next)
  }

  /**
   * The hybrid results have distinct truthy ids, number at most `top_k`, and
   * each is a keyword result or a vector result.
   */
  lemma HybridSpecResults(s: State, userInput: string, prompts: seq<Dict>, topK: int, weights: Weights,
                          env: Env, show: Value -> string, search: Search)
    ensures var r := HybridSpec(s, userInput, prompts, topK, weights, env, show, search).0;
      && (0 <= topK ==> |r| <= topK)
      && (forall d: Dict | d in r :: FusionId(d).Some?)
      && (forall i, j | 0 <= i < j < |r| :: FusionId(r[i]) != FusionId(r[j]))
      && (forall d: Dict | d in r :: d in prompts || ScoredCopy(prompts, d))
  {
    var r := HybridSpec(s, userInput, prompts, topK, weights, env, show, search).0;
    if prompts != [] && userInput != "" {
      var tags := ExtractTagsSpec(CategoryKeywords, userInput);
      var kw := KeywordSpec(tags, prompts, topK * 2);
      if kw.Some? {
        var (vectorResults, next) := VectorSpec(s, userInput, prompts, topK * 2, env, show, search);
        var fused := Fuse(kw.value, vectorResults, weights);
        if fused.Some? {
          TopRankedSpec(tags, prompts, topK * 2);
          VectorResultsFromPrompts(s, userInput, prompts, topK * 2, env, show, search);
          FuseSpec(kw.value, vectorResults, weights);
          TopItemsSpec(fused.value, topK, kw.value + vectorResults);
          assert r == TopItems(fused.value, topK);
        }
      }
    }
  }

  /**
   * The scoring loop of `keyword_recommend`: (score, prompt) for each prompt
   * scoring above 0, in input order; `None` when a prompt's keywords cannot
   * be made a set.
   */
  method ScoreCheckedPrompts(tags: TagSet, prompts: seq<Dict>) returns (scored: Option<seq<(Key, Dict)>>)
    ensures scored.None? <==> exists p | p in prompts :: !KeywordsIterable(p)
    ensures scored.Some? ==> scored.value == Decorate(Positive(tags, prompts), ScoreKey(tags))
  {
    var acc: seq<(Key, Dict)> := [];
    var i := 0;
    // `set(prompt.get("keywords", []))` raises at the first prompt whose keywords are not iterable
    while i < |prompts| && KeywordsIterable(prompts[i])
      invariant var ok := i <= |prompts| && (forall p | p in prompts[..i] :: KeywordsIterable(p))
        && acc == Decorate(Positive(tags, prompts[..i]), ScoreKey(tags)); ok
    {
      acc := ScoreStep(tags, prompts, i, acc);
      i := i + 1;
    }
    if i < |prompts| {
      assert prompts[i] in prompts;
      return None;
    }
    assert prompts[..i] == prompts;
    return Some(acc);
  }

  /** `RecommendationService`: the loaded model, the cache file, and the category table. */
  class RecommendationService {
    const categoryKeywords: Table
    var modelLoaded: bool
    var cache: CacheFile

    function Snapshot(): State
      reads this
    {
      State(modelLoaded, cache)
    }

    /** A new service finds whatever cache file a previous run left behind. */
    constructor (cacheFile: CacheFile)
      ensures categoryKeywords == CategoryKeywords
      ensures !modelLoaded && cache == cacheFile
    {
      categoryKeywords := CategoryKeywords;
      modelLoaded := false;
      cache := cacheFile;
    }

    /** `_load_model`: loads once; `false` stands for the exception when loading fails. */
    method LoadModel(env: Env) returns (ok: bool)
      modifies this
      ensures ok == (old(modelLoaded) || env.modelLoads)
      ensures modelLoaded == ok && cache == old(cache)
    {
      if !modelLoaded {
        if !env.modelLoads {
          return false;
        }
        modelLoaded := true;
      }
      return true;
    }

    /**
     * `extract_tags`: no tags for empty text, otherwise the sorted, repeat-free
     * categories and keywords matched in the lower-cased text.
     */
    method ExtractTags(text: string) returns (tags: TagSet)
      requires categoryKeywords == CategoryKeywords
      ensures text == "" ==> tags == TagSet([], [])
      ensures tags == ExtractTagsSpec(CategoryKeywords, text)
      ensures forall k :: k in tags.keywords <==> KeywordMatched(CategoryKeywords, Lower(text), k)
      ensures forall c :: c in tags.categories <==> CategoryMatched(CategoryKeywords, Lower(text), c)
      ensures StrictlySorted(tags.categories) && StrictlySorted(tags.keywords)
    {
      ExtractTagsMeaning(CategoryKeywords, text);
      if text == "" {
        TableHasNoEmptyKeyword();
        EmptyTextNoTags(CategoryKeywords);
        return TagSet([], []);
      }
      tags := TagTable.ExtractTags(categoryKeywords, text);
    }

    /**
     * `keyword_recommend`: `None` when a prompt's keywords cannot be made a
     * set; otherwise the prompts scoring above 0, highest score first, equal
     * scores in input order, the first `top_k` of them.
     */
    method KeywordRecommend(tags: TagSet, prompts: seq<Dict>, topK: int) returns (r: Option<seq<Dict>>)
      ensures r == KeywordSpec(tags, prompts, topK)
      ensures r.None? <==> exists p | p in prompts :: !KeywordsIterable(p)
      ensures r.Some? ==> forall p :: p in r.value ==> p in prompts && Score(tags, p) > 0
      ensures r.Some? ==> forall i, j :: 0 <= i < j < |r.value| ==> Score(tags, r.value[i]) >= Score(tags, r.value[j])
      ensures r.Some? ==> forall v :: v > 0 ==> WithScore(tags, r.value, v) <= WithScore(tags, prompts, v)
      ensures r.Some? && 0 <= topK ==> |r.value| == Min(topK, |Positive(tags, prompts)|)
    {
      if |prompts| == 0 {
        r := Some([]);
      } else {
        var scored := ScoreCheckedPrompts(tags, prompts);
        if scored.None? {
          r := None;
        } else {
          var sorted := SortBy(scored.value, true);
          assert Take(Items(sorted), Min(topK, |sorted|)) == Take(Items(sorted), topK);
          r := Some(Take(Items(sorted), Min(topK, |sorted|)));
        }
      }
      TopRankedSpec(tags, prompts, topK);
    }

    /** `_build_vector_index`, including the model load and the cache write it performs. */
    method BuildVectorIndex(prompts: seq<Dict>, env: Env, show: Value -> string) returns (r: Outcome<Option<Index>>)
      modifies this
      ensures (r, Snapshot()) == BuildSpec(old(Snapshot()), prompts, env, show)
    {
      if |prompts| == 0 {
        return Returned(None);
      }
      var loaded := LoadModel(env);
      if !loaded {
        return Returned(None);
      }
      if cache.Stored? && |cache.prompts| == |prompts| {
        return Returned(Some(cache.index));
      }
      var texts := PromptTexts(prompts, show);
      if texts.None? || !env.encodeSucceeds {
        return Raised;
      }
      var index := Index(texts.value);
      cache := SaveCache(cache, prompts, index, env.save);
      return Returned(Some(index));
    }

    /** `vector_recommend`: every failure inside is caught and gives no results. */
    method VectorRecommend(userInput: string, prompts: seq<Dict>, topK: int, env: Env,
                           show: Value -> string, search: Search) returns (r: seq<Dict>)
      modifies this
      ensures (r, Snapshot()) == VectorSpec(old(Snapshot()), userInput, prompts, topK, env, show, search)
    {
      if |prompts| == 0 || |userInput| == 0 {
        return [];
      }
      var loaded := LoadModel(env);
      if !loaded {
        return [];
      }
      var built := BuildVectorIndex(prompts, env, show);
      if built.Raised? || built.value.None? {
        return [];
      }
      var found := search(built.value.value, userInput, Min(topK, |prompts|));
      if found.None? {
        return [];
      }
      r := CollectHits(prompts, found.value);
    }

    /** `hybrid_recommend` with `keyword_weight` and `vector_weight` as `weights`. */
    method HybridRecommend(userInput: string, prompts: seq<Dict>, topK: int, weights: Weights, env: Env,
                           show: Value -> string, search: Search) returns (r: seq<Dict>)
      requires categoryKeywords == CategoryKeywords
      modifies this
      ensures (r, Snapshot()) == HybridSpec(old(Snapshot()), userInput, prompts, topK, weights, env, show, search)
    {
      if |prompts| == 0 || |userInput| == 0 {
        return [];
      }
      var tags := ExtractTags(userInput);
      var keywordResults := KeywordRecommend(tags, prompts, topK * 2);
      if keywordResults.None? {
        return [];
      }
      var vectorResults := VectorRecommend(userInput, prompts, topK * 2, env, show, search);
      var combined := FuseResults(keywordResults.value, vectorResults, weights);
      if combined.None? {
        return [];
      }
      r := TopItems(combined.value, topK);
    }

    /** `invalidate_cache`: a failure to remove the file is only logged. */
    method InvalidateCache(env: Env)
      modifies this
      ensures Snapshot() == InvalidateSpec(old(Snapshot()), env)
    {
      if cache != Absent {
        if env.removeSucceeds {
          cache := Absent;
        }
      }
    }
  }
}
