/**
 * `RecommendationService` of the first service generation
 * (`prompt_recommendation/services/recommendation_service.py`): tag
 * extraction, keyword recommendation over the caller's dict objects, the
 * embedding cache, vector recommendation with its keyword fallback, and the
 * hybrid that merges the two in place.
 *
 * Unlike the later generation, this service checks the cache file before
 * loading the model, returns no index when storing it fails, passes `top_k`
 * to the search unclipped, and accepts any hit index below `len(prompts)`,
 * so a negative one counts from the end of the list.
 */
module LegacyService {
  import opened PyValues
  import opened PyStrings
  import opened PySort
  import opened TagTable
  import opened LegacyRanking
  import opened LegacyMerge
  import opened Embedding

  /**
   * `_build_vector_index` and the state it leaves: no index for no prompts;
   * the cached index whenever the cache file holds as many prompts as the
   * current list (before any model is loaded); no index when the model, the
   * texts or the encoding fail; otherwise a fresh index, stored in the cache
   * file and returned only when storing it succeeds.
   */
  function LegacyBuildSpec(s: State, prompts: seq<Dict>, env: Env, show: Value -> string): (Option<Index>, State)
  {
    if prompts == [] then (None, s)
    else if s.cache.Stored? && |s.cache.prompts| == |prompts| then (Some(s.cache.index), s)
    else if !s.modelLoaded && !env.modelLoads then (None, s)
    else
      var loaded := s.(modelLoaded := true);
      match PromptTexts(prompts, show)
      case None => (None, loaded)
      case Some(texts) =>
        if !env.encodeSucceeds then (None, loaded)
        else
          var index := Index(texts);
          (if env.save == Saved then Some(index) else None, loaded.(cache := SaveCache(loaded.cache, prompts, index, env.save)))
  }

  /** A stored index of the right size is reused without loading the model. */
  lemma CachedIndexNeedsNoModel(s: State, prompts: seq<Dict>, env: Env, show: Value -> string)
    requires prompts != [] && s.cache.Stored? && |s.cache.prompts| == |prompts|
    ensures LegacyBuildSpec(s, prompts, env, show) == (Some(s.cache.index), s)
  {
  }

  /**
   * Whenever an index is returned, the cache file holds it for as many
   * prompts as were given: the next call with a list of that size reuses it.
   */
  lemma ReturnedIndexIsCached(s: State, prompts: seq<Dict>, env: Env, env2: Env, show: Value -> string)
    requires LegacyBuildSpec(s, prompts, env, show).0.Some?
    ensures var (index, next) := LegacyBuildSpec(s, prompts, env, show);
      next.cache.Stored? && next.cache.index == index.value && |next.cache.prompts| == |prompts|
      && LegacyBuildSpec(next, prompts, env2, show) == (index, next)
  {
  }

  /** A failed store gives no index, and a failed dump leaves the cache file unreadable. */
  lemma FailedSaveGivesNoIndex(s: State, prompts: seq<Dict>, env: Env, show: Value -> string)
    requires prompts != [] && !(s.cache.Stored? && |s.cache.prompts| == |prompts|) && env.save != Saved
    ensures LegacyBuildSpec(s, prompts, env, show).0.None?
    ensures env.save == DumpFailed && (s.modelLoaded || env.modelLoads) && env.encodeSucceeds
            && PromptTexts(prompts, show).Some?
            ==> LegacyBuildSpec(s, prompts, env, show).1.cache == Unreadable
  {
  }

  /**
   * The results loop of `vector_recommend`: a hit index at or past
   * `len(prompts)` is skipped, any other selects `prompts[idx]`, a negative
   * one counting from the end; one below `-len(prompts)` raises `IndexError`.
   */
  function LegacyHits(prompts: seq<Dict>, hits: seq<(real, int)>): (r: Option<seq<Dict>>)
    ensures r.Some? ==> |r.value| <= |hits|
  {
    if hits == [] then Some([])
    else
      var (score, idx) := hits[|hits| - 1];
      match LegacyHits(prompts, hits[..|hits| - 1])
      case None => None
      case Some(front) =>
        if idx >= |prompts| then Some(front)
        else if idx >= 0 then Some(front + [WithSimilarity(prompts[idx], score)])
        else if idx >= -|prompts| then Some(front + [WithSimilarity(prompts[|prompts| + idx], score)])
        else None
  }

  /** The prompt a hit index selects in Python, when it selects one. */
  predicate Selects(prompts: seq<Dict>, idx: int, i: nat)
  {
    i < |prompts| && (idx == i || idx == i - |prompts|)
  }

  /**
   * The loop raises exactly when some index lies below `-len(prompts)`;
   * otherwise every result is the scored copy of a selected prompt, and every
   * hit whose index is below `len(prompts)` gives one.
   */
  lemma {:induction false} LegacyHitsSpec(prompts: seq<Dict>, hits: seq<(real, int)>)
    ensures LegacyHits(prompts, hits).None? <==> exists h | h in hits :: h.1 < -|prompts|
    ensures LegacyHits(prompts, hits).Some? ==>
              (forall d | d in LegacyHits(prompts, hits).value ::
                 exists h, i: nat | h in hits && Selects(prompts, h.1, i) :: d == WithSimilarity(prompts[i], h.0))
              && (forall h | h in hits && h.1 < |prompts| ::
                    exists i: nat | Selects(prompts, h.1, i) :: WithSimilarity(prompts[i], h.0) in LegacyHits(prompts, hits).value)
  {
    LegacyHitsRaises(prompts, hits);
    if LegacyHits(prompts, hits).Some? {
      LegacyHitsSelected(prompts, hits);
      LegacyHitsKept(prompts, hits);
    }
  }

  /** The loop raises exactly when some index lies below `-len(prompts)`. */
  lemma {:induction false} LegacyHitsRaises(prompts: seq<Dict>, hits: seq<(real, int)>)
    ensures LegacyHits(prompts, hits).None? <==> exists h | h in hits :: h.1 < -|prompts|
  {
    if hits != [] {
      var front, last := hits[..|hits| - 1], hits[|hits| - 1];
      LegacyHitsRaises(prompts, front);
      assert hits == front + [last];
      assert forall h :: h in hits <==> h in front || h == last;
    }
  }

  /** Every result of the loop is the scored copy of a prompt some hit selects. */
  lemma {:induction false} LegacyHitsSelected(prompts: seq<Dict>, hits: seq<(real, int)>)
    requires LegacyHits(prompts, hits).Some?
    ensures forall d | d in LegacyHits(prompts, hits).value ::
              exists h, i: nat | h in hits && Selects(prompts, h.1, i) :: d == WithSimilarity(prompts[i], h.0)
  {
    if hits != [] {
      var front, last := hits[..|hits| - 1], hits[|hits| - 1];
      LegacyHitsSelected(prompts, front);
      assert hits == front + [last];
      var (score, idx) := last;
      var before, after := LegacyHits(prompts, front).value, LegacyHits(prompts, hits).value;
      forall d | d in after
        ensures exists h, i: nat | h in hits && Selects(prompts, h.1, i) :: d == WithSimilarity(prompts[i], h.0)
      {
        if d in before {
          var h, i: nat :| h in front && Selects(prompts, h.1, i) && d == WithSimilarity(prompts[i], h.0);
          assert h in hits;
        } else if 0 <= idx < |prompts| {
          assert Selects(prompts, idx, idx as nat) && last in hits;
        } else {
          assert Selects(prompts, idx, (|prompts| + idx) as nat) && last in hits;
        }
      }
    }
  }

  /** Every hit whose index is below `len(prompts)` gives the scored copy of the prompt it selects. */
  lemma {:induction false} LegacyHitsKept(prompts: seq<Dict>, hits: seq<(real, int)>)
    requires LegacyHits(prompts, hits).Some?
    ensures forall h | h in hits && h.1 < |prompts| ::
              exists i: nat | Selects(prompts, h.1, i) :: WithSimilarity(prompts[i], h.0) in LegacyHits(prompts, hits).value
  {
    if hits != [] {
      var front, last := hits[..|hits| - 1], hits[|hits| - 1];
      LegacyHitsKept(prompts, front);
      assert hits == front + [last];
      var (score, idx) := last;
      var before, after := LegacyHits(prompts, front).value, LegacyHits(prompts, hits).value;
      assert forall d :: d in before ==> d in after;
      forall h | h in hits && h.1 < |prompts|
        ensures exists i: nat | Selects(prompts, h.1, i) :: WithSimilarity(prompts[i], h.0) in after
      {
        if h in front {
          var i: nat :| Selects(prompts, h.1, i) && WithSimilarity(prompts[i], h.0) in before;
        } else if 0 <= idx {
          assert Selects(prompts, idx, idx as nat);
        } else {
          assert Selects(prompts, idx, (|prompts| + idx) as nat);
        }
      }
    }
  }

  /**
   * FAISS pads a search for more neighbours than the index holds with index
   * -1; the loop takes it for the last prompt rather than skipping it.
   */
  lemma PaddingSelectsLastPrompt(prompts: seq<Dict>, score: real)
    requires prompts != []
    ensures LegacyHits(prompts, [(score, -1)]) == Some([WithSimilarity(prompts[|prompts| - 1], score)])
  {
    var hits := [(score, -1)];
    var last := prompts[|prompts| - 1];
    assert hits[..0] == [];
    assert LegacyHits(prompts, hits[..0]) == Some([]);
    assert prompts[|prompts| + -1] == last;
    assert LegacyHits(prompts, hits) == Some([] + [WithSimilarity(last, score)]);
    assert [] + [WithSimilarity(last, score)] == [WithSimilarity(last, score)];
  }

  /** What `vector_recommend` returns: fresh scored copies, or the keyword ranking it falls back to. */
  datatype VectorOutcome = Copies(items: seq<Dict>) | Fallback(ranked: seq<nat>)

  /** The keyword fallback of `vector_recommend`; `None` when it raises, as it does outside any `try`. */
  function FallbackTo(userInput: string, prompts: seq<Dict>, topK: int): Option<VectorOutcome>
  {
    match KeywordPositions(userInput, prompts, topK)
    case None => None
    case Some(ranked) => Some(Fallback(ranked))
  }

  /**
   * `vector_recommend` and the state it leaves: nothing for no prompts or
   * empty input; the keyword ranking when there is no index, or when loading
   * the model, searching or collecting the hits fails; otherwise the scored
   * copies of the hits. `None` when the fallback itself raises.
   */
  function LegacyVectorSpec(s: State, userInput: string, prompts: seq<Dict>, topK: int, env: Env,
                            show: Value -> string, search: Search): (Option<VectorOutcome>, State)
  {
    if prompts == [] || userInput == "" then (Some(Copies([])), s)
    else
      var (found, s2) := LegacySearchSpec(s, userInput, prompts, topK, env, show, search);
      (if found.None? then FallbackTo(userInput, prompts, topK) else Some(Copies(found.value)), s2)
  }

  /**
   * The vector path of `vector_recommend` past the empty-input check: the
   * hits as scored copies, or `None` where the source falls back (no index,
   * the model does not load, the search or the hit collection raises), and
   * the state it leaves.
   */
  function LegacySearchSpec(s: State, userInput: string, prompts: seq<Dict>, topK: int, env: Env,
                            show: Value -> string, search: Search): (Option<seq<Dict>>, State)
  {
    var (built, s1) := LegacyBuildSpec(s, prompts, env, show);
    if built.None? then (None, s1)
    else if !s1.modelLoaded && !env.modelLoads then (None, s1)
    else
      var s2 := s1.(modelLoaded := true);
      match search(built.value, userInput, topK)
      case None => (None, s2)
      case Some(hits) => (LegacyHits(prompts, hits), s2)
  }

  /** Whether the keyword ranking raises does not depend on `top_k`. */
  lemma KeywordRaisesWhatever(userInput: string, prompts: seq<Dict>, k1: int, k2: int)
    ensures KeywordPositions(userInput, prompts, k1).None? == KeywordPositions(userInput, prompts, k2).None?
  {
    KeywordPositionsRaises(userInput, prompts, k1);
    KeywordPositionsRaises(userInput, prompts, k2);
  }

  /**
   * Once keyword recommendation has returned for some `top_k`, vector
   * recommendation cannot raise: its fallback is the same keyword ranking.
   */
  lemma VectorRaisesOnlyWithKeyword(s: State, userInput: string, prompts: seq<Dict>, k1: int, topK: int,
                                    env: Env, show: Value -> string, search: Search)
    requires KeywordPositions(userInput, prompts, k1).Some?
    ensures LegacyVectorSpec(s, userInput, prompts, topK, env, show, search).0.Some?
    ensures var out := LegacyVectorSpec(s, userInput, prompts, topK, env, show, search).0;
      out.Some? && out.value.Fallback? ==> KeywordPositions(userInput, prompts, topK) == Some(out.value.ranked)
  {
    KeywordRaisesWhatever(userInput, prompts, k1, topK);
    VectorOutcomeShape(s, userInput, prompts, topK, env, show, search);
  }

  /** `vector_recommend` either returns scored copies or falls back to the keyword ranking. */
  lemma VectorOutcomeShape(s: State, userInput: string, prompts: seq<Dict>, topK: int,
                           env: Env, show: Value -> string, search: Search)
    ensures var out := LegacyVectorSpec(s, userInput, prompts, topK, env, show, search).0;
      out == FallbackTo(userInput, prompts, topK) || (out.Some? && out.value.Copies?)
  {
    if prompts != [] && userInput != "" {
      var built := LegacyBuildSpec(s, prompts, env, show);
      if built.0.Some? && (built.1.modelLoaded || env.modelLoads) {
        var found := search(built.0.value, userInput, topK);
        if found.Some? {
          var hits := LegacyHits(prompts, found.value);
        }
      }
    }
  }

  /** The prompts at the given positions (positions past the end stand for nothing and give `{}`). */
  function Values(ps: seq<Dict>, pos: seq<nat>): (r: seq<Dict>)
    ensures |r| == |pos| && forall t :: 0 <= t < |pos| && pos[t] < |ps| ==> r[t] == ps[pos[t]]
  {
    seq(|pos|, t requires 0 <= t < |pos| => if pos[t] < |ps| then ps[pos[t]] else map[])
  }

  /** Every position addresses an element. */
  predicate AllBelow(pos: seq<nat>, n: nat)
  {
    forall t :: 0 <= t < |pos| ==> pos[t] < n
  }

  /** The dict objects at the given positions. */
  function Objects(ps: seq<PyDict>, pos: seq<nat>): (r: seq<PyDict>)
    requires AllBelow(pos, |ps|)
    ensures |r| == |pos| && forall t :: 0 <= t < |pos| ==> r[t] == ps[pos[t]]
  {
    seq(|pos|, t requires 0 <= t < |pos| => ps[pos[t]])
  }

  /** The dict objects at some positions hold the values at those positions. */
  lemma ObjectsContents(ps: seq<PyDict>, pos: seq<nat>)
    requires AllBelow(pos, |ps|)
    ensures Contents(Objects(ps, pos)) == Values(Contents(ps), pos)
  {
  }

  /** The vector results as values: the scored copies, or the prompts of the keyword fallback. */
  function VectorValues(ps: seq<Dict>, out: VectorOutcome): seq<Dict>
  {
    match out
    case Copies(items) => items
    case Fallback(ranked) => Values(ps, ranked)
  }

  /** What `hybrid_recommend` merges: the keyword ranking and the vector outcome, both for `2 * top_k`. */
  datatype HybridPlan = HybridPlan(keyword: seq<nat>, vector: VectorOutcome)

  /**
   * `hybrid_recommend` up to the merge, and the state it leaves: the keyword
   * ranking and the vector outcome for `2 * top_k`; `None` when either call
   * raises or a result's id cannot be hashed.
   */
  function LegacyHybridSpec(s: State, userInput: string, prompts: seq<Dict>, topK: int, env: Env,
                            show: Value -> string, search: Search): (Option<HybridPlan>, State)
  {
    match KeywordPositions(userInput, prompts, topK * 2)
    case None => (None, s)
    case Some(kpos) =>
      var (out, s1) := LegacyVectorSpec(s, userInput, prompts, topK * 2, env, show, search);
      match out
      case None => (None, s1)
      case Some(vout) =>
        if MergeRaises(Values(prompts, kpos), VectorValues(prompts, vout)) then (None, s1)
        else (Some(HybridPlan(kpos, vout)), s1)
  }

  /**
   * The hybrid raises exactly when keyword recommendation raises or merging
   * meets a list id: vector recommendation never raises once keyword
   * recommendation did not.
   */
  lemma HybridRaises(s: State, userInput: string, prompts: seq<Dict>, topK: int, env: Env,
                     show: Value -> string, search: Search)
    ensures var plan := LegacyHybridSpec(s, userInput, prompts, topK, env, show, search).0;
      plan.None? <==>
        KeywordPositions(userInput, prompts, topK * 2).None?
        || MergeRaises(Values(prompts, KeywordPositions(userInput, prompts, topK * 2).value),
                       VectorValues(prompts, LegacyVectorSpec(s, userInput, prompts, topK * 2, env, show, search).0.value))
  {
    if KeywordPositions(userInput, prompts, topK * 2).Some? {
      VectorRaisesOnlyWithKeyword(s, userInput, prompts, topK * 2, topK * 2, env, show, search);
    }
  }

  /** The hybrid's results as values: the scored entries in final-score order, the first `top_k`. */
  function HybridEntries(K: seq<Dict>, V: seq<Dict>, topK: int): (r: seq<Dict>)
  {
    MergeOrderMembers(K, V);
    var order := MergeOrder(K, V);
    Take(seq(|order|, t requires 0 <= t < |order| => ScoredEntry(K, V, order[t])), topK)
  }

  /** `x['final_score']` of a scored entry. */
  function FinalScoreOf(d: Dict): real
  {
    if "final_score" in d && d["final_score"].Number? then d["final_score"].n else 0.0
  }

  /**
   * The hybrid results number at most `top_k`, no two share an id, every id
   * is that of a keyword or a vector result, every result carries both ranks
   * and the final score they give, and final scores never increase.
   */
  lemma HybridEntriesSpec(K: seq<Dict>, V: seq<Dict>, topK: int)
    ensures var r := HybridEntries(K, V, topK);
      && (0 <= topK ==> |r| <= topK)
      && (forall a, b :: 0 <= a < b < |r| ==> IdValue(r[a]) != IdValue(r[b]))
      && (forall t :: 0 <= t < |r| ==> IdValue(r[t]) in IdsOf(K) || IdValue(r[t]) in IdsOf(V))
      && (forall t :: 0 <= t < |r| ==>
            HasRanks(r[t]) && FinalScoreOf(r[t]) == FinalScore(r[t]["keyword_rank"].n, r[t]["vector_rank"].n))
      && (forall a, b :: 0 <= a < b < |r| ==> FinalScoreOf(r[a]) >= FinalScoreOf(r[b]))
  {
    HybridEntriesAt(K, V, topK);
    HybridEntriesIds(K, V, topK);
    HybridEntriesScores(K, V, topK);
  }

  /** No two hybrid results share an id, and every id is that of a keyword or a vector result. */
  lemma HybridEntriesIds(K: seq<Dict>, V: seq<Dict>, topK: int)
    ensures var r := HybridEntries(K, V, topK);
      && (forall a, b :: 0 <= a < b < |r| ==> IdValue(r[a]) != IdValue(r[b]))
      && (forall t :: 0 <= t < |r| ==> IdValue(r[t]) in IdsOf(K) || IdValue(r[t]) in IdsOf(V))
  {
    HybridEntriesAt(K, V, topK);
    MergeOrderDistinctIds(K, V);
  }

  /** Every hybrid result carries both ranks and the final score they give, in non-increasing order. */
  lemma HybridEntriesScores(K: seq<Dict>, V: seq<Dict>, topK: int)
    ensures var r := HybridEntries(K, V, topK);
      && (forall t :: 0 <= t < |r| ==>
            HasRanks(r[t]) && FinalScoreOf(r[t]) == FinalScore(r[t]["keyword_rank"].n, r[t]["vector_rank"].n))
      && (forall a, b :: 0 <= a < b < |r| ==> FinalScoreOf(r[a]) >= FinalScoreOf(r[b]))
  {
    HybridEntriesAt(K, V, topK);
    MergeOrderScores(K, V);
  }

  /** The `t`-th hybrid result is the scored entry of the `t`-th merged slot. */
  lemma HybridEntriesAt(K: seq<Dict>, V: seq<Dict>, topK: int)
    ensures var r, order := HybridEntries(K, V, topK), MergeOrder(K, V);
      && |r| <= |order| && (0 <= topK ==> |r| <= topK)
      && forall t :: 0 <= t < |r| ==>
           && SrcIn(|K|, |V|, order[t]) && r[t] == ScoredEntry(K, V, order[t])
           && IdValue(r[t]) == IdValue(SrcItem(K, V, order[t]))
           && FinalScoreOf(r[t]) == EntryScore(K, V, order[t])
  {
    var order := MergeOrder(K, V);
    MergeOrderMembers(K, V);
    var all := seq(|order|, t requires 0 <= t < |order| => ScoredEntry(K, V, order[t]));
    var r := HybridEntries(K, V, topK);
    assert r == Take(all, topK);
    forall t | 0 <= t < |r|
      ensures r[t] == ScoredEntry(K, V, order[t])
      ensures IdValue(r[t]) == IdValue(SrcItem(K, V, order[t]))
      ensures FinalScoreOf(r[t]) == EntryScore(K, V, order[t])
    {
      assert r[t] == all[t];
      ScoredKey(K, V, order[t]);
    }
  }

  /** Distinct positions of prompts with distinct ids select results with distinct ids. */
  lemma ValuesDistinctIds(ps: seq<Dict>, pos: seq<nat>)
    requires Distinct(IdsOf(ps)) && Distinct(pos) && AllBelow(pos, |ps|)
    ensures Distinct(IdsOf(Values(ps, pos)))
  {
    var ids := IdsOf(Values(ps, pos));
    forall a, b | 0 <= a < b < |ids| ensures ids[a] != ids[b] {
      assert ids[a] == IdsOf(ps)[pos[a]] && ids[b] == IdsOf(ps)[pos[b]];
    }
  }

  /**
   * When vector recommendation falls back, it returns the keyword ranking the
   * hybrid already holds; for prompts with distinct ids the merge then keeps
   * the keyword order, so the hybrid returns the keyword results.
   */
  lemma HybridFallbackIsKeyword(s: State, userInput: string, prompts: seq<Dict>, topK: int, env: Env,
                                show: Value -> string, search: Search)
    requires Distinct(IdsOf(prompts))
    requires var plan := LegacyHybridSpec(s, userInput, prompts, topK, env, show, search).0;
      plan.Some? && plan.value.vector.Fallback?
    ensures var plan := LegacyHybridSpec(s, userInput, prompts, topK, env, show, search).0.value;
      && plan.vector.ranked == plan.keyword
      && MergeOrder(Values(prompts, plan.keyword), VectorValues(prompts, plan.vector))
         == KwSlots(Positions(|plan.keyword|))
  {
    var kpos := KeywordPositions(userInput, prompts, topK * 2).value;
    VectorRaisesOnlyWithKeyword(s, userInput, prompts, topK * 2, topK * 2, env, show, search);
    KeywordPositionsSpec(userInput, prompts, topK * 2);
    ValuesDistinctIds(prompts, kpos);
    MergeOrderFallback(Values(prompts, kpos));
  }

  /**
   * The nested loops of `extract_tags`: every keyword of every category, in
   * table order, that occurs in `lowered`.
   */
  method MatchKeywords(table: Table, lowered: string) returns (tags: seq<string>)
    ensures tags == KeywordHits(table, lowered)
    ensures forall k :: k in tags <==> KeywordMatched(table, lowered, k)
  {
    tags := [];
    for i := 0 to |table|
      invariant tags == KeywordHits(table[..i], lowered)
    {
      var keywords := table[i].1;
      for j := 0 to |keywords|
        invariant tags == KeywordHits(table[..i], lowered) + RowHits(keywords[..j], lowered)
      {
        assert keywords[..j + 1][..j] == keywords[..j];
        if Contains(lowered, keywords[j]) {
          tags := tags + [keywords[j]];
        }
      }
      assert keywords[..|keywords|] == keywords;
      assert table[..i + 1][..i] == table[..i];
    }
    assert table[..|table|] == table;
    forall k ensures k in tags <==> KeywordMatched(table, lowered, k) {
      KeywordHitsMembership(table, lowered, k);
    }
  }

  /** No keyword of the table is empty, so empty text matches none. */
  lemma EmptyTextNoLegacyTags()
    ensures forall k :: !KeywordMatched(LegacyKeywords, Lower(""), k)
  {
    assert NoEmptyKeyword(LegacyKeywords);
    assert Lower("") == "";
    forall k ensures !KeywordMatched(LegacyKeywords, "", k) {
      ContainsEmptyHay(k);
    }
  }

  /** Taking a prefix commutes with selecting objects. */
  lemma TakeObjects(ps: seq<PyDict>, pos: seq<nat>, k: int)
    requires AllBelow(pos, |ps|)
    ensures AllBelow(Take(pos, k), |ps|)
    ensures Take(Objects(ps, pos), k) == Objects(ps, Take(pos, k))
  {
  }

  /** Relabelling positions by the objects at them, then dropping keys, selects the objects. */
  lemma ItemsRelabel(ps: seq<PyDict>, s: seq<(Key, nat)>)
    requires ps != [] && AllBelow(Items(s), |ps|)
    ensures Items(Relabel(s, At(ps))) == Objects(ps, Items(s))
  {
  }

  /**
   * Sorting the scored dict objects gives the objects at the ranked
   * positions: the objects are ranked as their positions are.
   */
  lemma RankedObjects(prompts: seq<PyDict>, sc: seq<nat>, topK: int)
    requires |sc| == |prompts| > 0
    ensures AllBelow(RankedAt(sc), |prompts|)
    ensures Take(Items(SortBy(ScoredUpTo(prompts, sc, |sc|), true)), topK)
            == Objects(prompts, Take(RankedAt(sc), topK))
  {
    var d := Decorate(PositiveAt(sc, |sc|), ScoreAt(sc));
    RankedAtMembers(sc);
    ScoredUpToPositions(prompts, sc, |sc|);
    SortByRelabel(d, At(prompts), true);
    assert RankedAt(sc) == Items(SortBy(d, true));
    forall t | 0 <= t < |RankedAt(sc)| ensures RankedAt(sc)[t] < |prompts| {
      assert RankedAt(sc)[t] in RankedAt(sc);
    }
    ItemsRelabel(prompts, SortBy(d, true));
    TakeObjects(prompts, RankedAt(sc), topK);
  }

  /**
   * The results loop of `vector_recommend` on the dict objects: each kept hit
   * becomes a new dict, a copy of the selected prompt with its
   * `similarity_score` set; `None` when an index raises `IndexError`.
   */
  method CollectLegacyHits(prompts: seq<PyDict>, hits: seq<(real, int)>) returns (results: Option<seq<PyDict>>)
    ensures results.None? <==> LegacyHits(Contents(prompts), hits).None?
    ensures results.Some? ==> Contents(results.value) == LegacyHits(Contents(prompts), hits).value
    ensures results.Some? ==> Distinct(results.value) && forall t :: 0 <= t < |results.value| ==> fresh(results.value[t])
  {
    ghost var P := Contents(prompts);
    var acc: seq<PyDict> := [];
    for i := 0 to |hits|
      invariant Contents(prompts) == P
      invariant LegacyHits(P, hits[..i]).Some? && Contents(acc) == LegacyHits(P, hits[..i]).value
      invariant Distinct(acc) && forall t :: 0 <= t < |acc| ==> fresh(acc[t])
    {
      var (score, idx) := hits[i];
      assert hits[..i + 1][..i] == hits[..i];
      if idx < |prompts| {
        if idx < -|prompts| {
          LegacyHitsRaises(P, hits);
          assert hits[i] in hits;
          return None;
        }
        var k := if idx >= 0 then idx else |prompts| + idx;
        var prompt := ScoredCopy(prompts[k], score);
        assert Contents(acc + [prompt]) == Contents(acc) + [prompt.items];
        acc := acc + [prompt];
      }
    }
    assert hits[..|hits|] == hits;
    return Some(acc);
  }

  /** `prompt = prompts[idx].copy()` followed by setting its `similarity_score`. */
  method ScoredCopy(p: PyDict, score: real) returns (q: PyDict)
    ensures fresh(q) && q.items == WithSimilarity(p.items, score)
  {
    q := new PyDict(p.items);
    q.items := q.items["similarity_score" := Number(score)];
  }

  /** `scored_prompts` after the first `i` prompts: the objects scoring above 0, keyed by score. */
  function ScoredUpTo(prompts: seq<PyDict>, sc: seq<nat>, i: nat): seq<(Key, PyDict)>
    requires i <= |prompts| && i <= |sc|
  {
    if i == 0 then []
    else ScoredUpTo(prompts, sc, i - 1) + (if sc[i - 1] > 0 then [([Num(sc[i - 1] as real)], prompts[i - 1])] else [])
  }

  /** The scored objects are the positions scoring above 0, keyed by score, each replaced by its object. */
  lemma {:induction false} ScoredUpToPositions(prompts: seq<PyDict>, sc: seq<nat>, i: nat)
    requires |sc| == |prompts| > 0 && i <= |prompts|
    ensures ScoredUpTo(prompts, sc, i) == Relabel(Decorate(PositiveAt(sc, i), ScoreAt(sc)), At(prompts))
  {
    if i > 0 {
      ScoredUpToPositions(prompts, sc, i - 1);
      var front := PositiveAt(sc, i - 1);
      if sc[i - 1] > 0 {
        assert PositiveAt(sc, i) == front + [i - 1];
        RelabelDecorateSnoc(front, i - 1, ScoreAt(sc), At(prompts));
      } else {
        assert PositiveAt(sc, i) == front;
      }
    }
  }

  /** Decorating and relabelling one more position appends its own entry. */
  lemma RelabelDecorateSnoc<T>(s: seq<nat>, x: nat, key: nat -> Key, f: nat -> T)
    ensures Relabel(Decorate(s + [x], key), f) == Relabel(Decorate(s, key), f) + [(key(x), f(x))]
  {
    assert |Relabel(Decorate(s + [x], key), f)| == |s| + 1;
  }

  /** The score of one prompt, as the body of the scoring loop adds it up. */
  method ScoreOne(tags: set<string>, words: set<string>, prompt: Dict) returns (score: nat)
    ensures score == WordScore(tags, words, prompt)
  {
    score := 0;
    if AnyWordIn(words, Lower(TextField(prompt, "title"))) {
      score := score + 2;
    }
    if AnyWordIn(words, Lower(TextField(prompt, "prompt"))) {
      score := score + 1;
    }
    score := score + |tags * LoweredKeywords(prompt)|;
  }

  /** One pass of the scoring loop: score `prompts[i]`, then `if score > 0: scored_prompts.append((score, prompt))`. */
  method AddScored(tags: set<string>, words: set<string>, acc: seq<(Key, PyDict)>, prompts: seq<PyDict>,
                   P: seq<Dict>, ghost sc: seq<nat>, i: nat)
      returns (next: seq<(Key, PyDict)>)
    requires |P| == |prompts| && i < |prompts| && sc == Scores(tags, words, P)
    requires acc == ScoredUpTo(prompts, sc, i)
    ensures next == ScoredUpTo(prompts, sc, i + 1)
  {
    var score := ScoreOne(tags, words, P[i]);
    next := acc;
    if score > 0 {
      next := next + [([Num(score as real)], prompts[i])];
    }
  }

  /**
   * The scoring loop of `keyword_recommend` on the dict objects: each
   * object scoring above 0, keyed by its score, in input order; `None` when
   * scoring some prompt raises.
   */
  method ScorePromptObjects(tags: set<string>, words: set<string>, prompts: seq<PyDict>)
      returns (scored: Option<seq<(Key, PyDict)>>)
    requires prompts != []
    ensures scored.None? <==> exists i | 0 <= i < |prompts| :: !Scorable(words, prompts[i].items)
    ensures var sc := Scores(tags, words, Contents(prompts));
      scored.Some? ==> scored.value == ScoredUpTo(prompts, sc, |prompts|)
  {
    var P := Contents(prompts);
    scored := ScoreDicts(tags, words, prompts, P);
    ScorableUpToSpec(words, P, |P|);
  }

  /** The scoring loop, over the objects' contents `P` read once. */
  method ScoreDicts(tags: set<string>, words: set<string>, prompts: seq<PyDict>, P: seq<Dict>)
      returns (scored: Option<seq<(Key, PyDict)>>)
    requires |P| == |prompts|
    ensures scored.None? <==> !ScorableUpTo(words, P, |P|)
    ensures scored.Some? ==> scored.value == ScoredUpTo(prompts, Scores(tags, words, P), |P|)
  {
    ghost var sc := Scores(tags, words, P);
    var acc: seq<(Key, PyDict)> := [];
    var i := 0;
    // the generator raises at the first prompt it cannot score
    while i < |P| && Scorable(words, P[i])
      invariant var ok := i <= |P| && ScorableUpTo(words, P, i) && acc == ScoredUpTo(prompts, sc, i); ok
    {
      acc := AddScored(tags, words, acc, prompts, P, sc, i);
      i := i + 1;
    }
    if i < |P| {
      ScorableUpToFalse(words, P, i, |P|);
      scored := None;
    } else {
      scored := Some(acc);
    }
  }

  /**
   * The scoring, sorting and cutting of `keyword_recommend` on the dict
   * objects, for given tags and user words.
   */
  method RankPromptObjects(tags: set<string>, words: set<string>, prompts: seq<PyDict>, topK: int)
      returns (r: Option<seq<PyDict>>)
    requires prompts != []
    ensures r.None? <==> exists i | 0 <= i < |prompts| :: !Scorable(words, prompts[i].items)
    ensures var ranked := Take(RankedAt(Scores(tags, words, Contents(prompts))), topK);
      r.Some? ==> AllBelow(ranked, |prompts|) && r.value == Objects(prompts, ranked)
  {
    ghost var sc := Scores(tags, words, Contents(prompts));
    var scored := ScorePromptObjects(tags, words, prompts);
    if scored.None? {
      return None;
    }
    var sorted := SortBy(scored.value, true);
    r := Some(Take(Items(sorted), topK));
    RankedObjects(prompts, sc, topK);
    TakeObjects(prompts, RankedAt(sc), topK);
  }

  /** `keyword_recommend` for non-empty input and prompts, as the ranking of their scores. */
  lemma KeywordPositionsUnfolded(userInput: string, ps: seq<Dict>, topK: int)
    requires ps != [] && userInput != ""
    ensures KeywordPositions(userInput, ps, topK)
            == if exists i | 0 <= i < |ps| :: !Scorable(UserWords(userInput), ps[i]) then None
               else Some(Take(RankedAt(Scores(TagsOf(userInput), UserWords(userInput), ps)), topK))
  {
  }

  /** The merged dict objects, sorted and cut, hold the hybrid's entries. */
  lemma ResultContents(ks: seq<PyDict>, vs: seq<PyDict>, K: seq<Dict>, V: seq<Dict>, merged: seq<PyDict>,
                       res: seq<PyDict>, topK: int)
    requires |K| == |ks| && |V| == |vs|
    requires forall t :: 0 <= t < |Merged(K, V)| ==> SrcIn(|ks|, |vs|, Merged(K, V)[t])
    requires forall t :: 0 <= t < |MergeOrder(K, V)| ==> SrcIn(|ks|, |vs|, MergeOrder(K, V)[t])
    requires merged == SlotObjects(ks, vs, Merged(K, V))
    requires forall t :: 0 <= t < |merged| ==> merged[t].items == ScoredEntry(K, V, Merged(K, V)[t])
    requires res == Take(SlotObjects(ks, vs, MergeOrder(K, V)), topK)
    ensures Contents(res) == HybridEntries(K, V, topK)
  {
    MergeOrderMembers(K, V);
    var order := MergeOrder(K, V);
    var slots := Merged(K, V);
    var all := seq(|order|, t requires 0 <= t < |order| => ScoredEntry(K, V, order[t]));
    assert HybridEntries(K, V, topK) == Take(all, topK);
    forall t | 0 <= t < |res| ensures res[t].items == all[t] {
      assert order[t] in slots;
      var u :| 0 <= u < |slots| && slots[u] == order[t];
      assert res[t] == merged[u];
    }
  }

  /** `RecommendationService` of the first generation: the loaded model, the cache file, and the keyword table. */
  class RecommendationService {
    const categoryKeywords: Table
    var modelLoaded: bool
    var cache: CacheFile

    function Snapshot(): State
      reads this
    {
      State(modelLoaded, cache)
    }

    /** A new service finds whatever cache file a previous run left behind. */
    constructor (cacheFile: CacheFile)
      ensures categoryKeywords == LegacyKeywords
      ensures !modelLoaded && cache == cacheFile
    {
      categoryKeywords := LegacyKeywords;
      modelLoaded := false;
      cache := cacheFile;
    }

    /** `_load_model`: loads once; `false` stands for the exception it re-raises when loading fails. */
    method LoadModel(env: Env) returns (ok: bool)
      modifies this
      ensures ok == (old(modelLoaded) || env.modelLoads)
      ensures modelLoaded == ok && cache == old(cache)
    {
      if !modelLoaded {
        if !env.modelLoads {
          return false;
        }
        modelLoaded := true;
      }
      return true;
    }

    /**
     * `extract_tags`: no tags for empty text; otherwise each table keyword
     * occurring in the lower-cased text, once, in the unspecified order of
     * `list(set(...))`.
     */
    method ExtractTags(text: string) returns (tags: seq<string>)
      requires categoryKeywords == LegacyKeywords
      ensures text == "" ==> tags == []
      ensures Distinct(tags)
      ensures forall k :: k in tags <==> KeywordMatched(LegacyKeywords, Lower(text), k)
      ensures forall k :: k in tags <==> k in TagsOf(text)
    {
      TagsOfSpec(text);
      if |text| == 0 {
        EmptyTextNoLegacyTags();
        return [];
      }
      var found := MatchKeywords(categoryKeywords, Lower(text));
      tags := ListOfSet(set k | k in found);
    }

    /**
     * `keyword_recommend` on the caller's dict objects: the objects at the
     * positions the keyword ranking gives, or `None` when scoring raises.
     */
    method KeywordRecommend(userInput: string, prompts: seq<PyDict>, topK: int) returns (r: Option<seq<PyDict>>)
      requires categoryKeywords == LegacyKeywords
      ensures r.None? <==> KeywordPositions(userInput, Contents(prompts), topK).None?
      ensures r.Some? ==> AllBelow(KeywordPositions(userInput, Contents(prompts), topK).value, |prompts|)
                          && r.value == Objects(prompts, KeywordPositions(userInput, Contents(prompts), topK).value)
    {
      if |prompts| == 0 || |userInput| == 0 {
        return Some([]);
      }
      var tags := ExtractTags(userInput);
      var words := UserWords(userInput);
      var tagSet := set k | k in tags;
      assert tagSet == TagsOf(userInput);
      r := RankPromptObjects(tagSet, words, prompts, topK);
      KeywordPositionsUnfolded(userInput, Contents(prompts), topK);
    }

    /**
     * `_build_vector_index`: the cache file is consulted before the model is
     * loaded; a fresh index is stored and returned only when storing succeeds.
     */
    method BuildVectorIndex(prompts: seq<PyDict>, env: Env, show: Value -> string) returns (r: Option<Index>)
      modifies this
      ensures (r, Snapshot()) == LegacyBuildSpec(old(Snapshot()), Contents(prompts), env, show)
    {
      if |prompts| == 0 {
        return None;
      }
      if cache.Stored? && |cache.prompts| == |prompts| {
        return Some(cache.index);
      }
      var loaded := LoadModel(env);
      if !loaded {
        return None;
      }
      var texts := PromptTexts(Contents(prompts), show);
      if texts.None? || !env.encodeSucceeds {
        return None;
      }
      var index := Index(texts.value);
      cache := SaveCache(cache, Contents(prompts), index, env.save);
      if env.save != Saved {
        return None;
      }
      return Some(index);
    }

    /**
     * `vector_recommend`: new scored copies of the hit prompts, or the keyword
     * recommendation whenever there is no index or the search fails; `None`
     * when that fallback raises.
     */
    method VectorRecommend(userInput: string, prompts: seq<PyDict>, topK: int, env: Env,
                           show: Value -> string, search: Search) returns (r: Option<seq<PyDict>>)
      requires categoryKeywords == LegacyKeywords
      modifies this
      ensures var (out, st) := LegacyVectorSpec(old(Snapshot()), userInput, Contents(prompts), topK, env, show, search);
        && Snapshot() == st
        && (r.None? <==> out.None?)
        && (r.Some? && out.value.Copies? ==>
              Contents(r.value) == out.value.items && Distinct(r.value)
              && forall t :: 0 <= t < |r.value| ==> fresh(r.value[t]))
        && (r.Some? && out.value.Fallback? ==>
              AllBelow(out.value.ranked, |prompts|) && r.value == Objects(prompts, out.value.ranked))
    {
      if |prompts| == 0 || |userInput| == 0 {
        return Some([]);
      }
      var results := VectorSearch(userInput, prompts, topK, env, show, search);
      if results.None? {
        r := KeywordRecommend(userInput, prompts, topK);
      } else {
        r := results;
      }
    }

    /** The `try` block of `vector_recommend`: `None` where it falls back to the keyword ranking. */
    method VectorSearch(userInput: string, prompts: seq<PyDict>, topK: int, env: Env,
                        show: Value -> string, search: Search) returns (r: Option<seq<PyDict>>)
      modifies this
      ensures var (found, st) := LegacySearchSpec(old(Snapshot()), userInput, Contents(prompts), topK, env, show, search);
        && Snapshot() == st
        && (r.None? <==> found.None?)
        && (r.Some? ==> Contents(r.value) == found.value && Distinct(r.value)
                        && forall t :: 0 <= t < |r.value| ==> fresh(r.value[t]))
    {
      var index := BuildVectorIndex(prompts, env, show);
      if index.None? {
        return None;
      }
      var loaded := LoadModel(env);
      if !loaded {
        return None;
      }
      var found := search(index.value, userInput, topK);
      if found.None? {
        return None;
      }
      r := CollectLegacyHits(prompts, found.value);
    }

    /**
     * The two searches of `hybrid_recommend`, each for `2 * top_k`: `None`
     * when either raises. Only the service state changes.
     */
    method HybridSearches(userInput: string, prompts: seq<PyDict>, topK: int, env: Env,
                          show: Value -> string, search: Search) returns (r: Option<(seq<PyDict>, seq<PyDict>)>)
      requires categoryKeywords == LegacyKeywords
      modifies this
      ensures var kpos := KeywordPositions(userInput, Contents(prompts), topK * 2);
        var (vout, st) := LegacyVectorSpec(old(Snapshot()), userInput, Contents(prompts), topK * 2, env, show, search);
        && Snapshot() == (if kpos.None? then old(Snapshot()) else st)
        && (r.None? <==> kpos.None? || vout.None?)
        && (r.Some? ==>
              && AllBelow(kpos.value, |prompts|) && r.value.0 == Objects(prompts, kpos.value)
              && Contents(r.value.0) == Values(Contents(prompts), kpos.value)
              && Contents(r.value.1) == VectorValues(Contents(prompts), vout.value)
              && (vout.value.Fallback? ==> AllBelow(vout.value.ranked, |prompts|) && r.value.1 == Objects(prompts, vout.value.ranked))
              && (vout.value.Copies? ==> forall t :: 0 <= t < |r.value.1| ==> fresh(r.value.1[t])))
      ensures r.Some? ==> forall o :: o in r.value.0 + r.value.1 ==> o in prompts || fresh(o)
    {
      var keywordResults := KeywordRecommend(userInput, prompts, topK * 2);
      if keywordResults.None? {
        return None;
      }
      ObjectsContents(prompts, KeywordPositions(userInput, Contents(prompts), topK * 2).value);
      var vectorResults := VectorRecommend(userInput, prompts, topK * 2, env, show, search);
      if vectorResults.None? {
        return None;
      }
      ghost var vout := LegacyVectorSpec(old(Snapshot()), userInput, Contents(prompts), topK * 2, env, show, search).0.value;
      if vout.Fallback? {
        ObjectsContents(prompts, vout.ranked);
      }
      r := Some((keywordResults.value, vectorResults.value));
      forall o | o in r.value.0 + r.value.1 ensures o in prompts || fresh(o) {
        if o in r.value.0 {
          var t :| 0 <= t < |r.value.0| && r.value.0[t] == o;
        } else {
          var t :| 0 <= t < |r.value.1| && r.value.1[t] == o;
        }
      }
    }

    /**
     * `hybrid_recommend`: keyword and vector recommendation for `2 * top_k`,
     * merged in place (the keyword results are the caller's dicts, so their
     * ranks and final scores stay written in them), sorted by final score and
     * cut to `top_k`. `ks` and `vs` are the two result lists and `merged` the
     * dicts that were merged; no other prompt changes.
     */
    method HybridRecommend(userInput: string, prompts: seq<PyDict>, topK: int, env: Env,
                           show: Value -> string, search: Search)
        returns (r: Option<seq<PyDict>>, ghost ks: seq<PyDict>, ghost vs: seq<PyDict>, ghost merged: seq<PyDict>)
      requires categoryKeywords == LegacyKeywords
      modifies this, set o | o in prompts
      ensures var (plan, st) := LegacyHybridSpec(old(Snapshot()), userInput, old(Contents(prompts)), topK, env, show, search);
        Snapshot() == st && (r.None? <==> plan.None?)
      ensures r.Some? ==>
        var plan := LegacyHybridSpec(old(Snapshot()), userInput, old(Contents(prompts)), topK, env, show, search).0.value;
        var K := Values(old(Contents(prompts)), plan.keyword);
        var V := VectorValues(old(Contents(prompts)), plan.vector);
        && Contents(r.value) == HybridEntries(K, V, topK)
        && AllBelow(plan.keyword, |prompts|) && ks == Objects(prompts, plan.keyword)
        && (plan.vector.Fallback? ==> AllBelow(plan.vector.ranked, |prompts|) && vs == Objects(prompts, plan.vector.ranked))
        && (plan.vector.Copies? ==> |vs| == |V| && forall t :: 0 <= t < |vs| ==> fresh(vs[t]))
        && (forall t :: 0 <= t < |MergeOrder(K, V)| ==> SrcIn(|ks|, |vs|, MergeOrder(K, V)[t]))
        && r.value == Take(SlotObjects(ks, vs, MergeOrder(K, V)), topK)
        && (forall t :: 0 <= t < |Merged(K, V)| ==> SrcIn(|ks|, |vs|, Merged(K, V)[t]))
        && merged == SlotObjects(ks, vs, Merged(K, V))
        && (forall t :: 0 <= t < |merged| ==> merged[t].items == ScoredEntry(K, V, Merged(K, V)[t]))
        && (forall o :: o in prompts && o !in merged ==> o.items == old(o.items))
    {
      ghost var P := Contents(prompts);
      var found := HybridSearches(userInput, prompts, topK, env, show, search);
      if found.None? {
        return None, [], [], [];
      }
      var keywordList, vectorList := found.value.0, found.value.1;
      ks, vs := keywordList, vectorList;
      ghost var K, V := Contents(ks), Contents(vs);
      r, merged := MergeAndRank(keywordList, vectorList, topK);
      if r.Some? {
        ResultContents(ks, vs, K, V, merged, r.value, topK);
      }
    }
  }
}
