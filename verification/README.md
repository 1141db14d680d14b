# Prompt recommendation core, modelled in Dafny

The repository holds several generations of a "vibe coding" prompt recommender.
A user describes a task in Korean or English. The app then recommends stored
prompts (dicts with `id`, `title`, `prompt`, `category`, `level`, `keywords`,
`tool`, `framework`) in one of three ways:

- **Keyword ranking.** Tags are extracted from the lowered query by substring
  matching against a fixed category → keyword table. Each prompt is scored,
  only positive scores are kept, and the rest are sorted with Python's stable
  descending sort and cut to `top_k`.
- **Vector ranking.** FAISS search results are filtered by index.
- **Hybrid ranking.** The two lists are fused:
  - the v0.2 service uses a weighted rank score plus a weighted similarity,
    deduplicated by id;
  - the older `prompt_recommendation` service uses reciprocal-rank fusion
    with a 999 sentinel, written into the prompt dicts in place.

Around this sit:

- the embedding-cache policy, which reuses a stored index whenever the stored
  prompt *count* matches;
- the list utilities of the v0.2 app (`filter_prompts`, `sort_prompts`,
  `validate_prompt_input`);
- the data-merge script (`normalize_prompt`, `find_duplicates`, the
  filter/sort pipeline, the statistics counters);
- the dataclasses of `models.py` with their `to_dict`/`from_dict`.

Modules:

| module | file | models |
|---|---|---|
| `PyValues`, `PyStrings`, `PySort` | `py_values.dfy`, `py_strings.dfy`, `py_sort.dfy` | Python values and dicts, `dict.get`, slicing, `str.lower`/`strip`/`split`/`in`/`join`, code-point string order, and one stable insertion sort that stands for `list.sort`/`sorted` (with `reverse=True` as stable descending order) |
| `TagTable`, `TagExamples` | `tag_table.dfy`, `tag_examples.dfy` | the category → keyword table and sorted tag extraction, shared by the v0.2 service and both vector apps, with worked examples |
| `KeywordRanking` | `keyword_ranking.dfy` | the "2 per category hit + shared keywords" score and the top-k ranking of the apps |
| `VectorApp`, `CommentedApp` | `streamlit_apps.dfy` | the placeholder `vector_recommend` of the first vector app; the commented app's unordered `extract_tags` and direct-key `recommend` |
| `Embedding` | `embedding.dfy` | the text embedded per prompt, and the cache file and external outcomes as plain data |
| `RankFusion`, `ServiceV2` | `rank_fusion.dfy`, `service_v2.dfy` | the v0.2 `RecommendationService` as a class with a model flag and a cache field; the `combined` dict of `hybrid_recommend` as an insertion-ordered association list |
| `LegacyRanking`, `LegacyMerge`, `LegacyService` | `legacy_ranking.dfy`, `legacy_merge.dfy`, `legacy_service.dfy` | the `prompt_recommendation` service; prompt dicts are heap objects (`PyDict`) because `hybrid_recommend` writes rank fields into them |
| `Helpers` | `helpers.dfy` | `filter_prompts`, `sort_prompts`, `validate_prompt_input` |
| `MergeData` | `merge_data.dfy` | `normalize_prompt`, `find_duplicates`, the merge pipeline, `print_statistics` counters |
| `Models` | `models.py` → `models.dfy` | `Prompt`, `RecommendationResult`, `SearchFilter` and their dict conversions, with an explicit ISO-8601 printer and parser for naive datetimes |

Conventions:

- **Python failures become values.** A Python exception becomes an `Option`
  or `Outcome` value (`None`/`Raised`) wherever the source can raise on
  caller data. Examples: `set()` of a non-iterable `keywords`, an unhashable
  id, a missing key in `from_dict`.
- **Environment outcomes are parameters.** These are model loading,
  encoding, cache writes and removal, the FAISS search (a function from
  index, query and `k` to `(score, index)` pairs, or a failure), and the
  text shown for a non-text value.

## Model

| member | source | states |
|---|---|---|
| PyValues.Get | vibe_prompt_reco_vector_v0.2/src/services/recommendation_service.py:79-81 | `d.get(k, default)` is the stored value when the key is present and the default otherwise |
| PyValues.Take | vibe_prompt_reco_vector_v0.2/vibe_prompt_manager_with_vector.py:69 | `s[:k]` is a prefix; its length is `min(k, len(s))` for `k >= 0` and `max(0, len(s) + k)` for negative `k` |
| PyValues.ListOfSet | prompt_recommendation/services/recommendation_service.py:55 | `list(set(xs))` has no duplicates, has exactly the set's members, and has the set's size (order unspecified) |
| PyStrings.Lower | vibe_prompt_reco_vector_v0.2/src/services/recommendation_service.py:51 | `lower()` keeps the length and lowers each character independently |
| PyStrings.StripEmptyIffBlank | vibe_prompt_reco_vector_v0.2/src/utils/helpers.py:152-155 | `s.strip()` is empty exactly when every character of `s` is whitespace |
| PyStrings.Words | prompt_recommendation/services/recommendation_service.py:64 | every word of `split()` is non-empty and free of whitespace |
| PyStrings.WordsSpec | prompt_recommendation/services/recommendation_service.py:64 | `split()` is complete and maximal: the text is exactly gap 0, word 0, gap 1, …, word n-1, gap n; every gap is white space; the gaps between two words are non-empty; the result is `[]` iff the text is blank |
| PyStrings.JoinContains | vibe_prompt_reco_vector_v0.2/src/services/recommendation_service.py:90 | every joined keyword occurs as a substring of `" ".join(keywords)` |
| PyStrings.StrLessTransitive | vibe_prompt_reco_vector_v0.2/src/utils/helpers.py:71 | Python's code-point string order is transitive |
| PyStrings.StrLessTotal | vibe_prompt_reco_vector_v0.2/src/utils/helpers.py:71 | two different strings are always ordered one way or the other |
| PySort.SortByPerm | vibe_prompt_reco_vector_v0.2/src/services/recommendation_service.py:85 | `list.sort` returns a permutation of its input |
| PySort.SortBySorted | vibe_prompt_reco_vector_v0.2/src/services/recommendation_service.py:85 | the sorted list is ordered by key, descending when `reverse=True` |
| PySort.SortByStable | vibe_prompt_reco_vector_v0.2/src/services/recommendation_service.py:85 | the sort is stable, also with `reverse=True`: the items sharing a key keep their input order |
| PySort.SortedBySpec | vibe_prompt_reco_vector_v0.2/src/utils/helpers.py:71 | `sorted(s, key=…)` is a permutation, ordered by the key, and stable for each key value |
| PySort.SortedSetSpec | vibe_prompt_reco_vector_v0.2/src/services/recommendation_service.py:62-63 | `sorted(set(xs))` has exactly the members of `xs` and is strictly increasing |
| TagTable.MatchTable | vibe_prompt_reco_vector_v0.2/src/services/recommendation_service.py:55-59 | the nested loop appends every table keyword found in the text, and its category with it; keyword k is collected iff it is a table keyword contained in the text; category c iff one of its keywords is; the same loop stands, over the global `CATEGORY_KEYWORDS_DATA`, in `vibe_prompt_reco_vector_v0.2/vibe_prompt_manager_with_vector.py` lines 48-52, over a local table in `vibe_prompt_reco_vector/vibe_prompt_manager_with_vector.py` lines 40-44, and in `vibe_prompt_reco/vibe_prompt_manager_app_commented.py` lines 36-40 |
| TagTable.RowHitsMembership | vibe_prompt_reco_vector_v0.2/src/services/recommendation_service.py:56-59 | a keyword is hit from one table row iff it belongs to the row and occurs in the text |
| TagTable.KeywordHitsMembership | vibe_prompt_reco_vector_v0.2/src/services/recommendation_service.py:55-59 | a keyword is matched iff some row lists it and it occurs in the text |
| TagTable.CategoryHitsMembership | vibe_prompt_reco_vector_v0.2/src/services/recommendation_service.py:55-59 | a category is matched iff one of its row's keywords occurs in the text |
| TagTable.ExtractTagsMeaning | vibe_prompt_reco_vector_v0.2/src/services/recommendation_service.py:51-64 | output keywords are exactly the table keywords contained in `lower(text)`; output categories are exactly those with a matched keyword; both lists are strictly sorted, hence duplicate-free |
| TagTable.ExtractTags | vibe_prompt_reco_vector_v0.2/vibe_prompt_manager_with_vector.py:44-56 | `extract_tags` of the v0.2 app: membership of both lists as above, both strictly sorted; `extract_tags` of the first vector app (`vibe_prompt_reco_vector/vibe_prompt_manager_with_vector.py` lines 28-48) has the same table and the same semantics |
| TagTable.CategoryIffOwnKeyword | vibe_prompt_reco_vector_v0.2/src/services/recommendation_service.py:57-63 | a category is output iff one of its own keywords is in the output keyword list |
| TagTable.EmptyTextNoTags | vibe_prompt_reco_vector_v0.2/vibe_prompt_manager_with_vector.py:44-56 | without an early return, empty text still gives empty lists, because no table keyword is empty |
| TagTable.TableHasNoEmptyKeyword | vibe_prompt_reco_vector_v0.2/vibe_prompt_manager_with_vector.py:19-26 | the shipped table has no empty keyword |
| TagTable.CaseInsensitive | vibe_prompt_reco_vector_v0.2/src/services/recommendation_service.py:51 | inputs with equal lower-casing give identical tags |
| TagTable.UpperAndLowerReact | vibe_prompt_reco_vector_v0.2/tests/test_prompt_manager.py:49-51 | "I want to use REACT" and "I want to use react" give identical tags |
| TagExamples.FastapiServer | vibe_prompt_reco_vector_v0.2/vibe_prompt_manager_with_vector.py:44-56 | "fastapi server" gives categories ["백엔드"] and keywords ["api", "fastapi"] |
| TagExamples.UiInsideBuild | vibe_prompt_reco_vector_v0.2/vibe_prompt_manager_with_vector.py:48-52 | "Build a react app with an api" also yields "ui" (inside "build") and so 프론트엔드 |
| TagExamples.LlmFromUpperCase | vibe_prompt_reco_vector_v0.2/vibe_prompt_manager_with_vector.py:48-52 | "LLM 프롬프트 인증 API" also yields "llm" |
| TagExamples.SortedHits | vibe_prompt_reco_vector_v0.2/vibe_prompt_manager_with_vector.py:54-55 | `sorted(set(...))` collapses repeated hits and orders them: ["api", "fastapi"] stays, ["백엔드", "백엔드"] becomes ["백엔드"] |
| KeywordRanking.Score | vibe_prompt_reco_vector_v0.2/vibe_prompt_manager_with_vector.py:62-65 | a prompt scores 0 iff its category is not a tag category and it shares no keyword with the tags; it never exceeds 2 plus the number of tag keywords |
| KeywordRanking.CountedKeywordsBound | vibe_prompt_reco_vector_v0.2/vibe_prompt_manager_with_vector.py:65 | the keyword part of the score is at most the number of tag keywords |
| KeywordRanking.PositiveMembers | vibe_prompt_reco_vector_v0.2/vibe_prompt_manager_with_vector.py:66-67 | `scored` holds exactly the prompts with a positive score |
| KeywordRanking.RankedSpec | vibe_prompt_reco_vector_v0.2/vibe_prompt_manager_with_vector.py:68 | the sorted list is a permutation of the positive prompts; scores are non-increasing; prompts of equal score keep input order |
| KeywordRanking.TopKeepsInputOrder | vibe_prompt_reco_vector_v0.2/vibe_prompt_manager_with_vector.py:68-69 | after the cut, the prompts of each score are a prefix of that score's prompts in input order |
| KeywordRanking.TopRankedSpec | vibe_prompt_reco_vector_v0.2/vibe_prompt_manager_with_vector.py:68-69 | the top-k result contains only input prompts with positive score, is non-increasing and stable, and has length `min(k, #positive)` |
| KeywordRanking.ScorePrompts | vibe_prompt_reco_vector_v0.2/vibe_prompt_manager_with_vector.py:60-67 | the scoring loop builds exactly the `(score, prompt)` pairs of the positive prompts, in input order |
| KeywordRanking.ScoreStep | vibe_prompt_reco_vector_v0.2/vibe_prompt_manager_with_vector.py:61-67 | one pass of the loop appends `(score, prompt)` exactly when the prompt scores above 0, keeping the pairs those of the positive prompts so far |
| KeywordRanking.Recommend | vibe_prompt_reco_vector_v0.2/vibe_prompt_manager_with_vector.py:59-69 | `recommend` returns the first `top_k` of the stable descending ranking: positive scores only, non-increasing, ties in input order, length `min(top_k, #positive)`; the first vector app's `recommend` (`vibe_prompt_reco_vector/vibe_prompt_manager_with_vector.py` lines 51-61) is the same code with the same guarantees |
| KeywordRanking.NoTagsNoRanking | vibe_prompt_reco_vector_v0.2/vibe_prompt_manager_with_vector.py:61-69 | with empty tag lists no prompt is recommended |
| KeywordRanking.ScoresOneTwoThree | vibe_prompt_reco_vector_v0.2/vibe_prompt_manager_with_vector.py:63-65 | keyword-only, category-only and both-hit prompts score 1, 2 and 3 |
| KeywordRanking.ThreeByScore | vibe_prompt_reco_vector_v0.2/vibe_prompt_manager_with_vector.py:68 | prompts scoring 1, 2, 3 are ranked 3, 2, 1 |
| KeywordRanking.CategoryAndKeywordFirst | tests/test_prompt_manager.py:132-153 | the both-hit prompt outranks the category-only prompt, which outranks the keyword-only prompt |
| KeywordRanking.OnlyTagSetsMatter | vibe_prompt_reco/vibe_prompt_manager_app_commented.py:51-53 | the ranking depends only on the sets of tag categories and keywords, not on their order or repetition |
| VectorApp.VectorRecommend | vibe_prompt_reco_vector/vibe_prompt_manager_with_vector.py:64-67 | the placeholder `vector_recommend(u, p, k)` equals `recommend(extract_tags(u), p, k)` |
| CommentedApp.ExtractTags | vibe_prompt_reco/vibe_prompt_manager_app_commented.py:25-44 | the same membership as the sorted version; both lists are duplicate-free permutations of the sorted ones (order unspecified), so the ranking built on them is unchanged |
| CommentedApp.ScoreWithKeyAccess | vibe_prompt_reco/vibe_prompt_manager_app_commented.py:48-55 | the scoring loop with direct key access builds the positive `(score, prompt)` pairs, for prompts that have both keys |
| CommentedApp.Recommend | vibe_prompt_reco/vibe_prompt_manager_app_commented.py:47-57 | positive scores only, non-increasing, ties in input order, length `min(top_k, #positive)`; every prompt must carry `category` and `keywords` |
| Embedding.PromptText | vibe_prompt_reco_vector_v0.2/src/services/recommendation_service.py:88-90 | the embedding text exists iff the prompt's keywords can be joined |
| Embedding.PromptTextSpec | vibe_prompt_reco_vector_v0.2/src/services/recommendation_service.py:90 | the text starts with the title and a space, and contains the body and every keyword |
| Embedding.TitleOnlyText | vibe_prompt_reco_vector_v0.2/src/services/recommendation_service.py:90 | a title-only prompt gives the title followed by two spaces |
| Embedding.PromptTexts | vibe_prompt_reco_vector_v0.2/src/services/recommendation_service.py:117 | the texts exist iff every prompt's keywords can be joined, one text per prompt, in order |
| RankFusion.LookupSpec | vibe_prompt_reco_vector_v0.2/src/services/recommendation_service.py:221 | `item_id in combined` holds iff the id was inserted; the value found is the stored one |
| RankFusion.PutIds | vibe_prompt_reco_vector_v0.2/src/services/recommendation_service.py:213 | assigning to a dict key keeps the key order, and a new key goes last |
| RankFusion.PutLookup | vibe_prompt_reco_vector_v0.2/src/services/recommendation_service.py:213 | after assigning to a key, that key maps to the new entry and every other key is unchanged |
| RankFusion.KeywordPassNext | vibe_prompt_reco_vector_v0.2/src/services/recommendation_service.py:209-213 | one keyword step: a falsy id is skipped, an unhashable id raises, otherwise the id is (re)assigned `(item, (len - i) * weight)` |
| RankFusion.VectorPassNext | vibe_prompt_reco_vector_v0.2/src/services/recommendation_service.py:216-224 | one vector step: a falsy id is skipped, an unhashable id raises, a known id adds `similarity * weight` and keeps its item, a new id is inserted with the vector item |
| RankFusion.AddKeywordResults | vibe_prompt_reco_vector_v0.2/src/services/recommendation_service.py:209-213 | the keyword loop computes the keyword pass |
| RankFusion.AddVectorResults | vibe_prompt_reco_vector_v0.2/src/services/recommendation_service.py:216-224 | the vector loop computes the vector pass |
| RankFusion.FuseResults | vibe_prompt_reco_vector_v0.2/src/services/recommendation_service.py:206-224 | both loops together compute the fusion |
| RankFusion.KeywordPassLookup | vibe_prompt_reco_vector_v0.2/src/services/recommendation_service.py:209-213 | after the keyword pass, an id is present iff some keyword item has it; the *last* such item and its rank score are stored |
| RankFusion.VectorPassLookup | vibe_prompt_reco_vector_v0.2/src/services/recommendation_service.py:216-224 | after the vector pass, an id kept from before keeps its item and gains the sum of its vector hits; a new id gets its *first* vector item and the sum |
| RankFusion.VectorStepLookup | vibe_prompt_reco_vector_v0.2/src/services/recommendation_service.py:217-224 | one vector step touches only the item's own id |
| RankFusion.FusedEntry | vibe_prompt_reco_vector_v0.2/src/services/recommendation_service.py:206-224 | an id is fused iff it appears in either list; a keyword id keeps its keyword item, scored `(len - i) * kw_weight + Σ similarity * vec_weight`; a vector-only id keeps its first vector item, scored by its similarities |
| RankFusion.KeywordPassSpec | vibe_prompt_reco_vector_v0.2/src/services/recommendation_service.py:209-213 | the keyword pass raises iff some keyword item has an unhashable id; otherwise ids are distinct and truthy and items come from the keyword list |
| RankFusion.VectorPassSpec | vibe_prompt_reco_vector_v0.2/src/services/recommendation_service.py:216-224 | the vector pass raises iff some vector item has an unhashable id; otherwise it keeps the dict well formed and its items from the inputs |
| RankFusion.FuseSpec | vibe_prompt_reco_vector_v0.2/src/services/recommendation_service.py:206-224 | fusion raises iff either list holds an unhashable id; otherwise ids are distinct and truthy, and every item comes from one of the two lists |
| RankFusion.ValuesDistinctIds | vibe_prompt_reco_vector_v0.2/src/services/recommendation_service.py:227 | `combined.values()` carries pairwise different ids |
| RankFusion.TopItems | vibe_prompt_reco_vector_v0.2/src/services/recommendation_service.py:229 | the returned items are the items of the top entries, in order |
| RankFusion.TopEntriesSpec | vibe_prompt_reco_vector_v0.2/src/services/recommendation_service.py:227-229 | the top entries are a prefix of a permutation of the values; the length is `min(top_k, #ids)`; scores are non-increasing; nothing left out scores higher; equal scores keep insertion order |
| RankFusion.TopItemsSpec | vibe_prompt_reco_vector_v0.2/src/services/recommendation_service.py:227-229 | output length `min(top_k, #ids)`; every item has a truthy id and comes from the inputs; ids are pairwise different |
| RankFusion.VectorPassKeepsIds | vibe_prompt_reco_vector_v0.2/src/services/recommendation_service.py:221-224 | the vector loop never removes or reorders an existing key |
| RankFusion.FuseInsertionOrder | vibe_prompt_reco_vector_v0.2/src/services/recommendation_service.py:206-224 | the keyword ids come first in insertion order; later keys are vector-only ids |
| RankFusion.KeywordPassEntries | vibe_prompt_reco_vector_v0.2/src/services/recommendation_service.py:209-213 | with distinct truthy ids, the keyword pass is exactly one entry per keyword item, in order, with its rank score |
| RankFusion.RankScoreDecreasing | vibe_prompt_reco_vector_v0.2/src/services/recommendation_service.py:212 | with a positive weight, an earlier keyword position scores strictly higher |
| RankFusion.KeywordOrderKept | vibe_prompt_reco_vector_v0.2/src/services/recommendation_service.py:206-229 | with no vector results, a positive keyword weight and distinct truthy ids, the fused top-k is the first `top_k` keyword results in their order |
| ServiceV2.InvalidateSpec | vibe_prompt_reco_vector_v0.2/src/services/recommendation_service.py:234-241 | invalidation leaves the model alone; a successful removal empties the cache; a failed one leaves it as it was |
| ServiceV2.CacheMatchesOnCountOnly | vibe_prompt_reco_vector_v0.2/src/services/recommendation_service.py:107-112 | with a loadable model, a stored cache of the same length is returned verbatim for *any* prompts of that length |
| ServiceV2.StoredIndexReused | vibe_prompt_reco_vector_v0.2/src/services/recommendation_service.py:107-142 | once an index was built and saved, a later build for a list of the same length returns that index |
| ServiceV2.InvalidateForcesRebuild | vibe_prompt_reco_vector_v0.2/src/services/recommendation_service.py:234-241 | after a successful invalidation, the next build encodes the current prompts |
| ServiceV2.UnsavedIndexReturned | vibe_prompt_reco_vector_v0.2/src/services/recommendation_service.py:130-142 | a failed cache write still returns the new index; the file is left unchanged (open failed) or unreadable (dump failed), and never matches |
| ServiceV2.VectorHits | vibe_prompt_reco_vector_v0.2/src/services/recommendation_service.py:170-175 | no more results than search hits |
| ServiceV2.VectorHitsSpec | vibe_prompt_reco_vector_v0.2/src/services/recommendation_service.py:171-175 | each result is a copy of `prompts[idx]` with `similarity_score` for a hit with `0 <= idx < len(prompts)`; every such hit yields one; out-of-range hits are dropped |
| ServiceV2.CollectHits | vibe_prompt_reco_vector_v0.2/src/services/recommendation_service.py:170-177 | the result loop computes exactly the filtered hits |
| ServiceV2.VectorResultsFromPrompts | vibe_prompt_reco_vector_v0.2/src/services/recommendation_service.py:151-180 | every vector result is a scored copy of an input prompt |
| ServiceV2.HybridSpecResults | vibe_prompt_reco_vector_v0.2/src/services/recommendation_service.py:191-232 | the hybrid result has at most `top_k` items, with truthy, pairwise different ids, each an input prompt or a scored copy of one |
| ServiceV2.RecommendationService.constructor | vibe_prompt_reco_vector_v0.2/src/services/recommendation_service.py:19-34 | the table is the six-category keyword table; no model is loaded; the cache is the given file state |
| ServiceV2.RecommendationService.LoadModel | vibe_prompt_reco_vector_v0.2/src/services/recommendation_service.py:36-44 | the model is loaded lazily: success iff it was loaded before or loads now; the cache is untouched |
| ServiceV2.RecommendationService.ExtractTags | vibe_prompt_reco_vector_v0.2/src/services/recommendation_service.py:46-64 | empty text gives empty lists; otherwise the sorted, duplicate-free tags whose keywords occur in `lower(text)` |
| ServiceV2.RecommendationService.KeywordRecommend | vibe_prompt_reco_vector_v0.2/src/services/recommendation_service.py:66-86 | raises iff some prompt's keywords are not iterable; otherwise positive scores only, non-increasing, ties in input order, length `min(top_k, #positive)` |
| ServiceV2.ScoreCheckedPrompts | vibe_prompt_reco_vector_v0.2/src/services/recommendation_service.py:76-83 | the scoring loop raises iff some prompt's keywords are not iterable; otherwise it builds exactly the `(score, prompt)` pairs of the positive prompts, in input order |
| ServiceV2.RecommendationService.BuildVectorIndex | vibe_prompt_reco_vector_v0.2/src/services/recommendation_service.py:92-142 | result and new state are the cache policy: nothing for no prompts or no model, a stored index of equal count, else a fresh index and a write attempt |
| ServiceV2.RecommendationService.VectorRecommend | vibe_prompt_reco_vector_v0.2/src/services/recommendation_service.py:144-180 | `[]` for empty prompts or input, no index, or any failure; otherwise search with `min(top_k, len(prompts))` and keep the in-range hits as scored copies |
| ServiceV2.RecommendationService.HybridRecommend | vibe_prompt_reco_vector_v0.2/src/services/recommendation_service.py:182-232 | `[]` for empty prompts or input or any failure; otherwise the fusion of keyword and vector results for `2 * top_k`, cut to `top_k` |
| ServiceV2.RecommendationService.InvalidateCache | vibe_prompt_reco_vector_v0.2/src/services/recommendation_service.py:234-241 | the new state is the invalidation policy |
| LegacyRanking.TagsOfSpec | prompt_recommendation/services/recommendation_service.py:44-55 | the legacy tags are exactly the legacy table's keywords contained in `lower(text)` |
| LegacyRanking.WordScoreSpec | prompt_recommendation/services/recommendation_service.py:68-78 | a prompt scores 0 iff no query word occurs in its lowered title or body and no tag is among its lowered keywords |
| LegacyRanking.PositiveAtSpec | prompt_recommendation/services/recommendation_service.py:80-81 | the kept positions are ascending and exactly those with a positive score |
| LegacyRanking.RankedAtMembers | prompt_recommendation/services/recommendation_service.py:80-83 | the ranking lists each positive-scoring prompt exactly once |
| LegacyRanking.RankedAtDescending | prompt_recommendation/services/recommendation_service.py:83 | the ranking's scores are non-increasing |
| LegacyRanking.RankedAtTies | prompt_recommendation/services/recommendation_service.py:83 | prompts of equal score keep input order |
| LegacyRanking.KeywordPositionsRaises | prompt_recommendation/services/recommendation_service.py:60-84 | empty prompts or input give `[]`; otherwise it raises iff some prompt's title, body or keywords cannot be lowered |
| LegacyRanking.TopRankedAtMembers | prompt_recommendation/services/recommendation_service.py:83-84 | the top-k positions are distinct and positive-scoring, with length `min(k, #positive)` |
| LegacyRanking.TopRankedAtOrder | prompt_recommendation/services/recommendation_service.py:83-84 | the top-k scores are non-increasing, ties in input order |
| LegacyRanking.TopRankedAtCut | prompt_recommendation/services/recommendation_service.py:83-84 | no positive prompt left out scores higher than a kept one |
| LegacyRanking.KeywordPositionsSpec | prompt_recommendation/services/recommendation_service.py:57-84 | the word-hit ranking: distinct positive-scoring prompts, non-increasing, stable, `min(top_k, #positive)` of them, none better left out |
| LegacyService.CachedIndexNeedsNoModel | prompt_recommendation/services/recommendation_service.py:91-97 | a stored cache of matching count is returned without loading the model, and nothing changes |
| LegacyService.ReturnedIndexIsCached | prompt_recommendation/services/recommendation_service.py:101-121 | every returned index is also in the cache with a matching count, so an immediate rebuild returns it again |
| LegacyService.FailedSaveGivesNoIndex | prompt_recommendation/services/recommendation_service.py:117-125 | a failed cache write makes the whole build return None; a failed dump leaves the file unreadable |
| LegacyService.LegacyHits | prompt_recommendation/services/recommendation_service.py:144-149 | no more results than hits |
| LegacyService.LegacyHitsSpec | prompt_recommendation/services/recommendation_service.py:144-149 | the loop raises iff some index is below `-len(prompts)`; otherwise each result is a scored copy of the prompt the (possibly negative) index selects, and every hit with `idx < len(prompts)` yields one |
| LegacyService.PaddingSelectsLastPrompt | prompt_recommendation/services/recommendation_service.py:146-147 | a padding index of -1 selects the last prompt |
| LegacyService.KeywordRaisesWhatever | prompt_recommendation/services/recommendation_service.py:60-84 | whether `keyword_recommend` raises does not depend on `top_k` |
| LegacyService.VectorRaisesOnlyWithKeyword | prompt_recommendation/services/recommendation_service.py:133-155 | `vector_recommend` can raise only where `keyword_recommend` raises; its fallback result is exactly `keyword_recommend(user_input, prompts, top_k)` |
| LegacyService.HybridRaises | prompt_recommendation/services/recommendation_service.py:157-197 | `hybrid_recommend` raises iff keyword recommendation raises or the merge meets an unhashable id |
| LegacyService.HybridEntriesSpec | prompt_recommendation/services/recommendation_service.py:164-197 | the hybrid result has at most `top_k` entries with pairwise different ids, all from the two lists, each carrying both ranks and `final_score = 0.4/kr + 0.6/vr`, in non-increasing `final_score` order |
| LegacyService.HybridEntriesIds | prompt_recommendation/services/recommendation_service.py:164-197 | no two hybrid results share an id, and every id is that of a keyword or a vector result |
| LegacyService.HybridEntriesScores | prompt_recommendation/services/recommendation_service.py:191-197 | every hybrid result carries both ranks and `final_score = 0.4/kr + 0.6/vr`, and final scores never increase along the result |
| LegacyService.HybridFallbackIsKeyword | prompt_recommendation/services/recommendation_service.py:160-188 | when vector search fell back to keywords, the merge is the keyword list alone (every vector hit updates an existing entry) |
| LegacyService.MatchKeywords | prompt_recommendation/services/recommendation_service.py:50-53 | the loop collects exactly the legacy table keywords found in the text |
| LegacyService.EmptyTextNoLegacyTags | prompt_recommendation/services/recommendation_service.py:44-45 | no legacy keyword matches the empty string |
| LegacyService.CollectLegacyHits | prompt_recommendation/services/recommendation_service.py:144-149 | the result loop raises iff the filtered-hit model does; otherwise it returns fresh, distinct copies with exactly those contents |
| LegacyService.ScoredCopy | prompt_recommendation/services/recommendation_service.py:146-147 | the copy is a new dict object holding the prompt with `similarity_score` set |
| LegacyService.ScoreOne | prompt_recommendation/services/recommendation_service.py:68-78 | the per-prompt score is the word-hit score |
| LegacyService.ScorePromptObjects | prompt_recommendation/services/recommendation_service.py:66-81 | the scoring loop raises iff some prompt cannot be scored; otherwise it builds the positive `(score, prompt)` pairs in input order |
| LegacyService.RankPromptObjects | prompt_recommendation/services/recommendation_service.py:66-84 | the scored prompts, sorted and cut, are the caller's own objects at the ranked positions |
| LegacyService.RecommendationService.constructor | prompt_recommendation/services/recommendation_service.py:17-30 | the table is the five-category legacy table; no model is loaded; the cache is the given file state |
| LegacyService.RecommendationService.LoadModel | prompt_recommendation/services/recommendation_service.py:32-40 | lazy load: success iff loaded before or loadable now; the cache is untouched |
| LegacyService.RecommendationService.ExtractTags | prompt_recommendation/services/recommendation_service.py:42-55 | empty text gives `[]`; otherwise a duplicate-free list, in unspecified order, of exactly the table keywords in `lower(text)` |
| LegacyService.RecommendationService.KeywordRecommend | prompt_recommendation/services/recommendation_service.py:57-84 | raises exactly as the word-hit ranking does; otherwise returns the caller's prompt objects at the ranked positions |
| LegacyService.RecommendationService.BuildVectorIndex | prompt_recommendation/services/recommendation_service.py:86-125 | result and new state follow the legacy cache policy: None for no prompts, the stored index on equal count, else build and save, None on any failure |
| LegacyService.RecommendationService.VectorRecommend | prompt_recommendation/services/recommendation_service.py:127-155 | scored fresh copies of the selected prompts, or the keyword result when the index is missing or the search fails |
| LegacyService.RecommendationService.VectorSearch | prompt_recommendation/services/recommendation_service.py:133-151 | the index build, model load, search and result loop: the scored fresh copies of the selected hits, or nothing exactly where the source falls back; the new state is the cache and model policy |
| LegacyService.RecommendationService.HybridRecommend | prompt_recommendation/services/recommendation_service.py:157-197 | result contents are the hybrid entries; the returned objects are the keyword and vector result objects in merge order; merged objects carry their ranks and `final_score`; every other prompt dict is left unchanged |
| LegacyMerge.Newcomers | prompt_recommendation/services/recommendation_service.py:168-171 | the ids taken from a list are positions within it |
| LegacyMerge.NewcomersSpec | prompt_recommendation/services/recommendation_service.py:168-188 | newcomers are the first occurrences of ids not seen before, in order, and every unseen id gets one |
| LegacyMerge.FirstIndex | prompt_recommendation/services/recommendation_service.py:180-183 | the search over `merged` stops at the first entry with the id, and finds none iff the id is absent |
| LegacyMerge.KeywordRank | prompt_recommendation/services/recommendation_service.py:172-186 | a keyword rank is always positive, so `1 / keyword_rank` never divides by zero |
| LegacyMerge.VectorRank | prompt_recommendation/services/recommendation_service.py:173-187 | a vector rank is always positive |
| LegacyMerge.RankedAfter | prompt_recommendation/services/recommendation_service.py:176-183 | every merged entry carries both ranks and keeps its id |
| LegacyMerge.RankedEntry | prompt_recommendation/services/recommendation_service.py:164-188 | every merged entry carries both rank fields |
| LegacyMerge.MergedSlotsShape | prompt_recommendation/services/recommendation_service.py:164-188 | keyword entries come before vector entries; each keyword entry is the first occurrence of its id; each vector entry has an id absent from the keyword list |
| LegacyMerge.MergedSlotsDistinct | prompt_recommendation/services/recommendation_service.py:164-188 | the merged entries carry pairwise different ids |
| LegacyMerge.MergedSlotsCover | prompt_recommendation/services/recommendation_service.py:164-188 | every id of either list has a merged entry |
| LegacyMerge.KeywordEntryRank | prompt_recommendation/services/recommendation_service.py:168-173 | the keyword entry at first position `i` gets `keyword_rank = i + 1` |
| LegacyMerge.KeywordNewcomer | prompt_recommendation/services/recommendation_service.py:170-174 | a keyword newcomer starts with ranks `(i + 1, 999)` |
| LegacyMerge.VectorNewcomer | prompt_recommendation/services/recommendation_service.py:184-188 | a vector newcomer gets ranks `(999, j + 1)` |
| LegacyMerge.FallbackAddsNothing | prompt_recommendation/services/recommendation_service.py:176-183 | merging a list with itself adds no vector entries |
| LegacyMerge.FinalScoreBounds | prompt_recommendation/services/recommendation_service.py:191-194 | `final_score` lies in (0, 1], reaching 1 at ranks (1, 1) |
| LegacyMerge.FinalScoreMonotone | prompt_recommendation/services/recommendation_service.py:191-194 | better (smaller) ranks give a strictly higher `final_score` |
| LegacyMerge.VectorOnlyBeatsKeywordOnly | prompt_recommendation/services/recommendation_service.py:191-194 | a top vector-only hit outscores a top keyword-only hit (0.6 + 0.4/999 against 0.4 + 0.6/999) |
| LegacyMerge.MergeOrderSpec | prompt_recommendation/services/recommendation_service.py:196 | the final order is a permutation of the merged entries, non-increasing in `final_score`, stable for equal scores |
| LegacyMerge.MergeOrderFallback | prompt_recommendation/services/recommendation_service.py:164-196 | with keyword fallback and distinct ids, the final order is the keyword order |
| LegacyMerge.MergeOrderMembers | prompt_recommendation/services/recommendation_service.py:196 | the final order contains only merged entries, as many as there are |
| LegacyMerge.MergeOrderDistinctIds | prompt_recommendation/services/recommendation_service.py:164-197 | the final order lists pairwise different ids |
| LegacyMerge.MergeOrderScores | prompt_recommendation/services/recommendation_service.py:196 | the final order's scores are non-increasing |
| LegacyMerge.MergeOrderCovers | prompt_recommendation/services/recommendation_service.py:164-197 | every id of either list appears in the final order |
| LegacyMerge.SlotObjects | prompt_recommendation/services/recommendation_service.py:174-188 | the merged list holds the result objects themselves, not copies |
| LegacyMerge.AddKeywordEntry | prompt_recommendation/services/recommendation_service.py:170-174 | a new keyword item gets its two rank fields written in place and is appended |
| LegacyMerge.MergeKeywordResults | prompt_recommendation/services/recommendation_service.py:168-174 | the keyword loop raises iff an id is unhashable; otherwise `merged` is the first occurrence of each id, with ranks written in place, and `seen_ids` is the set of keyword ids |
| LegacyMerge.FindEntry | prompt_recommendation/services/recommendation_service.py:180-183 | the inner loop stops at the first merged entry with the id |
| LegacyMerge.UpdateVectorRank | prompt_recommendation/services/recommendation_service.py:178-183 | a seen id only rewrites `vector_rank` of its first merged entry |
| LegacyMerge.AddVectorEntry | prompt_recommendation/services/recommendation_service.py:184-188 | a new vector item gets ranks `(999, j + 1)` written in place and is appended |
| LegacyMerge.VectorRound | prompt_recommendation/services/recommendation_service.py:176-188 | one vector iteration raises iff the id is unhashable, and otherwise keeps the merge invariant |
| LegacyMerge.MergeVectorResults | prompt_recommendation/services/recommendation_service.py:176-188 | the vector loop raises iff a vector id is unhashable; otherwise the merged objects match the merge model |
| LegacyMerge.MergeResults | prompt_recommendation/services/recommendation_service.py:164-188 | the merge raises iff some id is unhashable; otherwise the merged list is the model's objects with the model's rank fields, and objects outside it are unchanged |
| LegacyMerge.ScoreMerged | prompt_recommendation/services/recommendation_service.py:191-194 | each merged dict gains `final_score` from its ranks, in place |
| LegacyMerge.SortedObjects | prompt_recommendation/services/recommendation_service.py:196 | sorting the merged objects by `final_score` gives the final order |
| LegacyMerge.MergeAndRank | prompt_recommendation/services/recommendation_service.py:164-197 | merge, score, sort and cut: raises iff an id is unhashable; otherwise the first `top_k` objects of the final order, with every other dict unchanged |
| Helpers.FilterPrompts | vibe_prompt_reco_vector_v0.2/src/utils/helpers.py:30-50 | with all criteria None or empty, the input comes back unchanged |
| Helpers.AdmittedWhere | vibe_prompt_reco_vector_v0.2/src/utils/helpers.py:32-39 | the three successive comprehensions keep exactly the prompts whose category, level and tool are in the given lists |
| Helpers.KeepMatchingSpec | vibe_prompt_reco_vector_v0.2/src/utils/helpers.py:41-48 | the search comprehension raises iff some prompt's fields cannot be lowered when reached; otherwise it keeps exactly the hits |
| Helpers.FilterPromptsSpec | vibe_prompt_reco_vector_v0.2/src/utils/helpers.py:30-50 | raises only while searching, on an admitted prompt whose fields cannot be lowered; otherwise an order-preserving subsequence; a prompt survives iff it passes every given criterion and the lowered query occurs in its lowered title, body or some keyword |
| Helpers.FilterPromptsRaises | vibe_prompt_reco_vector_v0.2/src/utils/helpers.py:30-50 | the filter raises iff a query applies and the search test raises on a prompt passing the list criteria |
| Helpers.FilterPromptsKept | vibe_prompt_reco_vector_v0.2/src/utils/helpers.py:30-50 | when the filter returns, its list is the one comprehension over the input with every criterion that applies |
| Helpers.FilterPromptsIdempotent | vibe_prompt_reco_vector_v0.2/src/utils/helpers.py:30-50 | filtering twice with the same criteria equals filtering once |
| Helpers.LevelRank | vibe_prompt_reco_vector_v0.2/src/utils/helpers.py:77-80 | the level rank is 0, 1 or 2 |
| Helpers.Reverse | vibe_prompt_reco_vector_v0.2/src/utils/helpers.py:68 | `prompts[::-1]` puts element `i` at position `n - 1 - i` |
| Helpers.ReversePerm | vibe_prompt_reco_vector_v0.2/src/utils/helpers.py:68 | reversal is a permutation |
| Helpers.SortedByTitle | vibe_prompt_reco_vector_v0.2/src/utils/helpers.py:71 | sorting by title gives a permutation, ordered by title, stable |
| Helpers.SortedByCategory | vibe_prompt_reco_vector_v0.2/src/utils/helpers.py:74 | sorting by (category, title) gives a permutation, ordered lexicographically, stable |
| Helpers.SortedByLevel | vibe_prompt_reco_vector_v0.2/src/utils/helpers.py:76-81 | sorting by (level rank, title) gives a permutation, ordered lexicographically, stable |
| Helpers.SortPrompts | vibe_prompt_reco_vector_v0.2/src/utils/helpers.py:53-83 | always a permutation; 최신순 reverses; 제목순, 분야순 and 레벨순 sort stably by their keys (unknown levels rank 0); any other key returns the input |
| Helpers.ValidatePromptInput | vibe_prompt_reco_vector_v0.2/src/utils/helpers.py:136-164 | valid iff no error; valid iff title and body are not blank, the body is at most 2000 characters and every keyword at most 50; otherwise the first failing check's message |
| MergeData.NormalizePrompt | vibe_prompt_reco_vector_v0.2/scripts/merge_data.py:21-40 | exactly the eight keys; each field copied or defaulted (`""`, level `"중급"`); keywords: a string becomes `[s]`, a list is kept, anything else `[]` |
| MergeData.NormalizeIdempotent | vibe_prompt_reco_vector_v0.2/scripts/merge_data.py:21-40 | normalising twice equals normalising once |
| MergeData.UniqueByStep | vibe_prompt_reco_vector_v0.2/scripts/merge_data.py:48-68 | one loop iteration appends the prompt iff both normalised keys are non-empty and unseen |
| MergeData.FindDuplicatesBy | vibe_prompt_reco_vector_v0.2/scripts/merge_data.py:42-70 | the seen-set loop raises iff some title or body is not text; otherwise it returns the first-occurrence deduplication |
| MergeData.FindDuplicates | vibe_prompt_reco_vector_v0.2/scripts/merge_data.py:42-70 | the same for the stripped, lowered title and body |
| MergeData.UniqueBySpec | vibe_prompt_reco_vector_v0.2/scripts/merge_data.py:48-68 | the result is an order-preserving subsequence with non-empty, pairwise different keys |
| MergeData.UniqueSpec | vibe_prompt_reco_vector_v0.2/scripts/merge_data.py:42-70 | `find_duplicates` returns an order-preserving subsequence with no empty and no repeated normalised title or content |
| MergeData.UniqueByPrefix | vibe_prompt_reco_vector_v0.2/scripts/merge_data.py:48-68 | the result for a prefix is a prefix of the result, so the first occurrence is the one kept |
| MergeData.UniqueStep | vibe_prompt_reco_vector_v0.2/scripts/merge_data.py:48-68 | a prompt is kept iff its normalised title and content are non-empty and no kept prompt shares either |
| MergeData.RejectedLeavesNoTrace | vibe_prompt_reco_vector_v0.2/scripts/merge_data.py:57-67 | a rejected prompt registers neither its title nor its content: it does not affect later prompts |
| MergeData.UniqueIdempotent | vibe_prompt_reco_vector_v0.2/scripts/merge_data.py:42-70 | deduplicating twice equals deduplicating once |
| MergeData.CollectMembers | vibe_prompt_reco_vector_v0.2/scripts/merge_data.py:94-97 | a file contributes exactly the normalised prompts with truthy id, title and prompt |
| MergeData.CollectAllMembers | vibe_prompt_reco_vector_v0.2/scripts/merge_data.py:86-97 | all files contribute exactly the complete normalised prompts of every file |
| MergeData.MergeDataFiles | vibe_prompt_reco_vector_v0.2/scripts/merge_data.py:83-109 | the pipeline raises iff a collected title or body is not text; otherwise it is the deduplicated collection sorted stably by (category, title) |
| MergeData.MergedSpec | vibe_prompt_reco_vector_v0.2/scripts/merge_data.py:93-109 | merged prompts have the eight normalised keys, truthy id/title/prompt, non-empty normalised title and content; each comes from some input file; titles and contents are pairwise different; the list is ordered by (category, title) |
| MergeData.TallySpec | vibe_prompt_reco_vector_v0.2/scripts/merge_data.py:156-163 | the counter's keys are distinct and are exactly the values seen; each count is the number of prompts with that value (default "Unknown"); the counts sum to `len(prompts)` |
| MergeData.PrintStatistics | vibe_prompt_reco_vector_v0.2/scripts/merge_data.py:146-163 | the three counting dicts are the tallies of category, level and tool; the category counts sum to `len(prompts)` and each equals its number of occurrences |
| Models.IsoFormat | vibe_prompt_reco_vector_v0.2/src/models.py:35-36 | `isoformat()` is 19 characters, or 26 when microseconds are non-zero |
| Models.FromIsoFormat | vibe_prompt_reco_vector_v0.2/src/models.py:46-48 | every parsed value is a valid date and time |
| Models.DateRoundTrip | vibe_prompt_reco_vector_v0.2/src/models.py:35-46 | the date part parses back to year, month and day |
| Models.ClockRoundTrip | vibe_prompt_reco_vector_v0.2/src/models.py:35-46 | the time part parses back to hour, minute and second |
| Models.IsoRoundTrip | vibe_prompt_reco_vector_v0.2/src/models.py:35-48 | `fromisoformat(t.isoformat()) == t` for every valid naive datetime |
| Models.TimestampValue | vibe_prompt_reco_vector_v0.2/src/models.py:35-36 | a missing timestamp maps to None, and only a missing one |
| Models.PromptToDict | vibe_prompt_reco_vector_v0.2/src/models.py:24-37 | `to_dict` has exactly the ten keys |
| Models.TimestampRoundTrip | vibe_prompt_reco_vector_v0.2/src/models.py:42-48 | reading a written timestamp gives back the original, None included |
| Models.PromptRoundTrip | vibe_prompt_reco_vector_v0.2/src/models.py:24-61 | `Prompt.from_dict(p.to_dict()) == p` |
| Models.PromptFromDictSpec | vibe_prompt_reco_vector_v0.2/src/models.py:39-61 | succeeds iff both timestamps parse and the five required keys exist; otherwise a KeyError names a missing required key; the fields are copied; keywords, tool and framework default to `[]`, `""`, `""`; a falsy timestamp gives None; extra keys are ignored |
| Models.ResultToDict | vibe_prompt_reco_vector_v0.2/src/models.py:72-81 | the prompt's dict plus `score` and `recommendation_type`; `similarity_score` is present iff it is not None |
| Models.ResultPromptRoundTrip | vibe_prompt_reco_vector_v0.2/src/models.py:72-81 | the result dict still reads back as its prompt |
| Models.SearchFilterToDict | vibe_prompt_reco_vector_v0.2/src/models.py:93-101 | exactly the five keys |
| Models.SearchFilterToDictInjective | vibe_prompt_reco_vector_v0.2/src/models.py:93-101 | different filters give different dicts, so no field is lost |

## Left out

- Embeddings, FAISS and floating point. `SentenceTransformer`, `HuggingFaceEmbeddings`, `encode`, `normalize_L2`, `IndexFlatIP` and similarity search are not modelled. An index is the list of texts it was built from. A search is a function parameter returning `(score, index)` pairs or a failure. Scores and weights are exact reals.
- Persistence and I/O. The pickle file is a value (`Absent`, `Unreadable`, `Stored`). Also not modelled:
  - Supabase and JSON loading or saving (`load_prompts`, `save_prompts`, `load_json_file`, `update_config_file`);
  - `upload_prompt.py`;
  - `os.path.exists` beyond the cache value;
  - logging and all `print` output, including the "Top Tools" list of `print_statistics`.
- The Streamlit user interface is not modelled: the tab code of the three apps, `src/app.py`, `prompt_recommendation/app.py`, `display_prompt_card` and `display_prompt_detail`.
- `build_vectorstore` and the FAISS `vector_recommend` of the v0.2 app (its lines 74-90) are not modelled. They are pure library calls.
- `st.cache_data` / `st.cache_resource` memoisation is not modelled.
- `PyValues.Value`: a list holds only strings (`StrList`), and there are no nested dicts. So the model cannot represent, and does not model the errors of:
  - a `keywords` list with non-string items. `kw.lower()` raises AttributeError at prompt_recommendation/services/recommendation_service.py:77. `' '.join` raises TypeError at vibe_prompt_reco_vector_v0.2/src/services/recommendation_service.py:90 and prompt_recommendation/services/recommendation_service.py:104;
  - dict items in `keywords`. `set()` of unhashable items raises at vibe_prompt_reco_vector_v0.2/src/services/recommendation_service.py:81;
  - a dict-valued `keywords`, which Python iterates by key.
- Python hashing identifies `True`, `1` and `1.0`. The model keeps them apart; this matters only for ids and counter keys of mixed type.
- Non-text values in text positions are not converted with `str()`. `_get_prompt_text` and the legacy index texts use a parameter `show` for that conversion, and string comparison of mixed types is excluded.
- `str.lower` lowers only ASCII letters. The table keywords and the Korean text are unaffected. Non-ASCII case folding and Unicode whitespace beyond the ASCII and common separators are approximated.
- `Models.FromIsoFormat`: only the `YYYY-MM-DD?HH:MM:SS[.ffffff]` form of naive datetimes is parsed. Other forms that `datetime.fromisoformat` accepts are read as failures: date only, hour or minute precision, three-digit fractions and UTC offsets, plus other fraction lengths and a trailing `Z` since Python 3.11. The source returns a datetime for them, an aware one when there is an offset.
- `Models.PromptFromDict`: a KeyError for a missing required key is reported after the timestamps are read, as in the source. Two failing keys are not both reported.
- `LegacyService.RecommendationService.HybridRecommend`: when the merge raises part way through, the fields written before the exception are not described. The contract covers the successful run and the fact that it raised.
- `LegacyService.RecommendationService.ExtractTags`: the order of `list(set(tags))` is left unspecified. Only duplicate-freedom and membership are stated.
- `Helpers.SortPrompts`: requires text titles (and text categories for 분야순) and hashable levels for 레벨순. Python raises on a mixed comparison only when the sort happens to compare that pair, so the error path is not modelled.
- `MergeData.MergeDataFiles`: requires text categories, for the same reason. The title and body error path of `find_duplicates` is modelled.
- `MergeData.PrintStatistics`: requires hashable category, level and tool values. An unhashable list raises in the source.
- `KeywordRanking.Recommend`: requires every prompt's `keywords` to be iterable. The apps raise otherwise; `ServiceV2.RecommendationService.KeywordRecommend` models that error path.
- `CommentedApp.Recommend`: requires the `category` and `keywords` keys. The source raises KeyError without them.
- `MergeData.FindDuplicatesBy` takes the normalisation functions as parameters, and `MergeData.FindDuplicates` instantiates them with strip-and-lower. Its loop is the same as the source's.
- The cache dict's own contents are not modelled. The cache file is assumed to hold the expected keys when it can be read; a dict missing `'index'` is read as unreadable.
