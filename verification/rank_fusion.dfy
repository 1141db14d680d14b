/**
 * The fusion step of the v0.2 service's `hybrid_recommend`: keyword results
 * and vector results are combined in an insertion-ordered dictionary keyed by
 * the items' truthy ids. The keyword result at position `i` of `n` scores
 * `(n - i) * keyword_weight`. A vector result adds `similarity * vector_weight`
 * to an existing entry, or enters with that score. The entries are then
 * sorted by score, highest first, stably, and cut to `top_k`.
 */
module RankFusion {
  import opened PyValues
  import opened PySort

  /** `keyword_weight` and `vector_weight`. */
  datatype Weights = Weights(keyword: real, vector: real)

  /** The default weights of `hybrid_recommend`. */
  const DefaultWeights := Weights(0.4, 0.6)

  /** `item.get('id')` when it is truthy: the key the item is combined under. */
  function FusionId(d: Dict): Option<Value>
  {
    if "id" in d && Truthy(d["id"]) then Some(d["id"]) else None
  }

  /** A truthy list id cannot be a dictionary key: `combined[item_id]` raises. */
  predicate Unhashable(d: Dict)
  {
    FusionId(d).Some? && FusionId(d).value.StrList?
  }

  /** `item.get('similarity_score', 0)`: every vector result carries a number there. */
  function Similarity(d: Dict): real
  {
    if "similarity_score" in d && d["similarity_score"].Number? then d["similarity_score"].n else 0.0
  }

  /** `{'item': item, 'score': score}` */
  datatype Entry = Entry(item: Dict, score: real)

  /** The `combined` dictionary: (id, entry) pairs in insertion order. */
  type Combined = seq<(Value, Entry)>

  /** The keys of `combined`, in insertion order. */
  function Ids(c: Combined): (r: seq<Value>)
    ensures |r| == |c| && forall i :: 0 <= i < |c| ==> r[i] == c[i].0
  {
    seq(|c|, i requires 0 <= i < |c| => c[i].0)
  }

  /** `combined.get(id)` */
  function Lookup(c: Combined, id: Value): Option<Entry>
  {
    if c == [] then None else if c[0].0 == id then Some(c[0].1) else Lookup(c[1..], id)
  }

  /** `combined[id] = e`: an existing key keeps its place, a new key goes last. */
  function Put(c: Combined, id: Value, e: Entry): Combined
  {
    if c == [] then [(id, e)]
    else if c[0].0 == id then [(id, e)] + c[1..]
    else [c[0]] + Put(c[1..], id, e)
  }

  /** A found entry is stored under its key, and only stored keys are found. */
  lemma {:induction false} LookupSpec(c: Combined, id: Value)
    ensures Lookup(c, id).Some? <==> id in Ids(c)
    ensures Lookup(c, id).Some? ==> (id, Lookup(c, id).value) in c
  {
    if c != [] {
      LookupSpec(c[1..], id);
      assert Ids(c) == [c[0].0] + Ids(c[1..]);
    }
  }

  /** `Put` replaces the entry of a present key in place or appends a new key. */
  lemma {:induction false} PutIds(c: Combined, id: Value, e: Entry)
    ensures Ids(Put(c, id, e)) == if id in Ids(c) then Ids(c) else Ids(c) + [id]
  {
    if c != [] {
      var rest := c[1..];
      assert c == [c[0]] + rest;
      IdsCons(c[0], rest);
      if c[0].0 == id {
        IdsCons((id, e), rest);
      } else {
        PutIds(rest, id, e);
        IdsCons(c[0], Put(rest, id, e));
        assert id in Ids(c) <==> id in Ids(rest);
      }
    }
  }

  /** The keys of a list with one more pair in front. */
  lemma IdsCons(x: (Value, Entry), c: Combined)
    ensures Ids([x] + c) == [x.0] + Ids(c)
  {
    assert forall i :: 0 < i <= |c| ==> ([x] + c)[i] == c[i - 1];
  }

  /** After `Put`, `id` finds `e` and every other key finds what it found before. */
  lemma {:induction false} PutLookup(c: Combined, id: Value, e: Entry, x: Value)
    ensures Lookup(Put(c, id, e), x) == if x == id then Some(e) else Lookup(c, x)
  {
    if c != [] && c[0].0 != id {
      PutLookup(c[1..], id, e, x);
    }
  }

  /** `Put` adds the new pair and keeps only pairs that were there. */
  lemma {:induction false} PutMembers(c: Combined, id: Value, e: Entry)
    ensures forall p | p in Put(c, id, e) :: p == (id, e) || p in c
  {
    if c != [] && c[0].0 != id {
      PutMembers(c[1..], id, e);
    }
  }

  /** The keys are distinct and every entry's item carries its key as id. */
  predicate WellFormed(c: Combined)
  {
    Distinct(Ids(c)) && forall p | p in c :: FusionId(p.1.item) == Some(p.0)
  }

  /** Every entry's item is one of `src`. */
  predicate ItemsFrom(c: Combined, src: seq<Dict>)
  {
    forall p | p in c :: p.1.item in src
  }

  lemma PutWellFormed(c: Combined, id: Value, e: Entry)
    requires WellFormed(c) && FusionId(e.item) == Some(id)
    ensures WellFormed(Put(c, id, e))
  {
    PutIds(c, id, e);
    PutMembers(c, id, e);
    var ids := Ids(c);
    if id !in ids {
      forall i, j | 0 <= i < j < |ids + [id]| ensures (ids + [id])[i] != (ids + [id])[j] {
        if j == |ids| {
          assert (ids + [id])[i] == ids[i];
        }
      }
    }
  }

  /** One keyword result: stored with its rank score when its id is truthy. */
  function KeywordStep(c: Combined, item: Dict, score: real): Option<Combined>
  {
    if FusionId(item).None? then Some(c)
    else if Unhashable(item) then None
    else Some(Put(c, FusionId(item).value, Entry(item, score)))
  }

  /** One vector result: its weighted similarity is added to its id's entry, or it enters with it. */
  function VectorStep(c: Combined, item: Dict, weight: real): Option<Combined>
  {
    if FusionId(item).None? then Some(c)
    else if Unhashable(item) then None
    else
      var id := FusionId(item).value;
      var add := Similarity(item) * weight;
      match Lookup(c, id)
      case Some(e) => Some(Put(c, id, Entry(e.item, e.score + add)))
      case None => Some(Put(c, id, Entry(item, add)))
  }

  /** The score of the keyword result at position `i` of `n`: `(n - i) * weight`. */
  function RankScore(n: int, i: int, weight: real): real
  {
    (n - i) as real * weight
  }

  /** The dictionary after the first `m` keyword results; the result at position `i` scores `(n - i) * weight`. */
  function KeywordPass(kws: seq<Dict>, m: nat, weight: real): Option<Combined>
    requires m <= |kws|
  {
    if m == 0 then Some([])
    else match KeywordPass(kws, m - 1, weight)
      case None => None
      case Some(c) => KeywordStep(c, kws[m - 1], RankScore(|kws|, m - 1, weight))
  }

  /** The dictionary after the first `m` vector results on top of `c0`. */
  function VectorPass(c0: Combined, vs: seq<Dict>, m: nat, weight: real): Option<Combined>
    requires m <= |vs|
  {
    if m == 0 then Some(c0)
    else match VectorPass(c0, vs, m - 1, weight)
      case None => None
      case Some(c) => VectorStep(c, vs[m - 1], weight)
  }

  /** The `combined` dictionary of both loops, or `None` when an unhashable id raises. */
  function Fuse(kws: seq<Dict>, vs: seq<Dict>, weights: Weights): Option<Combined>
  {
    match KeywordPass(kws, |kws|, weights.keyword)
    case None => None
    case Some(c) => VectorPass(c, vs, |vs|, weights.vector)
  }

  /** The keyword loop's next iteration, spelled out. */
  lemma KeywordPassNext(kws: seq<Dict>, m: nat, weight: real, c: Combined)
    requires m < |kws| && KeywordPass(kws, m, weight) == Some(c)
    ensures FusionId(kws[m]).None? ==> KeywordPass(kws, m + 1, weight) == Some(c)
    ensures Unhashable(kws[m]) ==> KeywordPass(kws, m + 1, weight).None?
    ensures FusionId(kws[m]).Some? && !Unhashable(kws[m]) ==>
      KeywordPass(kws, m + 1, weight) == Some(Put(c, FusionId(kws[m]).value, Entry(kws[m], RankScore(|kws|, m, weight))))
  {
  }

  /** The vector loop's next iteration, spelled out. */
  lemma VectorPassNext(c0: Combined, vs: seq<Dict>, m: nat, weight: real, c: Combined)
    requires m < |vs| && VectorPass(c0, vs, m, weight) == Some(c)
    ensures FusionId(vs[m]).None? ==> VectorPass(c0, vs, m + 1, weight) == Some(c)
    ensures Unhashable(vs[m]) ==> VectorPass(c0, vs, m + 1, weight).None?
    ensures FusionId(vs[m]).Some? && !Unhashable(vs[m]) && Lookup(c, FusionId(vs[m]).value).Some? ==>
      var id := FusionId(vs[m]).value;
      VectorPass(c0, vs, m + 1, weight)
        == Some(Put(c, id, Entry(Lookup(c, id).value.item, Lookup(c, id).value.score + Similarity(vs[m]) * weight)))
    ensures FusionId(vs[m]).Some? && !Unhashable(vs[m]) && Lookup(c, FusionId(vs[m]).value).None? ==>
      VectorPass(c0, vs, m + 1, weight) == Some(Put(c, FusionId(vs[m]).value, Entry(vs[m], Similarity(vs[m]) * weight)))
  {
  }

  /** An id that raised stops the keyword loop for good. */
  lemma {:induction false} KeywordPassStaysNone(kws: seq<Dict>, m: nat, weight: real)
    requires m <= |kws| && KeywordPass(kws, m, weight).None?
    ensures KeywordPass(kws, |kws|, weight).None?
    decreases |kws| - m
  {
    if m < |kws| {
      KeywordPassStaysNone(kws, m + 1, weight);
    }
  }

  /** An id that raised stops the vector loop for good. */
  lemma {:induction false} VectorPassStaysNone(c0: Combined, vs: seq<Dict>, m: nat, weight: real)
    requires m <= |vs| && VectorPass(c0, vs, m, weight).None?
    ensures VectorPass(c0, vs, |vs|, weight).None?
    decreases |vs| - m
  {
    if m < |vs| {
      VectorPassStaysNone(c0, vs, m + 1, weight);
    }
  }

  /** The keyword loop of `hybrid_recommend`: each result with a truthy id is stored with its rank score. */
  method AddKeywordResults(kws: seq<Dict>, weight: real) returns (combined: Option<Combined>)
    ensures combined == KeywordPass(kws, |kws|, weight)
  {
    var c: Combined := [];
    var i := 0;
    while i < |kws|
      invariant 0 <= i <= |kws|
      invariant KeywordPass(kws, i, weight) == Some(c)
    {
      var item := kws[i];
      KeywordPassNext(kws, i, weight, c);
      var itemId := FusionId(item);
      if itemId.Some? {
        if itemId.value.StrList? {
          KeywordPassStaysNone(kws, i + 1, weight);
          return None;
        }
        assert !Unhashable(item);
        var score := RankScore(|kws|, i, weight);
        c := Put(c, itemId.value, Entry(item, score));
      }
      i := i + 1;
    }
    return Some(c);
  }

  /** The vector loop of `hybrid_recommend`: each result with a truthy id adds its weighted similarity. */
  method AddVectorResults(c0: Combined, vs: seq<Dict>, weight: real) returns (combined: Option<Combined>)
    ensures combined == VectorPass(c0, vs, |vs|, weight)
  {
    var c := c0;
    var j := 0;
    while j < |vs|
      invariant 0 <= j <= |vs|
      invariant VectorPass(c0, vs, j, weight) == Some(c)
    {
      var item := vs[j];
      VectorPassNext(c0, vs, j, weight, c);
      var itemId := FusionId(item);
      if itemId.Some? {
        if itemId.value.StrList? {
          VectorPassStaysNone(c0, vs, j + 1, weight);
          return None;
        }
        assert !Unhashable(item);
        var vectorScore := Similarity(item) * weight;
        var existing := Lookup(c, itemId.value);
        assert itemId.value == FusionId(vs[j]).value && vectorScore == Similarity(vs[j]) * weight;
        assert existing == Lookup(c, FusionId(vs[j]).value);
        ghost var prev := c;
        if existing.Some? {
          c := Put(c, itemId.value, Entry(existing.value.item, existing.value.score + vectorScore));
          assert c == Put(prev, FusionId(vs[j]).value, Entry(existing.value.item, existing.value.score + Similarity(vs[j]) * weight));
        } else {
          c := Put(c, itemId.value, Entry(item, vectorScore));
          assert c == Put(prev, FusionId(vs[j]).value, Entry(vs[j], Similarity(vs[j]) * weight));
        }
      }
      j := j + 1;
    }
    return Some(c);
  }

  /** Both loops of `hybrid_recommend` filling `combined`; `None` when an unhashable id raises. */
  method FuseResults(kws: seq<Dict>, vs: seq<Dict>, weights: Weights) returns (combined: Option<Combined>)
    ensures combined == Fuse(kws, vs, weights)
  {
    combined := AddKeywordResults(kws, weights.keyword);
    if combined.Some? {
      combined := AddVectorResults(combined.value, vs, weights.vector);
    }
  }

  /** `combined.values()`, in insertion order. */
  function Values(c: Combined): (r: seq<Entry>)
    ensures |r| == |c| && forall i :: 0 <= i < |c| ==> r[i] == c[i].1
  {
    seq(|c|, i requires 0 <= i < |c| => c[i].1)
  }

  /** The sort key `lambda x: x['score']`. */
  function ScoreOf(e: Entry): Key
  {
    [Num(e.score)]
  }

  /** `sorted(combined.values(), key=lambda x: x['score'], reverse=True)[:top_k]` */
  function TopEntries(c: Combined, topK: int): seq<Entry>
  {
    Take(SortedBy(Values(c), ScoreOf, true), topK)
  }

  /** `[result['item'] for result in sorted_results[:top_k]]` */
  function TopItems(c: Combined, topK: int): (r: seq<Dict>)
    ensures |r| == |TopEntries(c, topK)| && forall i :: 0 <= i < |r| ==> r[i] == TopEntries(c, topK)[i].item
  {
    var top := TopEntries(c, topK);
    seq(|top|, i requires 0 <= i < |top| => top[i].item)
  }

  /** The last of the first `m` keyword results with id `id`: the one whose entry survives. */
  function LastWithId(kws: seq<Dict>, m: nat, id: Value): (r: Option<nat>)
    requires m <= |kws|
    ensures r.Some? ==> r.value < m && FusionId(kws[r.value]) == Some(id)
  {
    if m == 0 then None
    else if FusionId(kws[m - 1]) == Some(id) then Some(m - 1)
    else LastWithId(kws, m - 1, id)
  }

  /** The first of the first `m` vector results with id `id`: the one that enters when no keyword result did. */
  function FirstWithId(vs: seq<Dict>, m: nat, id: Value): (r: Option<nat>)
    requires m <= |vs|
    ensures r.Some? ==> r.value < m && FusionId(vs[r.value]) == Some(id)
  {
    if m == 0 then None
    else match FirstWithId(vs, m - 1, id)
      case Some(j) => Some(j)
      case None => if FusionId(vs[m - 1]) == Some(id) then Some(m - 1) else None
  }

  /** The weighted similarities of the first `m` vector results with id `id`, summed. */
  function SimilaritySum(vs: seq<Dict>, m: nat, id: Value, weight: real): real
    requires m <= |vs|
  {
    if m == 0 then 0.0
    else SimilaritySum(vs, m - 1, id, weight) + (if FusionId(vs[m - 1]) == Some(id) then Similarity(vs[m - 1]) * weight else 0.0)
  }

  lemma {:induction false} NoFirstNoSum(vs: seq<Dict>, m: nat, id: Value, weight: real)
    requires m <= |vs| && FirstWithId(vs, m, id).None?
    ensures SimilaritySum(vs, m, id, weight) == 0.0
  {
    if m > 0 {
      NoFirstNoSum(vs, m - 1, id, weight);
    }
  }

  /** After the keyword loop, an id finds the last keyword result carrying it, scored by its rank. */
  lemma {:induction false} KeywordPassLookup(kws: seq<Dict>, m: nat, weight: real, id: Value)
    requires m <= |kws| && KeywordPass(kws, m, weight).Some?
    ensures var e := Lookup(KeywordPass(kws, m, weight).value, id);
      && (e.Some? <==> LastWithId(kws, m, id).Some?)
      && (e.Some? ==> var i := LastWithId(kws, m, id).value;
            e.value.item == kws[i] && e.value.score == RankScore(|kws|, i, weight))
  {
    if m > 0 {
      var c := KeywordPass(kws, m - 1, weight).value;
      KeywordPassLookup(kws, m - 1, weight, id);
      KeywordPassNext(kws, m - 1, weight, c);
      var item := kws[m - 1];
      if FusionId(item).Some? {
        var x := FusionId(item).value;
        var e := Entry(item, RankScore(|kws|, m - 1, weight));
        assert KeywordPass(kws, m, weight) == Some(Put(c, x, e));
        PutLookup(c, x, e, id);
      }
    }
  }

  /**
   * After the vector loop, an id already present keeps its item and gains
   * the weighted similarities of its vector results; a new id enters with its
   * first vector result and the same sum.
   */
  lemma {:induction false} VectorPassLookup(c0: Combined, vs: seq<Dict>, m: nat, weight: real, id: Value)
    requires m <= |vs| && VectorPass(c0, vs, m, weight).Some?
    ensures var e, e0 := Lookup(VectorPass(c0, vs, m, weight).value, id), Lookup(c0, id);
      && (e.Some? <==> e0.Some? || FirstWithId(vs, m, id).Some?)
      && (e0.Some? ==> e.value.item == e0.value.item && e.value.score == e0.value.score + SimilaritySum(vs, m, id, weight))
      && (e0.None? && e.Some? ==> e.value.item == vs[FirstWithId(vs, m, id).value] && e.value.score == SimilaritySum(vs, m, id, weight))
  {
    VectorPassHas(c0, vs, m, weight, id);
    if Lookup(c0, id).Some? {
      VectorPassKept(c0, vs, m, weight, id);
    } else if FirstWithId(vs, m, id).Some? {
      VectorPassNew(c0, vs, m, weight, id);
    }
  }

  /** After the vector loop an id has an entry exactly when it had one before or a vector result carries it. */
  lemma {:induction false} VectorPassHas(c0: Combined, vs: seq<Dict>, m: nat, weight: real, id: Value)
    requires m <= |vs| && VectorPass(c0, vs, m, weight).Some?
    ensures Lookup(VectorPass(c0, vs, m, weight).value, id).Some? <==> Lookup(c0, id).Some? || FirstWithId(vs, m, id).Some?
  {
    if m > 0 {
      var c := VectorPass(c0, vs, m - 1, weight).value;
      VectorPassHas(c0, vs, m - 1, weight, id);
      assert VectorPass(c0, vs, m, weight) == VectorStep(c, vs[m - 1], weight);
      VectorStepLookup(c, vs[m - 1], weight, id);
      if FusionId(vs[m - 1]) != Some(id) {
        assert FirstWithId(vs, m, id) == FirstWithId(vs, m - 1, id);
      }
    }
  }

  /** An entry there before the vector loop keeps its item and gains the weighted similarities of its id. */
  lemma {:induction false} VectorPassKept(c0: Combined, vs: seq<Dict>, m: nat, weight: real, id: Value)
    requires m <= |vs| && VectorPass(c0, vs, m, weight).Some? && Lookup(c0, id).Some?
    ensures var e, e0 := Lookup(VectorPass(c0, vs, m, weight).value, id), Lookup(c0, id).value;
      e.Some? && e.value.item == e0.item && e.value.score == e0.score + SimilaritySum(vs, m, id, weight)
  {
    if m > 0 {
      var c := VectorPass(c0, vs, m - 1, weight).value;
      VectorPassKept(c0, vs, m - 1, weight, id);
      assert VectorPass(c0, vs, m, weight) == VectorStep(c, vs[m - 1], weight);
      VectorStepLookup(c, vs[m - 1], weight, id);
    }
  }

  /** An id new to the vector loop enters with its first vector result, scored by its weighted similarities. */
  lemma {:induction false} VectorPassNew(c0: Combined, vs: seq<Dict>, m: nat, weight: real, id: Value)
    requires m <= |vs| && VectorPass(c0, vs, m, weight).Some?
    requires Lookup(c0, id).None? && FirstWithId(vs, m, id).Some?
    ensures var e := Lookup(VectorPass(c0, vs, m, weight).value, id);
      e.Some? && e.value.item == vs[FirstWithId(vs, m, id).value] && e.value.score == SimilaritySum(vs, m, id, weight)
  {
    var c := VectorPass(c0, vs, m - 1, weight).value;
    assert VectorPass(c0, vs, m, weight) == VectorStep(c, vs[m - 1], weight);
    VectorStepLookup(c, vs[m - 1], weight, id);
    if FirstWithId(vs, m - 1, id).Some? {
      VectorPassNew(c0, vs, m - 1, weight, id);
      assert FirstWithId(vs, m, id) == FirstWithId(vs, m - 1, id);
      if FusionId(vs[m - 1]) != Some(id) {
        assert SimilaritySum(vs, m, id, weight) == SimilaritySum(vs, m - 1, id, weight);
      }
    } else {
      VectorPassHas(c0, vs, m - 1, weight, id);
      NoFirstNoSum(vs, m - 1, id, weight);
      assert FirstWithId(vs, m, id) == Some(m - 1);
    }
  }

  /** One vector result changes only its own id's entry: its score grows by the weighted similarity. */
  lemma VectorStepLookup(c: Combined, item: Dict, weight: real, y: Value)
    requires VectorStep(c, item, weight).Some?
    ensures var r, before := Lookup(VectorStep(c, item, weight).value, y), Lookup(c, y);
      && (FusionId(item) != Some(y) ==> r == before)
      && (FusionId(item) == Some(y) ==>
            r.Some?
            && r.value.item == (if before.Some? then before.value.item else item)
            && r.value.score == (if before.Some? then before.value.score else 0.0) + Similarity(item) * weight)
  {
    if FusionId(item).Some? {
      var x := FusionId(item).value;
      var add := Similarity(item) * weight;
      if Lookup(c, x).Some? {
        PutLookup(c, x, Entry(Lookup(c, x).value.item, Lookup(c, x).value.score + add), y);
      } else {
        PutLookup(c, x, Entry(item, add), y);
      }
    }
  }

  /**
   * The combined entry of an id: when a keyword result carries it, the last
   * such item, scored `(n - i) * keyword_weight` for its position `i`, plus
   * the weighted similarities of the vector results carrying it; otherwise
   * the first vector result carrying it, scored by those similarities; and
   * no entry when no result carries it.
   */
  lemma FusedEntry(kws: seq<Dict>, vs: seq<Dict>, weights: Weights, id: Value)
    requires Fuse(kws, vs, weights).Some?
    ensures Lookup(Fuse(kws, vs, weights).value, id).Some?
        <==> LastWithId(kws, |kws|, id).Some? || FirstWithId(vs, |vs|, id).Some?
    ensures LastWithId(kws, |kws|, id).Some? ==>
      var e, i := Lookup(Fuse(kws, vs, weights).value, id).value, LastWithId(kws, |kws|, id).value;
      e.item == kws[i] && e.score == RankScore(|kws|, i, weights.keyword) + SimilaritySum(vs, |vs|, id, weights.vector)
    ensures LastWithId(kws, |kws|, id).None? && FirstWithId(vs, |vs|, id).Some? ==>
      var e, j := Lookup(Fuse(kws, vs, weights).value, id).value, FirstWithId(vs, |vs|, id).value;
      e.item == vs[j] && e.score == SimilaritySum(vs, |vs|, id, weights.vector)
  {
    var c0 := KeywordPass(kws, |kws|, weights.keyword).value;
    FuseParts(kws, vs, weights);
    KeywordPassLookup(kws, |kws|, weights.keyword, id);
    VectorPassLookup(c0, vs, |vs|, weights.vector, id);
  }

  /** The dictionary of both loops is the vector pass over the keyword pass's dictionary. */
  lemma FuseParts(kws: seq<Dict>, vs: seq<Dict>, weights: Weights)
    requires Fuse(kws, vs, weights).Some?
    ensures KeywordPass(kws, |kws|, weights.keyword).Some?
    ensures VectorPass(KeywordPass(kws, |kws|, weights.keyword).value, vs, |vs|, weights.vector) == Fuse(kws, vs, weights)
  {
  }

  /** The keyword loop raises exactly when one of its results has a list id; otherwise its dictionary is well formed. */
  lemma {:induction false} KeywordPassSpec(kws: seq<Dict>, m: nat, weight: real)
    requires m <= |kws|
    ensures KeywordPass(kws, m, weight).None? <==> exists i :: 0 <= i < m && Unhashable(kws[i])
    ensures KeywordPass(kws, m, weight).Some? ==>
      WellFormed(KeywordPass(kws, m, weight).value) && ItemsFrom(KeywordPass(kws, m, weight).value, kws)
  {
    if m > 0 {
      KeywordPassSpec(kws, m - 1, weight);
      var item := kws[m - 1];
      match KeywordPass(kws, m - 1, weight)
      case None =>
      case Some(c) =>
        KeywordPassNext(kws, m - 1, weight, c);
        if FusionId(item).Some? && !Unhashable(item) {
          var e := Entry(item, RankScore(|kws|, m - 1, weight));
          PutWellFormed(c, FusionId(item).value, e);
          PutMembers(c, FusionId(item).value, e);
        }
    }
  }

  /**
   * The vector loop raises exactly when one of its results has a list id;
   * otherwise it keeps the dictionary well formed, and its items come from
   * the earlier items or the vector results.
   */
  lemma {:induction false} VectorPassSpec(c0: Combined, vs: seq<Dict>, m: nat, weight: real, src: seq<Dict>)
    requires m <= |vs| && WellFormed(c0) && ItemsFrom(c0, src) && forall v | v in vs :: v in src
    ensures VectorPass(c0, vs, m, weight).None? <==> exists j :: 0 <= j < m && Unhashable(vs[j])
    ensures VectorPass(c0, vs, m, weight).Some? ==>
      WellFormed(VectorPass(c0, vs, m, weight).value) && ItemsFrom(VectorPass(c0, vs, m, weight).value, src)
  {
    if m > 0 {
      VectorPassSpec(c0, vs, m - 1, weight, src);
      var item := vs[m - 1];
      match VectorPass(c0, vs, m - 1, weight)
      case None =>
      case Some(c) =>
        assert VectorPass(c0, vs, m, weight) == VectorStep(c, item, weight);
        VectorStepSpec(c, item, weight, src);
    }
  }

  /** One vector result raises exactly on a list id, and otherwise keeps the dictionary well formed. */
  lemma VectorStepSpec(c: Combined, item: Dict, weight: real, src: seq<Dict>)
    requires WellFormed(c) && ItemsFrom(c, src) && item in src
    ensures VectorStep(c, item, weight).None? <==> Unhashable(item)
    ensures VectorStep(c, item, weight).Some? ==>
      WellFormed(VectorStep(c, item, weight).value) && ItemsFrom(VectorStep(c, item, weight).value, src)
  {
    if FusionId(item).Some? && !Unhashable(item) {
      var id := FusionId(item).value;
      var add := Similarity(item) * weight;
      LookupSpec(c, id);
      match Lookup(c, id)
      case Some(e) =>
        assert (id, e) in c;
        PutWellFormed(c, id, Entry(e.item, e.score + add));
        PutMembers(c, id, Entry(e.item, e.score + add));
      case None =>
        PutWellFormed(c, id, Entry(item, add));
        PutMembers(c, id, Entry(item, add));
    }
  }

  /**
   * Fusion raises exactly when a keyword or vector result has a list id;
   * otherwise every key is a distinct truthy id carried by its entry's item,
   * and every item is one of the results.
   */
  lemma FuseSpec(kws: seq<Dict>, vs: seq<Dict>, weights: Weights)
    ensures Fuse(kws, vs, weights).None?
        <==> (exists i :: 0 <= i < |kws| && Unhashable(kws[i])) || (exists j :: 0 <= j < |vs| && Unhashable(vs[j]))
    ensures Fuse(kws, vs, weights).Some? ==>
      WellFormed(Fuse(kws, vs, weights).value) && ItemsFrom(Fuse(kws, vs, weights).value, kws + vs)
  {
    KeywordPassSpec(kws, |kws|, weights.keyword);
    match KeywordPass(kws, |kws|, weights.keyword)
    case None =>
    case Some(c0) =>
      VectorPassSpec(c0, vs, |vs|, weights.vector, kws + vs);
  }

  /** No two entries carry the same id. */
  predicate DistinctIds(es: seq<Entry>)
  {
    forall i, j :: 0 <= i < j < |es| ==> FusionId(es[i].item) != FusionId(es[j].item)
  }

  /** The entries of a well-formed dictionary carry distinct ids. */
  lemma ValuesDistinctIds(c: Combined)
    requires WellFormed(c)
    ensures DistinctIds(Values(c))
  {
    var vals := Values(c);
    forall i, j | 0 <= i < j < |vals| ensures FusionId(vals[i].item) != FusionId(vals[j].item) {
      assert c[i] in c && c[j] in c;
      assert Ids(c)[i] != Ids(c)[j];
    }
  }

  /** Reordering entries keeps their ids distinct. */
  lemma DistinctIdsPerm(s: seq<Entry>, t: seq<Entry>)
    requires multiset(s) == multiset(t) && DistinctIds(s)
    ensures DistinctIds(t)
  {
    assert Distinct(s);
    DistinctPerm(s, t);
    forall i, j | 0 <= i < j < |t| ensures FusionId(t[i].item) != FusionId(t[j].item) {
      assert t[i] in multiset(s) && t[j] in multiset(s);
      var a :| 0 <= a < |s| && s[a] == t[i];
      var b :| 0 <= b < |s| && s[b] == t[j];
    }
  }

  /**
   * The ranked entries: a permutation of the dictionary's entries, highest
   * score first; entries with equal scores keep their insertion order; the
   * first `top_k` are kept, and no entry left out scores higher than one kept.
   */
  lemma TopEntriesSpec(c: Combined, topK: int)
    ensures var s, top := SortedBy(Values(c), ScoreOf, true), TopEntries(c, topK);
      && multiset(s) == multiset(Values(c))
      && top == s[..|top|]
      && (0 <= topK ==> |top| == Min(topK, |c|))
      && (forall i, j :: 0 <= i < j < |top| ==> top[i].score >= top[j].score)
      && (forall i, e :: 0 <= i < |top| && e in multiset(Values(c)) - multiset(top) ==> e.score <= top[i].score)
      && (forall x :: WithKey(top, ScoreOf, [Num(x)]) <= WithKey(Values(c), ScoreOf, [Num(x)]))
  {
    var vals := Values(c);
    var s := SortedBy(vals, ScoreOf, true);
    var top := TopEntries(c, topK);
    SortedBySpec(vals, ScoreOf, true);
    assert |s| == |c| by {
      assert |multiset(s)| == |multiset(vals)|;
    }
    DescendingPrefix(s, |top|);
    BestPrefix(vals, s, |top|);
    StablePrefix(vals, s, |top|);
  }

  /** Among equal scores, a prefix of a stable sort keeps the input order. */
  lemma StablePrefix(vals: seq<Entry>, s: seq<Entry>, n: nat)
    requires n <= |s| && forall k :: WithKey(s, ScoreOf, k) == WithKey(vals, ScoreOf, k)
    ensures forall x :: WithKey(s[..n], ScoreOf, [Num(x)]) <= WithKey(vals, ScoreOf, [Num(x)])
  {
    forall x ensures WithKey(s[..n], ScoreOf, [Num(x)]) <= WithKey(vals, ScoreOf, [Num(x)]) {
      WithKeyPrefix(s, n, ScoreOf, [Num(x)]);
    }
  }

  /** A prefix of a list sorted by descending score is itself descending. */
  lemma DescendingPrefix(s: seq<Entry>, n: nat)
    requires n <= |s|
    requires forall i, j :: 0 <= i < j < |s| ==> !Before(ScoreOf(s[j]), ScoreOf(s[i]), true)
    ensures forall i, j :: 0 <= i < j < n ==> s[..n][i].score >= s[..n][j].score
  {
    forall i, j | 0 <= i < j < n ensures s[..n][i].score >= s[..n][j].score {
      NumKeyLess(s[i].score, s[j].score);
    }
  }

  /**
   * Nothing outside a prefix of a permutation of `vals` sorted by descending
   * score scores above anything in it.
   */
  lemma BestPrefix(vals: seq<Entry>, s: seq<Entry>, n: nat)
    requires n <= |s| && multiset(s) == multiset(vals)
    requires forall i, j :: 0 <= i < j < |s| ==> !Before(ScoreOf(s[j]), ScoreOf(s[i]), true)
    ensures forall i, e :: 0 <= i < n && e in multiset(vals) - multiset(s[..n]) ==> e.score <= s[..n][i].score
  {
    var top := s[..n];
    assert s == top + s[n..];
    forall i, e | 0 <= i < n && e in multiset(vals) - multiset(top) ensures e.score <= top[i].score {
      assert e in multiset(s[n..]);
      var k :| 0 <= k < |s[n..]| && s[n..][k] == e;
      assert s[n + k] == e;
      NumKeyLess(top[i].score, e.score);
    }
  }

  /**
   * The returned items: at most `top_k`, each with a truthy id, no id twice,
   * each the item of one of the dictionary's entries.
   */
  lemma TopItemsSpec(c: Combined, topK: int, src: seq<Dict>)
    requires WellFormed(c) && ItemsFrom(c, src)
    ensures var r := TopItems(c, topK);
      && (0 <= topK ==> |r| == Min(topK, |c|))
      && (forall d | d in r :: FusionId(d).Some? && d in src)
      && (forall i, j | 0 <= i < j < |r| :: FusionId(r[i]) != FusionId(r[j]))
  {
    var vals := Values(c);
    var s := SortedBy(vals, ScoreOf, true);
    var top, r := TopEntries(c, topK), TopItems(c, topK);
    SortedBySpec(vals, ScoreOf, true);
    assert |s| == |c| by {
      assert |multiset(s)| == |multiset(vals)|;
    }
    ValuesDistinctIds(c);
    DistinctIdsPerm(vals, s);
    EntriesFrom(c, s, src);
    assert forall i :: 0 <= i < |r| ==> r[i] == s[i].item;
  }

  /** Every entry of a permutation of a well-formed dictionary's entries has an id and an item from `src`. */
  lemma EntriesFrom(c: Combined, s: seq<Entry>, src: seq<Dict>)
    requires WellFormed(c) && ItemsFrom(c, src) && multiset(s) == multiset(Values(c))
    ensures forall i :: 0 <= i < |s| ==> FusionId(s[i].item).Some? && s[i].item in src
  {
    forall i | 0 <= i < |s| ensures FusionId(s[i].item).Some? && s[i].item in src {
      assert s[i] in multiset(Values(c));
      var k :| 0 <= k < |c| && Values(c)[k] == s[i];
      assert c[k] in c;
    }
  }

  /** The vector loop only appends keys: the keys after the keyword loop stay first, in their order. */
  lemma {:induction false} VectorPassKeepsIds(c0: Combined, vs: seq<Dict>, m: nat, weight: real)
    requires m <= |vs| && VectorPass(c0, vs, m, weight).Some?
    ensures Ids(c0) <= Ids(VectorPass(c0, vs, m, weight).value)
  {
    if m > 0 {
      var c := VectorPass(c0, vs, m - 1, weight).value;
      VectorPassKeepsIds(c0, vs, m - 1, weight);
      var item := vs[m - 1];
      assert VectorPass(c0, vs, m, weight) == VectorStep(c, item, weight);
      VectorStepIds(c, item, weight);
    }
  }

  /** One vector result keeps the keys and their order, and may append its own. */
  lemma VectorStepIds(c: Combined, item: Dict, weight: real)
    requires VectorStep(c, item, weight).Some?
    ensures Ids(c) <= Ids(VectorStep(c, item, weight).value)
  {
    if FusionId(item).Some? && !Unhashable(item) {
      var id := FusionId(item).value;
      var add := Similarity(item) * weight;
      LookupSpec(c, id);
      match Lookup(c, id)
      case Some(e) =>
        PutIds(c, id, Entry(e.item, e.score + add));
      case None =>
        PutIds(c, id, Entry(item, add));
        assert Ids(c) <= Ids(c) + [id];
    }
  }

  /**
   * Insertion order, which breaks score ties, puts the keyword results' ids
   * first: they are a prefix of the fused keys, and no key after them is one.
   */
  lemma FuseInsertionOrder(kws: seq<Dict>, vs: seq<Dict>, weights: Weights)
    requires Fuse(kws, vs, weights).Some?
    ensures var ids, kwIds := Ids(Fuse(kws, vs, weights).value), Ids(KeywordPass(kws, |kws|, weights.keyword).value);
      && kwIds <= ids
      && forall k :: |kwIds| <= k < |ids| ==> LastWithId(kws, |kws|, ids[k]).None?
  {
    var c0 := KeywordPass(kws, |kws|, weights.keyword).value;
    var c := Fuse(kws, vs, weights).value;
    FuseParts(kws, vs, weights);
    VectorPassKeepsIds(c0, vs, |vs|, weights.vector);
    FuseSpec(kws, vs, weights);
    forall k | |Ids(c0)| <= k < |Ids(c)| ensures LastWithId(kws, |kws|, Ids(c)[k]).None? {
      var id := Ids(c)[k];
      KeywordPassLookup(kws, |kws|, weights.keyword, id);
      LookupSpec(c0, id);
      forall a | 0 <= a < |Ids(c0)| ensures Ids(c0)[a] != id {
        assert Ids(c0)[a] == Ids(c)[a];
      }
    }
  }

  /** The dictionary of a keyword list whose ids are truthy, hashable and distinct: one entry per result, in order. */
  function RankEntries(kws: seq<Dict>, m: nat, weight: real): (r: Combined)
    requires m <= |kws| && forall i :: 0 <= i < |kws| ==> FusionId(kws[i]).Some?
    ensures |r| == m
  {
    seq(m, i requires 0 <= i < m => (FusionId(kws[i]).value, Entry(kws[i], RankScore(|kws|, i, weight))))
  }

  /** Keyword lists whose every item has a truthy, hashable id, no id twice. */
  predicate DistinctHashableIds(kws: seq<Dict>)
  {
    (forall i :: 0 <= i < |kws| ==> FusionId(kws[i]).Some? && !Unhashable(kws[i]))
    && forall i, j :: 0 <= i < j < |kws| ==> FusionId(kws[i]) != FusionId(kws[j])
  }

  lemma {:induction false} KeywordPassEntries(kws: seq<Dict>, m: nat, weight: real)
    requires m <= |kws| && DistinctHashableIds(kws)
    ensures KeywordPass(kws, m, weight) == Some(RankEntries(kws, m, weight))
  {
    if m > 0 {
      KeywordPassEntries(kws, m - 1, weight);
      var c := RankEntries(kws, m - 1, weight);
      var id := FusionId(kws[m - 1]).value;
      var e := Entry(kws[m - 1], RankScore(|kws|, m - 1, weight));
      assert KeywordPass(kws, m, weight) == Some(Put(c, id, e));
      AppendNewKey(c, id, e);
      assert RankEntries(kws, m, weight) == c + [(id, e)];
    }
  }

  /** `Put` of a key not yet present appends it. */
  lemma {:induction false} AppendNewKey(c: Combined, id: Value, e: Entry)
    requires id !in Ids(c)
    ensures Put(c, id, e) == c + [(id, e)]
  {
    if c != [] {
      assert Ids(c) == [c[0].0] + Ids(c[1..]);
      AppendNewKey(c[1..], id, e);
      assert c == [c[0]] + c[1..];
    }
  }

  /** A later keyword position scores strictly less when the keyword weight is positive. */
  lemma RankScoreDecreasing(n: int, i: int, j: int, weight: real)
    requires i < j && weight > 0.0
    ensures RankScore(n, i, weight) > RankScore(n, j, weight)
  {
    assert RankScore(n, i, weight) - RankScore(n, j, weight) == (j - i) as real * weight;
  }

  /**
   * With no vector results and a positive keyword weight, the fused ranking
   * of keyword results with distinct truthy ids is the keyword order itself,
   * cut to `top_k`.
   */
  lemma KeywordOrderKept(kws: seq<Dict>, weights: Weights, topK: int)
    requires weights.keyword > 0.0 && DistinctHashableIds(kws)
    ensures Fuse(kws, [], weights).Some?
    ensures TopItems(Fuse(kws, [], weights).value, topK) == Take(kws, topK)
  {
    var c := RankEntries(kws, |kws|, weights.keyword);
    KeywordPassEntries(kws, |kws|, weights.keyword);
    assert Fuse(kws, [], weights) == Some(c);
    var vals := Values(c);
    var d := Decorate(vals, ScoreOf);
    forall i, j | 0 <= i < j < |d| ensures !Before(d[j].0, d[i].0, true) {
      RankScoreDecreasing(|kws|, i, j, weights.keyword);
      NumKeyLess(vals[i].score, vals[j].score);
    }
    SortBySortedIdentity(d, true);
    assert SortedBy(vals, ScoreOf, true) == vals;
    var top := TopItems(c, topK);
    assert |top| == |Take(kws, topK)|;
    forall i | 0 <= i < |top| ensures top[i] == Take(kws, topK)[i] {
    }
  }
}
