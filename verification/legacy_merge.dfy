/**
 * The merge in `hybrid_recommend` of the first service generation: the
 * keyword results come first, one entry per id, then the vector results whose
 * id was not seen; every entry carries the keyword rank and the vector rank of
 * its id (999 for a list it is missing from), then a final score of
 * 0.4 / keyword rank + 0.6 / vector rank, and the entries are sorted on it,
 * highest first, ties in merge order.
 *
 * The functions here describe the entries from the values the two result
 * lists hold when merging starts; the methods at the end do it in place on
 * the dict objects, as the service does, and are proved against them.
 */
module LegacyMerge {
  import opened PyValues
  import opened PySort

  /** `prompt.get('id')`: `None` when absent. */
  function IdValue(d: Dict): Value
  {
    Get(d, "id", Null)
  }

  /** A list id cannot be hashed, so `prompt_id in seen_ids` raises `TypeError`. */
  predicate Unhashable(v: Value)
  {
    v.StrList?
  }

  /** None of the first `m` ids is a list. */
  predicate AllHashable(ids: seq<Value>, m: nat)
    requires m <= |ids|
  {
    m == 0 || (AllHashable(ids, m - 1) && !Unhashable(ids[m - 1]))
  }

  lemma {:induction false} AllHashableSpec(ids: seq<Value>, m: nat)
    requires m <= |ids|
    ensures AllHashable(ids, m) <==> forall p :: 0 <= p < m ==> !Unhashable(ids[p])
  {
    if m > 0 {
      AllHashableSpec(ids, m - 1);
    }
  }

  /** A list id anywhere in the list makes the list not all hashable. */
  lemma UnhashableAt(ids: seq<Value>, i: nat)
    requires i < |ids| && Unhashable(ids[i])
    ensures !AllHashable(ids, |ids|)
  {
    AllHashableSpec(ids, |ids|);
  }

  /** The ids of a result list, in order. */
  function IdsOf(ds: seq<Dict>): (r: seq<Value>)
    ensures |r| == |ds| && forall i :: 0 <= i < |ds| ==> r[i] == IdValue(ds[i])
  {
    seq(|ds|, i requires 0 <= i < |ds| => IdValue(ds[i]))
  }

  /** Where a merged entry comes from: keyword result `i` or vector result `j`. */
  datatype Src = Kw(i: nat) | Vec(j: nat)

  /** The positions among the first `m` whose id is neither in `taken` nor at an earlier position. */
  function Newcomers(ids: seq<Value>, m: nat, taken: seq<Value>): (r: seq<nat>)
    requires m <= |ids|
    ensures |r| <= m && forall t :: 0 <= t < |r| ==> r[t] < m
  {
    if m == 0 then []
    else Newcomers(ids, m - 1, taken) + (if ids[m - 1] in taken || ids[m - 1] in ids[..m - 1] then [] else [m - 1])
  }

  function KwSlots(ps: seq<nat>): (r: seq<Src>)
    ensures |r| == |ps| && forall t :: 0 <= t < |ps| ==> r[t] == Kw(ps[t])
  {
    seq(|ps|, t requires 0 <= t < |ps| => Kw(ps[t]))
  }

  function VecSlots(ps: seq<nat>): (r: seq<Src>)
    ensures |r| == |ps| && forall t :: 0 <= t < |ps| ==> r[t] == Vec(ps[t])
  {
    seq(|ps|, t requires 0 <= t < |ps| => Vec(ps[t]))
  }

  /** `merged` once the keyword loop has seen the first `m` keyword results. */
  function KeywordMerged(kIds: seq<Value>, m: nat): seq<Src>
    requires m <= |kIds|
  {
    KwSlots(Newcomers(kIds, m, []))
  }

  /** `merged` once the vector loop has seen the first `m` vector results as well. */
  function MergedSlots(kIds: seq<Value>, vIds: seq<Value>, m: nat): seq<Src>
    requires m <= |vIds|
  {
    KeywordMerged(kIds, |kIds|) + VecSlots(Newcomers(vIds, m, kIds))
  }

  /** The entry refers to an existing result. */
  predicate SrcIn(nk: nat, nv: nat, s: Src)
  {
    match s
    case Kw(i) => i < nk
    case Vec(j) => j < nv
  }

  /** The id of the result an entry refers to. */
  function SrcId(kIds: seq<Value>, vIds: seq<Value>, s: Src): Value
    requires SrcIn(|kIds|, |vIds|, s)
  {
    match s
    case Kw(i) => kIds[i]
    case Vec(j) => vIds[j]
  }

  /** The result an entry refers to, as it was when merging started. */
  function SrcItem(ks: seq<Dict>, vs: seq<Dict>, s: Src): Dict
    requires SrcIn(|ks|, |vs|, s)
  {
    match s
    case Kw(i) => ks[i]
    case Vec(j) => vs[j]
  }

  /** The rank the source gives a prompt missing from one of the lists. */
  const NoRank: nat := 999

  /** The first position holding `x`. */
  function FirstIndex(ids: seq<Value>, x: Value): (r: Option<nat>)
    ensures r.None? <==> x !in ids
    ensures r.Some? ==> r.value < |ids| && ids[r.value] == x && x !in ids[..r.value]
  {
    if ids == [] then None
    else if ids[0] == x then Some(0)
    else match FirstIndex(ids[1..], x)
      case None => None
      case Some(i) =>
        assert ids[..i + 1] == [ids[0]] + ids[1..][..i];
        Some(i + 1)
  }

  /** The last position among the first `m` holding `x`. */
  function LastIndex(ids: seq<Value>, m: nat, x: Value): (r: Option<nat>)
    requires m <= |ids|
    ensures r.None? <==> x !in ids[..m]
    ensures r.Some? ==> r.value < m && ids[r.value] == x && x !in ids[r.value + 1..m]
  {
    if m == 0 then None
    else if ids[m - 1] == x then Some(m - 1)
    else
      assert ids[..m] == ids[..m - 1] + [ids[m - 1]];
      match LastIndex(ids, m - 1, x)
      case None => None
      case Some(j) =>
        assert ids[j + 1..m] == ids[j + 1..m - 1] + [ids[m - 1]];
        Some(j)
  }

  /** The `keyword_rank` of id `x`: one past its first keyword position, 999 when missing. */
  function KeywordRank(kIds: seq<Value>, x: Value): (r: nat)
    ensures r > 0
  {
    match FirstIndex(kIds, x)
    case Some(i) => i + 1
    case None => NoRank
  }

  /**
   * The `vector_rank` of id `x` once the vector loop has seen `m` results:
   * one past its last vector position so far (each later hit overwrites it),
   * 999 when missing.
   */
  function VectorRank(vIds: seq<Value>, m: nat, x: Value): (r: nat)
    requires m <= |vIds|
    ensures r > 0
  {
    match LastIndex(vIds, m, x)
    case Some(j) => j + 1
    case None => NoRank
  }

  /** `0.4 * (1 / keyword_rank) + 0.6 * (1 / vector_rank)` */
  function FinalScore(kr: real, vr: real): real
    requires kr > 0.0 && vr > 0.0
  {
    0.4 * (1.0 / kr) + 0.6 * (1.0 / vr)
  }

  /** An entry with both ranks set. */
  function Ranked(d: Dict, kr: nat, vr: nat): Dict
  {
    d["keyword_rank" := Number(kr as real)]["vector_rank" := Number(vr as real)]
  }

  /** Writing a key other than `id` keeps the id. */
  lemma IdKept(d: Dict, k: string, v: Value)
    requires k != "id"
    ensures IdValue(d[k := v]) == IdValue(d)
  {
  }

  /** Both ranks are set to positive numbers. */
  predicate HasRanks(d: Dict)
  {
    && "keyword_rank" in d && d["keyword_rank"].Number? && d["keyword_rank"].n > 0.0
    && "vector_rank" in d && d["vector_rank"].Number? && d["vector_rank"].n > 0.0
  }

  /** An entry with its `final_score` set from its two ranks. */
  function WithFinalScore(d: Dict): Dict
    requires HasRanks(d)
  {
    d["final_score" := Number(FinalScore(d["keyword_rank"].n, d["vector_rank"].n))]
  }

  /** The sort key `x['final_score']`. */
  function FinalKey(d: Dict): Key
  {
    [Num(if "final_score" in d && d["final_score"].Number? then d["final_score"].n else 0.0)]
  }

  /**
   * The entry for `s` once the keyword loop and the first `m` rounds of the
   * vector loop are done: its result with the two ranks of its id so far.
   */
  function RankedAfter(ks: seq<Dict>, vs: seq<Dict>, m: nat, s: Src): (r: Dict)
    requires m <= |vs| && SrcIn(|ks|, |vs|, s)
    ensures HasRanks(r) && IdValue(r) == IdValue(SrcItem(ks, vs, s))
  {
    var x := IdValue(SrcItem(ks, vs, s));
    Ranked(SrcItem(ks, vs, s), KeywordRank(IdsOf(ks), x), VectorRank(IdsOf(vs), m, x))
  }

  /** The entry for `s` once both loops are done. */
  function RankedEntry(ks: seq<Dict>, vs: seq<Dict>, s: Src): (r: Dict)
    requires SrcIn(|ks|, |vs|, s)
    ensures HasRanks(r)
  {
    RankedAfter(ks, vs, |vs|, s)
  }

  /** The entry for `s` once the final scores are set. */
  function ScoredEntry(ks: seq<Dict>, vs: seq<Dict>, s: Src): Dict
    requires SrcIn(|ks|, |vs|, s)
  {
    WithFinalScore(RankedEntry(ks, vs, s))
  }

  /** The final score of the entry for `s`. */
  function EntryScore(ks: seq<Dict>, vs: seq<Dict>, s: Src): real
    requires SrcIn(|ks|, |vs|, s)
  {
    var x := IdValue(SrcItem(ks, vs, s));
    FinalScore(KeywordRank(IdsOf(ks), x) as real, VectorRank(IdsOf(vs), |vs|, x) as real)
  }

  /** The sort key of an entry: its final score. */
  function EntryKey(ks: seq<Dict>, vs: seq<Dict>): Src -> Key
  {
    s => [Num(if SrcIn(|ks|, |vs|, s) then EntryScore(ks, vs, s) else 0.0)]
  }

  /** Merging raises `TypeError` when some result has a list id. */
  predicate MergeRaises(ks: seq<Dict>, vs: seq<Dict>)
  {
    (exists x | x in IdsOf(ks) :: Unhashable(x)) || (exists x | x in IdsOf(vs) :: Unhashable(x))
  }

  /** Merging raises iff one of the two id lists is not all hashable. */
  lemma MergeRaisesSpec(ks: seq<Dict>, vs: seq<Dict>)
    ensures MergeRaises(ks, vs) <==> !AllHashable(IdsOf(ks), |ks|) || !AllHashable(IdsOf(vs), |vs|)
  {
    var kIds, vIds := IdsOf(ks), IdsOf(vs);
    AllHashableSpec(kIds, |ks|);
    AllHashableSpec(vIds, |vs|);
    if exists x | x in kIds :: Unhashable(x) {
      var x :| x in kIds && Unhashable(x);
      var i :| 0 <= i < |kIds| && kIds[i] == x;
    }
    if exists x | x in vIds :: Unhashable(x) {
      var x :| x in vIds && Unhashable(x);
      var j :| 0 <= j < |vIds| && vIds[j] == x;
    }
  }

  /** The merged entries before sorting. */
  function Merged(ks: seq<Dict>, vs: seq<Dict>): seq<Src>
  {
    MergedSlots(IdsOf(ks), IdsOf(vs), |vs|)
  }

  /** `merged` after `merged.sort(key=lambda x: x['final_score'], reverse=True)`. */
  function MergeOrder(ks: seq<Dict>, vs: seq<Dict>): seq<Src>
  {
    SortedBy(Merged(ks, vs), EntryKey(ks, vs), true)
  }

  lemma NewcomersSpec(ids: seq<Value>, m: nat, taken: seq<Value>)
    requires m <= |ids|
    ensures var r := Newcomers(ids, m, taken);
      && (forall a, b :: 0 <= a < b < |r| ==> r[a] < r[b] && ids[r[a]] != ids[r[b]])
      && (forall t :: 0 <= t < |r| ==> ids[r[t]] !in taken && ids[r[t]] !in ids[..r[t]])
      && (forall x :: x in ids[..m] && x !in taken ==> exists t :: 0 <= t < |r| && ids[r[t]] == x)
  {
    NewcomersOrdered(ids, m, taken);
    NewcomersFresh(ids, m, taken);
    NewcomersCover(ids, m, taken);
  }

  /** One more position: the newcomers so far, and this one when it is new. */
  lemma NewcomersSnoc(ids: seq<Value>, m: nat, taken: seq<Value>)
    requires 0 < m <= |ids|
    ensures var front, r := Newcomers(ids, m - 1, taken), Newcomers(ids, m, taken);
      && (forall t :: 0 <= t < |front| ==> r[t] == front[t])
      && (ids[m - 1] in taken || ids[m - 1] in ids[..m - 1] ==> r == front)
      && (ids[m - 1] !in taken && ids[m - 1] !in ids[..m - 1] ==> r == front + [m - 1])
  {
  }

  /** Newcomers come in increasing order with pairwise different ids. */
  lemma {:induction false} NewcomersOrdered(ids: seq<Value>, m: nat, taken: seq<Value>)
    requires m <= |ids|
    ensures var r := Newcomers(ids, m, taken);
      forall a, b :: 0 <= a < b < |r| ==> r[a] < r[b] && ids[r[a]] != ids[r[b]]
  {
    if m > 0 {
      NewcomersOrdered(ids, m - 1, taken);
      NewcomersSnoc(ids, m, taken);
      var front, r := Newcomers(ids, m - 1, taken), Newcomers(ids, m, taken);
      if r != front {
        forall a | 0 <= a < |front| ensures ids[front[a]] != ids[m - 1] {
          assert ids[..m - 1][front[a]] == ids[front[a]];
        }
      }
    }
  }

  /** A newcomer's id is neither taken nor at an earlier position. */
  lemma {:induction false} NewcomersFresh(ids: seq<Value>, m: nat, taken: seq<Value>)
    requires m <= |ids|
    ensures var r := Newcomers(ids, m, taken);
      forall t :: 0 <= t < |r| ==> ids[r[t]] !in taken && ids[r[t]] !in ids[..r[t]]
  {
    if m > 0 {
      NewcomersFresh(ids, m - 1, taken);
      NewcomersSnoc(ids, m, taken);
    }
  }

  /** Every id among the first `m` that is not taken has a newcomer. */
  lemma NewcomersCover(ids: seq<Value>, m: nat, taken: seq<Value>)
    requires m <= |ids|
    ensures var r := Newcomers(ids, m, taken);
      forall x :: x in ids[..m] && x !in taken ==> exists t :: 0 <= t < |r| && ids[r[t]] == x
  {
    var r := Newcomers(ids, m, taken);
    forall x | x in ids[..m] && x !in taken ensures exists t :: 0 <= t < |r| && ids[r[t]] == x {
      var t := NewcomerOf(ids, m, taken, x);
      assert 0 <= t < |r| && ids[r[t]] == x;
    }
  }

  /** The newcomer holding `x`. */
  lemma {:induction false} NewcomerOf(ids: seq<Value>, m: nat, taken: seq<Value>, x: Value) returns (t: nat)
    requires m <= |ids| && x in ids[..m] && x !in taken
    ensures t < |Newcomers(ids, m, taken)| && ids[Newcomers(ids, m, taken)[t]] == x
  {
    NewcomersSnoc(ids, m, taken);
    assert ids[..m] == ids[..m - 1] + [ids[m - 1]];
    if x in ids[..m - 1] {
      t := NewcomerOf(ids, m - 1, taken, x);
    } else {
      t := |Newcomers(ids, m - 1, taken)|;
    }
  }

  /** When every id is already taken, nothing is new. */
  lemma {:induction false} NewcomersNone(ids: seq<Value>, m: nat, taken: seq<Value>)
    requires m <= |ids| && forall p :: 0 <= p < m ==> ids[p] in taken
    ensures Newcomers(ids, m, taken) == []
  {
    if m > 0 {
      NewcomersNone(ids, m - 1, taken);
    }
  }

  /** Every merged entry refers to an existing result. */
  lemma MergedSlotsIn(kIds: seq<Value>, vIds: seq<Value>, m: nat)
    requires m <= |vIds|
    ensures forall t :: 0 <= t < |MergedSlots(kIds, vIds, m)| ==> SrcIn(|kIds|, |vIds|, MergedSlots(kIds, vIds, m)[t])
  {
    var kn := Newcomers(kIds, |kIds|, []);
    var vn := Newcomers(vIds, m, kIds);
    var slots := MergedSlots(kIds, vIds, m);
    forall t | 0 <= t < |slots| ensures SrcIn(|kIds|, |vIds|, slots[t]) {
      if t < |kn| {
        assert slots[t] == Kw(kn[t]);
      } else {
        assert slots[t] == Vec(vn[t - |kn|]);
      }
    }
  }

  /**
   * The merged entries: keyword entries first, then vector entries; no two
   * share an id; every keyword or vector id has an entry; each keyword entry
   * is the first keyword result with its id, and each vector entry refers to
   * an id no keyword result has.
   */
  /** Where each merged entry comes from: the keyword newcomers, then the vector newcomers. */
  lemma MergedSlotsAt(kIds: seq<Value>, vIds: seq<Value>, m: nat)
    requires m <= |vIds|
    ensures var kn, vn := Newcomers(kIds, |kIds|, []), Newcomers(vIds, m, kIds);
      var slots := MergedSlots(kIds, vIds, m);
      && |slots| == |kn| + |vn|
      && (forall t :: 0 <= t < |kn| ==> slots[t] == Kw(kn[t]))
      && (forall t :: |kn| <= t < |slots| ==> slots[t] == Vec(vn[t - |kn|]))
  {
  }

  /** The merged entries: keyword entries first, every one referring to an existing result. */
  lemma MergedSlotsShape(kIds: seq<Value>, vIds: seq<Value>, m: nat)
    requires m <= |vIds|
    ensures var slots := MergedSlots(kIds, vIds, m);
      && (forall t :: 0 <= t < |slots| ==> SrcIn(|kIds|, |vIds|, slots[t]))
      && (forall a, b :: 0 <= a < b < |slots| && slots[b].Kw? ==> slots[a].Kw?)
      && (forall t :: 0 <= t < |slots| && slots[t].Kw? ==> kIds[slots[t].i] !in kIds[..slots[t].i])
      && (forall t :: 0 <= t < |slots| && slots[t].Vec? ==> slots[t].j < m && vIds[slots[t].j] !in kIds)
  {
    NewcomersSpec(kIds, |kIds|, []);
    NewcomersSpec(vIds, m, kIds);
    MergedSlotsAt(kIds, vIds, m);
  }

  /** No two merged entries share an id. */
  lemma MergedSlotsDistinct(kIds: seq<Value>, vIds: seq<Value>, m: nat)
    requires m <= |vIds|
    ensures var slots := MergedSlots(kIds, vIds, m);
      && (forall t :: 0 <= t < |slots| ==> SrcIn(|kIds|, |vIds|, slots[t]))
      && (forall a, b :: 0 <= a < b < |slots| ==> SrcId(kIds, vIds, slots[a]) != SrcId(kIds, vIds, slots[b]))
  {
    var kn, vn := Newcomers(kIds, |kIds|, []), Newcomers(vIds, m, kIds);
    var slots := MergedSlots(kIds, vIds, m);
    NewcomersSpec(kIds, |kIds|, []);
    NewcomersSpec(vIds, m, kIds);
    MergedSlotsAt(kIds, vIds, m);
    MergedSlotsShape(kIds, vIds, m);
    forall a, b | 0 <= a < b < |slots| ensures SrcId(kIds, vIds, slots[a]) != SrcId(kIds, vIds, slots[b]) {
      if a < |kn| && |kn| <= b {
        assert kIds[kn[a]] in kIds;
      }
    }
  }

  /** Every keyword id, and every vector id seen so far, has a merged entry. */
  lemma MergedSlotsCover(kIds: seq<Value>, vIds: seq<Value>, m: nat)
    requires m <= |vIds|
    ensures var slots := MergedSlots(kIds, vIds, m);
      && (forall t :: 0 <= t < |slots| ==> SrcIn(|kIds|, |vIds|, slots[t]))
      && (forall x :: x in kIds || x in vIds[..m] ==> exists t :: 0 <= t < |slots| && SrcId(kIds, vIds, slots[t]) == x)
  {
    var kn, vn := Newcomers(kIds, |kIds|, []), Newcomers(vIds, m, kIds);
    var slots := MergedSlots(kIds, vIds, m);
    NewcomersSpec(kIds, |kIds|, []);
    NewcomersSpec(vIds, m, kIds);
    MergedSlotsAt(kIds, vIds, m);
    MergedSlotsShape(kIds, vIds, m);
    assert kIds[..|kIds|] == kIds;
    forall x | x in kIds || x in vIds[..m] ensures exists t :: 0 <= t < |slots| && SrcId(kIds, vIds, slots[t]) == x {
      if x in kIds {
        var t :| 0 <= t < |kn| && kIds[kn[t]] == x;
        assert SrcId(kIds, vIds, slots[t]) == x;
      } else {
        var t :| 0 <= t < |vn| && vIds[vn[t]] == x;
        assert SrcId(kIds, vIds, slots[|kn| + t]) == x;
      }
    }
  }

  /** A keyword entry's `keyword_rank` is one past its own position. */
  lemma KeywordEntryRank(kIds: seq<Value>, i: nat)
    requires i < |kIds| && kIds[i] !in kIds[..i]
    ensures KeywordRank(kIds, kIds[i]) == i + 1
  {
  }

  /**
   * When the vector results are the keyword results again (the keyword
   * fallback of `vector_recommend`), the vector loop appends nothing.
   */
  lemma FallbackAddsNothing(ks: seq<Dict>)
    ensures Merged(ks, ks) == KeywordMerged(IdsOf(ks), |ks|)
  {
    var ids := IdsOf(ks);
    NewcomersNone(ids, |ids|, ids);
    assert VecSlots([]) == [];
  }

  /** The final score lies in (0, 1]: 1 for a prompt first in both lists. */
  lemma FinalScoreBounds(kr: nat, vr: nat)
    requires kr > 0 && vr > 0
    ensures 0.0 < FinalScore(kr as real, vr as real) <= 1.0
    ensures kr == 1 && vr == 1 ==> FinalScore(kr as real, vr as real) == 1.0
  {
    InverseAtMostOne(kr);
    InverseAtMostOne(vr);
  }

  lemma InverseAtMostOne(n: nat)
    requires n > 0
    ensures 0.0 < 1.0 / n as real <= 1.0
  {
    var q := 1.0 / n as real;
    assert q * n as real == 1.0;
  }

  lemma InverseDecreasing(a: nat, b: nat)
    requires 0 < a < b
    ensures 1.0 / a as real > 1.0 / b as real
  {
    var ra, rb := a as real, b as real;
    assert 1.0 / ra - 1.0 / rb == (rb - ra) / (ra * rb);
    assert ra * rb > 0.0 && rb - ra > 0.0;
  }

  /** A better (smaller) rank in either list gives a higher final score. */
  lemma FinalScoreMonotone(k1: nat, k2: nat, v1: nat, v2: nat)
    requires 0 < k1 <= k2 && 0 < v1 <= v2 && (k1 < k2 || v1 < v2)
    ensures FinalScore(k1 as real, v1 as real) > FinalScore(k2 as real, v2 as real)
  {
    if k1 < k2 {
      InverseDecreasing(k1, k2);
    }
    if v1 < v2 {
      InverseDecreasing(v1, v2);
    }
  }

  /**
   * The vector list weighs more: a prompt only vector search found, at rank
   * 1, outscores one only keyword search found, at rank 1.
   */
  lemma VectorOnlyBeatsKeywordOnly()
    ensures FinalScore(NoRank as real, 1.0) > FinalScore(1.0, NoRank as real)
  {
  }

  /**
   * The sorted entries are the merged entries, each once; final scores never
   * increase along them; equal scores keep merge order.
   */
  lemma MergeOrderSpec(ks: seq<Dict>, vs: seq<Dict>)
    ensures multiset(MergeOrder(ks, vs)) == multiset(Merged(ks, vs))
    ensures forall a, b :: 0 <= a < b < |MergeOrder(ks, vs)|
              ==> !Before(EntryKey(ks, vs)(MergeOrder(ks, vs)[b]), EntryKey(ks, vs)(MergeOrder(ks, vs)[a]), true)
    ensures forall k :: WithKey(MergeOrder(ks, vs), EntryKey(ks, vs), k) == WithKey(Merged(ks, vs), EntryKey(ks, vs), k)
  {
    SortedBySpec(Merged(ks, vs), EntryKey(ks, vs), true);
  }

  /** With no id repeated, every position is new. */
  lemma {:induction false} NewcomersAll(ids: seq<Value>, m: nat)
    requires m <= |ids| && Distinct(ids)
    ensures Newcomers(ids, m, []) == Positions(m)
  {
    if m > 0 {
      NewcomersAll(ids, m - 1);
    }
  }

  /**
   * When the vector results are the keyword results again and no two share
   * an id, every entry has equal ranks, so its final score is 1 / rank and the
   * sort keeps the keyword order: the hybrid returns the keyword results.
   */
  lemma MergeOrderFallback(K: seq<Dict>)
    requires Distinct(IdsOf(K))
    ensures MergeOrder(K, K) == KwSlots(Positions(|K|))
  {
    NewcomersAll(IdsOf(K), |K|);
    FallbackAddsNothing(K);
    FallbackSorted(K);
    SortBySortedIdentity(Decorate(KwSlots(Positions(|K|)), EntryKey(K, K)), true);
  }

  /** In the fallback the keyword entries are already in final-score order. */
  lemma FallbackSorted(K: seq<Dict>)
    requires Distinct(IdsOf(K))
    ensures Sorted(Decorate(KwSlots(Positions(|K|)), EntryKey(K, K)), true)
  {
    var s := KwSlots(Positions(|K|));
    var d := Decorate(s, EntryKey(K, K));
    forall i, j | 0 <= i < j < |d| ensures !Before(d[j].0, d[i].0, true) {
      assert s[i] == Kw(i) && s[j] == Kw(j);
      FallbackPair(K, i, j);
    }
  }

  /** In the fallback an earlier keyword result never sorts after a later one. */
  lemma FallbackPair(K: seq<Dict>, i: nat, j: nat)
    requires Distinct(IdsOf(K)) && i < j < |K|
    ensures !Before(EntryKey(K, K)(Kw(j)), EntryKey(K, K)(Kw(i)), true)
  {
    FallbackKey(K, i);
    FallbackKey(K, j);
    FinalScoreDiagonal(i, j);
    NumKeyLess(FinalScore((i + 1) as real, (i + 1) as real), FinalScore((j + 1) as real, (j + 1) as real));
  }

  /** Equal ranks: the better the rank, the higher the final score. */
  lemma FinalScoreDiagonal(i: nat, j: nat)
    requires i < j
    ensures FinalScore((i + 1) as real, (i + 1) as real) > FinalScore((j + 1) as real, (j + 1) as real)
  {
    FinalScoreMonotone(i + 1, j + 1, i + 1, j + 1);
  }

  /** In the fallback, keyword result `i` has both ranks `i + 1`. */
  lemma FallbackKey(K: seq<Dict>, i: nat)
    requires Distinct(IdsOf(K)) && i < |K|
    ensures EntryKey(K, K)(Kw(i)) == [Num(FinalScore((i + 1) as real, (i + 1) as real))]
  {
    var kIds := IdsOf(K);
    assert kIds[i] !in kIds[..i];
    KeywordEntryRank(kIds, i);
    assert kIds[..|K|] == kIds;
    assert LastIndex(kIds, |K|, kIds[i]).value == i;
  }

  /** The id an entry refers to is the id of its result. */
  lemma SrcIdOfItem(ks: seq<Dict>, vs: seq<Dict>, s: Src)
    requires SrcIn(|ks|, |vs|, s)
    ensures IdValue(SrcItem(ks, vs, s)) == SrcId(IdsOf(ks), IdsOf(vs), s)
  {
  }

  /** The sorted entries are as many as the merged ones, each one of them. */
  lemma MergeOrderMembers(ks: seq<Dict>, vs: seq<Dict>)
    ensures |MergeOrder(ks, vs)| == |Merged(ks, vs)|
    ensures forall t :: 0 <= t < |MergeOrder(ks, vs)| ==> MergeOrder(ks, vs)[t] in Merged(ks, vs)
    ensures forall t :: 0 <= t < |MergeOrder(ks, vs)| ==> SrcIn(|ks|, |vs|, MergeOrder(ks, vs)[t])
  {
    var slots := Merged(ks, vs);
    var order := MergeOrder(ks, vs);
    MergeOrderSpec(ks, vs);
    MergedSlotsIn(IdsOf(ks), IdsOf(vs), |vs|);
    assert |multiset(order)| == |multiset(slots)|;
    forall t | 0 <= t < |order| ensures order[t] in slots {
      assert order[t] in multiset(order);
    }
  }

  /** No two sorted entries share an id. */
  lemma MergeOrderDistinctIds(ks: seq<Dict>, vs: seq<Dict>)
    ensures forall a, b :: 0 <= a < b < |MergeOrder(ks, vs)| && SrcIn(|ks|, |vs|, MergeOrder(ks, vs)[a])
              && SrcIn(|ks|, |vs|, MergeOrder(ks, vs)[b])
              ==> IdValue(SrcItem(ks, vs, MergeOrder(ks, vs)[a])) != IdValue(SrcItem(ks, vs, MergeOrder(ks, vs)[b]))
  {
    var order := MergeOrder(ks, vs);
    forall a, b | 0 <= a < b < |order| && SrcIn(|ks|, |vs|, order[a]) && SrcIn(|ks|, |vs|, order[b])
      ensures IdValue(SrcItem(ks, vs, order[a])) != IdValue(SrcItem(ks, vs, order[b]))
    {
      MergeOrderIds(ks, vs, a, b);
      SrcIdOfItem(ks, vs, order[a]);
      SrcIdOfItem(ks, vs, order[b]);
    }
  }

  /** Two sorted entries refer to results with different ids. */
  lemma MergeOrderIds(ks: seq<Dict>, vs: seq<Dict>, a: nat, b: nat)
    requires a < b < |MergeOrder(ks, vs)|
    ensures SrcIn(|ks|, |vs|, MergeOrder(ks, vs)[a]) && SrcIn(|ks|, |vs|, MergeOrder(ks, vs)[b])
    ensures SrcId(IdsOf(ks), IdsOf(vs), MergeOrder(ks, vs)[a]) != SrcId(IdsOf(ks), IdsOf(vs), MergeOrder(ks, vs)[b])
  {
    MergedSlotsDistinct(IdsOf(ks), IdsOf(vs), |vs|);
    MergeOrderSpec(ks, vs);
    ReorderedIdsDistinct(IdsOf(ks), IdsOf(vs), Merged(ks, vs), MergeOrder(ks, vs), a, b);
  }

  /** A reordering of entries with pairwise different ids keeps them pairwise different. */
  lemma ReorderedIdsDistinct(kIds: seq<Value>, vIds: seq<Value>, slots: seq<Src>, order: seq<Src>, a: nat, b: nat)
    requires multiset(order) == multiset(slots) && a < b < |order|
    requires forall t :: 0 <= t < |slots| ==> SrcIn(|kIds|, |vIds|, slots[t])
    requires forall x, y :: 0 <= x < y < |slots| ==> SrcId(kIds, vIds, slots[x]) != SrcId(kIds, vIds, slots[y])
    ensures SrcIn(|kIds|, |vIds|, order[a]) && SrcIn(|kIds|, |vIds|, order[b])
    ensures SrcId(kIds, vIds, order[a]) != SrcId(kIds, vIds, order[b])
  {
    assert Distinct(slots);
    DistinctPerm(slots, order);
    assert order[a] in multiset(slots) && order[b] in multiset(slots);
    var a' :| 0 <= a' < |slots| && slots[a'] == order[a];
    var b' :| 0 <= b' < |slots| && slots[b'] == order[b];
    if a' > b' {
      assert SrcId(kIds, vIds, slots[b']) != SrcId(kIds, vIds, slots[a']);
    }
  }

  /** Sorting keeps the merged entries pairwise different. */
  lemma MergeOrderEntriesDistinct(ks: seq<Dict>, vs: seq<Dict>)
    ensures Distinct(MergeOrder(ks, vs))
  {
    var slots := Merged(ks, vs);
    MergedSlotsDistinct(IdsOf(ks), IdsOf(vs), |vs|);
    MergeOrderSpec(ks, vs);
    assert forall a, b :: 0 <= a < b < |slots| ==> slots[a] != slots[b];
    DistinctPerm(slots, MergeOrder(ks, vs));
  }

  /** Final scores never increase along the sorted entries. */
  lemma MergeOrderScores(ks: seq<Dict>, vs: seq<Dict>)
    ensures forall a, b :: 0 <= a < b < |MergeOrder(ks, vs)| && SrcIn(|ks|, |vs|, MergeOrder(ks, vs)[a])
              && SrcIn(|ks|, |vs|, MergeOrder(ks, vs)[b])
              ==> EntryScore(ks, vs, MergeOrder(ks, vs)[a]) >= EntryScore(ks, vs, MergeOrder(ks, vs)[b])
  {
    var order := MergeOrder(ks, vs);
    MergeOrderSpec(ks, vs);
    forall a, b | 0 <= a < b < |order| && SrcIn(|ks|, |vs|, order[a]) && SrcIn(|ks|, |vs|, order[b])
      ensures EntryScore(ks, vs, order[a]) >= EntryScore(ks, vs, order[b])
    {
      NumKeyLess(EntryScore(ks, vs, order[a]), EntryScore(ks, vs, order[b]));
    }
  }

  /** Every id of either result list has a sorted entry. */
  lemma MergeOrderCovers(ks: seq<Dict>, vs: seq<Dict>)
    ensures forall x :: x in IdsOf(ks) || x in IdsOf(vs) ==>
              exists t :: 0 <= t < |MergeOrder(ks, vs)| && SrcIn(|ks|, |vs|, MergeOrder(ks, vs)[t])
                && IdValue(SrcItem(ks, vs, MergeOrder(ks, vs)[t])) == x
  {
    var kIds, vIds := IdsOf(ks), IdsOf(vs);
    var slots := Merged(ks, vs);
    var order := MergeOrder(ks, vs);
    MergedSlotsCover(kIds, vIds, |vs|);
    assert vIds[..|vs|] == vIds;
    MergeOrderSpec(ks, vs);
    forall x | x in kIds || x in vIds
      ensures exists t :: 0 <= t < |order| && SrcIn(|ks|, |vs|, order[t]) && IdValue(SrcItem(ks, vs, order[t])) == x
    {
      var t :| 0 <= t < |slots| && SrcId(kIds, vIds, slots[t]) == x;
      assert slots[t] in multiset(order);
      var u :| 0 <= u < |order| && order[u] == slots[t];
      SrcIdOfItem(ks, vs, order[u]);
    }
  }

  // ---------------------------------------------------------------------
  // The merge done in place on the dict objects.
  // ---------------------------------------------------------------------

  /** The dict object an entry refers to. */
  function SlotObject(ks: seq<PyDict>, vs: seq<PyDict>, s: Src): PyDict
    requires SrcIn(|ks|, |vs|, s)
  {
    match s
    case Kw(i) => ks[i]
    case Vec(j) => vs[j]
  }

  /** The dict objects of a list of entries. */
  function SlotObjects(ks: seq<PyDict>, vs: seq<PyDict>, slots: seq<Src>): (r: seq<PyDict>)
    requires forall t :: 0 <= t < |slots| ==> SrcIn(|ks|, |vs|, slots[t])
    ensures |r| == |slots| && forall t :: 0 <= t < |slots| ==> r[t] == SlotObject(ks, vs, slots[t])
  {
    seq(|slots|, t requires 0 <= t < |slots| => SlotObject(ks, vs, slots[t]))
  }

  /**
   * The dicts of a result list keep their ids, and those not merged yet still
   * hold what they held when merging started (`P`): only rank keys are written.
   */
  ghost predicate Untouched(ps: seq<PyDict>, P: seq<Dict>, acc: seq<PyDict>)
    reads set o | o in ps
  {
    |ps| == |P| && forall i :: 0 <= i < |ps| ==>
      IdValue(ps[i].items) == IdValue(P[i]) && (ps[i] !in acc ==> ps[i].items == P[i])
  }

  /** `merged` holds the dict objects of `slots`, in order. */
  predicate Slotted(ks: seq<PyDict>, vs: seq<PyDict>, merged: seq<PyDict>, slots: seq<Src>)
  {
    && |merged| == |slots|
    && forall t :: 0 <= t < |slots| ==> SrcIn(|ks|, |vs|, slots[t]) && merged[t] == SlotObject(ks, vs, slots[t])
  }

  /** The keyword loop's entries once it has seen one more result. */
  lemma KeywordMergedStep(kIds: seq<Value>, i: nat)
    requires i < |kIds|
    ensures KeywordMerged(kIds, i + 1)
            == KeywordMerged(kIds, i) + (if kIds[i] in kIds[..i] then [] else [Kw(i)])
  {
    var front := Newcomers(kIds, i, []);
    var n := if kIds[i] in kIds[..i] then [] else [i];
    assert Newcomers(kIds, i + 1, []) == front + n;
    assert KwSlots(front + n) == KwSlots(front) + KwSlots(n);
  }

  /** The vector loop's entries once it has seen one more result. */
  lemma MergedSlotsStep(kIds: seq<Value>, vIds: seq<Value>, j: nat)
    requires j < |vIds|
    ensures MergedSlots(kIds, vIds, j + 1)
            == MergedSlots(kIds, vIds, j) + (if vIds[j] in kIds || vIds[j] in vIds[..j] then [] else [Vec(j)])
  {
    var front := Newcomers(vIds, j, kIds);
    var n := if vIds[j] in kIds || vIds[j] in vIds[..j] then [] else [j];
    assert Newcomers(vIds, j + 1, kIds) == front + n;
    assert VecSlots(front + n) == VecSlots(front) + VecSlots(n);
  }

  /** Before the vector loop the entries are those of the keyword loop. */
  lemma MergedSlotsStart(kIds: seq<Value>, vIds: seq<Value>)
    ensures MergedSlots(kIds, vIds, 0) == KeywordMerged(kIds, |kIds|)
  {
    assert VecSlots([]) == [];
  }

  /** One more vector round changes only the vector rank of the id it sees. */
  lemma RankedAfterStep(K: seq<Dict>, V: seq<Dict>, j: nat, s: Src)
    requires j < |V| && SrcIn(|K|, |V|, s)
    ensures IdValue(SrcItem(K, V, s)) != IdValue(V[j]) ==> RankedAfter(K, V, j + 1, s) == RankedAfter(K, V, j, s)
    ensures IdValue(SrcItem(K, V, s)) == IdValue(V[j]) ==>
              RankedAfter(K, V, j + 1, s) == RankedAfter(K, V, j, s)["vector_rank" := Number((j + 1) as real)]
  {
    var x := IdValue(SrcItem(K, V, s));
    var kr := KeywordRank(IdsOf(K), x);
    VectorRankStep(IdsOf(V), j, x);
    if x == IdValue(V[j]) {
      RankedRerank(SrcItem(K, V, s), kr, VectorRank(IdsOf(V), j, x), j + 1);
    }
  }

  /** A vector hit makes its own position the id's vector rank; other ids keep theirs. */
  lemma VectorRankStep(vIds: seq<Value>, j: nat, x: Value)
    requires j < |vIds|
    ensures VectorRank(vIds, j + 1, x) == if vIds[j] == x then j + 1 else VectorRank(vIds, j, x)
  {
  }

  /** Writing `vector_rank` again replaces the earlier one. */
  lemma RankedRerank(d: Dict, kr: nat, vr: nat, vr': nat)
    ensures Ranked(d, kr, vr)["vector_rank" := Number(vr' as real)] == Ranked(d, kr, vr')
  {
  }

  /** A fresh keyword entry: its own position's rank, and no vector rank yet. */
  lemma KeywordNewcomer(K: seq<Dict>, V: seq<Dict>, i: nat)
    requires i < |K| && IdsOf(K)[i] !in IdsOf(K)[..i]
    ensures RankedAfter(K, V, 0, Kw(i)) == Ranked(K[i], i + 1, NoRank)
  {
    KeywordEntryRank(IdsOf(K), i);
  }

  /** A fresh vector entry: no keyword rank, and its own position's vector rank. */
  lemma VectorNewcomer(K: seq<Dict>, V: seq<Dict>, j: nat)
    requires j < |V| && IdsOf(V)[j] !in IdsOf(K)
    ensures RankedAfter(K, V, j + 1, Vec(j)) == Ranked(V[j], NoRank, j + 1)
  {
    var kIds := IdsOf(K);
    assert FirstIndex(kIds, IdsOf(V)[j]).None?;
  }

  /** One more entry, and its object appended to `merged`. */
  lemma SlottedSnoc(ks: seq<PyDict>, vs: seq<PyDict>, merged: seq<PyDict>, slots: seq<Src>, s: Src)
    requires Slotted(ks, vs, merged, slots) && SrcIn(|ks|, |vs|, s)
    ensures Slotted(ks, vs, merged + [SlotObject(ks, vs, s)], slots + [s])
  {
  }

  /** The dicts of `slots` once the keyword loop and `m` rounds of the vector loop are done. */
  function RanksOf(K: seq<Dict>, V: seq<Dict>, m: nat, slots: seq<Src>): (r: seq<Dict>)
    requires m <= |V| && forall t :: 0 <= t < |slots| ==> SrcIn(|K|, |V|, slots[t])
    ensures |r| == |slots| && forall t :: 0 <= t < |slots| ==> r[t] == RankedAfter(K, V, m, slots[t])
  {
    seq(|slots|, t requires 0 <= t < |slots| => RankedAfter(K, V, m, slots[t]))
  }

  /** The dicts in `merged` once the keyword loop has seen `i` results. */
  function KeywordDicts(K: seq<Dict>, V: seq<Dict>, i: nat): seq<Dict>
    requires i <= |K|
  {
    RanksOf(K, V, 0, KeywordMerged(IdsOf(K), i))
  }

  /** The dicts in `merged` once the vector loop has seen `j` results as well. */
  function VectorDicts(K: seq<Dict>, V: seq<Dict>, j: nat): seq<Dict>
    requires j <= |V|
  {
    MergedSlotsIn(IdsOf(K), IdsOf(V), j);
    RanksOf(K, V, j, MergedSlots(IdsOf(K), IdsOf(V), j))
  }

  /** Setting rank `r` as `vector_rank` of the dicts with id `x`. */
  function WithVectorRank(R: seq<Dict>, x: Value, r: nat): (R': seq<Dict>)
    ensures |R'| == |R|
    ensures forall t :: 0 <= t < |R| ==>
              R'[t] == if IdValue(R[t]) == x then R[t]["vector_rank" := Number(r as real)] else R[t]
  {
    seq(|R|, t requires 0 <= t < |R| => if IdValue(R[t]) == x then R[t]["vector_rank" := Number(r as real)] else R[t])
  }

  /** With no dict carrying id `x`, setting its vector rank changes nothing. */
  lemma WithVectorRankAbsent(R: seq<Dict>, x: Value, r: nat)
    requires forall t :: 0 <= t < |R| ==> IdValue(R[t]) != x
    ensures WithVectorRank(R, x, r) == R
  {
  }

  /** Setting both ranks keeps the id. */
  lemma RankedId(d: Dict, kr: nat, vr: nat)
    ensures IdValue(Ranked(d, kr, vr)) == IdValue(d)
  {
    IdKept(d, "keyword_rank", Number(kr as real));
    IdKept(d["keyword_rank" := Number(kr as real)], "vector_rank", Number(vr as real));
  }

  /**
   * Keyword result `i` appends its own dict with ranks `(i + 1, 999)` when its
   * id is new, and changes nothing when the id was seen.
   */
  lemma KeywordDictsStep(K: seq<Dict>, V: seq<Dict>, i: nat)
    requires i < |K|
    ensures KeywordDicts(K, V, i + 1)
            == KeywordDicts(K, V, i) + (if IdsOf(K)[i] in IdsOf(K)[..i] then [] else [Ranked(K[i], i + 1, NoRank)])
  {
    var kIds := IdsOf(K);
    KeywordMergedStep(kIds, i);
    if kIds[i] !in kIds[..i] {
      KeywordNewcomer(K, V, i);
    }
    var before, after := KeywordMerged(kIds, i), KeywordMerged(kIds, i + 1);
    forall t | 0 <= t < |before| ensures KeywordDicts(K, V, i + 1)[t] == KeywordDicts(K, V, i)[t] {
      assert after[t] == before[t];
    }
  }

  /** The ids in `merged` during the keyword loop are ids it has seen. */
  lemma KeywordDictsIds(K: seq<Dict>, V: seq<Dict>, i: nat)
    requires i <= |K|
    ensures forall t :: 0 <= t < |KeywordDicts(K, V, i)| ==> IdValue(KeywordDicts(K, V, i)[t]) in IdsOf(K)[..i]
  {
    var kIds := IdsOf(K);
    var slots := KeywordMerged(kIds, i);
    forall t | 0 <= t < |slots| ensures IdValue(KeywordDicts(K, V, i)[t]) in kIds[..i] {
      var p := slots[t].i;
      assert kIds[..i][p] == kIds[p];
    }
  }

  /** The vector loop starts from what the keyword loop left. */
  lemma VectorDictsStart(K: seq<Dict>, V: seq<Dict>)
    ensures VectorDicts(K, V, 0) == KeywordDicts(K, V, |K|)
  {
    MergedSlotsStart(IdsOf(K), IdsOf(V));
  }

  /**
   * Vector result `j` sets `vector_rank = j + 1` on the dict with its id, and
   * appends its own dict with ranks `(999, j + 1)` when its id is new.
   */
  lemma VectorDictsStep(K: seq<Dict>, V: seq<Dict>, j: nat)
    requires j < |V|
    ensures VectorDicts(K, V, j + 1)
            == WithVectorRank(VectorDicts(K, V, j), IdsOf(V)[j], j + 1)
               + (if IdsOf(V)[j] in IdsOf(K) || IdsOf(V)[j] in IdsOf(V)[..j] then [] else [Ranked(V[j], NoRank, j + 1)])
  {
    var kIds, vIds := IdsOf(K), IdsOf(V);
    MergedSlotsStep(kIds, vIds, j);
    var before := MergedSlots(kIds, vIds, j);
    var R, R' := VectorDicts(K, V, j), VectorDicts(K, V, j + 1);
    var W := WithVectorRank(R, vIds[j], j + 1);
    MergedSlotsIn(kIds, vIds, j);
    MergedSlotsIn(kIds, vIds, j + 1);
    forall t | 0 <= t < |before| ensures R'[t] == W[t] {
      RankedAfterStep(K, V, j, before[t]);
    }
    if !(vIds[j] in kIds || vIds[j] in vIds[..j]) {
      VectorNewcomer(K, V, j);
    }
  }

  /**
   * The dicts in `merged` during the vector loop carry pairwise different
   * ids, and an id is among them iff it is a keyword id or one of the first
   * `j` vector ids.
   */
  lemma VectorDictsIds(K: seq<Dict>, V: seq<Dict>, j: nat, x: Value)
    requires j <= |V|
    ensures forall a, b :: 0 <= a < b < |VectorDicts(K, V, j)| ==>
              IdValue(VectorDicts(K, V, j)[a]) != IdValue(VectorDicts(K, V, j)[b])
    ensures x in IdsOf(K) || x in IdsOf(V)[..j] <==>
              exists t :: 0 <= t < |VectorDicts(K, V, j)| && IdValue(VectorDicts(K, V, j)[t]) == x
  {
    var kIds, vIds := IdsOf(K), IdsOf(V);
    var slots := MergedSlots(kIds, vIds, j);
    var R := VectorDicts(K, V, j);
    MergedSlotsIn(kIds, vIds, j);
    MergedSlotsDistinct(kIds, vIds, j);
    MergedSlotsCover(kIds, vIds, j);
    MergedSlotsShape(kIds, vIds, j);
    forall t | 0 <= t < |R| ensures IdValue(R[t]) == SrcId(kIds, vIds, slots[t]) {
      SrcIdOfItem(K, V, slots[t]);
    }
    forall t | 0 <= t < |R| ensures IdValue(R[t]) in kIds || IdValue(R[t]) in vIds[..j] {
      match slots[t]
      case Kw(i) => assert kIds[i] in kIds;
      case Vec(q) => assert vIds[..j][q] == vIds[q];
    }
  }

  /** The dicts of a list one object longer. */
  lemma ContentsSnoc(ps: seq<PyDict>, p: PyDict)
    ensures Contents(ps + [p]) == Contents(ps) + [p.items]
  {
  }

  /** Merging keyword result `i`, whose id is new: its two ranks are written and it joins `merged`. */
  method AddKeywordEntry(ks: seq<PyDict>, vs: seq<PyDict>, ghost K: seq<Dict>, ghost V: seq<Dict>,
                         merged: seq<PyDict>, ghost R: seq<Dict>, i: nat)
      returns (merged': seq<PyDict>)
    requires i < |ks| && Untouched(ks, K, merged) && Untouched(vs, V, merged)
    requires Contents(merged) == R
    requires forall t :: 0 <= t < |R| ==> IdValue(R[t]) != IdsOf(K)[i]
    modifies ks[i]
    ensures merged' == merged + [ks[i]]
    ensures Contents(merged') == R + [Ranked(K[i], i + 1, NoRank)]
    ensures Untouched(ks, K, merged') && Untouched(vs, V, merged')
  {
    var prompt := ks[i];
    assert prompt !in merged by {
      forall t | 0 <= t < |merged| ensures merged[t] != prompt {
        assert merged[t].items == R[t];
      }
    }
    RankedId(K[i], i + 1, NoRank);
    prompt.items := prompt.items["keyword_rank" := Number((i + 1) as real)];
    prompt.items := prompt.items["vector_rank" := Number(NoRank as real)];
    merged' := merged + [prompt];
    ContentsSnoc(merged, prompt);
  }

  /** One round of the first loop, for keyword result `i`. */
  method KeywordRound(ks: seq<PyDict>, vs: seq<PyDict>, ghost K: seq<Dict>, ghost V: seq<Dict>,
                      merged: seq<PyDict>, seen: set<Value>, i: nat)
      returns (merged': seq<PyDict>, seen': set<Value>, raised: bool)
    requires i < |ks| && Untouched(ks, K, merged) && Untouched(vs, V, merged)
    requires Slotted(ks, vs, merged, KeywordMerged(IdsOf(K), i))
    requires Contents(merged) == KeywordDicts(K, V, i)
    requires forall x :: x in seen <==> x in IdsOf(K)[..i]
    modifies ks[i]
    ensures raised <==> Unhashable(IdsOf(K)[i])
    ensures !raised ==> Slotted(ks, vs, merged', KeywordMerged(IdsOf(K), i + 1))
    ensures !raised ==> Contents(merged') == KeywordDicts(K, V, i + 1)
    ensures !raised ==> forall x :: x in seen' <==> x in IdsOf(K)[..i + 1]
    ensures Untouched(ks, K, merged') && Untouched(vs, V, merged')
  {
    ghost var kIds := IdsOf(K);
    var promptId := IdValue(ks[i].items);
    assert promptId == kIds[i];
    if Unhashable(promptId) {
      return merged, seen, true;
    }
    raised := false;
    KeywordMergedStep(kIds, i);
    KeywordDictsStep(K, V, i);
    PrefixSnoc(kIds, i);
    if promptId !in seen {
      KeywordDictsIds(K, V, i);
      assert KeywordMerged(kIds, i + 1) == KeywordMerged(kIds, i) + [Kw(i)];
      SlottedSnoc(ks, vs, merged, KeywordMerged(kIds, i), Kw(i));
      assert SlotObject(ks, vs, Kw(i)) == ks[i];
      merged' := AddKeywordEntry(ks, vs, K, V, merged, KeywordDicts(K, V, i), i);
      seen' := seen + {promptId};
    } else {
      assert KeywordMerged(kIds, i + 1) == KeywordMerged(kIds, i);
      merged', seen' := merged, seen;
    }
  }

  /** The first loop of `hybrid_recommend`: each keyword result whose id is new is merged. */
  method MergeKeywordResults(ks: seq<PyDict>, vs: seq<PyDict>, ghost K: seq<Dict>, ghost V: seq<Dict>)
      returns (merged: seq<PyDict>, seen: set<Value>, raised: bool)
    requires Untouched(ks, K, []) && Untouched(vs, V, [])
    modifies set o | o in ks
    ensures raised <==> !AllHashable(IdsOf(K), |ks|)
    ensures !raised ==> Slotted(ks, vs, merged, KeywordMerged(IdsOf(K), |ks|))
    ensures !raised ==> Contents(merged) == KeywordDicts(K, V, |ks|)
    ensures !raised ==> forall x :: x in seen <==> x in IdsOf(K)
    ensures Untouched(ks, K, merged) && Untouched(vs, V, merged)
  {
    ghost var kIds := IdsOf(K);
    merged, seen, raised := [], {}, false;
    var i := 0;
    while i < |ks|
      invariant 0 <= i <= |ks|
      // bound to one name, so that the solver takes the loop state as a whole
      invariant var ok := AllHashable(kIds, i)
        && Untouched(ks, K, merged) && Untouched(vs, V, merged)
        && Slotted(ks, vs, merged, KeywordMerged(kIds, i))
        && Contents(merged) == KeywordDicts(K, V, i)
        && (forall x :: x in seen <==> x in kIds[..i]); ok
    {
      merged, seen, raised := KeywordRound(ks, vs, K, V, merged, seen, i);
      if raised {
        UnhashableAt(kIds, i);
        return;
      }
      i := i + 1;
    }
    assert kIds[..i] == kIds;
  }

  /** `for p in merged: if p.get('id') == prompt_id: ... break`: the first entry with the id. */
  method FindEntry(merged: seq<PyDict>, promptId: Value) returns (t: nat)
    requires exists w :: 0 <= w < |merged| && IdValue(merged[w].items) == promptId
    ensures t < |merged| && IdValue(merged[t].items) == promptId
    ensures forall u :: 0 <= u < t ==> IdValue(merged[u].items) != promptId
  {
    ghost var w :| 0 <= w < |merged| && IdValue(merged[w].items) == promptId;
    t := 0;
    while t < |merged| && IdValue(merged[t].items) != promptId
      invariant 0 <= t <= w
      invariant forall u :: 0 <= u < t ==> IdValue(merged[u].items) != promptId
    {
      t := t + 1;
    }
  }

  /** Vector result `j` has an id already merged: that entry's `vector_rank` becomes `j + 1`. */
  method UpdateVectorRank(ks: seq<PyDict>, vs: seq<PyDict>, ghost K: seq<Dict>, ghost V: seq<Dict>,
                          merged: seq<PyDict>, ghost R: seq<Dict>, j: nat, promptId: Value)
    requires Untouched(ks, K, merged) && Untouched(vs, V, merged)
    requires Contents(merged) == R
    requires forall a, b :: 0 <= a < b < |R| ==> IdValue(R[a]) != IdValue(R[b])
    requires exists w :: 0 <= w < |R| && IdValue(R[w]) == promptId
    modifies set o | o in merged
    ensures Contents(merged) == WithVectorRank(R, promptId, j + 1)
    ensures Untouched(ks, K, merged) && Untouched(vs, V, merged)
  {
    var t := FindEntry(merged, promptId);
    var entry := merged[t];
    forall u | 0 <= u < |merged| && u != t ensures merged[u] != entry {
      if u < t {
        assert IdValue(R[u]) != IdValue(R[t]);
      } else {
        assert IdValue(R[t]) != IdValue(R[u]);
      }
    }
    IdKept(entry.items, "vector_rank", Number((j + 1) as real));
    entry.items := entry.items["vector_rank" := Number((j + 1) as real)];
  }

  /** Vector result `j` has a new id: it is merged with no keyword rank and vector rank `j + 1`. */
  method AddVectorEntry(ks: seq<PyDict>, vs: seq<PyDict>, ghost K: seq<Dict>, ghost V: seq<Dict>,
                        merged: seq<PyDict>, ghost R: seq<Dict>, j: nat)
      returns (merged': seq<PyDict>)
    requires j < |vs| && Untouched(ks, K, merged) && Untouched(vs, V, merged)
    requires Contents(merged) == R
    requires forall t :: 0 <= t < |R| ==> IdValue(R[t]) != IdsOf(V)[j]
    modifies vs[j]
    ensures merged' == merged + [vs[j]]
    ensures Contents(merged') == R + [Ranked(V[j], NoRank, j + 1)]
    ensures Untouched(ks, K, merged') && Untouched(vs, V, merged')
  {
    var prompt := vs[j];
    assert prompt !in merged by {
      forall t | 0 <= t < |merged| ensures merged[t] != prompt {
        assert merged[t].items == R[t];
      }
    }
    RankedId(V[j], NoRank, j + 1);
    prompt.items := prompt.items["keyword_rank" := Number(NoRank as real)];
    prompt.items := prompt.items["vector_rank" := Number((j + 1) as real)];
    merged' := merged + [prompt];
    ContentsSnoc(merged, prompt);
  }

  /** The objects `merged` holds are result objects. */
  lemma SlottedObjects(ks: seq<PyDict>, vs: seq<PyDict>, merged: seq<PyDict>, slots: seq<Src>)
    requires Slotted(ks, vs, merged, slots)
    ensures forall o :: o in merged ==> o in ks + vs
  {
    forall o | o in merged ensures o in ks + vs {
      var t :| 0 <= t < |merged| && merged[t] == o;
      match slots[t]
      case Kw(i) => assert o == ks[i];
      case Vec(j) => assert o == vs[j];
    }
  }

  /** Vector result `j` has an id already merged: the entry with that id gets vector rank `j + 1`. */
  method VectorHit(ks: seq<PyDict>, vs: seq<PyDict>, ghost K: seq<Dict>, ghost V: seq<Dict>,
                   merged: seq<PyDict>, j: nat, promptId: Value)
    requires j < |vs| && |K| == |ks| && Untouched(ks, K, merged) && Untouched(vs, V, merged)
    requires Slotted(ks, vs, merged, MergedSlots(IdsOf(K), IdsOf(V), j))
    requires Contents(merged) == VectorDicts(K, V, j)
    requires promptId == IdsOf(V)[j] && (promptId in IdsOf(K) || promptId in IdsOf(V)[..j])
    modifies set o | o in ks + vs
    ensures Slotted(ks, vs, merged, MergedSlots(IdsOf(K), IdsOf(V), j + 1))
    ensures Contents(merged) == VectorDicts(K, V, j + 1)
    ensures Untouched(ks, K, merged) && Untouched(vs, V, merged)
  {
    ghost var kIds, vIds := IdsOf(K), IdsOf(V);
    ghost var R := VectorDicts(K, V, j);
    VectorDictsIds(K, V, j, promptId);
    VectorDictsStep(K, V, j);
    MergedSlotsStep(kIds, vIds, j);
    assert MergedSlots(kIds, vIds, j + 1) == MergedSlots(kIds, vIds, j);
    SlottedObjects(ks, vs, merged, MergedSlots(kIds, vIds, j));
    UpdateVectorRank(ks, vs, K, V, merged, R, j, promptId);
  }

  /** Vector result `j` has a new id: its dict joins `merged` with ranks `(999, j + 1)`. */
  method VectorNew(ks: seq<PyDict>, vs: seq<PyDict>, ghost K: seq<Dict>, ghost V: seq<Dict>,
                   merged: seq<PyDict>, j: nat)
      returns (merged': seq<PyDict>)
    requires j < |vs| && |K| == |ks| && Untouched(ks, K, merged) && Untouched(vs, V, merged)
    requires Slotted(ks, vs, merged, MergedSlots(IdsOf(K), IdsOf(V), j))
    requires Contents(merged) == VectorDicts(K, V, j)
    requires IdsOf(V)[j] !in IdsOf(K) && IdsOf(V)[j] !in IdsOf(V)[..j]
    modifies vs[j]
    ensures Slotted(ks, vs, merged', MergedSlots(IdsOf(K), IdsOf(V), j + 1))
    ensures Contents(merged') == VectorDicts(K, V, j + 1)
    ensures Untouched(ks, K, merged') && Untouched(vs, V, merged')
  {
    ghost var kIds, vIds := IdsOf(K), IdsOf(V);
    ghost var R := VectorDicts(K, V, j);
    VectorDictsIds(K, V, j, vIds[j]);
    VectorDictsStep(K, V, j);
    WithVectorRankAbsent(R, vIds[j], j + 1);
    MergedSlotsStep(kIds, vIds, j);
    assert MergedSlots(kIds, vIds, j + 1) == MergedSlots(kIds, vIds, j) + [Vec(j)];
    SlottedSnoc(ks, vs, merged, MergedSlots(kIds, vIds, j), Vec(j));
    assert SlotObject(ks, vs, Vec(j)) == vs[j];
    merged' := AddVectorEntry(ks, vs, K, V, merged, R, j);
  }

  /** One round of the second loop, for vector result `j`. */
  method VectorRound(ks: seq<PyDict>, vs: seq<PyDict>, ghost K: seq<Dict>, ghost V: seq<Dict>,
                     merged: seq<PyDict>, seen: set<Value>, j: nat)
      returns (merged': seq<PyDict>, seen': set<Value>, raised: bool)
    requires j < |vs| && |K| == |ks| && Untouched(ks, K, merged) && Untouched(vs, V, merged)
    requires Slotted(ks, vs, merged, MergedSlots(IdsOf(K), IdsOf(V), j))
    requires Contents(merged) == VectorDicts(K, V, j)
    requires forall x :: x in seen <==> x in IdsOf(K) || x in IdsOf(V)[..j]
    modifies set o | o in ks + vs
    ensures raised <==> Unhashable(IdsOf(V)[j])
    ensures !raised ==> Slotted(ks, vs, merged', MergedSlots(IdsOf(K), IdsOf(V), j + 1))
    ensures !raised ==> Contents(merged') == VectorDicts(K, V, j + 1)
    ensures !raised ==> forall x :: x in seen' <==> x in IdsOf(K) || x in IdsOf(V)[..j + 1]
    ensures Untouched(ks, K, merged') && Untouched(vs, V, merged')
  {
    ghost var vIds := IdsOf(V);
    var promptId := IdValue(vs[j].items);
    assert promptId == vIds[j];
    if Unhashable(promptId) {
      return merged, seen, true;
    }
    raised := false;
    PrefixSnoc(vIds, j);
    if promptId in seen {
      VectorHit(ks, vs, K, V, merged, j, promptId);
      merged', seen' := merged, seen;
    } else {
      merged' := VectorNew(ks, vs, K, V, merged, j);
      seen' := seen + {promptId};
    }
  }

  /** The second loop of `hybrid_recommend`: a vector result ranks the entry of its id, or is merged. */
  method MergeVectorResults(ks: seq<PyDict>, vs: seq<PyDict>, ghost K: seq<Dict>, ghost V: seq<Dict>,
                            merged: seq<PyDict>, seen: set<Value>)
      returns (merged': seq<PyDict>, raised: bool)
    requires |K| == |ks| && Untouched(ks, K, merged) && Untouched(vs, V, merged)
    requires Slotted(ks, vs, merged, MergedSlots(IdsOf(K), IdsOf(V), 0))
    requires Contents(merged) == VectorDicts(K, V, 0)
    requires forall x :: x in seen <==> x in IdsOf(K)
    modifies set o | o in ks + vs
    ensures raised <==> !AllHashable(IdsOf(V), |vs|)
    ensures !raised ==> Slotted(ks, vs, merged', MergedSlots(IdsOf(K), IdsOf(V), |vs|))
    ensures !raised ==> Contents(merged') == VectorDicts(K, V, |vs|)
    ensures Untouched(ks, K, merged') && Untouched(vs, V, merged')
  {
    ghost var kIds, vIds := IdsOf(K), IdsOf(V);
    merged', raised := merged, false;
    var seen := seen;
    var j := 0;
    while j < |vs|
      invariant 0 <= j <= |vs|
      // bound to one name, so that the solver takes the loop state as a whole
      invariant var ok := AllHashable(vIds, j)
        && Untouched(ks, K, merged') && Untouched(vs, V, merged')
        && Slotted(ks, vs, merged', MergedSlots(kIds, vIds, j))
        && Contents(merged') == VectorDicts(K, V, j)
        && (forall x :: x in seen <==> x in kIds || x in vIds[..j]); ok
    {
      merged', seen, raised := VectorRound(ks, vs, K, V, merged', seen, j);
      if raised {
        UnhashableAt(vIds, j);
        return;
      }
      j := j + 1;
    }
  }

  /**
   * The two merge loops of `hybrid_recommend`: the keyword results, then the vector
   * results, merged in place. A list id raises `TypeError` (`None` here). The
   * merged dicts are the results the entries refer to, with both ranks set;
   * no other dict changes.
   */
  method MergeResults(ks: seq<PyDict>, vs: seq<PyDict>) returns (merged: Option<seq<PyDict>>)
    modifies set o | o in ks + vs
    ensures merged.None? <==> MergeRaises(old(Contents(ks)), old(Contents(vs)))
    ensures merged.Some? ==> var slots := Merged(old(Contents(ks)), old(Contents(vs)));
      && (forall t :: 0 <= t < |slots| ==> SrcIn(|ks|, |vs|, slots[t]))
      && merged.value == SlotObjects(ks, vs, slots)
      && (forall t :: 0 <= t < |slots| ==>
            merged.value[t].items == RankedEntry(old(Contents(ks)), old(Contents(vs)), slots[t]))
    ensures merged.Some? ==> forall o :: o in ks + vs && o !in merged.value ==> o.items == old(o.items)
  {
    ghost var K, V := Contents(ks), Contents(vs);
    ghost var kIds, vIds := IdsOf(K), IdsOf(V);
    MergeRaisesSpec(K, V);
    var acc, seen, raised := MergeKeywordResults(ks, vs, K, V);
    if raised {
      return None;
    }
    MergedSlotsStart(kIds, vIds);
    VectorDictsStart(K, V);
    acc, raised := MergeVectorResults(ks, vs, K, V, acc, seen);
    if raised {
      return None;
    }
    MergedSlotsShape(kIds, vIds, |vs|);
    merged := Some(acc);
    forall o | o in ks + vs && o !in acc ensures o.items == old(o.items) {
      if o in ks {
        var i :| 0 <= i < |ks| && ks[i] == o;
      } else {
        var i :| 0 <= i < |vs| && vs[i] == o;
      }
    }
  }

  /** The scoring loop of `hybrid_recommend`: every merged dict gets its `final_score`. */
  method ScoreMerged(merged: seq<PyDict>)
    requires Distinct(merged)
    requires forall t :: 0 <= t < |merged| ==> HasRanks(merged[t].items)
    modifies set o | o in merged
    ensures forall t :: 0 <= t < |merged| ==> merged[t].items == WithFinalScore(old(merged[t].items))
  {
    for t := 0 to |merged|
      invariant forall u :: 0 <= u < t ==> merged[u].items == WithFinalScore(old(merged[u].items))
      invariant forall u :: t <= u < |merged| ==> merged[u].items == old(merged[u].items)
    {
      var prompt := merged[t];
      var keywordScore := 1.0 / prompt.items["keyword_rank"].n;
      var vectorScore := 1.0 / prompt.items["vector_rank"].n;
      prompt.items := prompt.items["final_score" := Number(0.4 * keywordScore + 0.6 * vectorScore)];
    }
  }

  /** The sort keys `x['final_score']` of a list of dicts. */
  function FinalKeys(ds: seq<Dict>): (r: seq<Key>)
    ensures |r| == |ds| && forall t :: 0 <= t < |ds| ==> r[t] == FinalKey(ds[t])
  {
    seq(|ds|, t requires 0 <= t < |ds| => FinalKey(ds[t]))
  }

  /** A scored entry's sort key is the entry's final score. */
  lemma ScoredKey(K: seq<Dict>, V: seq<Dict>, s: Src)
    requires SrcIn(|K|, |V|, s)
    ensures FinalKey(ScoredEntry(K, V, s)) == EntryKey(K, V)(s)
  {
  }

  /**
   * Sorting the scored dict objects of the merged entries by their final
   * score puts them in the order of the sorted entries.
   */
  lemma SortedObjects(ks: seq<PyDict>, vs: seq<PyDict>, K: seq<Dict>, V: seq<Dict>, D: seq<Dict>, objs: seq<PyDict>)
    requires |K| == |ks| && |V| == |vs|
    requires forall t :: 0 <= t < |Merged(K, V)| ==> SrcIn(|ks|, |vs|, Merged(K, V)[t])
    requires forall t :: 0 <= t < |MergeOrder(K, V)| ==> SrcIn(|ks|, |vs|, MergeOrder(K, V)[t])
    requires objs == SlotObjects(ks, vs, Merged(K, V)) && |D| == |objs|
    requires forall t :: 0 <= t < |D| ==> D[t] == ScoredEntry(K, V, Merged(K, V)[t])
    ensures Items(SortBy(Zip(FinalKeys(D), objs), true)) == SlotObjects(ks, vs, MergeOrder(K, V))
  {
    var slots := Merged(K, V);
    var keys := FinalKeys(D);
    forall t | 0 <= t < |slots| ensures keys[t] == EntryKey(K, V)(slots[t]) {
      ScoredKey(K, V, slots[t]);
    }
    assert Decorate(slots, EntryKey(K, V)) == Zip(keys, slots);
    var pos := SortAlong(keys, objs, slots, true);
    var sorted := Items(SortBy(Zip(keys, objs), true));
    var order := MergeOrder(K, V);
    assert order == Items(SortBy(Zip(keys, slots), true));
    forall u | 0 <= u < |pos| ensures sorted[u] == SlotObject(ks, vs, order[u]) {
      assert sorted[u] == objs[pos[u]];
      assert order[u] == slots[pos[u]];
    }
  }

  /**
   * The dict objects of the merged entries are pairwise different, because
   * their ids are, and each is one of the result objects.
   */
  lemma MergedObjectsDistinct(ks: seq<PyDict>, vs: seq<PyDict>)
    ensures var slots := Merged(Contents(ks), Contents(vs));
      && (forall t :: 0 <= t < |slots| ==> SrcIn(|ks|, |vs|, slots[t]))
      && Distinct(SlotObjects(ks, vs, slots))
      && forall o :: o in SlotObjects(ks, vs, slots) ==> o in ks + vs
  {
    var K, V := Contents(ks), Contents(vs);
    var slots := Merged(K, V);
    MergedSlotsDistinct(IdsOf(K), IdsOf(V), |vs|);
    var objs := SlotObjects(ks, vs, slots);
    forall a, b | 0 <= a < b < |objs| ensures objs[a] != objs[b] {
      SrcIdOfItem(K, V, slots[a]);
      SrcIdOfItem(K, V, slots[b]);
      assert objs[a].items == SrcItem(K, V, slots[a]) by {
        match slots[a] { case Kw(i) => case Vec(j) => }
      }
      assert objs[b].items == SrcItem(K, V, slots[b]) by {
        match slots[b] { case Kw(i) => case Vec(j) => }
      }
    }
    forall o | o in objs ensures o in ks + vs {
      var t :| 0 <= t < |objs| && objs[t] == o;
      match slots[t]
      case Kw(i) => assert o == ks[i];
      case Vec(j) => assert o == vs[j];
    }
  }

  /**
   * What `hybrid_recommend` does after the two searches: merge, score,
   * sort by final score (highest first, stable), keep the first `top_k`.
   * `merged` names the dicts that were merged; no other dict changes.
   */
  method MergeAndRank(ks: seq<PyDict>, vs: seq<PyDict>, topK: int)
      returns (r: Option<seq<PyDict>>, ghost merged: seq<PyDict>)
    modifies set o | o in ks + vs
    ensures r.None? <==> MergeRaises(old(Contents(ks)), old(Contents(vs)))
    ensures forall t :: 0 <= t < |Merged(old(Contents(ks)), old(Contents(vs)))| ==>
              SrcIn(|ks|, |vs|, Merged(old(Contents(ks)), old(Contents(vs)))[t])
    ensures forall t :: 0 <= t < |MergeOrder(old(Contents(ks)), old(Contents(vs)))| ==>
              SrcIn(|ks|, |vs|, MergeOrder(old(Contents(ks)), old(Contents(vs)))[t])
    ensures r.Some? ==> r.value == Take(SlotObjects(ks, vs, MergeOrder(old(Contents(ks)), old(Contents(vs)))), topK)
    ensures r.Some? ==> var slots := Merged(old(Contents(ks)), old(Contents(vs)));
      && merged == SlotObjects(ks, vs, slots)
      && forall t :: 0 <= t < |slots| ==> merged[t].items == ScoredEntry(old(Contents(ks)), old(Contents(vs)), slots[t])
    ensures r.Some? ==> forall o :: o in ks + vs && o !in merged ==> o.items == old(o.items)
  {
    ghost var K, V := Contents(ks), Contents(vs);
    MergedSlotsShape(IdsOf(K), IdsOf(V), |vs|);
    MergeOrderMembers(K, V);
    MergedObjectsDistinct(ks, vs);
    var m := MergeResults(ks, vs);
    if m.None? {
      return None, [];
    }
    var acc := m.value;
    merged := acc;
    ScoreMerged(acc);
    ghost var D := Contents(acc);
    SortedObjects(ks, vs, K, V, D, acc);
    var sorted := Items(SortBy(Zip(FinalKeys(Contents(acc)), acc), true));
    r := Some(Take(sorted, topK));
  }
}
