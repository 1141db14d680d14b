/**
 * The data-merging script of the v0.2 app: normalising raw prompt records,
 * dropping duplicates by title or content, the merge pipeline that combines
 * the loaded files, and the per-field counting of the statistics report.
 */
module MergeData {
  import opened PyValues
  import opened PyStrings
  import opened PySort
  import opened Helpers

  // ---------------------------------------------------------------------------
  // normalize_prompt

  /** The keys of a normalised record. */
  const NormalKeys: set<string> := {"id", "title", "prompt", "category", "tool", "framework", "level", "keywords"}

  /** The default of a normalised field other than `keywords`. */
  function FieldDefault(k: string): Value
  {
    if k == "level" then Str("중급") else Str("")
  }

  /** The keyword list after "ensure keywords is a list". */
  function KeywordList(v: Value): Value
  {
    match v
    case Str(s) => StrList([s])
    case StrList(l) => StrList(l)
    case _ => StrList([])
  }

  /** `normalize_prompt(prompt)` */
  function NormalizePrompt(p: Dict): (r: Dict)
    ensures r.Keys == NormalKeys
    ensures forall k :: k in NormalKeys && k != "keywords" ==> r[k] == (if k in p then p[k] else FieldDefault(k))
    ensures r["keywords"].StrList?
    ensures "keywords" in p && p["keywords"].Str? ==> r["keywords"].items == [p["keywords"].s]
    ensures "keywords" in p && p["keywords"].StrList? ==> r["keywords"] == p["keywords"]
    ensures "keywords" !in p || !(p["keywords"].Str? || p["keywords"].StrList?) ==> r["keywords"].items == []
  {
    // the record literal of `normalize_prompt`, one default per field, then the keyword fix-up
    var normalized := map k | k in NormalKeys :: Get(p, k, if k == "keywords" then StrList([]) else FieldDefault(k));
    normalized["keywords" := KeywordList(normalized["keywords"])]
  }

  /** Normalising a normalised record changes nothing. */
  lemma NormalizeIdempotent(p: Dict)
    ensures NormalizePrompt(NormalizePrompt(p)) == NormalizePrompt(p)
  {
    var n := NormalizePrompt(p);
    var nn := NormalizePrompt(n);
    assert nn.Keys == n.Keys;
    forall k | k in NormalKeys ensures nn[k] == n[k] {
      if k == "keywords" {
        assert n["keywords"].StrList?;
      }
    }
  }

  // ---------------------------------------------------------------------------
  // find_duplicates

  /** `prompt.get("title", "").strip()` and the same for the body do not raise. */
  predicate Textual(d: Dict)
  {
    TextOrAbsent(d, "title") && TextOrAbsent(d, "prompt")
  }

  /** `prompt.get("title", "").strip().lower()` */
  function NormTitle(d: Dict): string
  {
    Lower(Strip(TextField(d, "title")))
  }

  /** `prompt.get("prompt", "").strip().lower()` */
  function NormContent(d: Dict): string
  {
    Lower(Strip(TextField(d, "prompt")))
  }

  /** The keys `key(d)` of the records of a list (the `seen_*` sets of the loop). */
  function KeysOf<T>(r: seq<T>, key: T -> string): set<string>
  {
    if r == [] then {} else KeysOf(r[..|r| - 1], key) + {key(r[|r| - 1])}
  }

  lemma {:induction false} KeysOfSpec<T>(r: seq<T>, key: T -> string)
    ensures forall t :: t in KeysOf(r, key) <==> exists d :: d in r && key(d) == t
  {
    if r != [] {
      KeysOfSpec(r[..|r| - 1], key);
      assert r == r[..|r| - 1] + [r[|r| - 1]];
    }
  }

  lemma KeysOfSnoc<T>(r: seq<T>, x: T, key: T -> string)
    ensures KeysOf(r + [x], key) == KeysOf(r, key) + {key(x)}
  {
    assert (r + [x])[..|r|] == r;
  }

  /** The record is kept after the list `kept`: a non-empty title and content that no kept record has. */
  predicate Fresh<T>(kept: seq<T>, d: T, title: T -> string, content: T -> string)
  {
    title(d) != "" && content(d) != "" && title(d) !in KeysOf(kept, title) && content(d) !in KeysOf(kept, content)
  }

  /** The loop of `find_duplicates`, one record at a time, over any two normalised keys. */
  function UniqueBy<T>(ps: seq<T>, title: T -> string, content: T -> string): (r: seq<T>)
  {
    if ps == [] then []
    else
      var kept := UniqueBy(ps[..|ps| - 1], title, content);
      if Fresh(kept, ps[|ps| - 1], title, content) then kept + [ps[|ps| - 1]] else kept
  }

  lemma UniqueByStep<T>(ps: seq<T>, i: nat, title: T -> string, content: T -> string)
    requires i < |ps|
    ensures var kept := UniqueBy(ps[..i], title, content);
            UniqueBy(ps[..i + 1], title, content) == if Fresh(kept, ps[i], title, content) then kept + [ps[i]] else kept
  {
    assert ps[..i + 1][..i] == ps[..i];
  }

  /** What `find_duplicates` returns. */
  function Unique(ps: seq<Dict>): seq<Dict>
  {
    UniqueBy(ps, NormTitle, NormContent)
  }

  /**
   * The loop of `find_duplicates`, given the test that a record's title and body
   * can be normalised and the two normalisations: `None` when the test fails on
   * some record, where `.strip()` raises.
   */
  method FindDuplicatesBy(ps: seq<Dict>, textual: Dict -> bool, normTitle: Dict -> string, normContent: Dict -> string)
    returns (r: Option<seq<Dict>>)
    ensures r.None? <==> exists d :: d in ps && !textual(d)
    ensures r.Some? ==> r.value == UniqueBy(ps, normTitle, normContent)
  {
    var seenTitles: set<string> := {};
    var seenContents: set<string> := {};
    var unique: seq<Dict> := [];
    var i := 0;
    // `.strip()` raises at the first record whose title or body is not text
    while i < |ps| && textual(ps[i])
      invariant var ok := i <= |ps| && (forall j :: 0 <= j < i ==> textual(ps[j]))
        && unique == UniqueBy(ps[..i], normTitle, normContent)
        && seenTitles == KeysOf(unique, normTitle) && seenContents == KeysOf(unique, normContent); ok
    {
      seenTitles, seenContents, unique := KeepIfFresh(ps, i, normTitle, normContent, seenTitles, seenContents, unique);
      i := i + 1;
    }
    if i < |ps| {
      assert ps[i] in ps && !textual(ps[i]);
      return None;
    }
    assert ps[..|ps|] == ps;
    forall d | d in ps ensures textual(d) {
      var j :| 0 <= j < |ps| && ps[j] == d;
    }
    return Some(unique);
  }

  /** One round of the loop of `find_duplicates`: keep record `i` when it is fresh, and note its keys. */
  method KeepIfFresh(ps: seq<Dict>, i: nat, normTitle: Dict -> string, normContent: Dict -> string,
                     seenTitles: set<string>, seenContents: set<string>, unique: seq<Dict>)
      returns (titles: set<string>, contents: set<string>, kept: seq<Dict>)
    requires i < |ps| && unique == UniqueBy(ps[..i], normTitle, normContent)
    requires seenTitles == KeysOf(unique, normTitle) && seenContents == KeysOf(unique, normContent)
    ensures kept == UniqueBy(ps[..i + 1], normTitle, normContent)
    ensures titles == KeysOf(kept, normTitle) && contents == KeysOf(kept, normContent)
  {
    var prompt := ps[i];
    UniqueByStep(ps, i, normTitle, normContent);
    KeysOfSnoc(unique, prompt, normTitle);
    KeysOfSnoc(unique, prompt, normContent);
    titles, contents, kept := seenTitles, seenContents, unique;
    var title := normTitle(prompt);
    var content := normContent(prompt);
    if title != "" && content != "" && title !in seenTitles && content !in seenContents {
      titles := seenTitles + {title};
      contents := seenContents + {content};
      kept := unique + [prompt];
    }
  }

  /** `find_duplicates(prompts)`; `None` when a title or body is not text. */
  method FindDuplicates(ps: seq<Dict>) returns (r: Option<seq<Dict>>)
    ensures r.None? <==> exists d :: d in ps && !Textual(d)
    ensures r.Some? ==> r.value == Unique(ps)
  {
    r := FindDuplicatesBy(ps, Textual, NormTitle, NormContent);
  }

  /** No two records share a title or a content key, and none has an empty one. */
  predicate CleanBy<T(==)>(r: seq<T>, title: T -> string, content: T -> string)
  {
    && (forall d :: d in r ==> title(d) != "" && content(d) != "")
    && forall i, j :: 0 <= i < j < |r| ==> title(r[i]) != title(r[j]) && content(r[i]) != content(r[j])
  }

  /** No two records share a normalised title or content, and none has an empty one. */
  predicate Clean(r: seq<Dict>)
  {
    CleanBy(r, NormTitle, NormContent)
  }

  lemma {:induction false} UniqueBySpec<T>(ps: seq<T>, title: T -> string, content: T -> string)
    ensures Embeds(UniqueBy(ps, title, content), ps)
    ensures CleanBy(UniqueBy(ps, title, content), title, content)
  {
    if ps != [] {
      var front, last := ps[..|ps| - 1], ps[|ps| - 1];
      var kept := UniqueBy(front, title, content);
      UniqueBySpec(front, title, content);
      assert ps == front + [last];
      EmbedsSnoc(kept, front, last);
      if Fresh(kept, last, title, content) {
        KeysOfSpec(kept, title);
        KeysOfSpec(kept, content);
        var r := kept + [last];
        forall i, j | 0 <= i < j < |r| ensures title(r[i]) != title(r[j]) && content(r[i]) != content(r[j]) {
          if j == |kept| {
            assert r[i] in kept;
          }
        }
      }
    }
  }

  /**
   * `find_duplicates` returns an order-preserving subsequence of its input in
   * which every title and content is non-empty and occurs once.
   */
  lemma UniqueSpec(ps: seq<Dict>)
    ensures Embeds(Unique(ps), ps)
    ensures Clean(Unique(ps))
  {
    UniqueBySpec(ps, NormTitle, NormContent);
  }

  lemma {:induction false} UniqueByPrefix<T>(ps: seq<T>, i: nat, title: T -> string, content: T -> string)
    requires i <= |ps|
    ensures UniqueBy(ps[..i], title, content) <= UniqueBy(ps, title, content)
    decreases |ps| - i
  {
    if i < |ps| {
      UniqueByPrefix(ps, i + 1, title, content);
      assert ps[..i + 1][..i] == ps[..i];
    } else {
      assert ps[..i] == ps;
    }
  }

  /**
   * Each record either is appended to what was kept before it, exactly when its
   * title and content are non-empty and no earlier kept record has the same
   * title or content, or leaves the kept list as it was; and the records kept
   * from a prefix of the input are a prefix of the result: the first
   * occurrence is the one kept.
   */
  lemma UniqueStep(ps: seq<Dict>, i: nat)
    requires i < |ps|
    ensures var kept := Unique(ps[..i]);
            Unique(ps[..i + 1]) == (
              if NormTitle(ps[i]) != "" && NormContent(ps[i]) != ""
                 && !(exists d :: d in kept && (NormTitle(d) == NormTitle(ps[i]) || NormContent(d) == NormContent(ps[i])))
              then kept + [ps[i]] else kept)
    ensures Unique(ps[..i]) <= Unique(ps)
  {
    assert ps[..i + 1][..i] == ps[..i];
    KeysOfSpec(Unique(ps[..i]), NormTitle);
    KeysOfSpec(Unique(ps[..i]), NormContent);
    UniqueByPrefix(ps, i, NormTitle, NormContent);
  }

  /** A record rejected as a duplicate registers neither its title nor its content. */
  lemma RejectedLeavesNoTrace(ps: seq<Dict>, p: Dict, q: Dict)
    requires Unique(ps + [p]) == Unique(ps)
    ensures Unique(ps + [p] + [q]) == Unique(ps + [q])
  {
    assert (ps + [p] + [q])[..|ps| + 1] == ps + [p];
    assert (ps + [q])[..|ps|] == ps;
  }

  lemma {:induction false} UniqueByClean<T>(r: seq<T>, title: T -> string, content: T -> string)
    requires CleanBy(r, title, content)
    ensures UniqueBy(r, title, content) == r
  {
    if r != [] {
      var front, last := r[..|r| - 1], r[|r| - 1];
      assert CleanBy(front, title, content);
      UniqueByClean(front, title, content);
      KeysOfSpec(front, title);
      KeysOfSpec(front, content);
      forall d | d in front ensures title(d) != title(last) && content(d) != content(last) {
        var i :| 0 <= i < |front| && front[i] == d;
      }
      assert r == front + [last];
    }
  }

  /** Removing duplicates twice removes nothing more. */
  lemma UniqueIdempotent(ps: seq<Dict>)
    ensures Unique(Unique(ps)) == Unique(ps)
  {
    UniqueBySpec(ps, NormTitle, NormContent);
    UniqueByClean(Unique(ps), NormTitle, NormContent);
  }

  // ---------------------------------------------------------------------------
  // merge_data_files

  /** `normalized["id"] and normalized["title"] and normalized["prompt"]` */
  predicate Complete(d: Dict)
  {
    Truthy(Get(d, "id", Null)) && Truthy(Get(d, "title", Null)) && Truthy(Get(d, "prompt", Null))
  }

  /** The normalised records of one file that are complete. */
  function Collect(data: seq<Dict>): seq<Dict>
  {
    Where(seq(|data|, i requires 0 <= i < |data| => NormalizePrompt(data[i])), Complete)
  }

  /** The complete normalised records of all files, file after file. */
  function CollectAll(files: seq<seq<Dict>>): seq<Dict>
  {
    if files == [] then [] else CollectAll(files[..|files| - 1]) + Collect(files[|files| - 1])
  }

  lemma CollectSnoc(data: seq<Dict>, j: nat)
    requires j < |data|
    ensures Collect(data[..j + 1]) == Collect(data[..j]) + (if Complete(NormalizePrompt(data[j])) then [NormalizePrompt(data[j])] else [])
  {
    var n := seq(j + 1, i requires 0 <= i < j + 1 => NormalizePrompt(data[..j + 1][i]));
    var m := seq(j, i requires 0 <= i < j => NormalizePrompt(data[..j][i]));
    assert n == m + [NormalizePrompt(data[j])];
    WhereSnoc(m, NormalizePrompt(data[j]), Complete);
  }

  /** Every category is text or absent, so the (category, title) sort compares only strings. */
  predicate TextCategories(files: seq<seq<Dict>>)
  {
    forall f, p :: 0 <= f < |files| && p in files[f] ==> TextOrAbsent(p, "category")
  }

  /**
   * The merge pipeline over the lists the loader returned (`[]` for a file that
   * is missing or unreadable): normalise, keep complete records, remove
   * duplicates, sort by (category, title).
   */
  method MergeDataFiles(files: seq<seq<Dict>>) returns (r: Option<seq<Dict>>)
    requires TextCategories(files)
    ensures r.None? <==> exists d :: d in CollectAll(files) && !Textual(d)
    ensures r.Some? ==> r.value == SortedBy(Unique(CollectAll(files)), CategoryTitleKey, false)
  {
    var allPrompts: seq<Dict> := [];
    for f := 0 to |files|
      invariant allPrompts == CollectAll(files[..f])
    {
      allPrompts := CollectInto(allPrompts, files[f]);
      assert files[..f + 1][..f] == files[..f];
    }
    assert files[..|files|] == files;
    var unique := FindDuplicates(allPrompts);
    if unique.None? {
      return None;
    }
    var uniquePrompts := unique.value;
    uniquePrompts := SortedBy(uniquePrompts, CategoryTitleKey, false);
    return Some(uniquePrompts);
  }

  /** The inner loop of the merge: normalise each record of one file and append the complete ones. */
  method CollectInto(allPrompts: seq<Dict>, data: seq<Dict>) returns (r: seq<Dict>)
    ensures r == allPrompts + Collect(data)
  {
    r := allPrompts;
    for j := 0 to |data|
      invariant r == allPrompts + Collect(data[..j])
    {
      var normalized, complete := NormalizeChecked(data[j]);
      CollectSnoc(data, j);
      if complete {
        r := r + [normalized];
      }
    }
    assert data[..|data|] == data;
  }

  /** `normalize_prompt(p)`, and whether its id, title and body are all truthy. */
  method NormalizeChecked(p: Dict) returns (normalized: Dict, complete: bool)
    ensures normalized == NormalizePrompt(p) && complete == Complete(normalized)
  {
    normalized := NormalizePrompt(p);
    complete := Truthy(normalized["id"]) && Truthy(normalized["title"]) && Truthy(normalized["prompt"]);
  }

  lemma CollectMembers(data: seq<Dict>)
    ensures forall d :: d in Collect(data) <==> Complete(d) && exists p :: p in data && d == NormalizePrompt(p)
  {
    var normalized := seq(|data|, i requires 0 <= i < |data| => NormalizePrompt(data[i]));
    WhereSpec(normalized, Complete);
    forall d | Complete(d) && exists p :: p in data && d == NormalizePrompt(p) ensures d in normalized {
      var p :| p in data && d == NormalizePrompt(p);
      var i :| 0 <= i < |data| && data[i] == p;
      assert normalized[i] == d;
    }
  }

  lemma {:induction false} CollectAllMembers(files: seq<seq<Dict>>)
    ensures forall d :: d in CollectAll(files) <==>
              Complete(d) && exists f, p :: 0 <= f < |files| && p in files[f] && d == NormalizePrompt(p)
  {
    if files != [] {
      var front, data := files[..|files| - 1], files[|files| - 1];
      CollectAllMembers(front);
      CollectMembers(data);
      assert CollectAll(files) == CollectAll(front) + Collect(data);
      forall d | d in CollectAll(files)
        ensures exists f, p :: 0 <= f < |files| && p in files[f] && d == NormalizePrompt(p)
      {
        if d in Collect(data) {
          var p :| p in data && d == NormalizePrompt(p);
          assert p in files[|files| - 1];
        } else {
          var f, p :| 0 <= f < |front| && p in front[f] && d == NormalizePrompt(p);
          assert p in files[f];
        }
      }
      forall d | Complete(d) && exists f, p :: 0 <= f < |files| && p in files[f] && d == NormalizePrompt(p)
        ensures d in CollectAll(files)
      {
        var f, p :| 0 <= f < |files| && p in files[f] && d == NormalizePrompt(p);
        if f == |files| - 1 {
          assert p in data;
        } else {
          assert p in front[f];
        }
      }
    }
  }

  /** A permutation of a clean list is clean. */
  lemma CleanByPerm<T>(u: seq<T>, r: seq<T>, title: T -> string, content: T -> string)
    requires CleanBy(u, title, content) && multiset(r) == multiset(u)
    ensures CleanBy(r, title, content)
  {
    assert Distinct(u) by {
      forall i, j | 0 <= i < j < |u| ensures u[i] != u[j] {
        assert title(u[i]) != title(u[j]);
      }
    }
    DistinctPerm(u, r);
    forall d | d in r ensures d in u {
      assert d in multiset(r);
    }
    forall i, j | 0 <= i < j < |r| ensures title(r[i]) != title(r[j]) && content(r[i]) != content(r[j]) {
      assert r[i] in multiset(u) && r[j] in multiset(u);
      var p :| 0 <= p < |u| && u[p] == r[i];
      var q :| 0 <= q < |u| && u[q] == r[j];
      assert p != q;
    }
  }

  /**
   * The merged list holds normalised records of the input files (all eight
   * keys, truthy id, title and body), no two with the same stripped-lowered
   * title or content, ordered by (category, title).
   */
  lemma MergedSpec(files: seq<seq<Dict>>)
    ensures var r := SortedBy(Unique(CollectAll(files)), CategoryTitleKey, false);
            && (forall d :: d in r ==> d.Keys == NormalKeys && Complete(d) && NormTitle(d) != "" && NormContent(d) != "")
            && (forall d :: d in r ==> exists f, p :: 0 <= f < |files| && p in files[f] && d == NormalizePrompt(p))
            && (forall i, j :: 0 <= i < j < |r| ==> NormTitle(r[i]) != NormTitle(r[j]) && NormContent(r[i]) != NormContent(r[j]))
            && (forall i, j :: 0 <= i < j < |r| ==>
                  StrLess(Category(r[i]), Category(r[j]))
                  || (Category(r[i]) == Category(r[j]) && !StrLess(Title(r[j]), Title(r[i]))))
  {
    var all := CollectAll(files);
    var u := Unique(all);
    var r := SortedBy(u, CategoryTitleKey, false);
    CollectAllMembers(files);
    UniqueSpec(all);
    EmbedsMembers(u, all);
    SortedByCategory(u);
    CleanByPerm(u, r, NormTitle, NormContent);
    forall d | d in r ensures d in u {
      assert d in multiset(r);
    }
  }

  // ---------------------------------------------------------------------------
  // print_statistics

  /** A counting dict: its keys in insertion order, and the count of each. */
  datatype Counter = Counter(keys: seq<Value>, counts: map<Value, nat>)

  /** `counter[v] = counter.get(v, 0) + 1` */
  function Bump(c: Counter, v: Value): Counter
  {
    if v in c.counts then c.(counts := c.counts[v := c.counts[v] + 1])
    else Counter(c.keys + [v], c.counts[v := 1])
  }

  /** `prompt.get(field, "Unknown")` */
  function FieldValue(d: Dict, field: string): Value
  {
    Get(d, field, Str("Unknown"))
  }

  /** The counter after visiting the records of `ps` in order. */
  function Tally(ps: seq<Dict>, field: string): Counter
  {
    if ps == [] then Counter([], map[]) else Bump(Tally(ps[..|ps| - 1], field), FieldValue(ps[|ps| - 1], field))
  }

  /** How many records have the value `v` in the field. */
  function Occurrences(ps: seq<Dict>, field: string, v: Value): nat
  {
    if ps == [] then 0
    else Occurrences(ps[..|ps| - 1], field, v) + if FieldValue(ps[|ps| - 1], field) == v then 1 else 0
  }

  /** The sum of the counts of the listed keys. */
  function Total(keys: seq<Value>, counts: map<Value, nat>): nat
  {
    if keys == [] then 0
    else Total(keys[..|keys| - 1], counts) + if keys[|keys| - 1] in counts then counts[keys[|keys| - 1]] else 0
  }

  lemma {:induction false} TotalOther(keys: seq<Value>, counts: map<Value, nat>, v: Value, n: nat)
    requires v !in keys
    ensures Total(keys, counts[v := n]) == Total(keys, counts)
  {
    if keys != [] {
      TotalOther(keys[..|keys| - 1], counts, v, n);
    }
  }

  lemma {:induction false} TotalIncrement(keys: seq<Value>, counts: map<Value, nat>, v: Value)
    requires Distinct(keys) && v in keys && v in counts
    ensures Total(keys, counts[v := counts[v] + 1]) == Total(keys, counts) + 1
  {
    var front, last := keys[..|keys| - 1], keys[|keys| - 1];
    assert keys == front + [last];
    if last == v {
      assert v !in front;
      TotalOther(front, counts, v, counts[v] + 1);
    } else {
      TotalIncrement(front, counts, v);
    }
  }

  /**
   * The counter of a field holds every value that occurs, once, in order of
   * first occurrence; each count is the number of records with that value;
   * and the counts add up to the number of records.
   */
  lemma {:induction false} TallySpec(ps: seq<Dict>, field: string)
    ensures var t := Tally(ps, field);
            && Distinct(t.keys)
            && (forall v :: v in t.keys <==> v in t.counts)
            && (forall v :: v in t.counts ==> t.counts[v] == Occurrences(ps, field, v) > 0)
            && (forall v :: v !in t.counts ==> Occurrences(ps, field, v) == 0)
            && Total(t.keys, t.counts) == |ps|
  {
    TallyKeys(ps, field);
    TallyCounts(ps, field);
    TallyTotal(ps, field);
  }

  /** The counter's keys are distinct and are exactly the values it counts. */
  lemma {:induction false} TallyKeys(ps: seq<Dict>, field: string)
    ensures var t := Tally(ps, field);
            Distinct(t.keys) && forall v :: v in t.keys <==> v in t.counts
  {
    if ps != [] {
      TallyKeys(ps[..|ps| - 1], field);
    }
  }

  /** Each count is the number of records with that value; a value not counted occurs nowhere. */
  lemma {:induction false} TallyCounts(ps: seq<Dict>, field: string)
    ensures var t := Tally(ps, field);
            && (forall v :: v in t.counts ==> t.counts[v] == Occurrences(ps, field, v) > 0)
            && (forall v :: v !in t.counts ==> Occurrences(ps, field, v) == 0)
  {
    if ps != [] {
      TallyCounts(ps[..|ps| - 1], field);
    }
  }

  /** The counts add up to the number of records. */
  lemma {:induction false} TallyTotal(ps: seq<Dict>, field: string)
    ensures var t := Tally(ps, field); Total(t.keys, t.counts) == |ps|
  {
    if ps != [] {
      var front := ps[..|ps| - 1];
      var v := FieldValue(ps[|ps| - 1], field);
      var t := Tally(front, field);
      TallyTotal(front, field);
      TallyKeys(front, field);
      BumpTotal(t, v);
    }
  }

  /** Counting one more record adds one to the total. */
  lemma BumpTotal(c: Counter, v: Value)
    requires Distinct(c.keys) && forall x :: x in c.keys <==> x in c.counts
    ensures Total(Bump(c, v).keys, Bump(c, v).counts) == Total(c.keys, c.counts) + 1
  {
    if v in c.counts {
      TotalIncrement(c.keys, c.counts, v);
    } else {
      var keys := c.keys + [v];
      assert keys[..|keys| - 1] == c.keys;
      TotalOther(c.keys, c.counts, v, 1);
    }
  }

  /** The value can be a dict key (a list is unhashable). */
  predicate Hashable(d: Dict, field: string)
  {
    field !in d || !d[field].StrList?
  }

  lemma TallyStep(ps: seq<Dict>, i: nat, field: string)
    requires i < |ps|
    ensures Tally(ps[..i + 1], field) == Bump(Tally(ps[..i], field), FieldValue(ps[i], field))
  {
    assert ps[..i + 1][..i] == ps[..i];
  }

  /** The counting loop of `print_statistics`: the category, level and tool counters. */
  method PrintStatistics(ps: seq<Dict>) returns (categories: Counter, levels: Counter, tools: Counter)
    requires forall d :: d in ps ==> Hashable(d, "category") && Hashable(d, "level") && Hashable(d, "tool")
    ensures categories == Tally(ps, "category") && levels == Tally(ps, "level") && tools == Tally(ps, "tool")
    ensures Total(categories.keys, categories.counts) == |ps|
    ensures forall v :: v in categories.counts ==> categories.counts[v] == Occurrences(ps, "category", v)
  {
    categories, levels, tools := Counter([], map[]), Counter([], map[]), Counter([], map[]);
    for i := 0 to |ps|
      invariant categories == Tally(ps[..i], "category")
      invariant levels == Tally(ps[..i], "level")
      invariant tools == Tally(ps[..i], "tool")
    {
      var prompt := ps[i];
      var cat := Get(prompt, "category", Str("Unknown"));
      var level := Get(prompt, "level", Str("Unknown"));
      var tool := Get(prompt, "tool", Str("Unknown"));
      TallyStep(ps, i, "category");
      TallyStep(ps, i, "level");
      TallyStep(ps, i, "tool");
      categories := Bump(categories, cat);
      levels := Bump(levels, level);
      tools := Bump(tools, tool);
    }
    assert ps[..|ps|] == ps;
    TallySpec(ps, "category");
  }
}
