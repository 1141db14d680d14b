/**
 * The list utilities of the v0.2 app: filtering prompts by category, level,
 * tool and a search query; sorting them by one of four named orders; and
 * validating the fields of a new prompt.
 */
module Helpers {
  import opened PyValues
  import opened PyStrings
  import opened PySort

  /** `MAX_PROMPT_LENGTH` of the app's configuration. */
  const MaxPromptLength := 2000
  /** `MAX_KEYWORD_LENGTH` of the app's configuration. */
  const MaxKeywordLength := 50

  // ---------------------------------------------------------------------------
  // Order-preserving filtering

  /** `[x for x in s if keep(x)]` */
  function Where<T>(s: seq<T>, keep: T -> bool): (r: seq<T>)
    ensures |r| <= |s|
  {
    if s == [] then [] else (if keep(s[0]) then [s[0]] else []) + Where(s[1..], keep)
  }

  /** `r` can be obtained from `s` by deleting elements: an order-preserving subsequence. */
  predicate Embeds<T(==)>(r: seq<T>, s: seq<T>)
    decreases |s|
  {
    r == [] || (s != [] && ((r[0] == s[0] && Embeds(r[1..], s[1..])) || Embeds(r, s[1..])))
  }

  lemma {:induction false} EmbedsSelf<T>(s: seq<T>)
    ensures Embeds(s, s)
  {
    if s != [] {
      EmbedsSelf(s[1..]);
    }
  }

  /** The elements of an order-preserving subsequence are elements of the list. */
  lemma {:induction false} EmbedsMembers<T>(r: seq<T>, s: seq<T>)
    requires Embeds(r, s)
    ensures forall x :: x in r ==> x in s
  {
    if r != [] {
      if r[0] == s[0] && Embeds(r[1..], s[1..]) {
        EmbedsMembers(r[1..], s[1..]);
        assert r == [r[0]] + r[1..];
      } else {
        EmbedsMembers(r, s[1..]);
      }
    }
  }

  /** A comprehension keeps exactly the elements that pass the test, in their order. */
  lemma {:induction false} WhereSpec<T>(s: seq<T>, keep: T -> bool)
    ensures forall x :: x in Where(s, keep) <==> x in s && keep(x)
    ensures Embeds(Where(s, keep), s)
  {
    if s != [] {
      WhereSpec(s[1..], keep);
      assert s == [s[0]] + s[1..];
      var r := Where(s, keep);
      if keep(s[0]) {
        assert r[0] == s[0] && r[1..] == Where(s[1..], keep);
      } else {
        assert r == Where(s[1..], keep);
      }
    }
  }

  /** A comprehension whose test every element passes returns the list itself. */
  lemma {:induction false} WhereAll<T>(s: seq<T>, keep: T -> bool)
    requires forall x :: x in s ==> keep(x)
    ensures Where(s, keep) == s
  {
    if s != [] {
      WhereAll(s[1..], keep);
      assert s == [s[0]] + s[1..];
    }
  }

  /** Two comprehensions in a row are one with both tests. */
  lemma {:induction false} WhereBoth<T>(s: seq<T>, f: T -> bool, g: T -> bool, h: T -> bool)
    requires forall x :: x in s ==> (h(x) <==> f(x) && g(x))
    ensures Where(Where(s, f), g) == Where(s, h)
  {
    if s != [] {
      assert s == [s[0]] + s[1..];
      WhereBoth(s[1..], f, g, h);
      if f(s[0]) {
        var w := Where(s, f);
        assert w == [s[0]] + Where(s[1..], f);
        assert w[0] == s[0] && w[1..] == Where(s[1..], f);
        assert Where(w, g) == (if g(s[0]) then [s[0]] else []) + Where(w[1..], g);
      } else {
        assert Where(s, f) == Where(s[1..], f);
      }
    }
  }

  /** A comprehension over a list grown at the end grows by that element when it passes. */
  lemma {:induction false} WhereSnoc<T>(s: seq<T>, x: T, keep: T -> bool)
    ensures Where(s + [x], keep) == Where(s, keep) + (if keep(x) then [x] else [])
  {
    if s == [] {
      assert [x][1..] == [];
    } else {
      var head := if keep(s[0]) then [s[0]] else [];
      WhereSnoc(s[1..], x, keep);
      assert (s + [x])[0] == s[0] && (s + [x])[1..] == s[1..] + [x];
      assert Where(s + [x], keep) == head + Where(s[1..] + [x], keep);
      assert Where(s, keep) == head + Where(s[1..], keep);
    }
  }

  /** An order-preserving subsequence stays one when both lists grow, or only the larger one does. */
  lemma {:induction false} EmbedsSnoc<T>(r: seq<T>, s: seq<T>, x: T)
    requires Embeds(r, s)
    ensures Embeds(r, s + [x]) && Embeds(r + [x], s + [x])
  {
    if s == [] {
      assert r == [];
      assert ([] + [x])[1..] == [];
    } else {
      assert (s + [x])[1..] == s[1..] + [x];
      if r == [] {
        EmbedsSnoc(r, s[1..], x);
      } else if r[0] == s[0] && Embeds(r[1..], s[1..]) {
        EmbedsSnoc(r[1..], s[1..], x);
        assert (r + [x])[1..] == r[1..] + [x];
      } else {
        EmbedsSnoc(r, s[1..], x);
      }
    }
  }

  // ---------------------------------------------------------------------------
  // filter_prompts

  /** The optional criteria `filter_prompts` takes. */
  datatype Criteria = Criteria(
    categories: Option<seq<string>>,
    levels: Option<seq<string>>,
    tools: Option<seq<string>>,
    searchQuery: Option<string>)

  /** A list criterion is applied when it is truthy: present and non-empty. */
  predicate Given(o: Option<seq<string>>)
  {
    o.Some? && o.value != []
  }

  /** The query criterion is applied when it is truthy. */
  predicate Searching(c: Criteria)
  {
    c.searchQuery.Some? && c.searchQuery.value != ""
  }

  /** `p.get(k) in allowed`: an absent or non-text value equals no string of the list. */
  predicate FieldIn(d: Dict, k: string, allowed: seq<string>)
  {
    TextOf(d, k).Some? && TextOf(d, k).value in allowed
  }

  /**
   * The search test on one prompt, with `or` and `any` evaluated left to right:
   * `None` where evaluating it raises (a title or body that is not text, keywords
   * that cannot be iterated), `Some(hit)` otherwise. `q` is the lowered query.
   */
  function SearchHit(q: string, d: Dict): (r: Option<bool>)
  {
    if !TextOrAbsent(d, "title") then None
    else if Contains(Lower(TextField(d, "title")), q) then Some(true)
    else if !TextOrAbsent(d, "prompt") then None
    else if Contains(Lower(TextField(d, "prompt")), q) then Some(true)
    else if !KeywordsIterable(d) then None
    else Some(exists k :: k in KeywordItems(d) && Contains(Lower(k), q))
  }

  /** The search comprehension: `None` when the test raises on some element. */
  function KeepMatching(ps: seq<Dict>, q: string): (r: Option<seq<Dict>>)
  {
    if ps == [] then Some([])
    else match SearchHit(q, ps[0])
      case None => None
      case Some(hit) =>
        match KeepMatching(ps[1..], q)
        case None => None
        case Some(rest) => Some((if hit then [ps[0]] else []) + rest)
  }

  /** No criterion applies. */
  predicate NoCriteria(c: Criteria)
  {
    !Given(c.categories) && !Given(c.levels) && !Given(c.tools) && !Searching(c)
  }

  /** `filter_prompts(prompts, categories, levels, tools, search_query)`; `None` when it raises. */
  function FilterPrompts(ps: seq<Dict>, c: Criteria): (r: Option<seq<Dict>>)
    ensures NoCriteria(c) ==> r == Some(ps)
  {
    var byCategory := if Given(c.categories) then Where(ps, d => FieldIn(d, "category", c.categories.value)) else ps;
    var byLevel := if Given(c.levels) then Where(byCategory, d => FieldIn(d, "level", c.levels.value)) else byCategory;
    var byTool := if Given(c.tools) then Where(byLevel, d => FieldIn(d, "tool", c.tools.value)) else byLevel;
    if Searching(c) then KeepMatching(byTool, Lower(c.searchQuery.value)) else Some(byTool)
  }

  /** The prompt passes the category, level and tool criteria that apply. */
  predicate Admits(c: Criteria, d: Dict)
  {
    && (Given(c.categories) ==> FieldIn(d, "category", c.categories.value))
    && (Given(c.levels) ==> FieldIn(d, "level", c.levels.value))
    && (Given(c.tools) ==> FieldIn(d, "tool", c.tools.value))
  }

  /** The prompt matches the query, when one applies. */
  predicate Matches(c: Criteria, d: Dict)
  {
    Searching(c) ==> SearchHit(Lower(c.searchQuery.value), d) == Some(true)
  }

  /** The test a surviving prompt passes. */
  function Survives(c: Criteria): Dict -> bool
  {
    d => Admits(c, d) && Matches(c, d)
  }

  /** The search comprehension raises iff the test raises on some element, and otherwise keeps the hits. */
  lemma {:induction false} KeepMatchingSpec(ps: seq<Dict>, q: string)
    ensures KeepMatching(ps, q).None? <==> exists d :: d in ps && SearchHit(q, d).None?
    ensures KeepMatching(ps, q).Some? ==> KeepMatching(ps, q).value == Where(ps, d => SearchHit(q, d) == Some(true))
  {
    if ps != [] {
      KeepMatchingSpec(ps[1..], q);
      assert ps == [ps[0]] + ps[1..];
    }
  }

  /** The three list criteria together are one comprehension. */
  lemma AdmittedWhere(ps: seq<Dict>, c: Criteria)
    ensures var byCategory := if Given(c.categories) then Where(ps, d => FieldIn(d, "category", c.categories.value)) else ps;
            var byLevel := if Given(c.levels) then Where(byCategory, d => FieldIn(d, "level", c.levels.value)) else byCategory;
            var byTool := if Given(c.tools) then Where(byLevel, d => FieldIn(d, "tool", c.tools.value)) else byLevel;
            byTool == Where(ps, d => Admits(c, d))
  {
    var cat := (d: Dict) => !Given(c.categories) || FieldIn(d, "category", c.categories.value);
    var lev := (d: Dict) => !Given(c.levels) || FieldIn(d, "level", c.levels.value);
    var tool := (d: Dict) => !Given(c.tools) || FieldIn(d, "tool", c.tools.value);
    var catLev := (d: Dict) => cat(d) && lev(d);
    var byCategory := if Given(c.categories) then Where(ps, d => FieldIn(d, "category", c.categories.value)) else ps;
    var byLevel := if Given(c.levels) then Where(byCategory, d => FieldIn(d, "level", c.levels.value)) else byCategory;
    var byTool := if Given(c.tools) then Where(byLevel, d => FieldIn(d, "tool", c.tools.value)) else byLevel;
    if Given(c.categories) {
      WhereBoth(ps, d => FieldIn(d, "category", c.categories.value), x => true, cat);
      WhereAll(Where(ps, d => FieldIn(d, "category", c.categories.value)), x => true);
    } else {
      WhereAll(ps, cat);
    }
    assert byCategory == Where(ps, cat);
    WhereSpec(ps, cat);
    if Given(c.levels) {
      WhereBoth(ps, cat, d => FieldIn(d, "level", c.levels.value), catLev);
    } else {
      WhereSpec(ps, cat);
      WhereAll(byCategory, lev);
      WhereBoth(ps, cat, lev, catLev);
    }
    assert byLevel == Where(ps, catLev);
    WhereSpec(ps, catLev);
    if Given(c.tools) {
      WhereBoth(ps, catLev, d => FieldIn(d, "tool", c.tools.value), d => Admits(c, d));
    } else {
      WhereAll(byLevel, tool);
      WhereBoth(ps, catLev, tool, d => Admits(c, d));
    }
  }

  /**
   * `filter_prompts` raises iff a prompt passing the list criteria makes the
   * search test raise; otherwise it returns the prompts passing every criterion
   * that applies, as an order-preserving subsequence of its input.
   */
  lemma FilterPromptsSpec(ps: seq<Dict>, c: Criteria)
    ensures FilterPrompts(ps, c).None? <==>
              Searching(c) && exists d :: d in ps && Admits(c, d) && SearchHit(Lower(c.searchQuery.value), d).None?
    ensures FilterPrompts(ps, c).Some? ==> FilterPrompts(ps, c).value == Where(ps, Survives(c))
    ensures FilterPrompts(ps, c).Some? ==>
              forall d :: d in FilterPrompts(ps, c).value <==> d in ps && Admits(c, d) && Matches(c, d)
    ensures FilterPrompts(ps, c).Some? ==> Embeds(FilterPrompts(ps, c).value, ps)
  {
    FilterPromptsRaises(ps, c);
    if FilterPrompts(ps, c).Some? {
      FilterPromptsKept(ps, c);
      WhereSpec(ps, Survives(c));
    }
  }

  /** `filter_prompts` raises iff it searches and the search test raises on an admitted prompt. */
  lemma FilterPromptsRaises(ps: seq<Dict>, c: Criteria)
    ensures FilterPrompts(ps, c).None? <==>
              Searching(c) && exists d :: d in ps && Admits(c, d) && SearchHit(Lower(c.searchQuery.value), d).None?
  {
    AdmittedWhere(ps, c);
    WhereSpec(ps, d => Admits(c, d));
    if Searching(c) {
      KeepMatchingSpec(Where(ps, d => Admits(c, d)), Lower(c.searchQuery.value));
    }
  }

  /** What `filter_prompts` returns is the one comprehension with every criterion that applies. */
  lemma FilterPromptsKept(ps: seq<Dict>, c: Criteria)
    requires FilterPrompts(ps, c).Some?
    ensures FilterPrompts(ps, c).value == Where(ps, Survives(c))
  {
    AdmittedWhere(ps, c);
    var admitted := Where(ps, d => Admits(c, d));
    if Searching(c) {
      var q := Lower(c.searchQuery.value);
      KeepMatchingSpec(admitted, q);
      WhereBoth(ps, d => Admits(c, d), d => SearchHit(q, d) == Some(true), Survives(c));
    } else {
      WhereBoth(ps, d => Admits(c, d), x => true, Survives(c));
      WhereAll(admitted, x => true);
    }
  }

  /** Filtering a filtered list again with the same criteria changes nothing. */
  lemma FilterPromptsIdempotent(ps: seq<Dict>, c: Criteria)
    requires FilterPrompts(ps, c).Some?
    ensures FilterPrompts(FilterPrompts(ps, c).value, c) == FilterPrompts(ps, c)
  {
    var r := FilterPrompts(ps, c).value;
    FilterPromptsSpec(ps, c);
    FilterPromptsSpec(r, c);
    assert forall d :: d in r ==> Survives(c)(d);
    WhereAll(r, Survives(c));
  }

  // ---------------------------------------------------------------------------
  // sort_prompts

  /** `x.get("title", "")` for a sort key. */
  function Title(d: Dict): string { TextField(d, "title") }

  /** `x.get("category", "")` for a sort key. */
  function Category(d: Dict): string { TextField(d, "category") }

  /** `level_order.get(x.get("level", ""), 0)` with 입문 0, 중급 1, 고급 2. */
  function LevelRank(d: Dict): (n: int)
    ensures 0 <= n <= 2
  {
    match TextOf(d, "level")
    case Some(l) => if l == "입문" then 0 else if l == "중급" then 1 else if l == "고급" then 2 else 0
    case None => 0
  }

  function TitleKey(d: Dict): Key { [Text(Title(d))] }

  function CategoryTitleKey(d: Dict): Key { [Text(Category(d)), Text(Title(d))] }

  function LevelTitleKey(d: Dict): Key { [Num(LevelRank(d) as real), Text(Title(d))] }

  /** The level can be looked up in a dict (a list value is unhashable). */
  predicate LevelHashable(d: Dict)
  {
    "level" !in d || !d["level"].StrList?
  }

  /** The sort key of every prompt is computed and compared without raising. */
  predicate Sortable(ps: seq<Dict>, sortBy: string)
  {
    forall d :: d in ps ==>
      if sortBy == "제목순" then TextOrAbsent(d, "title")
      else if sortBy == "분야순" then TextOrAbsent(d, "category") && TextOrAbsent(d, "title")
      else if sortBy == "레벨순" then LevelHashable(d) && TextOrAbsent(d, "title")
      else true
  }

  /** `s[::-1]` */
  function Reverse<T>(s: seq<T>): (r: seq<T>)
    ensures |r| == |s| && forall i :: 0 <= i < |s| ==> r[i] == s[|s| - 1 - i]
  {
    seq(|s|, i requires 0 <= i < |s| => s[|s| - 1 - i])
  }

  lemma ReversePerm<T>(s: seq<T>)
    ensures multiset(Reverse(s)) == multiset(s)
  {
    if s != [] {
      var r := Reverse(s);
      ReversePerm(s[1..]);
      assert r == Reverse(s[1..]) + [s[0]];
      assert s == [s[0]] + s[1..];
    }
  }

  /** A one-string key that does not sort before another: the strings are in order. */
  lemma TextKeyOrder(a: string, b: string)
    requires !KeyLess([Text(b)], [Text(a)])
    ensures !StrLess(b, a)
  {
    var kb, ka: Key := [Text(b)], [Text(a)];
    if a == b {
      StrLessIrreflexive(a);
    } else {
      assert kb[0] != ka[0];
    }
  }

  /** A key of two strings that does not sort before another: ordered by the first, then the second. */
  lemma TextPairOrder(a1: string, a2: string, b1: string, b2: string)
    requires !KeyLess([Text(b1), Text(b2)], [Text(a1), Text(a2)])
    ensures StrLess(a1, b1) || (a1 == b1 && !StrLess(b2, a2))
  {
    var kb, ka: Key := [Text(b1), Text(b2)], [Text(a1), Text(a2)];
    if a1 == b1 {
      assert kb[1..] == [Text(b2)] && ka[1..] == [Text(a2)];
      TextKeyOrder(a2, b2);
    } else {
      assert kb[0] != ka[0];
      StrLessTotal(a1, b1);
    }
  }

  /** A (number, string) key that does not sort before another: ordered by the number, then the string. */
  lemma NumTextOrder(x: real, a: string, y: real, b: string)
    requires !KeyLess([Num(y), Text(b)], [Num(x), Text(a)])
    ensures x < y || (x == y && !StrLess(b, a))
  {
    var kb, ka: Key := [Num(y), Text(b)], [Num(x), Text(a)];
    if x == y {
      assert kb[1..] == [Text(b)] && ka[1..] == [Text(a)];
      TextKeyOrder(a, b);
    } else {
      assert kb[0] != ka[0];
    }
  }

  lemma SortedByTitle(ps: seq<Dict>)
    ensures var r := SortedBy(ps, TitleKey, false);
            multiset(r) == multiset(ps)
            && (forall i, j :: 0 <= i < j < |r| ==> !StrLess(Title(r[j]), Title(r[i])))
            && forall k :: WithKey(r, TitleKey, k) == WithKey(ps, TitleKey, k)
  {
    var r := SortedBy(ps, TitleKey, false);
    SortedBySpec(ps, TitleKey, false);
    forall i, j | 0 <= i < j < |r| ensures !StrLess(Title(r[j]), Title(r[i])) {
      TextKeyOrder(Title(r[i]), Title(r[j]));
    }
  }

  lemma SortedByCategory(ps: seq<Dict>)
    ensures var r := SortedBy(ps, CategoryTitleKey, false);
            multiset(r) == multiset(ps)
            && (forall i, j :: 0 <= i < j < |r| ==>
                  StrLess(Category(r[i]), Category(r[j]))
                  || (Category(r[i]) == Category(r[j]) && !StrLess(Title(r[j]), Title(r[i]))))
            && forall k :: WithKey(r, CategoryTitleKey, k) == WithKey(ps, CategoryTitleKey, k)
  {
    var r := SortedBy(ps, CategoryTitleKey, false);
    SortedBySpec(ps, CategoryTitleKey, false);
    forall i, j | 0 <= i < j < |r|
      ensures StrLess(Category(r[i]), Category(r[j]))
              || (Category(r[i]) == Category(r[j]) && !StrLess(Title(r[j]), Title(r[i])))
    {
      TextPairOrder(Category(r[i]), Title(r[i]), Category(r[j]), Title(r[j]));
    }
  }

  lemma SortedByLevel(ps: seq<Dict>)
    ensures var r := SortedBy(ps, LevelTitleKey, false);
            multiset(r) == multiset(ps)
            && (forall i, j :: 0 <= i < j < |r| ==>
                  LevelRank(r[i]) < LevelRank(r[j])
                  || (LevelRank(r[i]) == LevelRank(r[j]) && !StrLess(Title(r[j]), Title(r[i]))))
            && forall k :: WithKey(r, LevelTitleKey, k) == WithKey(ps, LevelTitleKey, k)
  {
    var r := SortedBy(ps, LevelTitleKey, false);
    SortedBySpec(ps, LevelTitleKey, false);
    forall i, j | 0 <= i < j < |r|
      ensures LevelRank(r[i]) < LevelRank(r[j])
              || (LevelRank(r[i]) == LevelRank(r[j]) && !StrLess(Title(r[j]), Title(r[i])))
    {
      NumTextOrder(LevelRank(r[i]) as real, Title(r[i]), LevelRank(r[j]) as real, Title(r[j]));
    }
  }

  /**
   * `sort_prompts(prompts, sort_by)`: a permutation of the input; 최신순 reverses
   * it, 제목순 orders by title, 분야순 by (category, title), 레벨순 by (level
   * rank, title), each stably (prompts with equal keys keep their order); any
   * other name returns the input.
   */
  function SortPrompts(ps: seq<Dict>, sortBy: string): (r: seq<Dict>)
    requires Sortable(ps, sortBy)
    ensures multiset(r) == multiset(ps)
    ensures sortBy == "최신순" ==> r == Reverse(ps)
    ensures sortBy == "제목순" ==>
              (forall i, j :: 0 <= i < j < |r| ==> !StrLess(Title(r[j]), Title(r[i])))
              && forall k :: WithKey(r, TitleKey, k) == WithKey(ps, TitleKey, k)
    ensures sortBy == "분야순" ==>
              (forall i, j :: 0 <= i < j < |r| ==>
                 StrLess(Category(r[i]), Category(r[j]))
                 || (Category(r[i]) == Category(r[j]) && !StrLess(Title(r[j]), Title(r[i]))))
              && forall k :: WithKey(r, CategoryTitleKey, k) == WithKey(ps, CategoryTitleKey, k)
    ensures sortBy == "레벨순" ==>
              (forall i, j :: 0 <= i < j < |r| ==>
                 LevelRank(r[i]) < LevelRank(r[j])
                 || (LevelRank(r[i]) == LevelRank(r[j]) && !StrLess(Title(r[j]), Title(r[i]))))
              && forall k :: WithKey(r, LevelTitleKey, k) == WithKey(ps, LevelTitleKey, k)
    ensures sortBy !in ["최신순", "제목순", "분야순", "레벨순"] ==> r == ps
  {
    if sortBy == "최신순" then
      ReversePerm(ps);
      Reverse(ps)
    else if sortBy == "제목순" then
      SortedByTitle(ps);
      SortedBy(ps, TitleKey, false)
    else if sortBy == "분야순" then
      SortedByCategory(ps);
      SortedBy(ps, CategoryTitleKey, false)
    else if sortBy == "레벨순" then
      SortedByLevel(ps);
      SortedBy(ps, LevelTitleKey, false)
    else
      ps
  }

  // ---------------------------------------------------------------------------
  // validate_prompt_input

  const TitleMissing := "제목을 입력해주세요."
  const PromptMissing := "프롬프트 내용을 입력해주세요."
  const PromptTooLong := "프롬프트가 너무 깁니다. 2000자 이내로 입력해주세요."
  const KeywordTooLong := "키워드가 너무 깁니다. 각 키워드는 50자 이내로 입력해주세요."

  /**
   * `validate_prompt_input(title, prompt, keywords)`: `(is_valid, error)`, the
   * checks taken in order and the first failing one reported.
   */
  function ValidatePromptInput(title: string, prompt: string, keywords: seq<string>): (r: (bool, Option<string>))
    ensures r.0 <==> r.1 == None
    ensures r.0 <==> !Blank(title) && !Blank(prompt) && |prompt| <= MaxPromptLength
                     && forall k :: k in keywords ==> |k| <= MaxKeywordLength
    ensures Blank(title) ==> r.1 == Some(TitleMissing)
    ensures !Blank(title) && Blank(prompt) ==> r.1 == Some(PromptMissing)
    ensures !Blank(title) && !Blank(prompt) && |prompt| > MaxPromptLength ==> r.1 == Some(PromptTooLong)
    ensures (!Blank(title) && !Blank(prompt) && |prompt| <= MaxPromptLength
             && exists k :: k in keywords && |k| > MaxKeywordLength) ==> r.1 == Some(KeywordTooLong)
  {
    StripEmptyIffBlank(title);
    StripEmptyIffBlank(prompt);
    if title == "" || Strip(title) == "" then (false, Some(TitleMissing))
    else if prompt == "" || Strip(prompt) == "" then (false, Some(PromptMissing))
    else if |prompt| > MaxPromptLength then (false, Some(PromptTooLong))
    else if exists k :: k in keywords && |k| > MaxKeywordLength then (false, Some(KeywordTooLong))
    else (true, None)
  }
}
