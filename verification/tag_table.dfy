/**
 * The category -> keyword dictionary shared by the `extract_tags` copies of
 * the v0.2 service and the three Streamlit apps, and the meaning of tag
 * extraction over it: lower-case the text, then every table keyword that
 * occurs in it as a substring is matched, together with its category.
 */
module TagTable {
  import opened PyStrings
  import opened PySort
  import opened PyValues

  /** A category -> keyword-list dictionary, in insertion order. */
  type Table = seq<(string, seq<string>)>

  /** The dictionary as it stands in the v0.2 service and in all three apps. */
  const CategoryKeywords: Table := [
    ("프론트엔드", ["ui", "폼", "리액트", "react", "tailwind", "상태", "프론트"]),
    ("백엔드", ["api", "로그인", "fastapi", "서버", "rest", "인증"]),
    ("AI/LLM", ["gpt", "llm", "요약", "langchain", "llama", "프롬프트"]),
    ("데이터분석", ["pandas", "시각화", "csv", "plotly", "분석", "데이터"]),
    ("DevOps", ["docker", "배포", "ci", "github actions"]),
    ("기초", ["홀수", "짝수", "기초", "python", "입문"])
  ]

  /** `{"categories": [...], "keywords": [...]}` as returned by `extract_tags`. */
  datatype TagSet = TagSet(categories: seq<string>, keywords: seq<string>)

  predicate IsTableKeyword(table: Table, k: string)
  {
    exists i | 0 <= i < |table| :: k in table[i].1
  }

  /** Keyword `k` is matched in the (lower-cased) text. */
  predicate KeywordMatched(table: Table, text: string, k: string)
  {
    IsTableKeyword(table, k) && Contains(text, k)
  }

  /** Some keyword of the row occurs in the text. */
  predicate RowMatches(kws: seq<string>, text: string)
  {
    exists k | k in kws :: Contains(text, k)
  }

  /** Category `c` is matched: one of its keywords occurs in the (lower-cased) text. */
  predicate CategoryMatched(table: Table, text: string, c: string)
  {
    exists i | 0 <= i < |table| :: table[i].0 == c && RowMatches(table[i].1, text)
  }

  /** Every keyword of the table is a non-empty string. */
  predicate NoEmptyKeyword(table: Table)
  {
    forall i | 0 <= i < |table| :: "" !in table[i].1
  }

  /** The keywords of one row that occur in `text`, in row order (what the inner loop appends). */
  function RowHits(kws: seq<string>, text: string): seq<string>
  {
    if kws == [] then []
    else RowHits(kws[..|kws| - 1], text) + (if Contains(text, kws[|kws| - 1]) then [kws[|kws| - 1]] else [])
  }

  /** `[c] * n` */
  function Repeat(c: string, n: nat): (r: seq<string>)
    ensures |r| == n && forall i | 0 <= i < n :: r[i] == c
  {
    if n == 0 then [] else Repeat(c, n - 1) + [c]
  }

  /** `matched_keywords` after the nested loops over `table`. */
  function KeywordHits(table: Table, text: string): seq<string>
  {
    if table == [] then []
    else KeywordHits(table[..|table| - 1], text) + RowHits(table[|table| - 1].1, text)
  }

  /** `matched_categories` after the nested loops: the category once per matched keyword. */
  function CategoryHits(table: Table, text: string): seq<string>
  {
    if table == [] then []
    else
      var row := table[|table| - 1];
      CategoryHits(table[..|table| - 1], text) + Repeat(row.0, |RowHits(row.1, text)|)
  }

  lemma {:induction false} RowHitsMembership(kws: seq<string>, text: string, k: string)
    ensures k in RowHits(kws, text) <==> k in kws && Contains(text, k)
  {
    if kws != [] {
      RowHitsMembership(kws[..|kws| - 1], text, k);
      assert kws == kws[..|kws| - 1] + [kws[|kws| - 1]];
    }
  }

  lemma {:induction false} KeywordHitsMembership(table: Table, text: string, k: string)
    ensures k in KeywordHits(table, text) <==> KeywordMatched(table, text, k)
  {
    if table != [] {
      var front := table[..|table| - 1];
      KeywordHitsMembership(front, text, k);
      RowHitsMembership(table[|table| - 1].1, text, k);
      assert forall i | 0 <= i < |front| :: front[i] == table[i];
    }
  }

  lemma {:induction false} CategoryHitsMembership(table: Table, text: string, c: string)
    ensures c in CategoryHits(table, text) <==> CategoryMatched(table, text, c)
  {
    if table != [] {
      var front, row := table[..|table| - 1], table[|table| - 1];
      CategoryHitsMembership(front, text, c);
      assert forall i | 0 <= i < |front| :: front[i] == table[i];
      var hits := RowHits(row.1, text);
      assert RowMatches(row.1, text) <==> hits != [] by {
        if hits != [] {
          RowHitsMembership(row.1, text, hits[0]);
        }
        if RowMatches(row.1, text) {
          var k :| k in row.1 && Contains(text, k);
          RowHitsMembership(row.1, text, k);
        }
      }
      assert c in Repeat(row.0, |hits|) <==> c == row.0 && hits != [] by {
        if c == row.0 && hits != [] {
          assert Repeat(row.0, |hits|)[0] == c;
        }
      }
    }
  }

  /**
   * The nested loops of `extract_tags`: for each category in table order and
   * each of its keywords in order, a keyword occurring in `lowered` is
   * appended to the keyword list and its category to the category list.
   */
  method MatchTable(table: Table, lowered: string) returns (matchedCategories: seq<string>, matchedKeywords: seq<string>)
    ensures matchedCategories == CategoryHits(table, lowered)
    ensures matchedKeywords == KeywordHits(table, lowered)
    ensures forall k :: k in matchedKeywords <==> KeywordMatched(table, lowered, k)
    ensures forall c :: c in matchedCategories <==> CategoryMatched(table, lowered, c)
  {
    matchedCategories, matchedKeywords := [], [];
    var i := 0;
    while i < |table|
      invariant 0 <= i <= |table|
      invariant matchedCategories == CategoryHits(table[..i], lowered)
      invariant matchedKeywords == KeywordHits(table[..i], lowered)
    {
      var (category, keywords) := table[i];
      var j := 0;
      while j < |keywords|
        invariant 0 <= j <= |keywords|
        invariant matchedCategories == CategoryHits(table[..i], lowered) + Repeat(category, |RowHits(keywords[..j], lowered)|)
        invariant matchedKeywords == KeywordHits(table[..i], lowered) + RowHits(keywords[..j], lowered)
      {
        assert keywords[..j + 1][..j] == keywords[..j];
        if Contains(lowered, keywords[j]) {
          matchedCategories := matchedCategories + [category];
          matchedKeywords := matchedKeywords + [keywords[j]];
        }
        j := j + 1;
      }
      assert keywords[..j] == keywords;
      assert table[..i + 1][..i] == table[..i];
      i := i + 1;
    }
    assert table[..i] == table;
    forall k ensures k in matchedKeywords <==> KeywordMatched(table, lowered, k) {
      KeywordHitsMembership(table, lowered, k);
    }
    forall c ensures c in matchedCategories <==> CategoryMatched(table, lowered, c) {
      CategoryHitsMembership(table, lowered, c);
    }
  }

  /**
   * What `extract_tags` returns: the matched categories and keywords of the
   * lower-cased text, each through `sorted(set(...))`.
   */
  function ExtractTagsSpec(table: Table, text: string): TagSet
  {
    var lowered := Lower(text);
    TagSet(SortedSet(CategoryHits(table, lowered)), SortedSet(KeywordHits(table, lowered)))
  }

  /** Both lists are strictly increasing, so they hold no duplicates. */
  predicate StrictlySorted(s: seq<string>)
  {
    forall i, j | 0 <= i < j < |s| :: StrLess(s[i], s[j])
  }

  /**
   * Keyword `k` is returned iff it is a table keyword occurring in the lower-cased
   * text; category `c` iff one of its keywords does; both lists strictly sorted.
   */
  lemma ExtractTagsMeaning(table: Table, text: string)
    ensures forall k :: k in ExtractTagsSpec(table, text).keywords <==> KeywordMatched(table, Lower(text), k)
    ensures forall c :: c in ExtractTagsSpec(table, text).categories <==> CategoryMatched(table, Lower(text), c)
    ensures StrictlySorted(ExtractTagsSpec(table, text).keywords)
    ensures StrictlySorted(ExtractTagsSpec(table, text).categories)
  {
    var lowered := Lower(text);
    SortedSetSpec(KeywordHits(table, lowered));
    SortedSetSpec(CategoryHits(table, lowered));
    forall k ensures k in KeywordHits(table, lowered) <==> KeywordMatched(table, lowered, k) {
      KeywordHitsMembership(table, lowered, k);
    }
    forall c ensures c in CategoryHits(table, lowered) <==> CategoryMatched(table, lowered, c) {
      CategoryHitsMembership(table, lowered, c);
    }
  }

  /**
   * `extract_tags` of the vector apps: lower-case, match against the table,
   * then `sorted(set(...))` both lists.
   */
  method ExtractTags(table: Table, text: string) returns (tags: TagSet)
    ensures tags == ExtractTagsSpec(table, text)
    ensures forall k :: k in tags.keywords <==> KeywordMatched(table, Lower(text), k)
    ensures forall c :: c in tags.categories <==> CategoryMatched(table, Lower(text), c)
    ensures StrictlySorted(tags.categories) && StrictlySorted(tags.keywords)
  {
    var textLower := Lower(text);
    var matchedCategories, matchedKeywords := MatchTable(table, textLower);
    tags := TagSet(SortedSet(matchedCategories), SortedSet(matchedKeywords));
    ExtractTagsMeaning(table, text);
  }

  /** A category is returned exactly when one of its own keywords is returned. */
  lemma CategoryIffOwnKeyword(table: Table, text: string, c: string)
    ensures c in ExtractTagsSpec(table, text).categories
        <==> exists i, k | 0 <= i < |table| && k in table[i].1
               :: table[i].0 == c && k in ExtractTagsSpec(table, text).keywords
  {
    ExtractTagsMeaning(table, text);
    var tags := ExtractTagsSpec(table, text);
    if c in tags.categories {
      var i :| 0 <= i < |table| && table[i].0 == c && RowMatches(table[i].1, Lower(text));
      var k :| k in table[i].1 && Contains(Lower(text), k);
      assert KeywordMatched(table, Lower(text), k);
    }
  }

  /** With no empty keyword in the table, empty text matches nothing. */
  lemma EmptyTextNoTags(table: Table)
    requires NoEmptyKeyword(table)
    ensures ExtractTagsSpec(table, "") == TagSet([], [])
  {
    assert Lower("") == "";
    ExtractTagsMeaning(table, "");
    var tags := ExtractTagsSpec(table, "");
    forall k ensures k !in tags.keywords {
      ContainsEmptyHay(k);
    }
    forall c ensures c !in tags.categories {
      forall i, k | 0 <= i < |table| && k in table[i].1 ensures !Contains("", k) {
        ContainsEmptyHay(k);
      }
    }
    NoMemberEmpty(tags.keywords);
    NoMemberEmpty(tags.categories);
  }

  lemma TableHasNoEmptyKeyword()
    ensures NoEmptyKeyword(CategoryKeywords)
  {
  }

  /** Extraction reads the text only through `lower()`: "REACT" and "react" give the same tags. */
  lemma CaseInsensitive(table: Table, a: string, b: string)
    requires Lower(a) == Lower(b)
    ensures ExtractTagsSpec(table, a) == ExtractTagsSpec(table, b)
  {
  }

  lemma UpperAndLowerReact(table: Table)
    ensures ExtractTagsSpec(table, "I want to use REACT") == ExtractTagsSpec(table, "I want to use react")
  {
    var a, b := "I want to use REACT", "I want to use react";
    assert forall i | 0 <= i < |a| :: LowerChar(a[i]) == LowerChar(b[i]);
    assert Lower(a) == Lower(b);
  }
}
