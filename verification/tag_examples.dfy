/**
 * Worked examples of tag extraction over the shared table, in particular that
 * matching is by substring, not by word: "api" is found inside "fastapi", and
 * "ui" inside "build".
 */
module TagExamples {
  import opened PyStrings
  import opened PyValues
  import opened PySort
  import opened TagTable

  lemma {:induction false} RowHitsFront(k: string, rest: seq<string>, text: string)
    ensures RowHits([k] + rest, text) == (if Contains(text, k) then [k] else []) + RowHits(rest, text)
  {
    if rest != [] {
      var s := [k] + rest;
      assert s[..|s| - 1] == [k] + rest[..|rest| - 1];
      RowHitsFront(k, rest[..|rest| - 1], text);
    }
  }

  lemma NoRestInFastapiServer(h: string)
    requires h == "fastapi server"
    ensures !Contains(h, "rest")
  {
    FastapiServerSplit(h);
    RestAfterFast("fast", "api server", "rest");
  }

  lemma FastapiServerSplit(h: string)
    requires h == "fastapi server"
    ensures h == "fast" + "api server"
  {
  }

  /** "api server" has no 't', and no character of "fast" starts "rest". */
  lemma RestAfterFast(front: string, back: string, needle: string)
    requires front == "fast" && back == "api server" && needle == "rest"
    ensures !Contains(front + back, needle)
  {
    assert 't' !in back && 't' in needle;
    NotContainsByChar(back, needle, 't');
    assert forall i | 0 <= i < |front| :: front[i] != needle[0];
    NotContainsBehind(front, back, needle);
  }

  /** A needle absent from `b` stays absent when characters other than its first come before `b`. */
  lemma {:induction false} NotContainsBehind(a: string, b: string, needle: string)
    requires needle != [] && !Contains(b, needle)
    requires forall i | 0 <= i < |a| :: a[i] != needle[0]
    ensures !Contains(a + b, needle)
  {
    if a == [] {
      assert a + b == b;
    } else {
      NotContainsBehind(a[1..], b, needle);
      assert (a + b)[1..] == a[1..] + b;
      assert (a + b)[0] == a[0];
    }
  }

  lemma ApiInFastapiServer(h: string)
    requires h == "fastapi server"
    ensures Contains(h, "api") && Contains(h, "fastapi")
  {
    assert h[..7] == "fastapi";
    assert h[4..][..3] == "api";
    assert Contains(h[4..], "api");
    assert h[3..][1..] == h[4..];
    assert Contains(h[3..], "api");
    assert h[2..][1..] == h[3..];
    assert Contains(h[2..], "api");
    assert h[1..][1..] == h[2..];
    assert Contains(h[1..], "api");
  }
  lemma {:induction false} RowNoHits(kws: seq<string>, text: string)
    requires forall k | k in kws :: !Contains(text, k)
    ensures RowHits(kws, text) == []
  {
    if kws != [] {
      RowNoHits(kws[..|kws| - 1], text);
    }
  }

  lemma BackendRowHits(h: string)
    requires Contains(h, "api") && Contains(h, "fastapi")
    requires !Contains(h, "로그인") && !Contains(h, "서버") && !Contains(h, "rest") && !Contains(h, "인증")
    ensures RowHits(["api", "로그인", "fastapi", "서버", "rest", "인증"], h) == ["api", "fastapi"]
  {
    var s6: seq<string> := ["인증"];
    var s5 := ["rest"] + s6;
    var s4 := ["서버"] + s5;
    var s3 := ["fastapi"] + s4;
    var s2 := ["로그인"] + s3;
    var s1 := ["api"] + s2;
    RowHitsFront("인증", [], h);
    assert [] + s6 == s6;
    RowHitsFront("rest", s6, h);
    RowHitsFront("서버", s5, h);
    RowHitsFront("fastapi", s4, h);
    RowHitsFront("로그인", s3, h);
    RowHitsFront("api", s2, h);
    assert s1 == ["api", "로그인", "fastapi", "서버", "rest", "인증"];
  }

  lemma FrontendRow(h: string)
    requires h == "fastapi server"
    ensures RowHits(CategoryKeywords[0].1, h) == []
  {
    forall k | k in CategoryKeywords[0].1 ensures !Contains(h, k) {
      if k == "react" { NotContainsByChar(h, k, 'c'); }
      else if k == "tailwind" { NotContainsByChar(h, k, 'l'); }
      else { NotContainsByChar(h, k, k[0]); }
    }
    RowNoHits(CategoryKeywords[0].1, h);
  }

  lemma LlmRow(h: string)
    requires h == "fastapi server"
    ensures RowHits(CategoryKeywords[2].1, h) == []
  {
    forall k | k in CategoryKeywords[2].1 ensures !Contains(h, k) {
      if k == "llama" || k == "llm" { NotContainsByChar(h, k, 'l'); }
      else { NotContainsByChar(h, k, k[0]); }
    }
    RowNoHits(CategoryKeywords[2].1, h);
  }

  lemma Hits(h: string)
    requires RowHits(CategoryKeywords[0].1, h) == []
    requires RowHits(CategoryKeywords[1].1, h) == ["api", "fastapi"]
    requires RowHits(CategoryKeywords[2].1, h) == []
    requires RowHits(CategoryKeywords[3].1, h) == []
    requires RowHits(CategoryKeywords[4].1, h) == []
    requires RowHits(CategoryKeywords[5].1, h) == []
    ensures KeywordHits(CategoryKeywords, h) == ["api", "fastapi"]
    ensures CategoryHits(CategoryKeywords, h) == ["백엔드", "백엔드"]
  {
    var t := CategoryKeywords;
    assert t[..0] == [] && t[..6] == t;
    HitsSnoc(t, 0, h);
    HitsSnoc(t, 1, h);
    HitsSnoc(t, 2, h);
    HitsSnoc(t, 3, h);
    HitsSnoc(t, 4, h);
    HitsSnoc(t, 5, h);
    assert Repeat("백엔드", 2) == ["백엔드", "백엔드"];
  }

  /** One more row of the table appends that row's hits, and its category once per hit. */
  lemma HitsSnoc(t: Table, n: nat, text: string)
    requires n < |t|
    ensures KeywordHits(t[..n + 1], text) == KeywordHits(t[..n], text) + RowHits(t[n].1, text)
    ensures CategoryHits(t[..n + 1], text) == CategoryHits(t[..n], text) + Repeat(t[n].0, |RowHits(t[n].1, text)|)
  {
    assert t[..n + 1][..n] == t[..n];
  }

  lemma DataRow(h: string)
    requires h == "fastapi server"
    ensures RowHits(CategoryKeywords[3].1, h) == []
  {
    forall k | k in CategoryKeywords[3].1 ensures !Contains(h, k) {
      if k == "pandas" { NotContainsByChar(h, k, 'n'); }
      else if k == "plotly" { NotContainsByChar(h, k, 'l'); }
      else { NotContainsByChar(h, k, k[0]); }
    }
    RowNoHits(CategoryKeywords[3].1, h);
  }

  lemma DevOpsRow(h: string)
    requires h == "fastapi server"
    ensures RowHits(CategoryKeywords[4].1, h) == []
  {
    forall k | k in CategoryKeywords[4].1 ensures !Contains(h, k) {
      NotContainsByChar(h, k, k[0]);
    }
    RowNoHits(CategoryKeywords[4].1, h);
  }

  lemma BasicsRow(h: string)
    requires h == "fastapi server"
    ensures RowHits(CategoryKeywords[5].1, h) == []
  {
    forall k | k in CategoryKeywords[5].1 ensures !Contains(h, k) {
      if k == "python" { NotContainsByChar(h, k, 'y'); }
      else { NotContainsByChar(h, k, k[0]); }
    }
    RowNoHits(CategoryKeywords[5].1, h);
  }

  lemma BackendRow(h: string)
    requires h == "fastapi server"
    ensures RowHits(CategoryKeywords[1].1, h) == ["api", "fastapi"]
  {
    NoRestInFastapiServer(h);
    ApiInFastapiServer(h);
    KoreanMisses(h);
    BackendRowHits(h);
  }

  /** No Hangul keyword of the 백엔드 row occurs in an ASCII text. */
  lemma KoreanMisses(h: string)
    requires h == "fastapi server"
    ensures !Contains(h, "로그인") && !Contains(h, "서버") && !Contains(h, "인증")
  {
    NotContainsByChar(h, "로그인", '로');
    NotContainsByChar(h, "서버", '서');
    NotContainsByChar(h, "인증", '인');
  }

  lemma SortedHits()
    ensures SortedSet(["api", "fastapi"]) == ["api", "fastapi"]
    ensures SortedSet(["백엔드", "백엔드"]) == ["백엔드"]
  {
    var a: seq<string> := ["api", "fastapi"];
    assert a[..1] == ["api"];
    assert Dedup(a) == a;
    var b: seq<string> := ["백엔드", "백엔드"];
    assert b[..1] == ["백엔드"];
    assert Dedup(b) == ["백엔드"];
    var ka := TextKeyed(a);
    assert Sorted(ka, false) by {
      assert KeyLess(ka[0].0, ka[1].0);
      KeyLessIrreflexive(ka[0].0);
      if KeyLess(ka[1].0, ka[0].0) { KeyLessTransitive(ka[0].0, ka[1].0, ka[0].0); }
    }
    SortBySortedIdentity(ka, false);
    SortBySortedIdentity(TextKeyed(["백엔드"]), false);
  }

  /**
   * "fastapi server" is tagged 백엔드 with keywords "api" and "fastapi": "api"
   * occurs inside "fastapi", and "server" is not a table keyword.
   */
  lemma FastapiServer()
    ensures ExtractTagsSpec(CategoryKeywords, "fastapi server") == TagSet(["백엔드"], ["api", "fastapi"])
  {
    var h := "fastapi server";
    assert Lower(h) == h;
    FrontendRow(h);
    BackendRow(h);
    LlmRow(h);
    DataRow(h);
    DevOpsRow(h);
    BasicsRow(h);
    Hits(h);
    SortedHits();
  }

  /** "Build a react app with an api" also yields "ui", found inside "build". */
  lemma UiInsideBuild(text: string)
    requires text == "Build a react app with an api"
    ensures "ui" in ExtractTagsSpec(CategoryKeywords, text).keywords
    ensures "프론트엔드" in ExtractTagsSpec(CategoryKeywords, text).categories
  {
    var l := Lower(text);
    assert l[1] == 'u' && l[2] == 'i';
    assert l[1..][..2] == "ui";
    assert Contains(l[1..], "ui");
    assert Contains(l, "ui");
    assert "ui" in CategoryKeywords[0].1;
    ExtractTagsMeaning(CategoryKeywords, text);
    assert KeywordMatched(CategoryKeywords, l, "ui");
    assert CategoryMatched(CategoryKeywords, l, "프론트엔드");
  }

  /** "LLM 프롬프트 인증 API" yields "llm" once lower-cased. */
  lemma LlmFromUpperCase(text: string)
    requires text == "LLM 프롬프트 인증 API"
    ensures "llm" in ExtractTagsSpec(CategoryKeywords, text).keywords
  {
    var l := Lower(text);
    assert l[0] == 'l' && l[1] == 'l' && l[2] == 'm';
    assert l[..3] == "llm";
    assert Contains(l, "llm");
    assert "llm" in CategoryKeywords[2].1;
    ExtractTagsMeaning(CategoryKeywords, text);
    assert KeywordMatched(CategoryKeywords, l, "llm");
  }
}
