/**
 * The data classes of the v0.2 app: a prompt record with its dict form and
 * back, a recommendation result and a search filter with their dict forms,
 * and the naive `datetime` text form (`isoformat` / `fromisoformat`) the
 * prompt's timestamps go through.
 */
module Models {
  import opened PyValues

  // ---------------------------------------------------------------------------
  // datetime and its ISO text form

  /** A naive `datetime`. */
  datatype DateTime = DateTime(year: int, month: int, day: int, hour: int, minute: int, second: int, microsecond: int)

  predicate IsLeap(y: int)
  {
    y % 4 == 0 && (y % 100 != 0 || y % 400 == 0)
  }

  function DaysInMonth(y: int, m: int): int
  {
    if m == 2 then (if IsLeap(y) then 29 else 28)
    else if m == 4 || m == 6 || m == 9 || m == 11 then 30
    else 31
  }

  /** The field ranges the `datetime` constructor accepts. */
  predicate ValidDateTime(t: DateTime)
  {
    && 1 <= t.year <= 9999
    && 1 <= t.month <= 12
    && 1 <= t.day <= DaysInMonth(t.year, t.month)
    && 0 <= t.hour < 24 && 0 <= t.minute < 60 && 0 <= t.second < 60
    && 0 <= t.microsecond < 1000000
  }

  function Pow10(n: nat): (r: nat)
    ensures r > 0
  {
    if n == 0 then 1 else 10 * Pow10(n - 1)
  }

  predicate IsDigit(c: char)
  {
    '0' <= c <= '9'
  }

  /** The decimal digits of `n`, zero-padded on the left to `width` characters. */
  function Digits(n: nat, width: nat): (s: string)
    ensures |s| == width && forall i :: 0 <= i < width ==> IsDigit(s[i])
  {
    if width == 0 then "" else Digits(n / 10, width - 1) + [('0' as int + n % 10) as char]
  }

  /** The number a string of decimal digits spells; `None` when a character is not a digit. */
  function ParseNat(s: string): (r: Option<nat>)
  {
    if s == [] then Some(0)
    else if !IsDigit(s[|s| - 1]) then None
    else match ParseNat(s[..|s| - 1])
      case None => None
      case Some(n) => Some(10 * n + (s[|s| - 1] as int - '0' as int))
  }

  lemma {:induction false} ParseDigits(n: nat, width: nat)
    requires n < Pow10(width)
    ensures ParseNat(Digits(n, width)) == Some(n)
  {
    if width > 0 {
      ParseDigits(n / 10, width - 1);
      var s := Digits(n, width);
      assert s[..|s| - 1] == Digits(n / 10, width - 1);
    }
  }

  /** `t.date().isoformat()`: `YYYY-MM-DD` */
  function DateText(t: DateTime): string
    requires ValidDateTime(t)
  {
    Digits(t.year, 4) + "-" + Digits(t.month, 2) + "-" + Digits(t.day, 2)
  }

  /** `HH:MM:SS` */
  function ClockText(t: DateTime): string
    requires ValidDateTime(t)
  {
    Digits(t.hour, 2) + ":" + Digits(t.minute, 2) + ":" + Digits(t.second, 2)
  }

  /** `t.isoformat()`: the microseconds are written only when they are not zero. */
  function IsoFormat(t: DateTime): (s: string)
    requires ValidDateTime(t)
    ensures |s| == 19 || |s| == 26
  {
    DateText(t) + "T" + ClockText(t) + (if t.microsecond != 0 then "." + Digits(t.microsecond, 6) else "")
  }

  /** `YYYY-MM-DD` as (year, month, day); `None` when malformed. */
  function ParseDate(d: string): Option<(nat, nat, nat)>
  {
    if |d| != 10 || d[4] != '-' || d[7] != '-' then None
    else match (ParseNat(d[0..4]), ParseNat(d[5..7]), ParseNat(d[8..10]))
      case (Some(y), Some(m), Some(day)) => Some((y, m, day))
      case _ => None
  }

  /** `HH:MM:SS` as (hour, minute, second); `None` when malformed. */
  function ParseClock(c: string): Option<(nat, nat, nat)>
  {
    if |c| != 8 || c[2] != ':' || c[5] != ':' then None
    else match (ParseNat(c[0..2]), ParseNat(c[3..5]), ParseNat(c[6..8]))
      case (Some(h), Some(mi), Some(sec)) => Some((h, mi, sec))
      case _ => None
  }

  /** Nothing (no microseconds) or `.ffffff`; `None` when malformed. */
  function ParseFraction(f: string): Option<nat>
  {
    if f == "" then Some(0)
    else if |f| == 7 && f[0] == '.' then ParseNat(f[1..])
    else None
  }

  /**
   * `datetime.fromisoformat(s)` for the forms `isoformat` writes:
   * `YYYY-MM-DD?HH:MM:SS` and `YYYY-MM-DD?HH:MM:SS.ffffff`, with any character
   * between date and time. `None` where it raises.
   */
  function FromIsoFormat(s: string): (r: Option<DateTime>)
    ensures r.Some? ==> ValidDateTime(r.value)
  {
    if |s| < 19 then None
    else match (ParseDate(s[..10]), ParseClock(s[11..19]), ParseFraction(s[19..]))
      case (Some((y, m, d)), Some((h, mi, sec)), Some(us)) =>
        var t := DateTime(y, m, d, h, mi, sec, us);
        if ValidDateTime(t) then Some(t) else None
      case _ => None
  }

  lemma DateRoundTrip(t: DateTime)
    requires ValidDateTime(t)
    ensures ParseDate(DateText(t)) == Some((t.year, t.month, t.day))
  {
    var d := DateText(t);
    var y, mo, da := Digits(t.year, 4), Digits(t.month, 2), Digits(t.day, 2);
    assert d == y + "-" + mo + "-" + da;
    assert |d| == 10 && d[4] == '-' && d[7] == '-';
    assert d[0..4] == y && d[5..7] == mo && d[8..10] == da;
    ParseDigits(t.year, 4);
    ParseDigits(t.month, 2);
    ParseDigits(t.day, 2);
  }

  lemma ClockRoundTrip(t: DateTime)
    requires ValidDateTime(t)
    ensures ParseClock(ClockText(t)) == Some((t.hour, t.minute, t.second))
  {
    var c := ClockText(t);
    var h, mi, s := Digits(t.hour, 2), Digits(t.minute, 2), Digits(t.second, 2);
    assert c == h + ":" + mi + ":" + s;
    assert |c| == 8 && c[2] == ':' && c[5] == ':';
    assert c[0..2] == h && c[3..5] == mi && c[6..8] == s;
    ParseDigits(t.hour, 2);
    ParseDigits(t.minute, 2);
    ParseDigits(t.second, 2);
  }

  /** `datetime.fromisoformat(t.isoformat()) == t` */
  lemma IsoRoundTrip(t: DateTime)
    requires ValidDateTime(t)
    ensures FromIsoFormat(IsoFormat(t)) == Some(t)
  {
    var s := IsoFormat(t);
    var f := if t.microsecond != 0 then "." + Digits(t.microsecond, 6) else "";
    assert s == DateText(t) + "T" + ClockText(t) + f;
    assert s[..10] == DateText(t) && s[11..19] == ClockText(t) && s[19..] == f;
    DateRoundTrip(t);
    ClockRoundTrip(t);
    if t.microsecond != 0 {
      assert f[1..] == Digits(t.microsecond, 6);
      ParseDigits(t.microsecond, 6);
    }
  }

  // ---------------------------------------------------------------------------
  // Prompt

  /**
   * The `Prompt` dataclass. The class does not check the types of its fields,
   * so they hold whatever dict values they are built from.
   */
  datatype Prompt = Prompt(
    id: Value, title: Value, prompt: Value, category: Value, level: Value, keywords: Value,
    tool: Value, framework: Value, createdAt: Option<DateTime>, updatedAt: Option<DateTime>)

  /** Both timestamps, when present, are real dates and times. */
  predicate ValidTimestamps(p: Prompt)
  {
    (p.createdAt.Some? ==> ValidDateTime(p.createdAt.value)) && (p.updatedAt.Some? ==> ValidDateTime(p.updatedAt.value))
  }

  /** `t.isoformat() if t else None` */
  function TimestampValue(t: Option<DateTime>): (v: Value)
    requires t.Some? ==> ValidDateTime(t.value)
    ensures t.None? <==> v == Null
  {
    if t.Some? then Str(IsoFormat(t.value)) else Null
  }

  const PromptKeys: set<string> :=
    {"id", "title", "prompt", "category", "level", "keywords", "tool", "framework", "created_at", "updated_at"}

  /** `Prompt.to_dict()` */
  function PromptToDict(p: Prompt): (d: Dict)
    requires ValidTimestamps(p)
    ensures d.Keys == PromptKeys
  {
    map["id" := p.id, "title" := p.title, "prompt" := p.prompt, "category" := p.category,
        "level" := p.level, "keywords" := p.keywords, "tool" := p.tool, "framework" := p.framework,
        "created_at" := TimestampValue(p.createdAt), "updated_at" := TimestampValue(p.updatedAt)]
  }

  /** Why `Prompt.from_dict` raises. */
  datatype FromDictError = BadTimestamp(key: string) | MissingKey(key: string)

  datatype Parsed = Parsed(value: Prompt) | Failed(error: FromDictError)

  /**
   * `datetime.fromisoformat(data[k]) if data.get(k) else None`: a falsy or
   * absent value gives no timestamp; a truthy one must be an ISO text.
   */
  function ReadTimestamp(data: Dict, k: string): (r: Option<Option<DateTime>>)
  {
    if !Truthy(Get(data, k, Null)) then Some(None)
    else if !data[k].Str? then None
    else match FromIsoFormat(data[k].s)
      case None => None
      case Some(t) => Some(Some(t))
  }

  /** The keys `from_dict` reads with `data[k]`, in order. */
  const RequiredKeys: seq<string> := ["id", "title", "prompt", "category", "level"]

  /** `Prompt.from_dict(data)` */
  function PromptFromDict(data: Dict): (r: Parsed)
  {
    match ReadTimestamp(data, "created_at")
    case None => Failed(BadTimestamp("created_at"))
    case Some(createdAt) =>
      match ReadTimestamp(data, "updated_at")
      case None => Failed(BadTimestamp("updated_at"))
      case Some(updatedAt) =>
        if "id" !in data then Failed(MissingKey("id"))
        else if "title" !in data then Failed(MissingKey("title"))
        else if "prompt" !in data then Failed(MissingKey("prompt"))
        else if "category" !in data then Failed(MissingKey("category"))
        else if "level" !in data then Failed(MissingKey("level"))
        else Parsed(Prompt(
          data["id"], data["title"], data["prompt"], data["category"], data["level"],
          Get(data, "keywords", StrList([])), Get(data, "tool", Str("")), Get(data, "framework", Str("")),
          createdAt, updatedAt))
  }

  lemma TimestampRoundTrip(t: Option<DateTime>, data: Dict, k: string)
    requires t.Some? ==> ValidDateTime(t.value)
    requires k in data && data[k] == TimestampValue(t)
    ensures ReadTimestamp(data, k) == Some(t)
  {
    if t.Some? {
      IsoRoundTrip(t.value);
    }
  }

  /** `Prompt.from_dict(p.to_dict()) == p` */
  lemma PromptRoundTrip(p: Prompt)
    requires ValidTimestamps(p)
    ensures PromptFromDict(PromptToDict(p)) == Parsed(p)
  {
    var d := PromptToDict(p);
    TimestampRoundTrip(p.createdAt, d, "created_at");
    TimestampRoundTrip(p.updatedAt, d, "updated_at");
  }

  /**
   * `from_dict` succeeds iff its timestamps read and the five required keys
   * are present; the first failure is reported; keywords default to `[]`,
   * tool and framework to `""`; a falsy or absent timestamp gives `None`; and
   * other keys are ignored.
   */
  lemma PromptFromDictSpec(data: Dict)
    ensures PromptFromDict(data).Parsed? <==>
              ReadTimestamp(data, "created_at").Some? && ReadTimestamp(data, "updated_at").Some?
              && forall k :: k in RequiredKeys ==> k in data
    ensures ReadTimestamp(data, "created_at").Some? && ReadTimestamp(data, "updated_at").Some?
            && (exists k :: k in RequiredKeys && k !in data) ==>
              PromptFromDict(data).Failed? && PromptFromDict(data).error.MissingKey?
              && PromptFromDict(data).error.key in RequiredKeys && PromptFromDict(data).error.key !in data
    ensures PromptFromDict(data).Parsed? ==>
              var p := PromptFromDict(data).value;
              && p.id == data["id"] && p.title == data["title"] && p.prompt == data["prompt"]
              && p.category == data["category"] && p.level == data["level"]
              && p.keywords == (if "keywords" in data then data["keywords"] else StrList([]))
              && p.tool == (if "tool" in data then data["tool"] else Str(""))
              && p.framework == (if "framework" in data then data["framework"] else Str(""))
              && (!Truthy(Get(data, "created_at", Null)) ==> p.createdAt == None)
              && (!Truthy(Get(data, "updated_at", Null)) ==> p.updatedAt == None)
    ensures forall extra: Dict :: extra.Keys !! (PromptKeys + {"keywords", "tool", "framework"}) ==>
              PromptFromDict(data + extra) == PromptFromDict(data)
  {
    forall extra: Dict | extra.Keys !! (PromptKeys + {"keywords", "tool", "framework"})
      ensures PromptFromDict(data + extra) == PromptFromDict(data)
    {
      FromDictReadsPromptKeys(data, data + extra);
    }
  }

  /** `from_dict` reads only the prompt's own keys: two dicts that agree on them give the same outcome. */
  lemma FromDictReadsPromptKeys(a: Dict, b: Dict)
    requires forall k :: k in PromptKeys ==> (k in a <==> k in b) && (k in a ==> a[k] == b[k])
    ensures PromptFromDict(a) == PromptFromDict(b)
  {
    assert ReadTimestamp(a, "created_at") == ReadTimestamp(b, "created_at");
    assert ReadTimestamp(a, "updated_at") == ReadTimestamp(b, "updated_at");
  }

  // ---------------------------------------------------------------------------
  // RecommendationResult and SearchFilter

  /** The `RecommendationResult` dataclass. */
  datatype RecommendationResult = RecommendationResult(
    prompt: Prompt, score: real, similarityScore: Option<real>, recommendationType: string)

  /** The keys a result adds are not keys of its prompt. */
  lemma ResultKeysApart()
    ensures "score" !in PromptKeys && "recommendation_type" !in PromptKeys && "similarity_score" !in PromptKeys
  {
  }

  /** `RecommendationResult.to_dict()` */
  function ResultToDict(r: RecommendationResult): (d: Dict)
    requires ValidTimestamps(r.prompt)
    ensures d.Keys == PromptKeys + {"score", "recommendation_type"}
                      + (if r.similarityScore.Some? then {"similarity_score"} else {})
    ensures forall k :: k in PromptKeys ==> d[k] == PromptToDict(r.prompt)[k]
    ensures d["score"] == Number(r.score) && d["recommendation_type"] == Str(r.recommendationType)
    ensures "similarity_score" in d <==> r.similarityScore.Some?
    ensures r.similarityScore.Some? ==> d["similarity_score"] == Number(r.similarityScore.value)
  {
    ResultKeysApart();
    var result := PromptToDict(r.prompt)["score" := Number(r.score)]["recommendation_type" := Str(r.recommendationType)];
    if r.similarityScore.Some? then result["similarity_score" := Number(r.similarityScore.value)] else result
  }

  /** The prompt of a result is read back from the result's dict: `from_dict` ignores the added keys. */
  lemma ResultPromptRoundTrip(r: RecommendationResult)
    requires ValidTimestamps(r.prompt)
    ensures PromptFromDict(ResultToDict(r)) == Parsed(r.prompt)
  {
    FromDictReadsPromptKeys(PromptToDict(r.prompt), ResultToDict(r));
    PromptRoundTrip(r.prompt);
  }

  /** The `SearchFilter` dataclass. */
  datatype SearchFilter = SearchFilter(
    categories: Option<seq<string>>, levels: Option<seq<string>>, tools: Option<seq<string>>,
    searchQuery: Option<string>, sortBy: string)

  /** An optional list of strings as a dict value. */
  function ListValue(o: Option<seq<string>>): Value
  {
    if o.Some? then StrList(o.value) else Null
  }

  /** An optional string as a dict value. */
  function TextValue(o: Option<string>): Value
  {
    if o.Some? then Str(o.value) else Null
  }

  /** `SearchFilter.to_dict()` */
  function SearchFilterToDict(f: SearchFilter): (d: Dict)
    ensures d.Keys == {"categories", "levels", "tools", "search_query", "sort_by"}
  {
    map["categories" := ListValue(f.categories), "levels" := ListValue(f.levels), "tools" := ListValue(f.tools),
        "search_query" := TextValue(f.searchQuery), "sort_by" := Str(f.sortBy)]
  }

  /** `to_dict` loses nothing: two filters with the same dict are the same filter. */
  lemma SearchFilterToDictInjective(f: SearchFilter, g: SearchFilter)
    requires SearchFilterToDict(f) == SearchFilterToDict(g)
    ensures f == g
  {
    var df, dg := SearchFilterToDict(f), SearchFilterToDict(g);
    assert df["categories"] == dg["categories"] && df["levels"] == dg["levels"] && df["tools"] == dg["tools"];
    assert df["search_query"] == dg["search_query"] && df["sort_by"] == dg["sort_by"];
  }
}
