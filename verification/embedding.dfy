/**
 * What both recommendation services share about embeddings: the text a
 * prompt is embedded as, and the world of foreign calls around the index.
 *
 * The embedding model, `model.encode`, FAISS and the pickle file are foreign:
 * whether loading, encoding, saving and removing succeed is an `Env` record,
 * the search is a function parameter, and the cache file is a value.
 */
module Embedding {
  import opened PyValues
  import opened PyStrings

  /** A FAISS index together with its embeddings, standing for the vectors of the texts it was built from. */
  datatype Index = Index(texts: seq<string>)

  /** The pickle cache file: missing, present but not loadable, or holding the prompts and index of a build. */
  datatype CacheFile = Absent | Unreadable | Stored(prompts: seq<Dict>, index: Index)

  /** How `pickle.dump` into the cache file ends: written, `open` failed, or the dump failed after truncating. */
  datatype SaveOutcome = Saved | OpenFailed | DumpFailed

  /** What the foreign calls do: load the model, encode texts, write the cache, remove the cache file. */
  datatype Env = Env(modelLoads: bool, encodeSucceeds: bool, save: SaveOutcome, removeSucceeds: bool)

  /** The service state the methods change: whether the model is loaded, and the cache file. */
  datatype State = State(modelLoaded: bool, cache: CacheFile)

  /** `index.search(query, k)` for the embedded query: (score, index) pairs, or `None` when it raises. */
  type Search = (Index, string, int) -> Option<seq<(real, int)>>

  /** `{v}` in an f-string: text as itself; `show` is Python's `str` of any other value. */
  function Shown(v: Value, show: Value -> string): string
  {
    if v.Str? then v.s else show(v)
  }

  /**
   * `_get_prompt_text` of the v0.2 service, and the same f-string inside the
   * older service's `_build_vector_index`: title, body and space-joined keywords, separated by
   * single spaces, a missing field counting as ""; `None` when the keywords
   * are not an iterable of strings (`join` raises).
   */
  function PromptText(p: Dict, show: Value -> string): (r: Option<string>)
    ensures r.Some? <==> KeywordsIterable(p)
  {
    if KeywordsIterable(p) then
      Some(Shown(Get(p, "title", Str("")), show) + " " + Shown(Get(p, "prompt", Str("")), show) + " "
           + Join(" ", KeywordItems(p)))
    else None
  }

  /** The embedded text starts with the title and a space, and holds the body and every keyword. */
  lemma PromptTextSpec(p: Dict, show: Value -> string)
    requires KeywordsIterable(p)
    ensures IsPrefix(Shown(Get(p, "title", Str("")), show) + " ", PromptText(p, show).value)
    ensures Contains(PromptText(p, show).value, Shown(Get(p, "prompt", Str("")), show))
    ensures forall k | k in KeywordItems(p) :: Contains(PromptText(p, show).value, k)
  {
    var title, body := Shown(Get(p, "title", Str("")), show), Shown(Get(p, "prompt", Str("")), show);
    var joined := Join(" ", KeywordItems(p));
    var text := PromptText(p, show).value;
    assert text == (title + " ") + (body + (" " + joined));
    assert text[..|title + " "|] == title + " ";
    ContainsSelf(body);
    ContainsAppend(body, " " + joined, body);
    ContainsPrepend(title + " ", body + (" " + joined), body);
    forall k | k in KeywordItems(p) ensures Contains(text, k) {
      JoinContains(" ", KeywordItems(p), k);
      assert text == (title + " " + body + " ") + joined;
      ContainsPrepend(title + " " + body + " ", joined, k);
    }
  }

  /** A prompt with only a title is embedded as the title followed by two spaces. */
  lemma TitleOnlyText(title: string, show: Value -> string)
    ensures PromptText(map["title" := Str(title)], show) == Some(title + "  ")
  {
    var p := map["title" := Str(title)];
    assert Get(p, "title", Str("")) == Str(title);
    assert Get(p, "prompt", Str("")) == Str("");
    assert KeywordItems(p) == [];
    assert Join(" ", KeywordItems(p)) == "";
    assert PromptText(p, show).value == title + " " + "" + " " + "";
    assert title + " " + "" + " " + "" == title + "  ";
  }

  /** `[self._get_prompt_text(prompt) for prompt in prompts]`, `None` when one of them raises. */
  function PromptTexts(ps: seq<Dict>, show: Value -> string): (r: Option<seq<string>>)
    ensures r.Some? <==> forall p | p in ps :: KeywordsIterable(p)
    ensures r.Some? ==> |r.value| == |ps| && forall i | 0 <= i < |ps| :: PromptText(ps[i], show) == Some(r.value[i])
  {
    if ps == [] then Some([])
    else
      assert forall p :: p in ps <==> p == ps[0] || p in ps[1..];
      match (PromptText(ps[0], show), PromptTexts(ps[1..], show))
      case (Some(t), Some(ts)) => Some([t] + ts)
      case _ => None
  }

  /** The cache file after trying to store a freshly built index in it. */
  function SaveCache(cache: CacheFile, prompts: seq<Dict>, index: Index, save: SaveOutcome): CacheFile
  {
    match save
    case Saved => Stored(prompts, index)
    case OpenFailed => cache
    case DumpFailed => Unreadable
  }

  /** `prompts[idx].copy()` with `similarity_score` set, as both services build a vector hit. */
  function WithSimilarity(p: Dict, score: real): Dict
  {
    p["similarity_score" := Number(score)]
  }
}
