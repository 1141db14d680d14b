/**
 * The Python values that flow through the recommendation code: JSON-shaped
 * dictionary values, `dict.get` with a default, truthiness, and list slicing.
 */
module PyValues {

  datatype Option<+T> = None | Some(value: T)

  /** A value stored in a prompt dictionary (what `json.load` can produce, lists restricted to strings). */
  datatype Value = Str(s: string) | StrList(items: seq<string>) | Number(n: real) | Bool(b: bool) | Null

  /** A Python `dict` with string keys, as the prompt records are. */
  type Dict = map<string, Value>

  /** Python truthiness of a value (`if v:`). */
  predicate Truthy(v: Value)
  {
    match v
    case Str(s) => s != ""
    case StrList(l) => l != []
    case Number(n) => n != 0.0
    case Bool(b) => b
    case Null => false
  }

  /** `d.get(k, default)` */
  function Get(d: Dict, k: string, default: Value): (v: Value)
    ensures k in d ==> v == d[k]
    ensures k !in d ==> v == default
  {
    if k in d then d[k] else default
  }

  /** The field `k` holds text or is absent, so `d.get(k, "").lower()` does not raise. */
  predicate TextOrAbsent(d: Dict, k: string)
  {
    k !in d || d[k].Str?
  }

  /** `d.get(k, "")` for a field the code uses as text (read under `TextOrAbsent`). */
  function TextField(d: Dict, k: string): string
  {
    if k in d && d[k].Str? then d[k].s else ""
  }

  /** `d.get(k)` for a field compared against strings: `None` when absent or not text. */
  function TextOf(d: Dict, k: string): Option<string>
  {
    if k in d && d[k].Str? then Some(d[k].s) else None
  }

  /** The characters of a string, each as a one-character string (iterating a Python `str`). */
  function Chars(s: string): (r: seq<string>)
    ensures |r| == |s|
    ensures forall i :: 0 <= i < |s| ==> r[i] == [s[i]]
  {
    seq(|s|, i requires 0 <= i < |s| => [s[i]])
  }

  /** The `keywords` field can be iterated: absent, a list of strings, or a string. */
  predicate KeywordsIterable(d: Dict)
  {
    "keywords" !in d || d["keywords"].StrList? || d["keywords"].Str?
  }

  /** What `for kw in d.get("keywords", [])` visits (read under `KeywordsIterable`). */
  function KeywordItems(d: Dict): seq<string>
  {
    if "keywords" !in d then []
    else match d["keywords"]
      case StrList(l) => l
      case Str(s) => Chars(s)
      case _ => []
  }

  /** `set(d.get("keywords", []))` */
  function KeywordSet(d: Dict): set<string>
  {
    set k | k in KeywordItems(d)
  }

  /** The prefix `s[:k]` of Python slicing, where a negative `k` counts from the end. */
  function Take<T>(s: seq<T>, k: int): (r: seq<T>)
    ensures |r| <= |s| && r == s[..|r|]
    ensures 0 <= k ==> |r| == if k <= |s| then k else |s|
    ensures k < 0 ==> |r| == if |s| + k < 0 then 0 else |s| + k
  {
    if 0 <= k then (if k <= |s| then s[..k] else s)
    else if |s| + k < 0 then [] else s[..|s| + k]
  }

  function Min(a: int, b: int): int { if a <= b then a else b }

  /** A prefix one element longer, and what it holds. */
  lemma PrefixSnoc<T>(s: seq<T>, i: nat)
    requires i < |s|
    ensures s[..i + 1] == s[..i] + [s[i]]
    ensures forall x :: x in s[..i + 1] <==> x in s[..i] || x == s[i]
  {
  }

  /** A list none of whose candidates is a member is empty. */
  lemma NoMemberEmpty<T>(s: seq<T>)
    requires forall x :: x !in s
    ensures s == []
  {
    forall x ensures multiset(s)[x] == 0 {
      assert x !in s;
    }
    assert multiset(s) == multiset{};
  }

  /**
   * A `dict` object on the heap: everyone holding a reference to it sees an
   * update made through any other.
   */
  class PyDict {
    var items: Dict

    constructor (d: Dict)
      ensures items == d
    {
      items := d;
    }
  }

  /** What a list of dict objects currently holds. */
  function Contents(ps: seq<PyDict>): (r: seq<Dict>)
    reads set p | p in ps
    ensures |r| == |ps| && forall i :: 0 <= i < |ps| ==> r[i] == ps[i].items
  {
    seq(|ps|, i requires 0 <= i < |ps| reads set p | p in ps => ps[i].items)
  }

  /** No element occurs twice. */
  predicate Distinct<T(==)>(s: seq<T>)
  {
    forall i, j :: 0 <= i < j < |s| ==> s[i] != s[j]
  }

  /**
   * `list(set(xs))`: the elements of a set in an order the language leaves
   * unspecified; the choice below is arbitrary, as a hash order is.
   */
  method ListOfSet<T(==)>(s: set<T>) returns (r: seq<T>)
    ensures Distinct(r)
    ensures forall x :: x in r <==> x in s
    ensures |r| == |s|
  {
    r := [];
    var rest := s;
    while rest != {}
      invariant rest <= s && Distinct(r)
      invariant forall x :: x in r <==> x in s && x !in rest
      invariant |r| + |rest| == |s|
      decreases |rest|
    {
      var x :| x in rest;
      r := r + [x];
      rest := rest - {x};
    }
  }
}
