/**
 * The Python string operations the recommendation code relies on: `lower`,
 * `strip`, `split`, the substring test `needle in hay`, `" ".join` and the
 * code-point order used by `<` and `sorted`.
 */
module PyStrings {

  /** `c.lower()` for ASCII letters; every other code point (Hangul included) is left alone. */
  function LowerChar(c: char): char
  {
    if 'A' <= c <= 'Z' then (c as int + 32) as char else c
  }

  /** `s.lower()`, character by character. */
  function Lower(s: string): (r: string)
    ensures |r| == |s|
    ensures forall i :: 0 <= i < |s| ==> r[i] == LowerChar(s[i])
  {
    seq(|s|, i requires 0 <= i < |s| => LowerChar(s[i]))
  }

  lemma LowerIdempotent(s: string)
    ensures Lower(Lower(s)) == Lower(s)
  {
    assert forall i :: 0 <= i < |s| ==> LowerChar(LowerChar(s[i])) == LowerChar(s[i]);
  }

  /** The characters `str.isspace()` accepts (and `strip`/`split` remove). */
  predicate IsSpace(c: char)
  {
    ('\t' <= c <= '\r') || ('\U{1C}' <= c <= ' ') || c == '\U{85}' || c == '\U{A0}'
    || c == '\U{1680}' || ('\U{2000}' <= c <= '\U{200A}') || c == '\U{2028}' || c == '\U{2029}'
    || c == '\U{202F}' || c == '\U{205F}' || c == '\U{3000}'
  }

  /** `s.lstrip()` */
  function TrimLeft(s: string): (r: string)
    ensures |r| <= |s| && r == s[|s| - |r|..]
    ensures r != [] ==> !IsSpace(r[0])
    ensures forall i :: 0 <= i < |s| - |r| ==> IsSpace(s[i])
  {
    if s != [] && IsSpace(s[0]) then TrimLeft(s[1..]) else s
  }

  /** `s.rstrip()` */
  function TrimRight(s: string): (r: string)
    ensures |r| <= |s| && r == s[..|r|]
    ensures r != [] ==> !IsSpace(r[|r| - 1])
    ensures forall i :: |r| <= i < |s| ==> IsSpace(s[i])
  {
    if s != [] && IsSpace(s[|s| - 1]) then TrimRight(s[..|s| - 1]) else s
  }

  /** `s.strip()` */
  function Strip(s: string): string
  {
    TrimRight(TrimLeft(s))
  }

  /** Every character is white space (so `not s.strip()` holds). */
  predicate Blank(s: string)
  {
    forall i :: 0 <= i < |s| ==> IsSpace(s[i])
  }

  lemma StripEmptyIffBlank(s: string)
    ensures Strip(s) == "" <==> Blank(s)
  {
    var l := TrimLeft(s);
    if Strip(s) == "" {
      // nothing is left after the leading white space
      assert l == [];
    } else {
      var r := Strip(s);
      assert r[0] == l[0] == s[|s| - |l|];
    }
  }

  /** The longest prefix of `s` without white space. */
  function WordPrefix(s: string): (w: string)
    ensures |w| <= |s| && w == s[..|w|]
    ensures forall i :: 0 <= i < |w| ==> !IsSpace(w[i])
    ensures |w| < |s| ==> IsSpace(s[|w|])
  {
    if s == [] || IsSpace(s[0]) then [] else [s[0]] + WordPrefix(s[1..])
  }

  /** A non-empty run of non-space characters. */
  predicate IsWord(w: string)
  {
    w != [] && forall j :: 0 <= j < |w| ==> !IsSpace(w[j])
  }

  /** `s.split()`: the maximal runs of non-space characters, in order. */
  function Words(s: string): (ws: seq<string>)
    ensures forall i :: 0 <= i < |ws| ==> IsWord(ws[i])
    decreases |s|
  {
    var t := TrimLeft(s);
    if t == [] then []
    else
      var w := WordPrefix(t);
      FirstWord(t);
      [w] + Words(t[|w|..])
  }

  /** After leading white space, the first word is not empty. */
  lemma FirstWord(t: string)
    requires t != [] && !IsSpace(t[0])
    ensures IsWord(WordPrefix(t))
  {
  }

  /** The white space of `s` around its words: before the first, between each pair, after the last. */
  function Gaps(s: string): (gs: seq<string>)
    ensures |gs| == |Words(s)| + 1
    decreases |s|
  {
    var t := TrimLeft(s);
    if t == [] then [s]
    else
      var w := WordPrefix(t);
      FirstWord(t);
      [s[..|s| - |t|]] + Gaps(t[|w|..])
  }

  /** `gs[0] + ws[0] + gs[1] + ... + ws[n-1] + gs[n]` */
  function Interleave(gs: seq<string>, ws: seq<string>): string
    requires |gs| == |ws| + 1
    decreases |ws|
  {
    if ws == [] then gs[0] else gs[0] + ws[0] + Interleave(gs[1..], ws[1..])
  }

  /**
   * What `s.split()` promises: `s` is its words with white space between
   * them, and the space between two words is never empty, so every word is
   * a maximal non-space run and none is missed. There are no words exactly
   * when `s` is blank.
   */
  lemma WordsSpec(s: string)
    ensures Words(s) == [] <==> Blank(s)
    ensures |Gaps(s)| == |Words(s)| + 1
    ensures forall i :: 0 <= i < |Gaps(s)| ==> Blank(Gaps(s)[i])
    ensures forall i :: 0 < i < |Words(s)| ==> Gaps(s)[i] != []
    ensures s == Interleave(Gaps(s), Words(s))
  {
    NoWordsIffBlank(s);
    GapsBlank(s);
    GapsShape(s);
    GapsRebuild(s);
  }

  /** `split()` gives `[]` exactly for blank text. */
  lemma NoWordsIffBlank(s: string)
    ensures Words(s) == [] <==> Blank(s)
  {
    var t := TrimLeft(s);
    if t != [] {
      assert t[0] == s[|s| - |t|];
    }
  }

  /** The leading white space of `s`. */
  lemma LeadBlank(s: string)
    ensures Blank(s[..|s| - |TrimLeft(s)|])
  {
    var n := |s| - |TrimLeft(s)|;
    assert forall i :: 0 <= i < n ==> s[..n][i] == s[i];
  }

  /** Every gap is white space. */
  lemma {:induction false} GapsBlank(s: string)
    ensures forall i :: 0 <= i < |Gaps(s)| ==> Blank(Gaps(s)[i])
    decreases |s|
  {
    var t := TrimLeft(s);
    LeadBlank(s);
    if t == [] {
      assert s[..|s|] == s;
    } else {
      var w := WordPrefix(t);
      FirstWord(t);
      var rest := t[|w|..];
      GapsBlank(rest);
      assert Gaps(s) == [s[..|s| - |t|]] + Gaps(rest);
    }
  }

  /** Two neighbouring words are separated by at least one space. */
  lemma {:induction false} GapsShape(s: string)
    ensures forall i :: 0 < i < |Words(s)| ==> Gaps(s)[i] != []
    decreases |s|
  {
    var t := TrimLeft(s);
    if t != [] {
      var w := WordPrefix(t);
      FirstWord(t);
      var rest := t[|w|..];
      GapsShape(rest);
      assert Words(s) == [w] + Words(rest);
      assert Gaps(s) == [s[..|s| - |t|]] + Gaps(rest);
      if Words(rest) != [] {
        // the space that ends `w` opens the next gap
        LeadingSpace(rest);
      }
    }
  }

  /** Gaps and words put back together give the original text. */
  lemma {:induction false} GapsRebuild(s: string)
    ensures s == Interleave(Gaps(s), Words(s))
    decreases |s|
  {
    var t := TrimLeft(s);
    if t != [] {
      var w := WordPrefix(t);
      FirstWord(t);
      var rest := t[|w|..];
      var lead := s[..|s| - |t|];
      SplitFirst(s);
      GapsRebuild(rest);
      InterleaveCons(lead, w, Gaps(rest), Words(rest));
    }
  }

  /** One step of `split()`: the leading space, the first word, and the text after it. */
  lemma SplitFirst(s: string)
    requires TrimLeft(s) != []
    ensures var t := TrimLeft(s); var w := WordPrefix(t); var lead := s[..|s| - |t|];
      && Words(s) == [w] + Words(t[|w|..])
      && Gaps(s) == [lead] + Gaps(t[|w|..])
      && s == lead + w + t[|w|..]
  {
    var t := TrimLeft(s);
    var w := WordPrefix(t);
    FirstWord(t);
    var lead := s[..|s| - |t|];
    TakeDrop(t, |w|);
    TakeDrop(s, |s| - |t|);
    AppendAssoc(lead, w, t[|w|..]);
  }

  lemma TakeDrop<T>(s: seq<T>, k: nat)
    requires k <= |s|
    ensures s == s[..k] + s[k..]
  {
  }

  lemma AppendAssoc<T>(a: seq<T>, b: seq<T>, c: seq<T>)
    ensures a + (b + c) == a + b + c
  {
  }

  lemma InterleaveCons(g: string, w: string, gs: seq<string>, ws: seq<string>)
    requires |gs| == |ws| + 1
    ensures Interleave([g] + gs, [w] + ws) == g + w + Interleave(gs, ws)
  {
    assert ([g] + gs)[1..] == gs;
    assert ([w] + ws)[1..] == ws;
  }

  /** A string starting with white space has a non-empty first gap. */
  lemma LeadingSpace(s: string)
    requires s != [] && IsSpace(s[0])
    ensures Gaps(s)[0] != []
  {
  }

  /** `p` is a prefix of `s`. */
  predicate IsPrefix(p: string, s: string)
  {
    |p| <= |s| && s[..|p|] == p
  }

  /** Python's `needle in hay` for strings: `needle` occurs as a contiguous substring. */
  predicate Contains(hay: string, needle: string)
    decreases |hay|
  {
    IsPrefix(needle, hay) || (hay != [] && Contains(hay[1..], needle))
  }

  /** Only the empty string occurs in the empty string. */
  lemma ContainsEmptyHay(needle: string)
    ensures Contains("", needle) <==> needle == ""
  {
  }

  /** The empty string occurs everywhere. */
  lemma ContainsEmptyNeedle(hay: string)
    ensures Contains(hay, "")
  {
    assert IsPrefix("", hay);
  }

  /** Every character of an occurring needle occurs in the haystack. */
  lemma {:induction false} ContainedCharsOccur(hay: string, needle: string)
    ensures Contains(hay, needle) ==> forall c :: c in needle ==> c in hay
  {
    if IsPrefix(needle, hay) {
      forall c | c in needle ensures c in hay {
        var i :| 0 <= i < |needle| && needle[i] == c;
        assert hay[i] == c;
      }
    }
    if hay != [] {
      ContainedCharsOccur(hay[1..], needle);
    }
  }

  /** A needle holding a character the haystack lacks does not occur in it. */
  lemma NotContainsByChar(hay: string, needle: string, c: char)
    requires c in needle && c !in hay
    ensures !Contains(hay, needle)
  {
    ContainedCharsOccur(hay, needle);
  }

  /** A needle occurring in `a` occurs in `a + b`. */
  lemma {:induction false} ContainsAppend(a: string, b: string, needle: string)
    requires Contains(a, needle)
    ensures Contains(a + b, needle)
  {
    if IsPrefix(needle, a) {
      assert (a + b)[..|needle|] == a[..|needle|];
    } else {
      ContainsAppend(a[1..], b, needle);
      assert (a + b)[1..] == a[1..] + b;
    }
  }

  /** A needle occurring in `b` occurs in `a + b`. */
  lemma {:induction false} ContainsPrepend(a: string, b: string, needle: string)
    requires Contains(b, needle)
    ensures Contains(a + b, needle)
  {
    if a == [] {
      assert a + b == b;
    } else {
      ContainsPrepend(a[1..], b, needle);
      assert (a + b)[1..] == a[1..] + b;
    }
  }

  /** A string occurs in itself. */
  lemma ContainsSelf(s: string)
    ensures Contains(s, s)
  {
    assert IsPrefix(s, s);
  }

  /** `sep.join(xs)` */
  function Join(sep: string, xs: seq<string>): string
  {
    if xs == [] then ""
    else if |xs| == 1 then xs[0]
    else xs[0] + sep + Join(sep, xs[1..])
  }

  /** Every joined string occurs in the joined result. */
  lemma {:induction false} JoinContains(sep: string, xs: seq<string>, k: string)
    requires k in xs
    ensures Contains(Join(sep, xs), k)
  {
    if |xs| == 1 {
      ContainsSelf(k);
    } else if xs[0] == k {
      ContainsSelf(k);
      ContainsAppend(k, sep + Join(sep, xs[1..]), k);
      assert Join(sep, xs) == k + (sep + Join(sep, xs[1..]));
    } else {
      JoinContains(sep, xs[1..], k);
      ContainsPrepend(xs[0] + sep, Join(sep, xs[1..]), k);
    }
  }

  /** Python's `a < b` on `str`: lexicographic by code point, a proper prefix first. */
  predicate StrLess(a: string, b: string)
  {
    if a == [] then b != []
    else if b == [] then false
    else if a[0] != b[0] then a[0] < b[0]
    else StrLess(a[1..], b[1..])
  }

  lemma {:induction false} StrLessIrreflexive(a: string)
    ensures !StrLess(a, a)
  {
    if a != [] {
      StrLessIrreflexive(a[1..]);
    }
  }

  lemma {:induction false} StrLessTransitive(a: string, b: string, c: string)
    requires StrLess(a, b) && StrLess(b, c)
    ensures StrLess(a, c)
  {
    if a != [] && b != [] && c != [] && a[0] == b[0] == c[0] {
      StrLessTransitive(a[1..], b[1..], c[1..]);
    }
  }

  lemma {:induction false} StrLessTotal(a: string, b: string)
    requires a != b
    ensures StrLess(a, b) || StrLess(b, a)
  {
    if a != [] && b != [] && a[0] == b[0] {
      assert a == [a[0]] + a[1..] && b == [b[0]] + b[1..];
      StrLessTotal(a[1..], b[1..]);
    }
  }
}
