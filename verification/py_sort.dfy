/**
 * Python's `list.sort` and `sorted` with a `key=` function: a stable sort
 * (equal keys keep their input order) ascending, or descending with
 * `reverse=True`, which Python also keeps stable. The keys are computed once
 * per element (decorate-sort-undecorate), so the sort works on (key, item)
 * pairs. Keys are tuples of numbers and strings compared lexicographically,
 * as Python compares tuples.
 */
module PySort {
  import opened PyStrings
  import opened PyValues

  /** One component of a sort key. */
  datatype Atom = Num(n: real) | Text(t: string)

  /** A sort key: a Python tuple (a one-element key is the value itself). */
  type Key = seq<Atom>

  predicate AtomLess(a: Atom, b: Atom)
  {
    match (a, b)
    case (Num(x), Num(y)) => x < y
    case (Num(_), Text(_)) => true
    case (Text(_), Num(_)) => false
    case (Text(x), Text(y)) => StrLess(x, y)
  }

  /** Python's tuple `<`: lexicographic, a proper prefix first. */
  predicate KeyLess(a: Key, b: Key)
  {
    if a == [] then b != []
    else if b == [] then false
    else if a[0] != b[0] then AtomLess(a[0], b[0])
    else KeyLess(a[1..], b[1..])
  }

  lemma AtomLessIrreflexive(a: Atom)
    ensures !AtomLess(a, a)
  {
    if a.Text? { StrLessIrreflexive(a.t); }
  }

  lemma AtomLessTransitive(a: Atom, b: Atom, c: Atom)
    requires AtomLess(a, b) && AtomLess(b, c)
    ensures AtomLess(a, c)
  {
    if a.Text? && b.Text? && c.Text? { StrLessTransitive(a.t, b.t, c.t); }
  }

  lemma AtomLessTotal(a: Atom, b: Atom)
    requires a != b
    ensures AtomLess(a, b) || AtomLess(b, a)
  {
    if a.Text? && b.Text? { StrLessTotal(a.t, b.t); }
  }

  lemma {:induction false} KeyLessIrreflexive(a: Key)
    ensures !KeyLess(a, a)
  {
    if a != [] { KeyLessIrreflexive(a[1..]); }
  }

  lemma {:induction false} KeyLessTransitive(a: Key, b: Key, c: Key)
    requires KeyLess(a, b) && KeyLess(b, c)
    ensures KeyLess(a, c)
  {
    if a != [] && b != [] && c != [] {
      if a[0] == b[0] == c[0] {
        KeyLessTransitive(a[1..], b[1..], c[1..]);
      } else if a[0] != b[0] && b[0] != c[0] {
        AtomLessTransitive(a[0], b[0], c[0]);
        if a[0] == c[0] { AtomLessIrreflexive(a[0]); }
      }
    }
  }

  lemma {:induction false} KeyLessTotal(a: Key, b: Key)
    requires a != b
    ensures KeyLess(a, b) || KeyLess(b, a)
  {
    if a != [] && b != [] {
      if a[0] == b[0] {
        assert a == [a[0]] + a[1..] && b == [b[0]] + b[1..];
        KeyLessTotal(a[1..], b[1..]);
      } else {
        AtomLessTotal(a[0], b[0]);
      }
    }
  }

  /** For numeric one-element keys the order is the order of the numbers. */
  lemma NumKeyLess(x: real, y: real)
    ensures KeyLess([Num(x)], [Num(y)]) <==> x < y
  {
    var a, b: Key := [Num(x)], [Num(y)];
    assert a[1..] == [] && b[1..] == [];
  }

  /** Whether key `a` sorts strictly before key `b`; `desc` is `reverse=True`. */
  predicate Before(a: Key, b: Key, desc: bool)
  {
    if desc then KeyLess(b, a) else KeyLess(a, b)
  }

  lemma BeforeIrreflexive(a: Key, desc: bool)
    ensures !Before(a, a, desc)
  {
    KeyLessIrreflexive(a);
  }

  lemma BeforeTransitive(a: Key, b: Key, c: Key, desc: bool)
    requires Before(a, b, desc) && Before(b, c, desc)
    ensures Before(a, c, desc)
  {
    if desc { KeyLessTransitive(c, b, a); } else { KeyLessTransitive(a, b, c); }
  }

  lemma BeforeTotal(a: Key, b: Key, desc: bool)
    requires a != b
    ensures Before(a, b, desc) || Before(b, a, desc)
  {
    KeyLessTotal(a, b);
  }

  /** No element comes strictly before an element to its left. */
  predicate Sorted<T>(s: seq<(Key, T)>, desc: bool)
  {
    forall i, j :: 0 <= i < j < |s| ==> !Before(s[j].0, s[i].0, desc)
  }

  /** The elements whose key equals `k`, in order. */
  function KeyFilter<T>(s: seq<(Key, T)>, k: Key): (r: seq<(Key, T)>)
    ensures |r| <= |s|
  {
    if s == [] then []
    else (if s[0].0 == k then [s[0]] else []) + KeyFilter(s[1..], k)
  }

  /** The items of a decorated list (the undecorate step). */
  function Items<T>(s: seq<(Key, T)>): (r: seq<T>)
    ensures |r| == |s| && forall i :: 0 <= i < |s| ==> r[i] == s[i].1
  {
    seq(|s|, i requires 0 <= i < |s| => s[i].1)
  }

  /** Insert `x` after every element that does not come strictly after it. */
  function Insert<T>(x: (Key, T), s: seq<(Key, T)>, desc: bool): seq<(Key, T)>
  {
    if s == [] then [x]
    else if Before(x.0, s[0].0, desc) then [x] + s
    else [s[0]] + Insert(x, s[1..], desc)
  }

  /** The stable sort of `s` by key: `sorted(s, key=..., reverse=desc)`. */
  function SortBy<T>(s: seq<(Key, T)>, desc: bool): seq<(Key, T)>
  {
    if s == [] then [] else Insert(s[|s| - 1], SortBy(s[..|s| - 1], desc), desc)
  }

  lemma {:induction false} InsertPerm<T>(x: (Key, T), s: seq<(Key, T)>, desc: bool)
    ensures multiset(Insert(x, s, desc)) == multiset(s) + multiset{x}
  {
    if s != [] && !Before(x.0, s[0].0, desc) {
      InsertPerm(x, s[1..], desc);
      assert s == [s[0]] + s[1..];
    }
  }

  lemma {:induction false} InsertSorted<T>(x: (Key, T), s: seq<(Key, T)>, desc: bool)
    requires Sorted(s, desc)
    ensures Sorted(Insert(x, s, desc), desc)
  {
    if s == [] {
    } else if Before(x.0, s[0].0, desc) {
      var r := [x] + s;
      forall i, j | 0 <= i < j < |r| ensures !Before(r[j].0, r[i].0, desc) {
        if i == 0 && Before(r[j].0, x.0, desc) {
          BeforeTransitive(r[j].0, x.0, s[0].0, desc);
          if j == 1 { BeforeIrreflexive(s[0].0, desc); }
        }
      }
    } else {
      InsertSorted(x, s[1..], desc);
      InsertPerm(x, s[1..], desc);
      var t := Insert(x, s[1..], desc);
      var r := [s[0]] + t;
      forall i, j | 0 <= i < j < |r| ensures !Before(r[j].0, r[i].0, desc) {
        if i == 0 {
          assert r[j] in multiset(t);
          assert r[j] == x || r[j] in s[1..];
        }
      }
    }
  }

  /** In a sorted list whose head comes strictly after `k`, no element has key `k`. */
  lemma NoneWithKey<T>(s: seq<(Key, T)>, k: Key, desc: bool)
    requires Sorted(s, desc) && s != [] && Before(k, s[0].0, desc)
    ensures KeyFilter(s, k) == []
  {
    forall m | 0 <= m < |s| ensures s[m].0 != k {
      if s[m].0 == k {
        if m == 0 { BeforeIrreflexive(k, desc); }
      }
    }
    NoKeyNoFilter(s, k);
  }

  lemma {:induction false} NoKeyNoFilter<T>(s: seq<(Key, T)>, k: Key)
    requires forall m :: 0 <= m < |s| ==> s[m].0 != k
    ensures KeyFilter(s, k) == []
  {
    if s != [] { NoKeyNoFilter(s[1..], k); }
  }

  lemma {:induction false} KeyFilterAppend<T>(s: seq<(Key, T)>, t: seq<(Key, T)>, k: Key)
    ensures KeyFilter(s + t, k) == KeyFilter(s, k) + KeyFilter(t, k)
  {
    if s != [] {
      assert (s + t)[1..] == s[1..] + t;
      KeyFilterAppend(s[1..], t, k);
    } else {
      assert s + t == t;
    }
  }

  lemma {:induction false} InsertFilter<T>(x: (Key, T), s: seq<(Key, T)>, k: Key, desc: bool)
    requires Sorted(s, desc)
    ensures KeyFilter(Insert(x, s, desc), k)
         == KeyFilter(s, k) + (if x.0 == k then [x] else [])
  {
    if s == [] {
    } else if Before(x.0, s[0].0, desc) {
      if x.0 == k { NoneWithKey(s, k, desc); }
      assert ([x] + s)[1..] == s;
    } else {
      var rest := Insert(x, s[1..], desc);
      SortedTail(s, desc);
      InsertFilter(x, s[1..], k, desc);
      assert ([s[0]] + rest)[1..] == rest;
      assert KeyFilter(Insert(x, s, desc), k) == (if s[0].0 == k then [s[0]] else []) + KeyFilter(rest, k);
    }
  }

  /** Dropping the first element keeps a list sorted. */
  lemma SortedTail<T>(s: seq<(Key, T)>, desc: bool)
    requires Sorted(s, desc) && s != []
    ensures Sorted(s[1..], desc)
  {
    forall i, j | 0 <= i < j < |s| - 1 ensures !Before(s[1..][j].0, s[1..][i].0, desc) {
      assert s[1..][j] == s[j + 1] && s[1..][i] == s[i + 1];
    }
  }

  /** Sorting permutes: every element is kept, as often as it occurs. */
  lemma {:induction false} SortByPerm<T>(s: seq<(Key, T)>, desc: bool)
    ensures multiset(SortBy(s, desc)) == multiset(s)
    ensures |SortBy(s, desc)| == |s|
  {
    if s != [] {
      SortByPerm(s[..|s| - 1], desc);
      InsertPerm(s[|s| - 1], SortBy(s[..|s| - 1], desc), desc);
      assert s == s[..|s| - 1] + [s[|s| - 1]];
    }
    assert |multiset(SortBy(s, desc))| == |SortBy(s, desc)|;
  }

  /** Sorting orders: no element comes strictly before one on its left. */
  lemma {:induction false} SortBySorted<T>(s: seq<(Key, T)>, desc: bool)
    ensures Sorted(SortBy(s, desc), desc)
  {
    if s != [] {
      SortBySorted(s[..|s| - 1], desc);
      InsertSorted(s[|s| - 1], SortBy(s[..|s| - 1], desc), desc);
    }
  }

  /** Sorting is stable: the elements with any one key keep their input order. */
  lemma {:induction false} SortByStable<T>(s: seq<(Key, T)>, k: Key, desc: bool)
    ensures KeyFilter(SortBy(s, desc), k) == KeyFilter(s, k)
  {
    if s != [] {
      var front, last := s[..|s| - 1], s[|s| - 1];
      SortByStable(front, k, desc);
      SortBySorted(front, desc);
      InsertFilter(last, SortBy(front, desc), k, desc);
      assert s == front + [last];
      KeyFilterAppend(front, [last], k);
    }
  }

  /** `x` comes strictly before no element of `s`, so it is inserted at the end. */
  lemma {:induction false} InsertAtEnd<T>(x: (Key, T), s: seq<(Key, T)>, desc: bool)
    requires forall i :: 0 <= i < |s| ==> !Before(x.0, s[i].0, desc)
    ensures Insert(x, s, desc) == s + [x]
  {
    if s != [] {
      InsertAtEnd(x, s[1..], desc);
      assert s == [s[0]] + s[1..];
    }
  }

  /** Sorting an already sorted list changes nothing. */
  lemma {:induction false} SortBySortedIdentity<T>(s: seq<(Key, T)>, desc: bool)
    requires Sorted(s, desc)
    ensures SortBy(s, desc) == s
  {
    if s != [] {
      var front := s[..|s| - 1];
      SortBySortedIdentity(front, desc);
      InsertAtEnd(s[|s| - 1], front, desc);
      assert s == front + [s[|s| - 1]];
    }
  }

  /** Every element is decorated with the key of its own item. */
  predicate KeyedBy<T>(s: seq<(Key, T)>, key: T -> Key)
  {
    forall i :: 0 <= i < |s| ==> s[i].0 == key(s[i].1)
  }

  /** `[(key(x), x) for x in s]`: the decorate step. */
  function Decorate<T>(s: seq<T>, key: T -> Key): (r: seq<(Key, T)>)
    ensures |r| == |s| && forall i :: 0 <= i < |s| ==> r[i] == (key(s[i]), s[i])
    ensures Items(r) == s
  {
    seq(|s|, i requires 0 <= i < |s| => (key(s[i]), s[i]))
  }

  /** `sorted(s, key=key, reverse=desc)` */
  function SortedBy<T>(s: seq<T>, key: T -> Key, desc: bool): seq<T>
  {
    Items(SortBy(Decorate(s, key), desc))
  }

  /** The items whose key is `k`, in order. */
  function WithKey<T>(s: seq<T>, key: T -> Key, k: Key): (r: seq<T>)
    ensures |r| <= |s|
  {
    if s == [] then [] else (if key(s[0]) == k then [s[0]] else []) + WithKey(s[1..], key, k)
  }

  lemma {:induction false} InsertItemsPerm<T>(x: (Key, T), s: seq<(Key, T)>, desc: bool)
    ensures multiset(Items(Insert(x, s, desc))) == multiset(Items(s)) + multiset{x.1}
  {
    if s == [] {
    } else if Before(x.0, s[0].0, desc) {
      assert Items([x] + s) == [x.1] + Items(s);
    } else {
      InsertItemsPerm(x, s[1..], desc);
      assert Items([s[0]] + Insert(x, s[1..], desc)) == [s[0].1] + Items(Insert(x, s[1..], desc));
      assert Items(s) == [s[0].1] + Items(s[1..]);
    }
  }

  lemma {:induction false} SortByItemsPerm<T>(s: seq<(Key, T)>, desc: bool)
    ensures multiset(Items(SortBy(s, desc))) == multiset(Items(s))
  {
    if s != [] {
      var front, last := s[..|s| - 1], s[|s| - 1];
      SortByItemsPerm(front, desc);
      InsertItemsPerm(last, SortBy(front, desc), desc);
      assert Items(s) == Items(front) + [last.1];
    }
  }

  lemma SortByKeyed<T>(s: seq<(Key, T)>, key: T -> Key, desc: bool)
    requires KeyedBy(s, key)
    ensures KeyedBy(SortBy(s, desc), key)
  {
    SortByPerm(s, desc);
    var r := SortBy(s, desc);
    forall i | 0 <= i < |r| ensures r[i].0 == key(r[i].1) {
      assert r[i] in multiset(s);
    }
  }

  lemma {:induction false} ItemsKeyFilter<T>(s: seq<(Key, T)>, key: T -> Key, k: Key)
    requires KeyedBy(s, key)
    ensures Items(KeyFilter(s, k)) == WithKey(Items(s), key, k)
  {
    if s != [] {
      ItemsKeyFilter(s[1..], key, k);
      assert Items(s)[1..] == Items(s[1..]);
      var head: seq<(Key, T)> := if s[0].0 == k then [s[0]] else [];
      assert Items(head + KeyFilter(s[1..], k)) == Items(head) + Items(KeyFilter(s[1..], k));
    }
  }

  /**
   * `sorted(s, key=key, reverse=desc)` is a permutation of `s`, ordered by key,
   * and stable: the items with any one key keep their order in `s`.
   */
  lemma SortedBySpec<T>(s: seq<T>, key: T -> Key, desc: bool)
    ensures multiset(SortedBy(s, key, desc)) == multiset(s)
    ensures forall i, j :: 0 <= i < j < |SortedBy(s, key, desc)|
              ==> !Before(key(SortedBy(s, key, desc)[j]), key(SortedBy(s, key, desc)[i]), desc)
    ensures forall k :: WithKey(SortedBy(s, key, desc), key, k) == WithKey(s, key, k)
  {
    var d := Decorate(s, key);
    var sd := SortBy(d, desc);
    SortByItemsPerm(d, desc);
    SortBySorted(d, desc);
    SortByKeyed(d, key, desc);
    forall k ensures WithKey(Items(sd), key, k) == WithKey(s, key, k) {
      SortByStable(d, k, desc);
      ItemsKeyFilter(sd, key, k);
      ItemsKeyFilter(d, key, k);
    }
  }

  /** The same keys with every payload passed through `f`. */
  function Relabel<A, B>(s: seq<(Key, A)>, f: A -> B): (r: seq<(Key, B)>)
    ensures |r| == |s| && forall i :: 0 <= i < |s| ==> r[i] == (s[i].0, f(s[i].1))
  {
    seq(|s|, i requires 0 <= i < |s| => (s[i].0, f(s[i].1)))
  }

  lemma {:induction false} InsertRelabel<A, B>(x: (Key, A), s: seq<(Key, A)>, f: A -> B, desc: bool)
    ensures Insert((x.0, f(x.1)), Relabel(s, f), desc) == Relabel(Insert(x, s, desc), f)
  {
    if s != [] && !Before(x.0, s[0].0, desc) {
      InsertRelabel(x, s[1..], f, desc);
      assert Relabel(s, f)[1..] == Relabel(s[1..], f);
    }
  }

  /** Sorting looks only at keys: relabelling the payloads before or after sorting gives the same list. */
  lemma {:induction false} SortByRelabel<A, B>(s: seq<(Key, A)>, f: A -> B, desc: bool)
    ensures SortBy(Relabel(s, f), desc) == Relabel(SortBy(s, desc), f)
  {
    if s != [] {
      var front := s[..|s| - 1];
      SortByRelabel(front, f, desc);
      assert Relabel(s, f)[..|s| - 1] == Relabel(front, f);
      InsertRelabel(s[|s| - 1], SortBy(front, desc), f, desc);
    }
  }

  /** Each key paired with the item at the same position. */
  function Zip<T>(keys: seq<Key>, s: seq<T>): (r: seq<(Key, T)>)
    requires |keys| == |s|
    ensures |r| == |s| && forall i :: 0 <= i < |s| ==> r[i] == (keys[i], s[i])
  {
    seq(|s|, i requires 0 <= i < |s| => (keys[i], s[i]))
  }

  /** The positions `0, 1, ..., n - 1`. */
  function Positions(n: nat): (r: seq<nat>)
    ensures |r| == n && forall i :: 0 <= i < n ==> r[i] == i
  {
    seq(n, i requires 0 <= i < n => i)
  }

  /** Position `t` of a non-empty list, as a total function. */
  function At<T>(a: seq<T>): nat -> T
    requires a != []
  {
    (t: nat) => if t < |a| then a[t] else a[0]
  }

  /** Sorting keyed positions yields every position once, each with its own key. */
  lemma SortPositions(keys: seq<Key>, desc: bool)
    ensures |SortBy(Zip(keys, Positions(|keys|)), desc)| == |keys|
    ensures forall u :: 0 <= u < |keys| ==> var q := SortBy(Zip(keys, Positions(|keys|)), desc)[u];
              0 <= q.1 < |keys| && q.0 == keys[q.1]
  {
    var p: seq<(Key, nat)> := Zip(keys, Positions(|keys|));
    SortByPerm<nat>(p, desc);
    var sp: seq<(Key, nat)> := SortBy<nat>(p, desc);
    forall u | 0 <= u < |sp| ensures 0 <= sp[u].1 < |keys| && sp[u].0 == keys[sp[u].1] {
      var q := sp[u];
      assert q in multiset(sp);
      assert q in multiset(p);
      var i :| 0 <= i < |p| && p[i] == q;
    }
  }

  /** Sorting a keyed list is sorting its keyed positions, then looking the positions up. */
  lemma SortZip<T>(keys: seq<Key>, a: seq<T>, desc: bool)
    requires |keys| == |a| > 0
    ensures SortBy(Zip(keys, a), desc) == Relabel(SortBy(Zip(keys, Positions(|keys|)), desc), At(a))
  {
    var p := Zip(keys, Positions(|keys|));
    assert Zip(keys, a) == Relabel(p, At(a));
    SortByRelabel(p, At(a), desc);
  }

  /**
   * Two lists sorted under the same keys move their items alike: position `u`
   * of either sorted list holds the item from position `pos[u]` of its input.
   */
  lemma SortAlong<A, B>(keys: seq<Key>, a: seq<A>, b: seq<B>, desc: bool) returns (pos: seq<nat>)
    requires |keys| == |a| == |b|
    ensures |pos| == |keys| == |SortBy(Zip(keys, a), desc)| == |SortBy(Zip(keys, b), desc)|
    ensures forall u :: 0 <= u < |pos| ==> pos[u] < |keys|
    ensures forall u :: 0 <= u < |pos| ==> SortBy(Zip(keys, a), desc)[u] == (keys[pos[u]], a[pos[u]])
    ensures forall u :: 0 <= u < |pos| ==> SortBy(Zip(keys, b), desc)[u] == (keys[pos[u]], b[pos[u]])
  {
    if keys == [] {
      return [];
    }
    var sp := SortBy(Zip(keys, Positions(|keys|)), desc);
    SortPositions(keys, desc);
    SortZip(keys, a, desc);
    SortZip(keys, b, desc);
    pos := seq(|sp|, u requires 0 <= u < |sp| => sp[u].1);
  }

  lemma {:induction false} WithKeyMembers<T>(s: seq<T>, key: T -> Key, k: Key)
    ensures forall x :: x in WithKey(s, key, k) <==> x in s && key(x) == k
  {
    if s != [] {
      WithKeyMembers(s[1..], key, k);
      assert s == [s[0]] + s[1..];
    }
  }

  /** Two items with the same key appear among that key's items in their order in `s`. */
  lemma {:induction false} WithKeyOrder<T>(s: seq<T>, key: T -> Key, a: nat, b: nat) returns (p: nat, q: nat)
    requires a < b < |s| && key(s[a]) == key(s[b])
    ensures p < q < |WithKey(s, key, key(s[a]))|
    ensures WithKey(s, key, key(s[a]))[p] == s[a] && WithKey(s, key, key(s[a]))[q] == s[b]
  {
    var k := key(s[a]);
    var rest := WithKey(s[1..], key, k);
    if a == 0 {
      WithKeyMembers(s[1..], key, k);
      assert s[1..][b - 1] == s[b];
      var q' :| 0 <= q' < |rest| && rest[q'] == s[b];
      p, q := 0, q' + 1;
    } else {
      var p', q' := WithKeyOrder(s[1..], key, a - 1, b - 1);
      var head := if key(s[0]) == k then [s[0]] else [];
      assert WithKey(s, key, k) == head + rest;
      p, q := p' + |head|, q' + |head|;
    }
  }

  /** Cutting a list short keeps, for every key, a prefix of the items with that key. */
  lemma {:induction false} WithKeyPrefix<T>(s: seq<T>, n: nat, key: T -> Key, k: Key)
    requires n <= |s|
    ensures WithKey(s[..n], key, k) <= WithKey(s, key, k)
  {
    if n > 0 {
      WithKeyPrefix(s[1..], n - 1, key, k);
      assert s[..n][1..] == s[1..][..n - 1];
    }
  }

  /** A permutation of a list without repeats has no repeats. */
  lemma DistinctPerm<T>(s: seq<T>, t: seq<T>)
    requires multiset(s) == multiset(t) && Distinct(s)
    ensures Distinct(t)
  {
    forall i, j | 0 <= i < j < |t| ensures t[i] != t[j] {
      if t[i] == t[j] {
        assert t == t[..j] + t[j..];
        assert t[i] in multiset(t[..j]) && t[j] in multiset(t[j..]);
        assert multiset(t)[t[i]] >= 2;
        DistinctCountsAtMostOne(s, t[i]);
      }
    }
  }

  lemma {:induction false} DistinctCountsAtMostOne<T>(s: seq<T>, x: T)
    requires Distinct(s)
    ensures multiset(s)[x] <= 1
  {
    if s != [] {
      assert s == [s[0]] + s[1..];
      DistinctCountsAtMostOne(s[1..], x);
      assert s[0] !in s[1..];
    }
  }

  /** Two lists without repeats holding the same elements are permutations of each other. */
  lemma DistinctSameMembers<T>(a: seq<T>, b: seq<T>)
    requires Distinct(a) && Distinct(b)
    requires forall x :: x in a <==> x in b
    ensures multiset(a) == multiset(b)
  {
    forall x ensures multiset(a)[x] == multiset(b)[x] {
      DistinctCountsAtMostOne(a, x);
      DistinctCountsAtMostOne(b, x);
      assert x in a <==> x in multiset(a);
      assert x in b <==> x in multiset(b);
    }
  }

  /** The elements of `s` without repeats, first occurrences kept. */
  function Dedup<T(==, !new)>(s: seq<T>): (r: seq<T>)
    ensures Distinct(r) && forall x :: x in r <==> x in s
  {
    if s == [] then []
    else
      var front := Dedup(s[..|s| - 1]);
      assert forall x :: x in s <==> x in s[..|s| - 1] || x == s[|s| - 1];
      if s[|s| - 1] in front then front else front + [s[|s| - 1]]
  }

  /** The one-element text key of each string, for `sorted` on strings. */
  function TextKeyed(xs: seq<string>): (r: seq<(Key, string)>)
    ensures |r| == |xs| && forall i :: 0 <= i < |xs| ==> r[i] == ([Text(xs[i])], xs[i])
  {
    seq(|xs|, i requires 0 <= i < |xs| => ([Text(xs[i])], xs[i]))
  }

  /** `sorted(set(xs))` on strings. */
  function SortedSet(xs: seq<string>): (r: seq<string>)
  {
    Items(SortBy(TextKeyed(Dedup(xs)), false))
  }

  /** `sorted(set(xs))` holds exactly the elements of `xs`, strictly increasing. */
  lemma SortedSetSpec(xs: seq<string>)
    ensures forall x :: x in SortedSet(xs) <==> x in xs
    ensures forall i, j :: 0 <= i < j < |SortedSet(xs)| ==> StrLess(SortedSet(xs)[i], SortedSet(xs)[j])
  {
    var d := Dedup(xs);
    var keyed := TextKeyed(d);
    var sorted := SortBy(keyed, false);
    SortByPerm(keyed, false);
    SortBySorted(keyed, false);
    assert Distinct(keyed);
    DistinctPerm(keyed, sorted);
    var r := Items(sorted);
    forall x ensures x in r <==> x in xs {
      if x in r {
        var i :| 0 <= i < |r| && r[i] == x;
        assert sorted[i] in multiset(keyed);
      }
      if x in xs {
        var i :| 0 <= i < |d| && d[i] == x;
        assert keyed[i] in multiset(sorted);
        var j :| 0 <= j < |sorted| && sorted[j] == keyed[i];
        assert r[j] == x;
      }
    }
    forall i, j | 0 <= i < j < |r| ensures StrLess(r[i], r[j]) {
      assert sorted[i] in multiset(keyed) && sorted[j] in multiset(keyed);
      assert sorted[i].0 == [Text(r[i])] && sorted[j].0 == [Text(r[j])];
      assert !KeyLess(sorted[j].0, sorted[i].0);
      KeyLessTotal(sorted[i].0, sorted[j].0);
      var a, b := sorted[i].0, sorted[j].0;
      assert a[1..] == [] && b[1..] == [];
    }
  }
}
