/**
 * Generic sequence operations the views use: `Array.prototype.filter` and the stable
 * `Array.prototype.sort` of ECMAScript 2019 (section 22.1.3.27 of ECMA-262, 10th edition, requires the
 * sort to be stable), modelled as an insertion sort over a comparator.
 */
module Sequences {

  /** The elements of `s` that satisfy `p`, in their original order. */
  function Filter<T>(s: seq<T>, p: T -> bool): (r: seq<T>)
    ensures |r| <= |s|
    ensures forall i :: 0 <= i < |r| ==> p(r[i])
  {
    if s == [] then [] else (if p(s[0]) then [s[0]] else []) + Filter(s[1..], p)
  }

  lemma FilterCons<T>(x: T, s: seq<T>, p: T -> bool)
    ensures Filter([x] + s, p) == (if p(x) then [x] else []) + Filter(s, p)
  {
    assert ([x] + s)[1..] == s;
  }

  lemma {:induction false} FilterConcat<T>(a: seq<T>, b: seq<T>, p: T -> bool)
    ensures Filter(a + b, p) == Filter(a, p) + Filter(b, p)
  {
    if a == [] {
      assert a + b == b;
    } else {
      assert (a + b)[1..] == a[1..] + b;
      FilterConcat(a[1..], b, p);
    }
  }

  /** Filtering keeps each element that satisfies `p` as often as it occurs, and drops every other. */
  lemma {:induction false} FilterMultiset<T>(s: seq<T>, p: T -> bool, x: T)
    ensures multiset(Filter(s, p))[x] == if p(x) then multiset(s)[x] else 0
  {
    if s != [] {
      assert s == [s[0]] + s[1..];
      FilterMultiset(s[1..], p, x);
    }
  }

  /** Filtering a sequence that contains nothing to remove returns it unchanged. */
  lemma {:induction false} FilterKeepsAll<T>(s: seq<T>, p: T -> bool)
    requires forall i :: 0 <= i < |s| ==> p(s[i])
    ensures Filter(s, p) == s
  {
    if s != [] {
      FilterKeepsAll(s[1..], p);
    }
  }

  /** Two predicates that agree on every element of `s` filter it alike. */
  lemma {:induction false} FilterAgree<T>(s: seq<T>, p: T -> bool, q: T -> bool)
    requires forall i :: 0 <= i < |s| ==> p(s[i]) == q(s[i])
    ensures Filter(s, p) == Filter(s, q)
  {
    if s != [] {
      FilterAgree(s[1..], p, q);
    }
  }

  /** Every element satisfies `p` or `q`, never both: the two filters split the sequence. */
  lemma {:induction false} FilterSplit<T>(s: seq<T>, p: T -> bool, q: T -> bool)
    requires forall i :: 0 <= i < |s| ==> p(s[i]) != q(s[i])
    ensures |Filter(s, p)| + |Filter(s, q)| == |s|
  {
    if s != [] {
      FilterSplit(s[1..], p, q);
    }
  }

  /** Sequences with the same elements give filters with the same elements, so of the same length. */
  lemma FilterPermutation<T(!new)>(a: seq<T>, b: seq<T>, p: T -> bool)
    requires multiset(a) == multiset(b)
    ensures multiset(Filter(a, p)) == multiset(Filter(b, p))
    ensures |Filter(a, p)| == |Filter(b, p)|
  {
    var fa, fb := Filter(a, p), Filter(b, p);
    forall x ensures multiset(fa)[x] == multiset(fb)[x] {
      FilterMultiset(a, p, x);
      FilterMultiset(b, p, x);
    }
    assert multiset(fa) == multiset(fb);
    assert |multiset(fa)| == |fa|;
    assert |multiset(fb)| == |fb|;
  }

  // A comparator `geq(a, b)` says that `a` may be placed before `b`; it plays the role of
  // `compare(a, b) <= 0` for an ECMAScript comparator.

  ghost predicate Total<T(!new)>(geq: (T, T) -> bool) {
    forall a, b :: geq(a, b) || geq(b, a)
  }

  ghost predicate Transitive<T(!new)>(geq: (T, T) -> bool) {
    forall a, b, c :: geq(a, b) && geq(b, c) ==> geq(a, c)
  }

  predicate Sorted<T>(s: seq<T>, geq: (T, T) -> bool) {
    forall i, j :: 0 <= i < j < |s| ==> geq(s[i], s[j])
  }

  /** The elements that compare equal to `e`: neither may be placed strictly before the other. */
  function TiedWith<T>(e: T, geq: (T, T) -> bool): T -> bool {
    x => geq(x, e) && geq(e, x)
  }

  /** Places `x` in front of the first element it may precede, so before every element tied with it. */
  function Insert<T>(x: T, s: seq<T>, geq: (T, T) -> bool): (r: seq<T>)
    ensures multiset(r) == multiset(s) + multiset{x}
  {
    if s == [] then [x]
    else if geq(x, s[0]) then [x] + s
    else
      assert s == [s[0]] + s[1..];
      [s[0]] + Insert(x, s[1..], geq)
  }

  /** The stable sort of `s` by `geq`. */
  function StableSort<T>(s: seq<T>, geq: (T, T) -> bool): (r: seq<T>)
    ensures multiset(r) == multiset(s)
  {
    if s == [] then []
    else
      assert s == [s[0]] + s[1..];
      Insert(s[0], StableSort(s[1..], geq), geq)
  }

  lemma {:induction false} InsertSorted<T(!new)>(x: T, s: seq<T>, geq: (T, T) -> bool)
    requires Total(geq) && Transitive(geq)
    requires Sorted(s, geq)
    ensures Sorted(Insert(x, s, geq), geq)
  {
    if s == [] {
    } else if geq(x, s[0]) {
      var r := [x] + s;
      forall i, j | 0 <= i < j < |r| ensures geq(r[i], r[j]) {
        if i == 0 && j > 1 {
          assert geq(s[0], s[j - 1]);
        }
      }
    } else {
      var t := Insert(x, s[1..], geq);
      InsertSorted(x, s[1..], geq);
      assert geq(s[0], x);
      forall k | 0 <= k < |t| ensures geq(s[0], t[k]) {
        assert t[k] in multiset(t);
        if t[k] != x {
          assert t[k] in multiset(s[1..]);
          var m :| 0 <= m < |s[1..]| && s[1..][m] == t[k];
          assert s[m + 1] == t[k];
        }
      }
      var r := [s[0]] + t;
      forall i, j | 0 <= i < j < |r| ensures geq(r[i], r[j]) {
        if i == 0 {
          assert r[j] == t[j - 1];
        }
      }
    }
  }

  /** For a total, transitive comparator the result is in order. */
  lemma {:induction false} StableSortSorted<T(!new)>(s: seq<T>, geq: (T, T) -> bool)
    requires Total(geq) && Transitive(geq)
    ensures Sorted(StableSort(s, geq), geq)
  {
    if s != [] {
      StableSortSorted(s[1..], geq);
      InsertSorted(s[0], StableSort(s[1..], geq), geq);
    }
  }

  /**
   * If `t` filters like `[x] + tail`, and at most one of `x` and `y` is kept, then `[y] + t` filters
   * like `[x, y] + tail`.
   */
  lemma FilterPastOne<T>(x: T, y: T, t: seq<T>, tail: seq<T>, p: T -> bool)
    requires Filter(t, p) == Filter([x] + tail, p)
    requires !(p(x) && p(y))
    ensures Filter([y] + t, p) == Filter([x] + ([y] + tail), p)
  {
    FilterCons(y, t, p);
    FilterCons(x, tail, p);
    FilterCons(y, tail, p);
    FilterCons(x, [y] + tail, p);
  }

  /**
   * Inserting `x` keeps the elements tied with `e` in order, provided that when `x` is tied with `e`
   * it may precede everything `e` may precede (which transitivity gives).
   */
  lemma {:induction false} InsertKeepsTies<T>(x: T, s: seq<T>, e: T, geq: (T, T) -> bool)
    requires TiedWith(e, geq)(x) ==> forall y :: geq(e, y) ==> geq(x, y)
    ensures Filter(Insert(x, s, geq), TiedWith(e, geq)) == Filter([x] + s, TiedWith(e, geq))
  {
    if s != [] && !geq(x, s[0]) {
      var t := Insert(x, s[1..], geq);
      assert Insert(x, s, geq) == [s[0]] + t;
      InsertKeepsTies(x, s[1..], e, geq);
      FilterPastOne(x, s[0], t, s[1..], TiedWith(e, geq));
      assert s == [s[0]] + s[1..];
    }
  }

  lemma TiedPrecedes<T(!new)>(x: T, e: T, geq: (T, T) -> bool)
    requires Transitive(geq)
    ensures TiedWith(e, geq)(x) ==> forall y :: geq(e, y) ==> geq(x, y)
  {
  }

  /**
   * Stability: the elements tied with any `e` appear in the result in the same order as in `s`.
   * Together with multiset preservation and order this is what ECMA-262 asks of a stable sort.
   */
  lemma {:induction false} StableSortKeepsTies<T(!new)>(s: seq<T>, e: T, geq: (T, T) -> bool)
    requires Transitive(geq)
    ensures Filter(StableSort(s, geq), TiedWith(e, geq)) == Filter(s, TiedWith(e, geq))
  {
    var p := TiedWith(e, geq);
    if s != [] {
      var t := StableSort(s[1..], geq);
      TiedPrecedes(s[0], e, geq);
      InsertKeepsTies(s[0], t, e, geq);
      FilterCons(s[0], t, p);
      StableSortKeepsTies(s[1..], e, geq);
      assert s == [s[0]] + s[1..];
      FilterCons(s[0], s[1..], p);
    }
  }
}
