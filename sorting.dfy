/** A stable sort by a comparison "a strictly before b", as Array.prototype.sort is stable
    (ECMAScript 2019 onwards). Insertion sort: an element goes in front of the first element
    it is not strictly after, so among equals the earlier one stays first. */
module Sorting {
  import opened Common

  /** What a comparator built from a key (a numeric date, a number, a string in
      lexicographic order) satisfies: irreflexive, asymmetric and negatively transitive. */
  ghost predicate StrictWeakOrder<T(!new)>(less: (T, T) -> bool)
  {
    (forall a :: !less(a, a)) &&
    (forall a, b :: less(a, b) ==> !less(b, a)) &&
    (forall a, b, c :: less(a, c) ==> less(a, b) || less(b, c))
  }

  /** No element is strictly before one that comes earlier. */
  predicate SortedBy<T>(s: seq<T>, less: (T, T) -> bool)
  {
    forall i, j :: 0 <= i < j < |s| ==> !less(s[j], s[i])
  }

  function InsertBy<T>(x: T, s: seq<T>, less: (T, T) -> bool): (r: seq<T>)
    ensures |r| == |s| + 1
  {
    if s == [] then [x]
    else if !less(s[0], x) then [x] + s
    else [s[0]] + InsertBy(x, s[1..], less)
  }

  function SortBy<T>(s: seq<T>, less: (T, T) -> bool): (r: seq<T>)
    ensures |r| == |s|
  {
    if s == [] then [] else InsertBy(s[0], SortBy(s[1..], less), less)
  }

  lemma {:induction false} InsertByPermutes<T>(x: T, s: seq<T>, less: (T, T) -> bool)
    ensures multiset(InsertBy(x, s, less)) == multiset(s) + multiset{x}
  {
    if s != [] && less(s[0], x) {
      assert s == [s[0]] + s[1..];
      InsertByPermutes(x, s[1..], less);
    }
  }

  /** Sorting only rearranges: the result is a permutation of the input. */
  lemma {:induction false} SortByPermutes<T>(s: seq<T>, less: (T, T) -> bool)
    ensures multiset(SortBy(s, less)) == multiset(s)
  {
    if s != [] {
      assert s == [s[0]] + s[1..];
      SortByPermutes(s[1..], less);
      InsertByPermutes(s[0], SortBy(s[1..], less), less);
    }
  }

  lemma {:induction false} InsertBySorted<T(!new)>(x: T, s: seq<T>, less: (T, T) -> bool)
    requires StrictWeakOrder(less) && SortedBy(s, less)
    ensures SortedBy(InsertBy(x, s, less), less)
  {
    if s == [] {
    } else if !less(s[0], x) {
      var r := [x] + s;
      forall i, j | 0 <= i < j < |r| ensures !less(r[j], r[i]) {
        if i == 0 {
          assert r[j] == s[j - 1];
          if j - 1 > 0 {
            assert !less(s[j - 1], s[0]);
          }
        } else {
          assert r[i] == s[i - 1] && r[j] == s[j - 1];
        }
      }
    } else {
      var t := InsertBy(x, s[1..], less);
      assert SortedBy(s[1..], less) by {
        forall i, j | 0 <= i < j < |s[1..]| ensures !less(s[1..][j], s[1..][i]) {
          assert s[1..][j] == s[j + 1] && s[1..][i] == s[i + 1];
        }
      }
      InsertBySorted(x, s[1..], less);
      InsertByPermutes(x, s[1..], less);
      var r := [s[0]] + t;
      forall i, j | 0 <= i < j < |r| ensures !less(r[j], r[i]) {
        if i == 0 {
          assert r[j] == t[j - 1];
          assert t[j - 1] in multiset(t);
          assert t[j - 1] == x || t[j - 1] in multiset(s[1..]);
          if t[j - 1] != x {
            var k :| 0 <= k < |s[1..]| && s[1..][k] == t[j - 1];
            assert s[1..][k] == s[k + 1];
          }
        } else {
          assert r[i] == t[i - 1] && r[j] == t[j - 1];
        }
      }
    }
  }

  /** Sorting with a strict weak order yields a sorted permutation of the input. */
  lemma {:induction false} SortBySorted<T(!new)>(s: seq<T>, less: (T, T) -> bool)
    requires StrictWeakOrder(less)
    ensures SortedBy(SortBy(s, less), less)
  {
    if s != [] {
      SortBySorted(s[1..], less);
      InsertBySorted(s[0], SortBy(s[1..], less), less);
    }
  }

  /** The elements tied with a: neither strictly before nor strictly after it. */
  function Ties<T>(less: (T, T) -> bool, a: T): T -> bool
  {
    (x: T) => !less(a, x) && !less(x, a)
  }

  /** Inserting x keeps x's place among the elements tied with a: x goes in front of every
      tied element already there, because the ones it passes are strictly before it. */
  lemma {:induction false} InsertByStable<T(!new)>(x: T, t: seq<T>, less: (T, T) -> bool, a: T)
    requires StrictWeakOrder(less)
    ensures Filter(InsertBy(x, t, less), Ties(less, a)) ==
            (if Ties(less, a)(x) then [x] else []) + Filter(t, Ties(less, a))
  {
    var p := Ties(less, a);
    if t == [] {
    } else if !less(t[0], x) {
      assert ([x] + t)[1..] == t;
    } else {
      var r := InsertBy(x, t, less);
      assert r[0] == t[0] && r[1..] == InsertBy(x, t[1..], less);
      InsertByStable(x, t[1..], less, a);
      assert !(p(t[0]) && p(x)) by {
        assert less(t[0], a) || less(a, x);
      }
    }
  }

  /** The sort is stable: the elements tied with any a come out in their input order. */
  lemma {:induction false} SortByStable<T(!new)>(s: seq<T>, less: (T, T) -> bool, a: T)
    requires StrictWeakOrder(less)
    ensures Filter(SortBy(s, less), Ties(less, a)) == Filter(s, Ties(less, a))
  {
    if s != [] {
      SortByStable(s[1..], less, a);
      InsertByStable(s[0], SortBy(s[1..], less), less, a);
    }
  }

  /** Every element of a sorted copy is one of the input's. */
  lemma SortByMembers<T>(s: seq<T>, less: (T, T) -> bool, k: nat)
    requires k < |s|
    ensures SortBy(s, less)[k] in s
  {
    var r := SortBy(s, less);
    SortByPermutes(s, less);
    assert r[k] in multiset(r);
  }
}
