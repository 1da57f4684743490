/** `Array.prototype.sort` with a numeric comparator `(a, b) => key(a) - key(b)`.
    The language requires the sort to be stable, so it is modelled as an
    insertion sort that puts each element before the elements of equal key
    that follow it in the input. */
module Sorting {

  import opened Seqs

  /** Ascending by `key`. */
  predicate SortedBy<T>(s: seq<T>, key: T -> int)
  {
    forall i, j :: 0 <= i < j < |s| ==> key(s[i]) <= key(s[j])
  }

  /** Inserts `x` before the first element whose key is at least its own. */
  function InsertBy<T>(x: T, t: seq<T>, key: T -> int): (r: seq<T>)
    ensures multiset(r) == multiset(t) + multiset{x}
    ensures |r| == |t| + 1
  {
    if t == [] || key(x) <= key(t[0]) then [x] + t
    else
      assert t == [t[0]] + t[1..];
      [t[0]] + InsertBy(x, t[1..], key)
  }

  /** `s.sort((a, b) => key(a) - key(b))`. */
  function SortBy<T>(s: seq<T>, key: T -> int): (r: seq<T>)
    ensures multiset(r) == multiset(s)
    ensures |r| == |s|
  {
    if s == [] then []
    else
      assert s == [s[0]] + s[1..];
      InsertBy(s[0], SortBy(s[1..], key), key)
  }

  lemma {:induction false} InsertBySorted<T>(x: T, t: seq<T>, key: T -> int)
    requires SortedBy(t, key)
    ensures SortedBy(InsertBy(x, t, key), key)
  {
    if t != [] && key(x) > key(t[0]) {
      var rest := InsertBy(x, t[1..], key);
      assert SortedBy(t[1..], key) by {
        forall i, j | 0 <= i < j < |t[1..]| ensures key(t[1..][i]) <= key(t[1..][j]) {
          assert t[1..][i] == t[i + 1] && t[1..][j] == t[j + 1];
        }
      }
      InsertBySorted(x, t[1..], key);
      forall j | 0 <= j < |rest| ensures key(t[0]) <= key(rest[j]) {
        assert rest[j] in multiset(rest);
        assert rest[j] in multiset(t[1..]) + multiset{x};
        if rest[j] != x {
          assert rest[j] in t[1..];
          var m :| 0 <= m < |t[1..]| && t[1..][m] == rest[j];
          assert t[m + 1] == rest[j];
        }
      }
      var r := [t[0]] + rest;
      forall i, j | 0 <= i < j < |r| ensures key(r[i]) <= key(r[j]) {
        if i > 0 {
          assert r[i] == rest[i - 1] && r[j] == rest[j - 1];
        } else {
          assert r[j] == rest[j - 1];
        }
      }
    }
  }

  /** The sorted sequence is in ascending key order and is a rearrangement
      of the input. */
  lemma {:induction false} SortBySorted<T>(s: seq<T>, key: T -> int)
    ensures SortedBy(SortBy(s, key), key)
    ensures multiset(SortBy(s, key)) == multiset(s)
  {
    if s != [] {
      SortBySorted(s[1..], key);
      InsertBySorted(s[0], SortBy(s[1..], key), key);
    }
  }

  /** Keeps the elements whose key is `c`. */
  function KeyIs<T>(key: T -> int, c: int): T -> bool
  {
    (x: T) => key(x) == c
  }

  lemma SortedTail<T>(t: seq<T>, key: T -> int)
    requires t != [] && SortedBy(t, key)
    ensures SortedBy(t[1..], key)
  {
    forall i, j | 0 <= i < j < |t[1..]| ensures key(t[1..][i]) <= key(t[1..][j]) {
      assert t[1..][i] == t[i + 1] && t[1..][j] == t[j + 1];
    }
  }

  /** Filtering `[a] + s` decides `a` first, then filters `s`. */
  lemma FilterCons<T(!new)>(a: T, s: seq<T>, keep: T -> bool)
    ensures Filter([a] + s, keep) == (if keep(a) then [a] else []) + Filter(s, keep)
  {
    assert ([a] + s)[1..] == s;
  }

  /** Putting the same element in front of two sequences keeps a filtered
      prefix `own` in front, provided that element is dropped or `own` is empty. */
  lemma FilterConsShift<T(!new)>(a: T, s: seq<T>, u: seq<T>, own: seq<T>, keep: T -> bool)
    requires Filter(s, keep) == own + Filter(u, keep)
    requires keep(a) ==> own == []
    ensures Filter([a] + s, keep) == own + Filter([a] + u, keep)
  {
    FilterCons(a, s, keep);
    FilterCons(a, u, keep);
    if keep(a) {
      assert own + Filter(u, keep) == Filter(u, keep);
      assert own + Filter([a] + u, keep) == Filter([a] + u, keep);
    } else {
      assert Filter([a] + s, keep) == Filter(s, keep);
      assert Filter([a] + u, keep) == Filter(u, keep);
    }
  }

  lemma {:induction false} InsertByStable<T(!new)>(x: T, t: seq<T>, key: T -> int, c: int)
    requires SortedBy(t, key)
    ensures Filter(InsertBy(x, t, key), KeyIs(key, c)) ==
      (if key(x) == c then [x] else []) + Filter(t, KeyIs(key, c))
  {
    var keep := KeyIs(key, c);
    if t != [] && key(x) > key(t[0]) {
      SortedTail(t, key);
      InsertByStable(x, t[1..], key, c);
      assert t == [t[0]] + t[1..];
      FilterConsShift(t[0], InsertBy(x, t[1..], key), t[1..], if key(x) == c then [x] else [], keep);
    } else {
      FilterCons(x, t, keep);
    }
  }

  /** Stability: the elements of any one key come out in their input order. */
  lemma {:induction false} SortByStable<T(!new)>(s: seq<T>, key: T -> int, c: int)
    ensures Filter(SortBy(s, key), KeyIs(key, c)) == Filter(s, KeyIs(key, c))
  {
    if s != [] {
      SortByStable(s[1..], key, c);
      SortBySorted(s[1..], key);
      InsertByStable(s[0], SortBy(s[1..], key), key, c);
    }
  }

  /** A comparator that always returns 0 leaves the order as it was. */
  lemma {:induction false} SortByConstantKey<T>(s: seq<T>, key: T -> int)
    requires forall x :: x in s ==> key(x) == 0
    ensures SortBy(s, key) == s
  {
    if s != [] {
      SortByConstantKey(s[1..], key);
      assert s[1..] != [] ==> s[1..][0] in s;
    }
  }
}
