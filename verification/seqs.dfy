/** The array operations the pages use on their lists: `filter`, `slice(0, n)`
    and the toggle idiom `xs.includes(x) ? xs.filter(y => y !== x) : [...xs, x]`. */
module Seqs {

  /** `s.filter(keep)`: the elements that satisfy `keep`, in their original order. */
  function Filter<T(==,!new)>(s: seq<T>, keep: T -> bool): (r: seq<T>)
    ensures |r| <= |s|
    ensures forall x :: x in r <==> x in s && keep(x)
  {
    if s == [] then []
    else (if keep(s[0]) then [s[0]] else []) + Filter(s[1..], keep)
  }

  /** Filtering a concatenation filters each part and keeps them in order. */
  lemma {:induction false} FilterAppend<T(!new)>(a: seq<T>, b: seq<T>, keep: T -> bool)
    ensures Filter(a + b, keep) == Filter(a, keep) + Filter(b, keep)
  {
    if a == [] {
      assert a + b == b;
    } else {
      assert (a + b)[1..] == a[1..] + b;
      FilterAppend(a[1..], b, keep);
    }
  }

  /** Nothing is dropped when every element is kept. */
  lemma {:induction false} FilterKeepsAll<T(!new)>(s: seq<T>, keep: T -> bool)
    requires forall x :: x in s ==> keep(x)
    ensures Filter(s, keep) == s
  {
    if s != [] {
      FilterKeepsAll(s[1..], keep);
    }
  }

  /** Nothing is left when no element is kept. */
  lemma {:induction false} FilterKeepsNone<T(!new)>(s: seq<T>, keep: T -> bool)
    requires forall x :: x in s ==> !keep(x)
    ensures Filter(s, keep) == []
  {
    if s != [] {
      FilterKeepsNone(s[1..], keep);
    }
  }

  /** Taking the same element out of two rearrangements of each other leaves
      rearrangements of each other. */
  lemma RemoveFromBoth<T>(a: seq<T>, x: T, pre: seq<T>, post: seq<T>)
    requires multiset(a + [x]) == multiset(pre + [x] + post)
    ensures multiset(a) == multiset(pre + post)
  {
    assert multiset(a + [x]) == multiset(a) + multiset{x};
    assert multiset(pre + [x] + post) == multiset(pre) + multiset(post) + multiset{x};
    assert multiset(pre + post) == multiset(pre) + multiset(post);
    forall y ensures multiset(a)[y] == multiset(pre + post)[y] {
      assert multiset(a + [x])[y] == multiset(a)[y] + multiset{x}[y];
    }
  }

  lemma ConcatAssociates<T>(a: seq<T>, b: seq<T>, c: seq<T>)
    ensures a + b + c == a + (b + c)
  {
  }

  /** Filtering twice by the same test is filtering once. */
  lemma FilterIdempotent<T(!new)>(s: seq<T>, keep: T -> bool)
    ensures Filter(Filter(s, keep), keep) == Filter(s, keep)
  {
    FilterKeepsAll(Filter(s, keep), keep);
  }

  /** Splitting `s` at `n` splits its filtered sequence accordingly. */
  lemma {:induction false} FilterPrefix<T(!new)>(s: seq<T>, n: nat, keep: T -> bool)
    requires n <= |s|
    ensures Filter(s, keep) == Filter(s[..n], keep) + Filter(s[n..], keep)
  {
    assert s == s[..n] + s[n..];
    FilterAppend(s[..n], s[n..], keep);
  }

  function Min(a: int, b: int): int { if a < b then a else b }

  /** `s.slice(0, n)`. */
  function Take<T>(s: seq<T>, n: nat): (r: seq<T>)
    ensures |r| == Min(n, |s|)
    ensures forall i :: 0 <= i < |r| ==> r[i] == s[i]
  {
    s[..Min(n, |s|)]
  }

  /** `xs.includes(x) ? xs.filter(y => y !== x) : [...xs, x]`. */
  function Toggle<T(==,!new)>(xs: seq<T>, x: T): (r: seq<T>)
  {
    if x in xs then Filter(xs, y => y != x) else xs + [x]
  }

  /** Toggling flips membership of `x` and leaves every other value's membership alone. */
  lemma ToggleMembership<T(!new)>(xs: seq<T>, x: T, y: T)
    ensures y in Toggle(xs, x) <==> (if y == x then x !in xs else y in xs)
  {
  }

  /** Toggling a value that is not selected, twice, restores the list exactly. */
  lemma ToggleTwiceAbsent<T(!new)>(xs: seq<T>, x: T)
    requires x !in xs
    ensures Toggle(Toggle(xs, x), x) == xs
  {
    var keep := (y: T) => y != x;
    assert Toggle(xs, x) == xs + [x];
    FilterAppend(xs, [x], keep);
    FilterKeepsAll(xs, keep);
    assert Filter([x], keep) == [];
  }

  /** Toggling a selected value twice moves it to the end of the list: the
      same values stay selected. */
  lemma ToggleTwicePresent<T(!new)>(xs: seq<T>, x: T)
    requires x in xs
    ensures Toggle(Toggle(xs, x), x) == Filter(xs, y => y != x) + [x]
    ensures forall y :: y in Toggle(Toggle(xs, x), x) <==> y in xs
  {
  }

  predicate NoDuplicates<T(==,!new)>(s: seq<T>)
  {
    forall i, j :: 0 <= i < j < |s| ==> s[i] != s[j]
  }

  /** A filter keeps a duplicate-free list duplicate-free. */
  lemma {:induction false} FilterNoDuplicates<T(!new)>(s: seq<T>, keep: T -> bool)
    requires NoDuplicates(s)
    ensures NoDuplicates(Filter(s, keep))
  {
    if s != [] {
      FilterNoDuplicates(s[1..], keep);
      var rest := Filter(s[1..], keep);
      assert s[0] !in s[1..];
      assert s[0] !in rest;
    }
  }

  /** Toggling keeps a selection duplicate-free. */
  lemma ToggleNoDuplicates<T(!new)>(xs: seq<T>, x: T)
    requires NoDuplicates(xs)
    ensures NoDuplicates(Toggle(xs, x))
  {
    if x in xs {
      FilterNoDuplicates(xs, y => y != x);
    }
  }
}
