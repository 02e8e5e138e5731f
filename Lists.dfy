/**
 * The array operations the pages build on: `Array.prototype.filter`,
 * `map`, `flatMap`, `slice(0, n)`, `[...new Set(xs)]` (distinct values in
 * first-seen order) and the add-or-remove tag toggle.
 */
module Lists {

  predicate NoDup<T(==,!new)>(xs: seq<T>) {
    forall i, j :: 0 <= i < j < |xs| ==> xs[i] != xs[j]
  }

  /** `a` is `b` with some elements left out, the rest in their original order. */
  predicate IsSubsequence<T(==,!new)>(a: seq<T>, b: seq<T>)
    decreases |b|
  {
    a == [] || (b != [] && ((a[0] == b[0] && IsSubsequence(a[1..], b[1..])) || IsSubsequence(a, b[1..])))
  }

  /** A subsequence never holds an element more often than the sequence it is taken from. */
  lemma {:induction false} SubsequenceMultiset<T(!new)>(a: seq<T>, b: seq<T>)
    requires IsSubsequence(a, b)
    ensures multiset(a) <= multiset(b)
    decreases |b|
  {
    if a != [] {
      assert b == [b[0]] + b[1..];
      if a[0] == b[0] && IsSubsequence(a[1..], b[1..]) {
        SubsequenceMultiset(a[1..], b[1..]);
        assert a == [a[0]] + a[1..];
      } else {
        SubsequenceMultiset(a, b[1..]);
      }
    }
  }

  lemma NoDupCons<T(!new)>(x: T, ys: seq<T>)
    ensures NoDup([x] + ys) <==> x !in ys && NoDup(ys)
  {
    var xs := [x] + ys;
    if x !in ys && NoDup(ys) {
      forall i, j | 0 <= i < j < |xs| ensures xs[i] != xs[j] {
        if i > 0 { assert xs[i] == ys[i - 1] && xs[j] == ys[j - 1]; }
        else { assert xs[j] == ys[j - 1]; }
      }
    }
    if NoDup(xs) {
      forall i, j | 0 <= i < j < |ys| ensures ys[i] != ys[j] {
        assert ys[i] == xs[i + 1] && ys[j] == xs[j + 1];
      }
      forall k | 0 <= k < |ys| ensures ys[k] != x {
        assert xs[0] == x && ys[k] == xs[k + 1];
      }
    }
  }

  // ---------------------------------------------------------------------------
  // filter

  /** `xs.filter(p)` */
  function Filter<T(!new)>(xs: seq<T>, p: T -> bool): (r: seq<T>)
    ensures |r| <= |xs|
    ensures forall x :: x in r <==> x in xs && p(x)
    ensures IsSubsequence(r, xs)
    decreases |xs|
  {
    if xs == [] then []
    else
      var rest := Filter(xs[1..], p);
      assert xs == [xs[0]] + xs[1..];
      if p(xs[0]) then
        var r := [xs[0]] + rest;
        assert r[1..] == rest;
        r
      else rest
  }

  /** Filtering works element by element: it distributes over concatenation. */
  lemma {:induction false} FilterConcat<T(!new)>(a: seq<T>, b: seq<T>, p: T -> bool)
    ensures Filter(a + b, p) == Filter(a, p) + Filter(b, p)
    decreases |a|
  {
    if a != [] {
      assert (a + b)[1..] == a[1..] + b;
      FilterConcat(a[1..], b, p);
    } else {
      assert a + b == b;
    }
  }

  lemma {:induction false} FilterAll<T(!new)>(xs: seq<T>, p: T -> bool)
    requires forall x :: x in xs ==> p(x)
    ensures Filter(xs, p) == xs
    decreases |xs|
  {
    if xs != [] {
      FilterAll(xs[1..], p);
    }
  }

  lemma {:induction false} FilterNone<T(!new)>(xs: seq<T>, p: T -> bool)
    requires forall x :: x in xs ==> !p(x)
    ensures Filter(xs, p) == []
    decreases |xs|
  {
    if xs != [] {
      FilterNone(xs[1..], p);
    }
  }

  /** Filtering with a weaker predicate keeps everything a stronger one keeps, in the same order. */
  lemma {:induction false} FilterMonotone<T(!new)>(xs: seq<T>, p: T -> bool, q: T -> bool)
    requires forall x :: x in xs && p(x) ==> q(x)
    ensures IsSubsequence(Filter(xs, p), Filter(xs, q))
    decreases |xs|
  {
    if xs != [] {
      FilterMonotone(xs[1..], p, q);
      var fp, fq := Filter(xs[1..], p), Filter(xs[1..], q);
      if p(xs[0]) {
        assert Filter(xs, p)[1..] == fp && Filter(xs, q)[1..] == fq;
      } else if q(xs[0]) {
        assert Filter(xs, q)[1..] == fq;
      }
    }
  }

  /** Predicates that agree on the elements of `xs` filter it alike. */
  lemma {:induction false} FilterCongruent<T(!new)>(xs: seq<T>, p: T -> bool, q: T -> bool)
    requires forall x :: x in xs ==> (p(x) <==> q(x))
    ensures Filter(xs, p) == Filter(xs, q)
    decreases |xs|
  {
    if xs != [] {
      FilterCongruent(xs[1..], p, q);
    }
  }

  lemma FilterIdempotent<T(!new)>(xs: seq<T>, p: T -> bool)
    ensures Filter(Filter(xs, p), p) == Filter(xs, p)
  {
    FilterAll(Filter(xs, p), p);
  }

  lemma {:induction false} FilterKeepsNoDup<T(!new)>(xs: seq<T>, p: T -> bool)
    requires NoDup(xs)
    ensures NoDup(Filter(xs, p))
    decreases |xs|
  {
    if xs != [] {
      NoDupCons(xs[0], xs[1..]);
      assert xs == [xs[0]] + xs[1..];
      FilterKeepsNoDup(xs[1..], p);
      if p(xs[0]) {
        NoDupCons(xs[0], Filter(xs[1..], p));
      }
    }
  }

  // ---------------------------------------------------------------------------
  // map, flatMap, slice

  /** `xs.map(f)` */
  function Map<T(!new), U(!new)>(xs: seq<T>, f: T -> U): (r: seq<U>)
    ensures |r| == |xs|
    ensures forall i :: 0 <= i < |xs| ==> r[i] == f(xs[i])
  {
    seq(|xs|, i requires 0 <= i < |xs| => f(xs[i]))
  }

  lemma MapMembership<T(!new), U(!new)>(xs: seq<T>, f: T -> U, y: U)
    ensures y in Map(xs, f) <==> exists x :: x in xs && f(x) == y
  {
    if y in Map(xs, f) {
      var i :| 0 <= i < |xs| && Map(xs, f)[i] == y;
      assert xs[i] in xs;
    }
  }

  /** `xs.flatMap(f)` */
  function FlatMap<T(!new), U(!new)>(xs: seq<T>, f: T -> seq<U>): (r: seq<U>)
    ensures forall y :: y in r <==> exists x :: x in xs && y in f(x)
    decreases |xs|
  {
    if xs == [] then []
    else
      assert xs == [xs[0]] + xs[1..];
      f(xs[0]) + FlatMap(xs[1..], f)
  }

  /** `xs.slice(0, n)`: the first `n` elements, or all of them when there are fewer */
  function Take<T(!new)>(xs: seq<T>, n: nat): (r: seq<T>)
    ensures |r| <= n && r <= xs
    ensures |xs| <= n ==> r == xs
    ensures n <= |xs| ==> |r| == n
  {
    if |xs| <= n then xs else xs[..n]
  }

  // ---------------------------------------------------------------------------
  // [...new Set(xs)]

  /** The position of the first occurrence of `x` */
  function IndexOf<T(==,!new)>(xs: seq<T>, x: T): (i: nat)
    requires x in xs
    ensures i < |xs| && xs[i] == x && x !in xs[..i]
  {
    if xs[0] == x then 0
    else
      assert xs[1..][..IndexOf(xs[1..], x)] == xs[1..1 + IndexOf(xs[1..], x)];
      1 + IndexOf(xs[1..], x)
  }

  /** The elements of `xs` not in `seen`, each once, in the order a `Set` filled from `xs` lists them */
  function DistinctFrom<T(==,!new)>(xs: seq<T>, seen: set<T>): (r: seq<T>)
    ensures forall x :: x in r <==> x in xs && x !in seen
    ensures NoDup(r)
    ensures IsSubsequence(r, xs)
    ensures forall i, j :: 0 <= i < j < |r| ==> IndexOf(xs, r[i]) < IndexOf(xs, r[j])
    decreases |xs|
  {
    if xs == [] then []
    else
      var x := xs[0];
      assert xs == [x] + xs[1..];
      if x in seen then
        var r := DistinctFrom(xs[1..], seen);
        assert forall y :: y in r ==> IndexOf(xs, y) == 1 + IndexOf(xs[1..], y);
        r
      else
        var rest := DistinctFrom(xs[1..], seen + {x});
        var r := [x] + rest;
        NoDupCons(x, rest);
        assert r[1..] == rest;
        assert forall y :: y in rest ==> IndexOf(xs, y) == 1 + IndexOf(xs[1..], y);
        assert forall i :: 1 <= i < |r| ==> r[i] == rest[i - 1];
        r
  }

  /** `[...new Set(xs)]` */
  function Distinct<T(==,!new)>(xs: seq<T>): (r: seq<T>)
    ensures forall x :: x in r <==> x in xs
    ensures NoDup(r)
    ensures IsSubsequence(r, xs)
    ensures forall i, j :: 0 <= i < j < |r| ==> IndexOf(xs, r[i]) < IndexOf(xs, r[j])
  {
    DistinctFrom(xs, {})
  }

  // ---------------------------------------------------------------------------
  // Tag selection: `xs.filter(t => t !== x)` and the add-or-remove toggle

  /** `xs.filter(t => t !== x)` */
  function RemoveAll<T(==,!new)>(xs: seq<T>, x: T): (r: seq<T>)
    ensures x !in r
    ensures forall y :: y != x ==> (y in r <==> y in xs)
    ensures IsSubsequence(r, xs)
  {
    Filter(xs, y => y != x)
  }

  lemma RemoveAllAbsent<T(!new)>(xs: seq<T>, x: T)
    requires x !in xs
    ensures RemoveAll(xs, x) == xs
  {
    FilterAll(xs, y => y != x);
  }

  lemma RemoveAllIdempotent<T(!new)>(xs: seq<T>, x: T)
    ensures RemoveAll(RemoveAll(xs, x), x) == RemoveAll(xs, x)
  {
    RemoveAllAbsent(RemoveAll(xs, x), x);
  }

  lemma RemoveAllKeepsNoDup<T(!new)>(xs: seq<T>, x: T)
    requires NoDup(xs)
    ensures NoDup(RemoveAll(xs, x))
  {
    FilterKeepsNoDup(xs, y => y != x);
  }

  /** Removing `x` from a duplicate-free list shortens it by exactly one when `x` occurs. */
  lemma {:induction false} RemoveAllLength<T(!new)>(xs: seq<T>, x: T)
    requires NoDup(xs)
    ensures |RemoveAll(xs, x)| == if x in xs then |xs| - 1 else |xs|
    decreases |xs|
  {
    if x !in xs {
      RemoveAllAbsent(xs, x);
    } else if xs != [] {
      NoDupCons(xs[0], xs[1..]);
      assert xs == [xs[0]] + xs[1..];
      FilterConcat([xs[0]], xs[1..], y => y != x);
      if xs[0] == x {
        RemoveAllAbsent(xs[1..], x);
      } else {
        RemoveAllLength(xs[1..], x);
      }
    }
  }

  /** Remove `x` when it is selected, otherwise select it at the end. */
  function Toggle<T(==,!new)>(xs: seq<T>, x: T): (r: seq<T>)
    ensures x in r <==> x !in xs
    ensures forall y :: y != x ==> (y in r <==> y in xs)
    ensures x !in xs ==> |r| == |xs| + 1 && r[..|xs|] == xs && r[|xs|] == x
  {
    if x in xs then RemoveAll(xs, x) else xs + [x]
  }

  /** Apart from `x` itself, toggling leaves the list as it was, order included. */
  lemma ToggleKeepsOthers<T(!new)>(xs: seq<T>, x: T)
    ensures RemoveAll(Toggle(xs, x), x) == RemoveAll(xs, x)
  {
    if x in xs {
      RemoveAllIdempotent(xs, x);
    } else {
      FilterConcat(xs, [x], y => y != x);
      RemoveAllAbsent(xs, x);
    }
  }

  lemma ToggleKeepsNoDup<T(!new)>(xs: seq<T>, x: T)
    requires NoDup(xs)
    ensures NoDup(Toggle(xs, x))
  {
    if x in xs {
      RemoveAllKeepsNoDup(xs, x);
    } else {
      var r := xs + [x];
      forall i, j | 0 <= i < j < |r| ensures r[i] != r[j] {
        if j < |xs| { assert r[i] == xs[i] && r[j] == xs[j]; }
        else { assert r[i] == xs[i]; }
      }
    }
  }

  /** Toggling a tag that was not selected, twice, gives back the original list. */
  lemma ToggleTwiceAbsent<T(!new)>(xs: seq<T>, x: T)
    requires x !in xs
    ensures Toggle(Toggle(xs, x), x) == xs
  {
    FilterConcat(xs, [x], y => y != x);
    RemoveAllAbsent(xs, x);
  }

  /** Toggling a selected tag twice moves it to the end. */
  lemma ToggleTwicePresent<T(!new)>(xs: seq<T>, x: T)
    requires x in xs
    ensures Toggle(Toggle(xs, x), x) == RemoveAll(xs, x) + [x]
  {
  }

  /** So a double toggle does not in general restore the list: here it reorders it. */
  lemma ToggleTwiceReorders()
    ensures Toggle(Toggle(["a", "b"], "a"), "a") == ["b", "a"]
  {
    var xs: seq<string> := ["a", "b"];
    assert xs == ["a"] + ["b"];
    FilterConcat(["a"], ["b"], y => y != "a");
    RemoveAllAbsent(["b"], "a");
    ToggleTwicePresent(xs, "a");
  }
}
