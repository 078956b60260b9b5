/**
 * The handful of .NET list and LINQ operations the settings store is built
 * from, stated on sequences: List<T>.IndexOf, List<T>.Remove and
 * List<T>.RemoveAll, plus the padding rows the layer matrix is grown with.
 */
module Lists {

  /** n copies of x. */
  function Repeat<T>(x: T, n: nat): (r: seq<T>)
    ensures |r| == n
    ensures forall i :: 0 <= i < n ==> r[i] == x
  {
    if n == 0 then [] else Repeat(x, n - 1) + [x]
  }

  /** List<T>.IndexOf: the position of the first element equal to x, or |xs| when there is none. */
  function IndexOf<T(==)>(xs: seq<T>, x: T): (k: nat)
    ensures k <= |xs|
    ensures k < |xs| ==> xs[k] == x
    ensures forall i :: 0 <= i < k ==> xs[i] != x
    ensures k == |xs| <==> x !in xs
  {
    if xs == [] then 0
    else if xs[0] == x then 0
    else 1 + IndexOf(xs[1..], x)
  }

  /** List<T>.Remove: drops the first element equal to x and keeps the rest in order. */
  function RemoveFirst<T(==)>(xs: seq<T>, x: T): (r: seq<T>)
  {
    if xs == [] then []
    else if xs[0] == x then xs[1..]
    else [xs[0]] + RemoveFirst(xs[1..], x)
  }

  /** RemoveFirst cuts out exactly the element at IndexOf, and nothing when x is absent. */
  lemma {:induction false} RemoveFirstSplices<T>(xs: seq<T>, x: T)
    ensures x !in xs ==> RemoveFirst(xs, x) == xs
    ensures x in xs ==> RemoveFirst(xs, x) == xs[..IndexOf(xs, x)] + xs[IndexOf(xs, x) + 1..]
  {
    if xs == [] {
    } else if xs[0] == x {
      assert IndexOf(xs, x) == 0;
    } else {
      var tail := xs[1..];
      RemoveFirstSplices(tail, x);
      assert xs == [xs[0]] + tail;
      if x in xs {
        assert x in tail;
        var k := IndexOf(tail, x);
        assert IndexOf(xs, x) == k + 1;
        assert xs[..k + 1] == [xs[0]] + tail[..k];
        assert xs[k + 2..] == tail[k + 1..];
      } else {
        assert x !in tail;
      }
    }
  }

  /** RemoveFirst takes away one occurrence of x when there is one, and no other element. */
  lemma {:induction false} RemoveFirstMultiset<T>(xs: seq<T>, x: T)
    ensures multiset(RemoveFirst(xs, x)) == multiset(xs) - multiset{x}
  {
    if xs != [] {
      assert xs == [xs[0]] + xs[1..];
      if xs[0] != x {
        RemoveFirstMultiset(xs[1..], x);
      }
    }
  }

  /**
   * The elements of xs that keep accepts, in their original order:
   * List<T>.RemoveAll(match) with keep the negation of match.
   */
  function Filter<T>(keep: T -> bool, xs: seq<T>): (r: seq<T>)
    ensures |r| <= |xs|
    ensures forall i :: 0 <= i < |r| ==> r[i] in xs && keep(r[i])
    ensures forall i :: 0 <= i < |xs| && keep(xs[i]) ==> xs[i] in r
  {
    if xs == [] then []
    else if keep(xs[0]) then [xs[0]] + Filter(keep, xs[1..])
    else Filter(keep, xs[1..])
  }

  /** Filtering distributes over concatenation, so survivors keep their relative order. */
  lemma {:induction false} FilterAppend<T>(keep: T -> bool, a: seq<T>, b: seq<T>)
    ensures Filter(keep, a + b) == Filter(keep, a) + Filter(keep, b)
  {
    if a == [] {
      assert a + b == b;
    } else {
      assert (a + b)[0] == a[0];
      assert (a + b)[1..] == a[1..] + b;
      FilterAppend(keep, a[1..], b);
    }
  }

  /** Filtering a list whose elements all survive changes nothing. */
  lemma {:induction false} FilterKeepsAll<T>(keep: T -> bool, xs: seq<T>)
    requires forall i :: 0 <= i < |xs| ==> keep(xs[i])
    ensures Filter(keep, xs) == xs
  {
    if xs != [] {
      FilterKeepsAll(keep, xs[1..]);
    }
  }

  /** A second pass of the same filter removes nothing more. */
  lemma FilterIdempotent<T>(keep: T -> bool, xs: seq<T>)
    ensures Filter(keep, Filter(keep, xs)) == Filter(keep, xs)
  {
  }

  /** Filtering never adds an occurrence of any element. */
  lemma {:induction false} FilterMultisetShrinks<T>(keep: T -> bool, xs: seq<T>)
    ensures multiset(Filter(keep, xs)) <= multiset(xs)
  {
    if xs != [] {
      assert xs == [xs[0]] + xs[1..];
      FilterMultisetShrinks(keep, xs[1..]);
    }
  }

  /** No element occurs twice: the list is used as a set. */
  ghost predicate Distinct<T>(xs: seq<T>)
  {
    forall i :: 0 <= i < |xs| ==> multiset(xs)[xs[i]] == 1
  }
}
