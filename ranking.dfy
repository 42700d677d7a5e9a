/**
 * Descending sorts on one numeric key, as `sort({ key: -1 })` orders query
 * results. Insertion sort: an element goes before the first element whose
 * key is no greater, so among equal keys the earlier element stays first.
 */
module Ranking {
  /** Greatest key first. */
  predicate Descending<T>(xs: seq<T>, key: T -> int) {
    forall i, j :: 0 <= i < j < |xs| ==> key(xs[i]) >= key(xs[j])
  }

  /** An element whose key is at least every key of a descending list can go in front of it. */
  lemma PrependDescending<T>(a: T, xs: seq<T>, key: T -> int)
    requires Descending(xs, key) && forall x :: x in xs ==> key(a) >= key(x)
    ensures Descending([a] + xs, key)
  {
    var r := [a] + xs;
    forall i, j | 0 <= i < j < |r| ensures key(r[i]) >= key(r[j]) {
      assert r[j] == xs[j - 1];
      if i > 0 {
        assert r[i] == xs[i - 1];
      }
    }
  }

  /** An element whose key is at least the first key of a descending list is at least all of them. */
  lemma HeadBoundsAll<T>(a: T, xs: seq<T>, key: T -> int)
    requires Descending(xs, key) && (xs == [] || key(xs[0]) <= key(a))
    ensures forall y :: y in xs ==> key(a) >= key(y)
  {
    forall y | y in xs ensures key(a) >= key(y) {
      var k :| 0 <= k < |xs| && xs[k] == y;
      assert key(xs[0]) >= key(xs[k]);
    }
  }

  /** Puts `x` before the first element whose key is no greater than its own. */
  function Insert<T(!new)>(x: T, xs: seq<T>, key: T -> int): (r: seq<T>)
    requires Descending(xs, key)
    ensures forall y :: y in r <==> y == x || y in xs
    ensures Descending(r, key)
    ensures multiset(r) == multiset(xs) + multiset{x}
  {
    if xs == [] || key(xs[0]) <= key(x) then
      HeadBoundsAll(x, xs, key);
      PrependDescending(x, xs, key);
      [x] + xs
    else
      var tail := xs[1..];
      assert xs == [xs[0]] + tail;
      assert Descending(tail, key);
      var rest := Insert(x, tail, key);
      HeadBoundsAll(xs[0], tail, key);
      PrependDescending(xs[0], rest, key);
      [xs[0]] + rest
  }

  /** The elements of `xs`, greatest key first. */
  function SortDescending<T(!new)>(xs: seq<T>, key: T -> int): (r: seq<T>)
    ensures forall y :: y in r <==> y in xs
    ensures Descending(r, key)
    ensures multiset(r) == multiset(xs)
  {
    if xs == [] then []
    else
      assert xs == [xs[0]] + xs[1..];
      Insert(xs[0], SortDescending(xs[1..], key), key)
  }

  /** A prefix of a descending sequence is descending. */
  lemma PrefixDescending<T>(xs: seq<T>, key: T -> int, k: nat)
    requires k <= |xs| && Descending(xs, key)
    ensures Descending(xs[..k], key)
  {
    forall i, j | 0 <= i < j < k ensures key(xs[..k][i]) >= key(xs[..k][j]) {
      assert xs[..k][i] == xs[i] && xs[..k][j] == xs[j];
    }
  }

  /** A prefix holds each value at most as often as the whole sequence. */
  lemma PrefixCounts<T>(xs: seq<T>, k: nat)
    requires k <= |xs|
    ensures forall x :: multiset(xs[..k])[x] <= multiset(xs)[x]
  {
    assert xs == xs[..k] + xs[k..];
  }

  /** A value found at two positions occurs at least twice. */
  lemma RepeatCounted<T>(xs: seq<T>, i: nat, j: nat)
    requires i < j < |xs| && xs[i] == xs[j]
    ensures multiset(xs)[xs[i]] >= 2
  {
    assert xs == xs[..j] + [xs[j]] + xs[j + 1..];
    assert xs[..j][i] == xs[i];
  }
}
