/** Array operations the pages use: `indexOf`, first-occurrence de-duplication, and order-preserving selection. */
module Seqs {

  /** `xs.indexOf(x)`: the first position holding `x`, or -1. */
  function FirstIndex<T(==)>(xs: seq<T>, x: T): (r: int)
    ensures r == -1 <==> x !in xs
    ensures r != -1 ==> 0 <= r < |xs| && xs[r] == x && x !in xs[..r]
  {
    if xs == [] then -1
    else if xs[0] == x then 0
    else
      var r := FirstIndex(xs[1..], x);
      if r == -1 then -1
      else
        assert xs[..r + 1] == [xs[0]] + xs[1..][..r];
        r + 1
  }

  /** The element at position `i` is the first one of its value exactly when no copy precedes it. */
  lemma FirstIndexAt<T>(xs: seq<T>, i: int)
    requires 0 <= i < |xs|
    ensures FirstIndex(xs, xs[i]) <= i
    ensures FirstIndex(xs, xs[i]) == i <==> xs[i] !in xs[..i]
  {
    var r := FirstIndex(xs, xs[i]);
    assert r < i ==> xs[..i][r] == xs[i];
  }

  /** A value of `xs[..m]` has its first index below `m`. */
  lemma FirstIndexBelow<T>(xs: seq<T>, m: nat, y: T)
    requires m <= |xs| && y in xs[..m]
    ensures 0 <= FirstIndex(xs, y) < m
  {
    var k :| 0 <= k < m && xs[..m][k] == y;
    FirstIndexAt(xs, k);
  }

  /**
   * `xs.filter((x, i, self) => self.indexOf(x) === i)` over the first `n`
   * elements: the elements of `xs[..n]` that stand at their own first index.
   */
  function KeepFirst<T(==)>(xs: seq<T>, n: nat): (r: seq<T>)
    requires n <= |xs|
  {
    if n == 0 then []
    else if FirstIndex(xs, xs[n - 1]) == n - 1 then KeepFirst(xs, n - 1) + [xs[n - 1]]
    else KeepFirst(xs, n - 1)
  }

  /** The kept elements are the values of `xs[..n]`, each once, in order of first occurrence. */
  lemma {:induction false} KeepFirstSpec<T>(xs: seq<T>, n: nat)
    requires n <= |xs|
    ensures forall i :: 0 <= i < |KeepFirst(xs, n)| ==> KeepFirst(xs, n)[i] in xs[..n]
    ensures forall k :: 0 <= k < n ==> xs[k] in KeepFirst(xs, n)
    ensures forall i, j :: 0 <= i < j < |KeepFirst(xs, n)| ==>
      FirstIndex(xs, KeepFirst(xs, n)[i]) < FirstIndex(xs, KeepFirst(xs, n)[j])
  {
    if n > 0 {
      KeepFirstSpec(xs, n - 1);
      var prev := KeepFirst(xs, n - 1);
      var x := xs[n - 1];
      assert xs[..n] == xs[..n - 1] + [x];
      FirstIndexAt(xs, n - 1);
      forall i | 0 <= i < |prev| ensures FirstIndex(xs, prev[i]) < n - 1 {
        FirstIndexBelow(xs, n - 1, prev[i]);
      }
      if FirstIndex(xs, x) != n - 1 {
        var k :| 0 <= k < n - 1 && xs[..n - 1][k] == x;
        assert xs[k] in prev;
      }
    }
  }

  /** The whole-array de-duplication. */
  function Dedup<T(==)>(xs: seq<T>): (r: seq<T>)
  {
    KeepFirst(xs, |xs|)
  }

  predicate NoDuplicates<T(==)>(xs: seq<T>)
  {
    forall i, j :: 0 <= i < j < |xs| ==> xs[i] != xs[j]
  }

  /** The de-duplicated array holds each value of the input exactly once, in first-occurrence order. */
  lemma DedupSpec<T>(xs: seq<T>)
    ensures NoDuplicates(Dedup(xs))
    ensures forall i :: 0 <= i < |Dedup(xs)| ==> Dedup(xs)[i] in xs
    ensures forall k :: 0 <= k < |xs| ==> xs[k] in Dedup(xs)
    ensures forall i, j :: 0 <= i < j < |Dedup(xs)| ==> FirstIndex(xs, Dedup(xs)[i]) < FirstIndex(xs, Dedup(xs)[j])
  {
    KeepFirstSpec(xs, |xs|);
    assert xs[..|xs|] == xs;
  }

  /** De-duplicating a duplicate-free array changes nothing. */
  lemma {:induction false} DedupNoDuplicates<T>(xs: seq<T>, n: nat)
    requires n <= |xs| && NoDuplicates(xs)
    ensures KeepFirst(xs, n) == xs[..n]
  {
    if n > 0 {
      DedupNoDuplicates(xs, n - 1);
      FirstIndexAt(xs, n - 1);
      assert xs[n - 1] !in xs[..n - 1];
      assert xs[..n] == xs[..n - 1] + [xs[n - 1]];
    }
  }

  /** `sub` keeps some elements of `xs` in their original order. */
  predicate IsSubsequence<T(==)>(sub: seq<T>, xs: seq<T>)
    decreases |xs|
  {
    sub == [] ||
    (xs != [] && ((sub[0] == xs[0] && IsSubsequence(sub[1..], xs[1..])) || IsSubsequence(sub, xs[1..])))
  }
}
