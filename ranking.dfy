/**
  `nlargest(n, col)` with pandas' default keep='first': the n rows with the
  largest values of the column, largest first, and among rows with equal
  values the one that comes first in the frame is preferred and listed first.

  Rows are referred to by their positions; `keys[i]` is the column's value in
  row i, and `cand` lists the positions taking part (the rows a filter kept).
*/
module Ranking {

  function Min(a: int, b: int): int {
    if a <= b then a else b
  }

  /** Row i is ranked ahead of row j: a larger key, or an equal key and an earlier row. */
  predicate Before(keys: seq<int>, i: nat, j: nat)
    requires i < |keys| && j < |keys|
  {
    keys[i] > keys[j] || (keys[i] == keys[j] && i < j)
  }

  ghost predicate Positions(keys: seq<int>, ps: seq<nat>) {
    forall a :: 0 <= a < |ps| ==> ps[a] < |keys|
  }

  ghost predicate Distinct(ps: seq<nat>) {
    forall a, b :: 0 <= a < b < |ps| ==> ps[a] != ps[b]
  }

  /** ps lists rows in strictly ranked order. */
  ghost predicate Ranked(keys: seq<int>, ps: seq<nat>) {
    && Positions(keys, ps)
    && forall a, b :: 0 <= a < b < |ps| ==> Before(keys, ps[a], ps[b])
  }

  /** Places row i into a ranked list. */
  function Insert(keys: seq<int>, i: nat, ps: seq<nat>): (r: seq<nat>)
    requires i < |keys| && Ranked(keys, ps) && i !in ps
    ensures Ranked(keys, r) && |r| == |ps| + 1
    ensures forall x :: x in r <==> x == i || x in ps
  {
    if ps == [] || Before(keys, i, ps[0]) then [i] + ps
    else
      var rest := Insert(keys, i, ps[1..]);
      assert forall b :: 0 <= b < |rest| ==> Before(keys, ps[0], rest[b]) by {
        forall b | 0 <= b < |rest| ensures Before(keys, ps[0], rest[b]) {
          assert rest[b] in rest;
          if rest[b] != i {
            var a :| 0 <= a < |ps[1..]| && ps[1..][a] == rest[b];
            assert ps[a + 1] == rest[b];
          }
        }
      }
      assert ps == [ps[0]] + ps[1..];
      [ps[0]] + rest
  }

  /** All the candidate rows, ranked. */
  function Rank(keys: seq<int>, cand: seq<nat>): (r: seq<nat>)
    requires Positions(keys, cand) && Distinct(cand)
    ensures Ranked(keys, r) && |r| == |cand|
    ensures forall x :: x in r <==> x in cand
  {
    if cand == [] then []
    else
      var rest := Rank(keys, cand[1..]);
      assert cand[0] !in cand[1..];
      assert cand == [cand[0]] + cand[1..];
      Insert(keys, cand[0], rest)
  }

  /** nlargest(n): the first n candidates in ranked order. The result is as
      long as it can be, ranked, drawn from the candidates, and every
      candidate left out ranks behind every one returned. */
  function Largest(keys: seq<int>, cand: seq<nat>, n: nat): (r: seq<nat>)
    requires Positions(keys, cand) && Distinct(cand)
    ensures |r| == Min(n, |cand|)
    ensures Ranked(keys, r)
    ensures forall x :: x in r ==> x in cand
    ensures forall j :: j in cand && j !in r ==>
              forall a :: 0 <= a < |r| ==> Before(keys, r[a], j)
  {
    var ranked := Rank(keys, cand);
    var m := Min(n, |cand|);
    assert forall j :: j in cand && j !in ranked[..m] ==>
             forall a :: 0 <= a < m ==> Before(keys, ranked[a], j) by {
      forall j, a | j in cand && j !in ranked[..m] && 0 <= a < m
        ensures Before(keys, ranked[a], j)
      {
        var b :| 0 <= b < |ranked| && ranked[b] == j;
      }
    }
    ranked[..m]
  }

  /** Ranked lists have their keys in non-increasing order. */
  lemma RankedNonIncreasing(keys: seq<int>, ps: seq<nat>)
    requires Ranked(keys, ps)
    ensures forall a, b :: 0 <= a < b < |ps| ==> keys[ps[a]] >= keys[ps[b]]
    ensures Distinct(ps)
  {
  }

  /** Every row of the frame, in order. */
  function AllRows(n: nat): (r: seq<nat>)
    ensures |r| == n && forall a :: 0 <= a < n ==> r[a] == a
  {
    seq(n, a => a)
  }

  /** The positions of the rows that satisfy a filter, in order. */
  function Where(mask: seq<bool>): (r: seq<nat>)
    ensures forall a :: 0 <= a < |r| ==> r[a] < |mask| && mask[r[a]]
    ensures forall i :: 0 <= i < |mask| && mask[i] ==> i in r
    ensures forall a, b :: 0 <= a < b < |r| ==> r[a] < r[b]
  {
    if mask == [] then []
    else
      var n := |mask| - 1;
      var init := Where(mask[..n]);
      if mask[n] then init + [n] else init
  }

  /** Rows of the frame for which the filter holds: the length of the filter's result. */
  function CountTrue(mask: seq<bool>): nat {
    if mask == [] then 0 else CountTrue(mask[..|mask| - 1]) + (if mask[|mask| - 1] then 1 else 0)
  }

  lemma {:induction false} WhereLength(mask: seq<bool>)
    ensures |Where(mask)| == CountTrue(mask)
  {
    if mask != [] {
      WhereLength(mask[..|mask| - 1]);
    }
  }

  /** nlargest on the rows a filter keeps: min(n, rows kept) kept rows, ranked,
      and every kept row left out ranks behind every one returned. */
  function LargestWhere(keys: seq<int>, mask: seq<bool>, n: nat): (r: seq<nat>)
    requires |mask| == |keys|
    ensures |r| == Min(n, CountTrue(mask))
    ensures Ranked(keys, r)
    ensures forall a :: 0 <= a < |r| ==> mask[r[a]]
    ensures forall j :: 0 <= j < |keys| && mask[j] && j !in r ==>
              forall a :: 0 <= a < |r| ==> Before(keys, r[a], j)
  {
    var cand := Where(mask);
    WhereLength(mask);
    var r := Largest(keys, cand, n);
    forall a | 0 <= a < |r| ensures mask[r[a]] {
      assert r[a] in r;
      var b :| 0 <= b < |cand| && cand[b] == r[a];
    }
    r
  }
}
