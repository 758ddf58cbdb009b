/**
  The key orders that pandas' groupby (sort=True) uses to order its groups:
  Python's order on strings (code point by code point, a proper prefix first),
  and the lexicographic order on a tuple of string keys.
*/
module Ordering {

  /** lt is a strict total order: irreflexive, transitive and total. */
  ghost predicate StrictTotalOrder<K(!new)>(lt: (K, K) -> bool) {
    && (forall a :: !lt(a, a))
    && (forall a, b, c :: lt(a, b) && lt(b, c) ==> lt(a, c))
    && (forall a, b :: a != b ==> lt(a, b) || lt(b, a))
  }

  /** Python's `a < b` on str. */
  predicate StrLess(a: string, b: string) {
    if |a| == 0 then |b| > 0
    else if |b| == 0 then false
    else if a[0] != b[0] then a[0] < b[0]
    else StrLess(a[1..], b[1..])
  }

  lemma {:induction false} StrLessIrreflexive(a: string)
    ensures !StrLess(a, a)
  {
    if |a| > 0 {
      StrLessIrreflexive(a[1..]);
    }
  }

  lemma {:induction false} StrLessTransitive(a: string, b: string, c: string)
    requires StrLess(a, b) && StrLess(b, c)
    ensures StrLess(a, c)
  {
    if |a| > 0 && a[0] == b[0] && b[0] == c[0] {
      StrLessTransitive(a[1..], b[1..], c[1..]);
    }
  }

  lemma {:induction false} StrLessTotal(a: string, b: string)
    requires a != b
    ensures StrLess(a, b) || StrLess(b, a)
  {
    if |a| > 0 && |b| > 0 && a[0] == b[0] {
      assert a == [a[0]] + a[1..] && b == [b[0]] + b[1..];
      StrLessTotal(a[1..], b[1..]);
    }
  }

  lemma StrLessIsStrictTotalOrder()
    ensures StrictTotalOrder(StrLess)
  {
    forall a ensures !StrLess(a, a) {
      StrLessIrreflexive(a);
    }
    forall a, b, c | StrLess(a, b) && StrLess(b, c) ensures StrLess(a, c) {
      StrLessTransitive(a, b, c);
    }
    forall a, b | a != b ensures StrLess(a, b) || StrLess(b, a) {
      StrLessTotal(a, b);
    }
  }

  /** Python's order on int keys and on bool keys (False < True). */
  predicate IntLess(a: int, b: int) {
    a < b
  }

  predicate BoolLess(a: bool, b: bool) {
    !a && b
  }

  lemma IntLessIsStrictTotalOrder()
    ensures StrictTotalOrder(IntLess)
  {
  }

  lemma BoolLessIsStrictTotalOrder()
    ensures StrictTotalOrder(BoolLess)
  {
  }

  /** A key of three strings, compared as a Python tuple. */
  datatype Triple = Triple(first: string, second: string, third: string)

  predicate TripleLess(a: Triple, b: Triple) {
    || StrLess(a.first, b.first)
    || (a.first == b.first && StrLess(a.second, b.second))
    || (a.first == b.first && a.second == b.second && StrLess(a.third, b.third))
  }

  lemma TripleLessIsStrictTotalOrder()
    ensures StrictTotalOrder(TripleLess)
  {
    StrLessIsStrictTotalOrder();
  }
}
