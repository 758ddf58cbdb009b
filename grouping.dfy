/**
  `df.groupby(key)[col].sum()` (and `.count()`, a sum of ones): one group per
  distinct key, ordered by the key (pandas' default sort=True), each holding
  the sum of the column over the rows with that key.

  Rows are given as two aligned sequences: the key of each row and the value
  summed for it.
*/
module Grouping {
  import opened Ordering

  datatype Group<K> = Group(key: K, value: int)

  function Sum(vs: seq<int>): int {
    if vs == [] then 0 else Sum(vs[..|vs| - 1]) + vs[|vs| - 1]
  }

  /** The sum of the values of the rows whose key is k. */
  function SumWhere<K(==)>(ks: seq<K>, vs: seq<int>, k: K): int
    requires |ks| == |vs|
  {
    if ks == [] then 0
    else SumWhere(ks[..|ks| - 1], vs[..|vs| - 1], k) + (if ks[|ks| - 1] == k then vs[|vs| - 1] else 0)
  }

  /** The sum of all the group values. */
  function Total<K>(t: seq<Group<K>>): int {
    if t == [] then 0 else t[0].value + Total(t[1..])
  }

  /** The value a table holds for key k (0 when it has no such group). */
  function ValueOf<K(==)>(t: seq<Group<K>>, k: K): int {
    if t == [] then 0 else (if t[0].key == k then t[0].value else 0) + ValueOf(t[1..], k)
  }

  function KeySet<K>(t: seq<Group<K>>): set<K> {
    if t == [] then {} else {t[0].key} + KeySet(t[1..])
  }

  lemma {:induction false} KeySetMember<K>(t: seq<Group<K>>, i: nat)
    requires i < |t|
    ensures t[i].key in KeySet(t)
  {
    if i > 0 {
      KeySetMember(t[1..], i - 1);
    }
  }

  /** A position holding a key of the table. */
  function KeySetIndex<K(==)>(t: seq<Group<K>>, k: K): (i: nat)
    requires k in KeySet(t)
    ensures i < |t| && t[i].key == k
  {
    if t[0].key == k then 0 else 1 + KeySetIndex(t[1..], k)
  }

  /** The groups are in strictly ascending key order, so no key repeats. */
  ghost predicate Increasing<K>(t: seq<Group<K>>, lt: (K, K) -> bool) {
    forall i, j :: 0 <= i < j < |t| ==> lt(t[i].key, t[j].key)
  }

  /** Adds one row to a grouped table. */
  function Add<K(==,!new)>(t: seq<Group<K>>, k: K, v: int, lt: (K, K) -> bool): (r: seq<Group<K>>)
    requires StrictTotalOrder(lt) && Increasing(t, lt)
    ensures Increasing(r, lt)
    ensures KeySet(r) == KeySet(t) + {k}
  {
    if t == [] then [Group(k, v)]
    else if t[0].key == k then [Group(k, t[0].value + v)] + t[1..]
    else if lt(k, t[0].key) then [Group(k, v)] + t
    else
      var rest := Add(t[1..], k, v, lt);
      assert forall j :: 0 <= j < |rest| ==> lt(t[0].key, rest[j].key) by {
        forall j | 0 <= j < |rest| ensures lt(t[0].key, rest[j].key) {
          KeySetMember(rest, j);
          if rest[j].key != k {
            var i := KeySetIndex(t[1..], rest[j].key);
            assert t[i + 1].key == rest[j].key;
          }
        }
      }
      assert ([t[0]] + rest)[1..] == rest;
      [t[0]] + rest
  }

  /** groupby(key)[col].sum(): the rows folded into a table, first to last. */
  function GroupSum<K(==,!new)>(ks: seq<K>, vs: seq<int>, lt: (K, K) -> bool): (t: seq<Group<K>>)
    requires |ks| == |vs| && StrictTotalOrder(lt)
    ensures Increasing(t, lt)
    ensures forall x :: x in KeySet(t) <==> x in ks
  {
    if ks == [] then []
    else
      var n := |ks| - 1;
      assert ks == ks[..n] + [ks[n]];
      Add(GroupSum(ks[..n], vs[..n], lt), ks[n], vs[n], lt)
  }

  lemma {:induction false} AddTotal<K(!new)>(t: seq<Group<K>>, k: K, v: int, lt: (K, K) -> bool)
    requires StrictTotalOrder(lt) && Increasing(t, lt)
    ensures Total(Add(t, k, v, lt)) == Total(t) + v
  {
    if t != [] && t[0].key != k && !lt(k, t[0].key) {
      AddTotal(t[1..], k, v, lt);
      assert Add(t, k, v, lt)[1..] == Add(t[1..], k, v, lt);
    } else if t != [] && t[0].key == k {
      assert Add(t, k, v, lt)[1..] == t[1..];
    } else if t != [] {
      assert Add(t, k, v, lt)[1..] == t;
    }
  }

  /** Conservation: the group sums add up to the sum over all rows. */
  lemma {:induction false} GroupSumConserves<K(!new)>(ks: seq<K>, vs: seq<int>, lt: (K, K) -> bool)
    requires |ks| == |vs| && StrictTotalOrder(lt)
    ensures Total(GroupSum(ks, vs, lt)) == Sum(vs)
  {
    if ks != [] {
      var n := |ks| - 1;
      GroupSumConserves(ks[..n], vs[..n], lt);
      AddTotal(GroupSum(ks[..n], vs[..n], lt), ks[n], vs[n], lt);
    }
  }

  lemma {:induction false} AddValueOf<K(!new)>(t: seq<Group<K>>, k: K, v: int, lt: (K, K) -> bool, x: K)
    requires StrictTotalOrder(lt) && Increasing(t, lt)
    ensures ValueOf(Add(t, k, v, lt), x) == ValueOf(t, x) + (if k == x then v else 0)
  {
    if t != [] && t[0].key != k && !lt(k, t[0].key) {
      AddValueOf(t[1..], k, v, lt, x);
      assert Add(t, k, v, lt)[1..] == Add(t[1..], k, v, lt);
    } else if t != [] && t[0].key == k {
      assert Add(t, k, v, lt)[1..] == t[1..];
    } else if t != [] {
      assert Add(t, k, v, lt)[1..] == t;
    }
  }

  lemma {:induction false} GroupSumValueOf<K(!new)>(ks: seq<K>, vs: seq<int>, lt: (K, K) -> bool, x: K)
    requires |ks| == |vs| && StrictTotalOrder(lt)
    ensures ValueOf(GroupSum(ks, vs, lt), x) == SumWhere(ks, vs, x)
  {
    if ks != [] {
      var n := |ks| - 1;
      GroupSumValueOf(ks[..n], vs[..n], lt, x);
      AddValueOf(GroupSum(ks[..n], vs[..n], lt), ks[n], vs[n], lt, x);
    }
  }

  /** In a table without repeated keys, a group's value is the table's value for its key. */
  lemma {:induction false} ValueOfAt<K(!new)>(t: seq<Group<K>>, lt: (K, K) -> bool, i: nat)
    requires StrictTotalOrder(lt) && Increasing(t, lt) && i < |t|
    ensures ValueOf(t, t[i].key) == t[i].value
  {
    if i == 0 {
      ValueOfAbsent(t[1..], lt, t[0].key);
    } else {
      assert lt(t[0].key, t[i].key);
      ValueOfAt(t[1..], lt, i - 1);
    }
  }

  lemma {:induction false} ValueOfAbsent<K(!new)>(t: seq<Group<K>>, lt: (K, K) -> bool, x: K)
    requires StrictTotalOrder(lt) && Increasing(t, lt)
    requires forall j :: 0 <= j < |t| ==> lt(x, t[j].key)
    ensures ValueOf(t, x) == 0
  {
    if t != [] {
      ValueOfAbsent(t[1..], lt, x);
    }
  }

  /** Every group holds the sum over exactly the rows with its key. */
  lemma GroupSumGroups<K(!new)>(ks: seq<K>, vs: seq<int>, lt: (K, K) -> bool)
    requires |ks| == |vs| && StrictTotalOrder(lt)
    ensures var t := GroupSum(ks, vs, lt);
      forall i :: 0 <= i < |t| ==> t[i].value == SumWhere(ks, vs, t[i].key)
  {
    var t := GroupSum(ks, vs, lt);
    forall i | 0 <= i < |t| ensures t[i].value == SumWhere(ks, vs, t[i].key) {
      ValueOfAt(t, lt, i);
      GroupSumValueOf(ks, vs, lt, t[i].key);
    }
  }

  /** The group values in group order: what a chart is fed. */
  function Values<K>(t: seq<Group<K>>): (vs: seq<int>)
    ensures |vs| == |t| && forall i :: 0 <= i < |t| ==> vs[i] == t[i].value
  {
    seq(|t|, i requires 0 <= i < |t| => t[i].value)
  }

  lemma {:induction false} TotalAppend<K>(t: seq<Group<K>>, g: Group<K>)
    ensures Total(t + [g]) == Total(t) + g.value
  {
    if t != [] {
      assert (t + [g])[1..] == t[1..] + [g];
      TotalAppend(t[1..], g);
    }
  }

  /** The values fed to a chart add up to the table's total. */
  lemma {:induction false} SumOfValues<K>(t: seq<Group<K>>)
    ensures Sum(Values(t)) == Total(t)
  {
    if t != [] {
      var n := |t| - 1;
      SumOfValues(t[..n]);
      assert Values(t)[..n] == Values(t[..n]);
      assert t == t[..n] + [t[n]];
      TotalAppend(t[..n], t[n]);
    }
  }
}
