/** Maps from a lookup key to the values recorded under it, each once, in first-seen order: the shape of every index
    the fleet analysis builds. */
module Grouping {
  import opened Lists

  function Get<K(==), V>(m: map<K, seq<V>>, k: K): seq<V> {
    if k in m then m[k] else []
  }

  /** Record `v` under `k`, once. */
  function Record<K(==), V(==,!new)>(m: map<K, seq<V>>, k: K, v: V): map<K, seq<V>> {
    m[k := AppendOnce(Get(m, k), v)]
  }

  function GroupBy<K(==), V(==,!new)>(pairs: seq<(K, V)>): map<K, seq<V>> {
    if pairs == [] then map[] else Record(GroupBy(pairs[..|pairs| - 1]), pairs[|pairs| - 1].0, pairs[|pairs| - 1].1)
  }

  /** The naive scan: every value paired with `k`, in order, repeats included. */
  function Scan<K(==), V>(pairs: seq<(K, V)>, k: K): seq<V> {
    if pairs == [] then []
    else Scan(pairs[..|pairs| - 1], k) + (if pairs[|pairs| - 1].0 == k then [pairs[|pairs| - 1].1] else [])
  }

  lemma GroupByAppend<K(!new), V(!new)>(pairs: seq<(K, V)>, k: K, v: V)
    ensures GroupBy(pairs + [(k, v)]) == Record(GroupBy(pairs), k, v)
  {
    assert (pairs + [(k, v)])[..|pairs|] == pairs;
  }

  /** Looking a key up in the index is scanning everything for it and dropping repeats. */
  lemma {:induction false} LookupIsScan<K(!new), V(!new)>(pairs: seq<(K, V)>, k: K)
    ensures Get(GroupBy(pairs), k) == Dedupe(Scan(pairs, k))
    ensures k in GroupBy(pairs) <==> Scan(pairs, k) != []
  {
    if pairs != [] {
      var n := |pairs| - 1;
      LookupIsScan(pairs[..n], k);
      if pairs[n].0 == k {
        DedupeAppend(Scan(pairs[..n], k), pairs[n].1);
      } else {
        assert Scan(pairs, k) == Scan(pairs[..n], k);
      }
    }
  }

  lemma {:induction false} ScanHas<K(!new), V(!new)>(pairs: seq<(K, V)>, k: K, v: V)
    ensures v in Scan(pairs, k) <==> (k, v) in pairs
  {
    if pairs != [] {
      SplitLast(pairs);
      ScanHas(pairs[..|pairs| - 1], k, v);
    }
  }

  /** What a lookup returns: each value recorded under the key, once. */
  lemma LookupHas<K(!new), V(!new)>(pairs: seq<(K, V)>, k: K)
    ensures Distinct(Get(GroupBy(pairs), k))
    ensures forall v :: v in Get(GroupBy(pairs), k) <==> (k, v) in pairs
  {
    LookupIsScan(pairs, k);
    DedupeKeeps(Scan(pairs, k));
    forall v ensures v in Get(GroupBy(pairs), k) <==> (k, v) in pairs {
      ScanHas(pairs, k, v);
    }
  }

  lemma {:induction false} NothingRecorded<K(!new), V(!new)>(pairs: seq<(K, V)>, k: K)
    requires forall i :: 0 <= i < |pairs| ==> pairs[i].0 != k
    ensures k !in GroupBy(pairs)
  {
    if pairs != [] {
      NothingRecorded(pairs[..|pairs| - 1], k);
    }
  }

  /** Append `v` under `k`, repeats kept: what `m[k] = append(m[k], v)` does. */
  function Push<K(==), V>(m: map<K, seq<V>>, k: K, v: V): map<K, seq<V>> {
    m[k := Get(m, k) + [v]]
  }

  function Collect<K(==), V>(pairs: seq<(K, V)>): map<K, seq<V>> {
    if pairs == [] then map[] else Push(Collect(pairs[..|pairs| - 1]), pairs[|pairs| - 1].0, pairs[|pairs| - 1].1)
  }

  /** What is collected under a key is what a scan finds paired with it, in order. */
  lemma {:induction false} CollectedIsScan<K(!new), V>(pairs: seq<(K, V)>, k: K)
    ensures Get(Collect(pairs), k) == Scan(pairs, k)
  {
    if pairs != [] {
      CollectedIsScan(pairs[..|pairs| - 1], k);
    }
  }

  /** Record `v` under every key but the one that means none. */
  function RecordIf<K(==), V(==,!new)>(m: map<K, seq<V>>, k: K, none: K, v: V): map<K, seq<V>> {
    if k == none then m else Record(m, k, v)
  }

  function RecordAll<K(==), V(==,!new)>(m: map<K, seq<V>>, ks: seq<K>, none: K, v: V): map<K, seq<V>> {
    if ks == [] then m else RecordIf(RecordAll(m, ks[..|ks| - 1], none, v), ks[|ks| - 1], none, v)
  }

  function KeyPairs<K(==), V>(ks: seq<K>, none: K, v: V): seq<(K, V)> {
    if ks == [] then [] else
      KeyPairs(ks[..|ks| - 1], none, v) + (if ks[|ks| - 1] == none then [] else [(ks[|ks| - 1], v)])
  }

  lemma RecordAllStep<K(!new), V(!new)>(m: map<K, seq<V>>, ks: seq<K>, none: K, v: V, i: nat)
    requires i < |ks|
    ensures RecordAll(m, ks[..i + 1], none, v) == RecordIf(RecordAll(m, ks[..i], none, v), ks[i], none, v)
  {
    assert ks[..i + 1][..i] == ks[..i];
  }

  lemma {:induction false} RecordAllLooksUp<K(!new), V(!new)>(m: map<K, seq<V>>, ks: seq<K>, none: K, v: V, k: K)
    ensures Get(RecordAll(m, ks, none, v), k) == if k != none && k in ks then AppendOnce(Get(m, k), v) else Get(m, k)
  {
    if ks != [] {
      SplitLast(ks);
      RecordAllLooksUp(m, ks[..|ks| - 1], none, v, k);
    }
  }

  lemma KeyPairsStep<K(!new), V(!new)>(before: seq<(K, V)>, ks: seq<K>, none: K, v: V)
    requires ks != []
    ensures var last, so := ks[|ks| - 1], before + KeyPairs(ks[..|ks| - 1], none, v);
      before + KeyPairs(ks, none, v) == if last == none then so else so + [(last, v)]
  {
    var last, rest := ks[|ks| - 1], KeyPairs(ks[..|ks| - 1], none, v);
    if last == none {
      JoinNothing(rest);
    } else {
      JoinLeft(before, rest, [(last, v)]);
    }
  }

  lemma {:induction false} RecordAllGroups<K(!new), V(!new)>(before: seq<(K, V)>, ks: seq<K>, none: K, v: V)
    ensures RecordAll(GroupBy(before), ks, none, v) == GroupBy(before + KeyPairs(ks, none, v))
  {
    if ks == [] {
      assert before + KeyPairs(ks, none, v) == before;
    } else {
      RecordAllGroups(before, ks[..|ks| - 1], none, v);
      KeyPairsStep(before, ks, none, v);
      GroupByAppend(before + KeyPairs(ks[..|ks| - 1], none, v), ks[|ks| - 1], v);
    }
  }

  lemma {:induction false} KeyPairsHave<K(!new), V(!new)>(ks: seq<K>, none: K, v: V, k: K, w: V)
    ensures (k, w) in KeyPairs(ks, none, v) <==> w == v && k != none && k in ks
  {
    if ks != [] {
      SplitLast(ks);
      KeyPairsHave(ks[..|ks| - 1], none, v, k, w);
    }
  }

  /** Recording one more element's keys is grouping one more element's pairs. */
  lemma RecordOneMore<A(!new), K(!new), V(!new)>(xs: seq<A>, x: A, f: A -> seq<(K, V)>, ks: seq<K>, none: K, v: V)
    requires f(x) == KeyPairs(ks, none, v)
    ensures RecordAll(GroupBy(FlatMap(xs, f)), ks, none, v) == GroupBy(FlatMap(xs + [x], f))
  {
    FlatMapAppend(xs, x, f);
    RecordAllGroups(FlatMap(xs, f), ks, none, v);
  }

  /** The values of the elements that satisfy `hit`, in order. */
  function ValuesWhere<A, V>(xs: seq<A>, hit: A -> bool, value: A -> V): seq<V> {
    if xs == [] then [] else ValuesWhere(xs[..|xs| - 1], hit, value) + (if hit(xs[|xs| - 1]) then [value(xs[|xs| - 1])] else [])
  }

  /** An index filled element by element gives a key's values in the order of the elements that mention it. */
  lemma {:induction false} LookupIsInOrder<A(!new), K(!new), V(!new)>(
      xs: seq<A>, pairs: A -> seq<(K, V)>, keys: A -> seq<K>, none: K, value: A -> V, k: K, hit: A -> bool)
    requires forall x :: x in xs ==> pairs(x) == KeyPairs(keys(x), none, value(x))
    requires forall x :: x in xs ==> (hit(x) <==> k != none && k in keys(x))
    ensures Get(GroupBy(FlatMap(xs, pairs)), k) == Dedupe(ValuesWhere(xs, hit, value))
  {
    if xs != [] {
      var before, x := xs[..|xs| - 1], xs[|xs| - 1];
      SplitLast(xs);
      LookupIsInOrder(before, pairs, keys, none, value, k, hit);
      RecordOneMore(before, x, pairs, keys(x), none, value(x));
      RecordAllLooksUp(GroupBy(FlatMap(before, pairs)), keys(x), none, value(x), k);
      if hit(x) {
        DedupeAppend(ValuesWhere(before, hit, value), value(x));
      } else {
        JoinNothing(ValuesWhere(before, hit, value));
      }
    }
  }

  /** Elements with different values give different values. */
  lemma {:induction false} ValuesAreDistinct<A(!new), V(!new)>(xs: seq<A>, hit: A -> bool, value: A -> V)
    requires forall i, j :: 0 <= i < j < |xs| ==> value(xs[i]) != value(xs[j])
    ensures Distinct(ValuesWhere(xs, hit, value))
    ensures forall v :: v in ValuesWhere(xs, hit, value) ==> exists i :: 0 <= i < |xs| && value(xs[i]) == v
  {
    if xs != [] {
      var n := |xs| - 1;
      var before := ValuesWhere(xs[..n], hit, value);
      ValuesAreDistinct(xs[..n], hit, value);
      forall v | v in before ensures v != value(xs[n]) && exists i :: 0 <= i < |xs| && value(xs[i]) == v {
        var i :| 0 <= i < n && value(xs[..n][i]) == v;
        assert xs[i] == xs[..n][i];
      }
      assert value(xs[n]) !in before;
    }
  }
}
