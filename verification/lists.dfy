/** Lists kept without repeats, and maps beside them. The element types are left general. */
module Lists {
  ghost predicate Distinct<T>(s: seq<T>) {
    forall i, j :: 0 <= i < j < |s| ==> s[i] != s[j]
  }

  /** `appendOnce`: at the end, unless it is already there. */
  function AppendOnce<T(==,!new)>(s: seq<T>, x: T): (r: seq<T>)
    ensures forall y :: y in r <==> y == x || y in s
    ensures |s| <= |r| && r[..|s|] == s
  {
    if x in s then s else s + [x]
  }

  lemma AppendOnceDistinct<T(!new)>(s: seq<T>, x: T)
    requires Distinct(s)
    ensures Distinct(AppendOnce(s, x))
  {
  }

  lemma SplitFirst<T(!new)>(s: seq<T>)
    requires s != []
    ensures s[0] in s && s == [s[0]] + s[1..] && forall x :: x in s <==> x == s[0] || x in s[1..]
    ensures Distinct(s) ==> Distinct(s[1..]) && s[0] !in s[1..]
  {
  }

  lemma SplitLast<T(!new)>(s: seq<T>)
    requires s != []
    ensures var n := |s| - 1; s == s[..n] + [s[n]] && forall x :: x in s <==> x == s[n] || x in s[..n]
    ensures var n := |s| - 1; Distinct(s) ==> Distinct(s[..n]) && s[n] !in s[..n]
  {
  }

  /** The list without the first occurrence of `x`. */
  function Without<T(==)>(s: seq<T>, x: T): seq<T> {
    if s == [] then [] else if s[0] == x then s[1..] else [s[0]] + Without(s[1..], x)
  }

  lemma {:induction false} WithoutIs<T(!new)>(s: seq<T>, x: T)
    requires Distinct(s)
    ensures Distinct(Without(s, x)) && forall y :: y in Without(s, x) <==> y in s && y != x
    ensures |Without(s, x)| == if x in s then |s| - 1 else |s|
  {
    if s != [] {
      SplitFirst(s);
      WithoutIs(s[1..], x);
    }
  }

  /** Walking to the first occurrence of `x` and cutting it out there is Without. */
  lemma WithoutAt<T(!new)>(s: seq<T>, x: T, i: nat)
    requires i < |s| && Without(s, x) == s[..i] + Without(s[i..], x)
    ensures Without(s, x) == if s[i] == x then s[..i] + s[i + 1..] else s[..i + 1] + Without(s[i + 1..], x)
  {
    var rest := s[i..];
    assert rest[0] == s[i] && rest[1..] == s[i + 1..];
    if s[i] != x {
      JoinLeft(s[..i], [s[i]], Without(s[i + 1..], x));
      assert s[..i + 1] == s[..i] + [s[i]];
    }
  }

  /** One more element of a loop over `s`, and the end of it. */
  lemma TakeMore<T>(s: seq<T>, i: nat)
    requires i < |s|
    ensures s[..i + 1] == s[..i] + [s[i]] && s[..i + 1][..i] == s[..i]
  {
  }

  lemma TakeAll<T>(s: seq<T>)
    ensures s[..|s|] == s
  {
  }

  lemma JoinNothing<T>(a: seq<T>)
    ensures a + [] == a
  {
  }

  lemma JoinLeft<T>(a: seq<T>, b: seq<T>, c: seq<T>)
    ensures a + (b + c) == (a + b) + c
  {
  }

  /** `order` lists the keys of `m`, each once. */
  ghost predicate ListsKeys<K(!new), V>(order: seq<K>, m: map<K, V>) {
    Distinct(order) && |order| == |m| && forall k :: k in m <==> k in order
  }

  lemma ListsAfterAppend<K(!new), V>(order: seq<K>, m: map<K, V>, k: K, v: V)
    requires ListsKeys(order, m) && k !in m
    ensures ListsKeys(order + [k], m[k := v])
  {
    assert m[k := v].Keys == m.Keys + {k};
  }

  lemma ListsAfterReplace<K(!new), V>(order: seq<K>, m: map<K, V>, k: K, v: V)
    requires ListsKeys(order, m) && k in m
    ensures ListsKeys(order, m[k := v])
  {
    assert m[k := v].Keys == m.Keys;
  }

  lemma ListsAfterDrop<K(!new), V>(order: seq<K>, m: map<K, V>)
    requires ListsKeys(order, m) && order != []
    ensures ListsKeys(order[1..], m - {order[0]})
  {
    SplitFirst(order);
    assert (m - {order[0]}).Keys == m.Keys - {order[0]};
  }

  lemma ListsAfterWithout<K(!new), V>(order: seq<K>, m: map<K, V>, k: K)
    requires ListsKeys(order, m) && k in m
    ensures ListsKeys(Without(order, k), m - {k})
  {
    WithoutIs(order, k);
    assert (m - {k}).Keys == m.Keys - {k};
  }

  /** A list without repeats is no longer than any list that has all its elements. */
  lemma {:induction false} DistinctFits<T(!new)>(a: seq<T>, b: seq<T>)
    requires Distinct(a) && forall x :: x in a ==> x in b
    ensures |a| <= |b|
  {
    if a != [] {
      SplitFirst(a);
      var i :| 0 <= i < |b| && b[i] == a[0];
      var b' := b[..i] + b[i + 1..];
      forall x | x in a[1..] ensures x in b' {
        var j :| 0 <= j < |b| && b[j] == x;
        assert b' == b[..i] + b[i + 1..];
        if j < i { assert b'[j] == x; } else { assert b'[j - 1] == x; }
      }
      DistinctFits(a[1..], b');
    }
  }

  /** The first occurrence of each element, in order: what a run of `appendOnce` leaves. */
  function Dedupe<T(==,!new)>(s: seq<T>): seq<T> {
    if s == [] then [] else AppendOnce(Dedupe(s[..|s| - 1]), s[|s| - 1])
  }

  lemma {:induction false} DedupeKeeps<T(!new)>(s: seq<T>)
    ensures Distinct(Dedupe(s)) && forall x :: x in Dedupe(s) <==> x in s
  {
    if s != [] {
      SplitLast(s);
      DedupeKeeps(s[..|s| - 1]);
      AppendOnceDistinct(Dedupe(s[..|s| - 1]), s[|s| - 1]);
    }
  }

  lemma {:induction false} DedupeOfDistinct<T(!new)>(s: seq<T>)
    requires Distinct(s)
    ensures Dedupe(s) == s
  {
    if s != [] {
      SplitLast(s);
      DedupeOfDistinct(s[..|s| - 1]);
    }
  }

  lemma DedupeAppend<T(!new)>(s: seq<T>, x: T)
    ensures Dedupe(s + [x]) == AppendOnce(Dedupe(s), x)
  {
    assert (s + [x])[..|s|] == s;
  }

  /** Every `f(s[i])`, one after the other. */
  function FlatMap<A, B>(s: seq<A>, f: A -> seq<B>): seq<B> {
    if s == [] then [] else FlatMap(s[..|s| - 1], f) + f(s[|s| - 1])
  }

  lemma FlatMapAppend<A, B>(s: seq<A>, x: A, f: A -> seq<B>)
    ensures FlatMap(s + [x], f) == FlatMap(s, f) + f(x)
  {
    assert (s + [x])[..|s|] == s;
  }

  lemma {:induction false} FlatMapHas<A(!new), B(!new)>(s: seq<A>, f: A -> seq<B>, y: B)
    ensures y in FlatMap(s, f) <==> exists x :: x in s && y in f(x)
  {
    if s != [] {
      SplitLast(s);
      FlatMapHas(s[..|s| - 1], f, y);
    }
  }

  function Filter<T>(s: seq<T>, p: T -> bool): seq<T> {
    if s == [] then [] else Filter(s[..|s| - 1], p) + (if p(s[|s| - 1]) then [s[|s| - 1]] else [])
  }

  lemma {:induction false} FilterIs<T(!new)>(s: seq<T>, p: T -> bool)
    ensures (forall x :: x in Filter(s, p) <==> x in s && p(x)) && (Distinct(s) ==> Distinct(Filter(s, p)))
    ensures |Filter(s, p)| <= |s|
  {
    if s != [] {
      SplitLast(s);
      FilterIs(s[..|s| - 1], p);
    }
  }

  lemma OnlyOne<T(!new)>(s: seq<T>, x: T)
    requires Distinct(s) && x in s && forall y :: y in s ==> y == x
    ensures s == [x]
  {
    SplitFirst(s);
    NothingIn(s[1..]);
  }

  lemma NothingIn<T(!new)>(s: seq<T>)
    requires forall x :: x !in s
    ensures s == []
  {
    if s != [] {
      SplitFirst(s);
    }
  }

  /** A list without repeats holds exactly one element when some element is the only one in it. */
  lemma SingleOrNot<T(!new)>(s: seq<T>)
    requires Distinct(s)
    ensures |s| == 1 <==> exists x :: x in s && forall y :: y in s ==> y == x
    ensures |s| == 1 ==> s[0] in s
  {
    if |s| == 1 {
      SplitFirst(s);
      assert forall y :: y in s ==> y == s[0];
    }
    if exists x :: x in s && forall y :: y in s ==> y == x {
      var x :| x in s && forall y :: y in s ==> y == x;
      OnlyOne(s, x);
    }
  }

  lemma SingleIs<T(!new)>(s: seq<T>, x: T)
    requires Distinct(s)
    ensures s == [x] <==> x in s && forall y :: y in s ==> y == x
  {
    if x in s && forall y :: y in s ==> y == x {
      OnlyOne(s, x);
    }
  }
}
