/** Python dicts filled in a loop, kept as their items in insertion order:
    a tally (`d[k] = d.get(k, 0) + v`, the per-app and per-day minute sums)
    and a grouping (`d.setdefault(k, []).append(v)`, the logs of each day).
    The insertion order matters because max() and the stable sorts over
    `d.items()` break ties by it. */
module Tally {
  import opened Lists

  /** The keys occurring in a sequence of pairs. */
  function Keys<K(==), V>(s: seq<(K, V)>): set<K>
  {
    set i | 0 <= i < |s| :: s[i].0
  }

  lemma KeysCons<K, V>(s: seq<(K, V)>)
    requires s != []
    ensures Keys(s) == {s[0].0} + Keys(s[1..])
  {
    assert forall i :: 1 <= i < |s| ==> s[i] == s[1..][i - 1];
    forall k | k in Keys(s[1..]) ensures k in Keys(s) {
      var i :| 0 <= i < |s[1..]| && s[1..][i].0 == k;
      assert s[i + 1].0 == k;
    }
  }

  lemma KeysSnoc<K, V>(s: seq<(K, V)>)
    requires s != []
    ensures Keys(s) == Keys(s[..|s| - 1]) + {s[|s| - 1].0}
  {
    assert forall i :: 0 <= i < |s| - 1 ==> s[..|s| - 1][i] == s[i];
  }

  lemma TailDistinct<K, V>(s: seq<(K, V)>)
    requires s != [] && DistinctKeys(s)
    ensures DistinctKeys(s[1..]) && s[0].0 !in Keys(s[1..])
  {
    assert forall i :: 0 <= i < |s[1..]| ==> s[1..][i] == s[i + 1];
  }

  predicate DistinctKeys<K(==), V>(s: seq<(K, V)>)
  {
    forall i, j :: 0 <= i < j < |s| ==> s[i].0 != s[j].0
  }

  /** The sum of the values, `sum(d.values())`. */
  function Total<K>(s: seq<(K, int)>): int
  {
    if s == [] then 0 else s[0].1 + Total(s[1..])
  }

  /** `d.get(k, 0)` */
  function Lookup<K(==)>(t: seq<(K, int)>, k: K): int
  {
    if t == [] then 0 else if t[0].0 == k then t[0].1 else Lookup(t[1..], k)
  }

  /** `d[k] = d.get(k, 0) + v`: a new key goes at the end. */
  function Add<K(==,!new)>(t: seq<(K, int)>, k: K, v: int): (r: seq<(K, int)>)
    ensures |r| == |t| || |r| == |t| + 1
    ensures forall q :: Lookup(r, q) == Lookup(t, q) + (if q == k then v else 0)
    ensures Total(r) == Total(t) + v
  {
    if t == [] then [(k, v)]
    else if t[0].0 == k then [(k, t[0].1 + v)] + t[1..]
    else [t[0]] + Add(t[1..], k, v)
  }

  /** The dict after adding every entry in order. */
  function TallyOf<K(==,!new)>(e: seq<(K, int)>): seq<(K, int)>
  {
    if e == [] then [] else Add(TallyOf(e[..|e| - 1]), e[|e| - 1].0, e[|e| - 1].1)
  }

  /** The sum of the values entered under key k. */
  function SumFor<K(==)>(e: seq<(K, int)>, k: K): int
  {
    if e == [] then 0
    else SumFor(e[..|e| - 1], k) + (if e[|e| - 1].0 == k then e[|e| - 1].1 else 0)
  }

  /** The loop that fills the dict. */
  method Build<K(==,!new)>(e: seq<(K, int)>) returns (t: seq<(K, int)>)
    ensures t == TallyOf(e)
  {
    t := [];
    var i := 0;
    while i < |e|
      invariant 0 <= i <= |e|
      invariant t == TallyOf(e[..i])
    {
      assert e[..i + 1][..i] == e[..i];
      t := Add(t, e[i].0, e[i].1);
      i := i + 1;
    }
    assert e[..|e|] == e;
  }

  /** A new key is added once at the end; an existing key keeps its place. */
  lemma {:induction false} AddKeys<K(!new)>(t: seq<(K, int)>, k: K, v: int)
    ensures Keys(Add(t, k, v)) == Keys(t) + {k}
    ensures k in Keys(t) ==> |Add(t, k, v)| == |t|
    ensures k !in Keys(t) ==> |Add(t, k, v)| == |t| + 1
  {
    if t != [] {
      var r := Add(t, k, v);
      KeysCons(t);
      KeysCons(r);
      if t[0].0 == k {
        assert r[1..] == t[1..];
      } else {
        AddKeys(t[1..], k, v);
        assert r[1..] == Add(t[1..], k, v);
      }
    }
  }

  /** Adding keeps the keys distinct. */
  lemma {:induction false} AddDistinct<K(!new)>(t: seq<(K, int)>, k: K, v: int)
    requires DistinctKeys(t)
    ensures DistinctKeys(Add(t, k, v))
  {
    if t != [] {
      var r := Add(t, k, v);
      if t[0].0 == k {
        assert forall i :: 0 <= i < |t| ==> r[i].0 == t[i].0;
      } else {
        TailDistinct(t);
        AddDistinct(t[1..], k, v);
        AddKeys(t[1..], k, v);
        var rest := Add(t[1..], k, v);
        assert r[1..] == rest;
        KeysCons(t);
        forall i, j | 0 <= i < j < |r| ensures r[i].0 != r[j].0 {
          if i == 0 {
            assert r[j] == rest[j - 1];
            assert rest[j - 1].0 in Keys(rest);
          } else {
            assert r[i] == rest[i - 1] && r[j] == rest[j - 1];
          }
        }
      }
    }
  }

  /** Every key entered is in the dict exactly once, and nothing else is. */
  lemma {:induction false} TallyKeys<K(!new)>(e: seq<(K, int)>)
    ensures Keys(TallyOf(e)) == Keys(e)
    ensures DistinctKeys(TallyOf(e))
  {
    if e != [] {
      var init := e[..|e| - 1];
      TallyKeys(init);
      AddKeys(TallyOf(init), e[|e| - 1].0, e[|e| - 1].1);
      AddDistinct(TallyOf(init), e[|e| - 1].0, e[|e| - 1].1);
      KeysSnoc(e);
    }
  }

  /** `d.get(k, 0)` is the sum of the values entered under k. */
  lemma {:induction false} TallyLookup<K(!new)>(e: seq<(K, int)>, k: K)
    ensures Lookup(TallyOf(e), k) == SumFor(e, k)
  {
    if e != [] {
      TallyLookup(e[..|e| - 1], k);
    }
  }

  lemma {:induction false} TotalAppend<K>(a: seq<(K, int)>, b: seq<(K, int)>)
    ensures Total(a + b) == Total(a) + Total(b)
  {
    if a == [] {
      assert a + b == b;
    } else {
      assert (a + b)[0] == a[0];
      assert (a + b)[1..] == a[1..] + b;
      TotalAppend(a[1..], b);
    }
  }

  /** The dict's values add up to the sum of all values entered. */
  lemma {:induction false} TallyTotal<K(!new)>(e: seq<(K, int)>)
    ensures Total(TallyOf(e)) == Total(e)
  {
    if e != [] {
      var init := e[..|e| - 1];
      TallyTotal(init);
      assert e == init + [e[|e| - 1]];
      TotalAppend(init, [e[|e| - 1]]);
    }
  }

  /** With distinct keys, an item's value is what lookup by its key finds. */
  lemma {:induction false} DistinctLookup<K>(t: seq<(K, int)>, i: int)
    requires DistinctKeys(t) && 0 <= i < |t|
    ensures Lookup(t, t[i].0) == t[i].1
  {
    if i > 0 {
      TailDistinct(t);
      DistinctLookup(t[1..], i - 1);
    }
  }

  /** Each item of the dict holds the sum entered under its key. */
  lemma TallyItems<K(!new)>(e: seq<(K, int)>)
    ensures forall i :: 0 <= i < |TallyOf(e)| ==> TallyOf(e)[i].1 == SumFor(e, TallyOf(e)[i].0)
  {
    var t := TallyOf(e);
    TallyKeys(e);
    forall i | 0 <= i < |t| ensures t[i].1 == SumFor(e, t[i].0) {
      DistinctLookup(t, i);
      TallyLookup(e, t[i].0);
    }
  }

  /** A sequence with distinct keys has as many items as keys. */
  lemma {:induction false} DistinctCard<K, V>(s: seq<(K, V)>)
    requires DistinctKeys(s)
    ensures |Keys(s)| == |s|
  {
    if s != [] {
      TailDistinct(s);
      DistinctCard(s[1..]);
      KeysCons(s);
    }
  }

  /** `len(d)` is the number of distinct keys entered. */
  lemma TallySize<K(!new)>(e: seq<(K, int)>)
    ensures |TallyOf(e)| == |Keys(e)|
  {
    TallyKeys(e);
    DistinctCard(TallyOf(e));
  }

  /** `d.setdefault(k, []).append(v)`: a new key goes at the end. */
  function Append<K(==,!new), V>(g: seq<(K, seq<V>)>, k: K, v: V): (r: seq<(K, seq<V>)>)
    ensures |r| == |g| || |r| == |g| + 1
    ensures forall q :: Group(r, q) == Group(g, q) + (if q == k then [v] else [])
  {
    if g == [] then [(k, [v])]
    else if g[0].0 == k then [(k, g[0].1 + [v])] + g[1..]
    else [g[0]] + Append(g[1..], k, v)
  }

  /** `d.get(k, [])` */
  function Group<K(==), V>(g: seq<(K, seq<V>)>, k: K): seq<V>
  {
    if g == [] then [] else if g[0].0 == k then g[0].1 else Group(g[1..], k)
  }

  function GroupOf<K(==,!new), V>(e: seq<(K, V)>): seq<(K, seq<V>)>
  {
    if e == [] then [] else Append(GroupOf(e[..|e| - 1]), e[|e| - 1].0, e[|e| - 1].1)
  }

  /** The values entered under key k, in order. */
  function ValuesFor<K(==), V>(e: seq<(K, V)>, k: K): seq<V>
  {
    if e == [] then []
    else ValuesFor(e[..|e| - 1], k) + (if e[|e| - 1].0 == k then [e[|e| - 1].1] else [])
  }

  /** The loop that groups the entries. */
  method BuildGroups<K(==,!new), V>(e: seq<(K, V)>) returns (g: seq<(K, seq<V>)>)
    ensures g == GroupOf(e)
  {
    g := [];
    var i := 0;
    while i < |e|
      invariant 0 <= i <= |e|
      invariant g == GroupOf(e[..i])
    {
      assert e[..i + 1][..i] == e[..i];
      g := Append(g, e[i].0, e[i].1);
      i := i + 1;
    }
    assert e[..|e|] == e;
  }

  lemma {:induction false} AppendKeys<K(!new), V>(g: seq<(K, seq<V>)>, k: K, v: V)
    ensures Keys(Append(g, k, v)) == Keys(g) + {k}
  {
    if g == [] {
      assert Append(g, k, v)[0].0 == k;
    } else {
      var r := Append(g, k, v);
      KeysCons(g);
      KeysCons(r);
      if g[0].0 == k {
        assert r[1..] == g[1..];
      } else {
        AppendKeys(g[1..], k, v);
        assert r[1..] == Append(g[1..], k, v);
      }
    }
  }

  lemma {:induction false} AppendDistinct<K(!new), V>(g: seq<(K, seq<V>)>, k: K, v: V)
    requires DistinctKeys(g)
    ensures DistinctKeys(Append(g, k, v))
  {
    if g != [] {
      var r := Append(g, k, v);
      if g[0].0 == k {
        assert forall i :: 0 <= i < |g| ==> r[i].0 == g[i].0;
      } else {
        TailDistinct(g);
        AppendDistinct(g[1..], k, v);
        AppendKeys(g[1..], k, v);
        var rest := Append(g[1..], k, v);
        assert r[1..] == rest;
        KeysCons(g);
        forall i, j | 0 <= i < j < |r| ensures r[i].0 != r[j].0 {
          if i == 0 {
            assert r[j] == rest[j - 1];
            assert rest[j - 1].0 in Keys(rest);
          } else {
            assert r[i] == rest[i - 1] && r[j] == rest[j - 1];
          }
        }
      }
    }
  }

  /** Each key entered has exactly one group, holding the values entered
      under it in order, and every group is non-empty. */
  lemma {:induction false} GroupOfProperties<K(!new), V>(e: seq<(K, V)>)
    ensures Keys(GroupOf(e)) == Keys(e)
    ensures DistinctKeys(GroupOf(e))
    ensures forall k :: Group(GroupOf(e), k) == ValuesFor(e, k)
  {
    if e != [] {
      var init := e[..|e| - 1];
      GroupOfProperties(init);
      AppendKeys(GroupOf(init), e[|e| - 1].0, e[|e| - 1].1);
      AppendDistinct(GroupOf(init), e[|e| - 1].0, e[|e| - 1].1);
      KeysSnoc(e);
    }
  }

  /** With distinct keys, an item's group is what lookup by its key finds. */
  lemma {:induction false} DistinctGroup<K, V>(g: seq<(K, seq<V>)>, i: int)
    requires DistinctKeys(g) && 0 <= i < |g|
    ensures Group(g, g[i].0) == g[i].1
  {
    if i > 0 {
      TailDistinct(g);
      DistinctGroup(g[1..], i - 1);
    }
  }

  /** The values entered under k are as many as the entries with key k
      (p is the test `entry.0 == k`). */
  lemma {:induction false} ValuesForCount<K, V>(e: seq<(K, V)>, k: K, p: ((K, V)) -> bool)
    requires forall i :: 0 <= i < |e| ==> (p(e[i]) <==> e[i].0 == k)
    ensures |ValuesFor(e, k)| == Count(e, p)
  {
    if e != [] {
      var init := e[..|e| - 1];
      assert forall i :: 0 <= i < |init| ==> init[i] == e[i];
      ValuesForCount(init, k, p);
      assert e == init + [e[|e| - 1]];
      CountAppend(init, [e[|e| - 1]], p);
    }
  }

  /** A condition holds for every value entered under k exactly when it holds
      for the value of every entry with key k. */
  lemma {:induction false} ValuesForAll<K, V>(e: seq<(K, V)>, k: K, p: V -> bool)
    ensures (forall i :: 0 <= i < |ValuesFor(e, k)| ==> p(ValuesFor(e, k)[i])) <==>
            (forall j :: 0 <= j < |e| && e[j].0 == k ==> p(e[j].1))
  {
    if e != [] {
      var init := e[..|e| - 1];
      ValuesForAll(init, k, p);
      var vs := ValuesFor(e, k);
      var ws := ValuesFor(init, k);
      assert forall i :: 0 <= i < |ws| ==> vs[i] == ws[i];
      assert forall j :: 0 <= j < |init| ==> init[j] == e[j];
      if e[|e| - 1].0 == k {
        assert vs[|vs| - 1] == e[|e| - 1].1;
      }
    }
  }

  /** A tally entry list built value by value from records sums to the sum
      over the records. */
  lemma {:induction false} TotalPointwise<K, T>(e: seq<(K, int)>, s: seq<T>, f: T -> int)
    requires |e| == |s| && forall i :: 0 <= i < |s| ==> e[i].1 == f(s[i])
    ensures Total(e) == SumBy(s, f)
  {
    if e != [] {
      assert forall i :: 1 <= i < |s| ==> e[i] == e[1..][i - 1] && s[i] == s[1..][i - 1];
      TotalPointwise(e[1..], s[1..], f);
    }
  }

  /** Entries keyed record by record have the records' key set. */
  lemma KeysPointwise<K, V, T>(e: seq<(K, V)>, s: seq<T>, f: T -> K)
    requires |e| == |s| && forall i :: 0 <= i < |s| ==> e[i].0 == f(s[i])
    ensures Keys(e) == SetOf(s, f)
  {
  }
}
