/** Python's sorted(...) and list.sort(...) with a key, which are stable, and
    max(..., key=...), which returns the first maximal element. An order is
    given as `ge(a, b)`: a's key ranks at least as high as b's (for
    reverse=True that is key(a) >= key(b); for an ascending sort it is
    key(a) <= key(b)). */
module Sorting {

  /** Any two elements are comparable. */
  ghost predicate AllComparable<T(!new)>(ge: (T, T) -> bool)
  {
    forall a, b :: ge(a, b) || ge(b, a)
  }

  ghost predicate TotalPreorder<T(!new)>(ge: (T, T) -> bool)
  {
    && AllComparable(ge)
    && (forall a, b, c :: ge(a, b) && ge(b, c) ==> ge(a, c))
  }

  predicate SortedBy<T>(s: seq<T>, ge: (T, T) -> bool)
  {
    forall i, j :: 0 <= i < j < |s| ==> ge(s[i], s[j])
  }

  /** Puts x in front of the first element it ranks at least as high as. */
  function Insert<T>(x: T, s: seq<T>, ge: (T, T) -> bool): (r: seq<T>)
    ensures |r| == |s| + 1
    ensures multiset(r) == multiset(s) + multiset{x}
  {
    if s == [] then [x]
    else if ge(x, s[0]) then [x] + s
    else
      assert s == [s[0]] + s[1..];
      [s[0]] + Insert(x, s[1..], ge)
  }

  /** A stable sort: among elements of equal rank the earlier stays first. */
  function SortBy<T>(s: seq<T>, ge: (T, T) -> bool): (r: seq<T>)
    ensures |r| == |s|
    ensures multiset(r) == multiset(s)
  {
    if s == [] then []
    else
      assert s == [s[0]] + s[1..];
      Insert(s[0], SortBy(s[1..], ge), ge)
  }

  /** An element ranking at least as high as x and every element of s ranks
      at least as high as every element of Insert(x, s). */
  lemma InsertBelow<T>(b: T, x: T, s: seq<T>, ge: (T, T) -> bool)
    requires ge(b, x) && forall i :: 0 <= i < |s| ==> ge(b, s[i])
    ensures forall z :: z in Insert(x, s, ge) ==> ge(b, z)
  {
    forall z | z in Insert(x, s, ge)
      ensures ge(b, z)
    {
      assert z in multiset(Insert(x, s, ge));
      assert z == x || z in multiset(s);
    }
  }

  lemma {:induction false} InsertSorted<T(!new)>(x: T, s: seq<T>, ge: (T, T) -> bool)
    requires TotalPreorder(ge) && SortedBy(s, ge)
    ensures SortedBy(Insert(x, s, ge), ge)
  {
    if |s| > 0 && !ge(x, s[0]) {
      var tail := Insert(x, s[1..], ge);
      assert SortedBy(s[1..], ge);
      InsertSorted(x, s[1..], ge);
      assert ge(s[0], x);
      InsertBelow(s[0], x, s[1..], ge);
      var r := [s[0]] + tail;
      forall i, j | 0 <= i < j < |r|
        ensures ge(r[i], r[j])
      {
        if i == 0 {
          assert r[j] == tail[j - 1] && tail[j - 1] in tail;
        } else {
          assert r[i] == tail[i - 1] && r[j] == tail[j - 1];
        }
      }
    }
  }

  /** The sort's output is ordered. */
  lemma {:induction false} SortBySorted<T(!new)>(s: seq<T>, ge: (T, T) -> bool)
    requires TotalPreorder(ge)
    ensures SortedBy(SortBy(s, ge), ge)
  {
    if s != [] {
      SortBySorted(s[1..], ge);
      InsertSorted(s[0], SortBy(s[1..], ge), ge);
    }
  }

  /** [x] when x ranks level with c (each at least as high as the other),
      else []. */
  function LevelOne<T>(x: T, c: T, ge: (T, T) -> bool): seq<T>
  {
    if ge(x, c) && ge(c, x) then [x] else []
  }

  /** The elements of s that rank level with c, in their order in s. */
  function LevelWith<T>(s: seq<T>, c: T, ge: (T, T) -> bool): seq<T>
  {
    if s == [] then [] else LevelOne(s[0], c, ge) + LevelWith(s[1..], c, ge)
  }

  /** Of two elements where x ranks strictly below y, at most one is level
      with c. */
  lemma NotBothLevel<T(!new)>(x: T, y: T, c: T, ge: (T, T) -> bool)
    requires TotalPreorder(ge) && !ge(x, y)
    ensures LevelOne(x, c, ge) == [] || LevelOne(y, c, ge) == []
  {
  }

  /** Inserting x puts it ahead of the elements level with it and behind
      none of them, given that every element x is inserted behind is not
      level with c when x is. */
  lemma {:induction false} InsertLevel<T>(x: T, s: seq<T>, c: T, ge: (T, T) -> bool)
    requires forall i :: 0 <= i < |s| && !ge(x, s[i]) ==> LevelOne(x, c, ge) == [] || LevelOne(s[i], c, ge) == []
    ensures LevelWith(Insert(x, s, ge), c, ge) == LevelOne(x, c, ge) + LevelWith(s, c, ge)
  {
    if s == [] {
      LevelWithCons(x, [], c, ge);
      assert [x] + [] == [x];
    } else if ge(x, s[0]) {
      LevelWithCons(x, s, c, ge);
    } else {
      assert forall i :: 0 <= i < |s| - 1 ==> s[1..][i] == s[i + 1];
      InsertLevel(x, s[1..], c, ge);
      LevelBehind(x, s, Insert(x, s[1..], ge), c, ge);
    }
  }

  /** The step of InsertLevel where x goes behind s[0], into t. */
  lemma LevelBehind<T>(x: T, s: seq<T>, t: seq<T>, c: T, ge: (T, T) -> bool)
    requires s != []
    requires LevelOne(x, c, ge) == [] || LevelOne(s[0], c, ge) == []
    requires LevelWith(t, c, ge) == LevelOne(x, c, ge) + LevelWith(s[1..], c, ge)
    ensures LevelWith([s[0]] + t, c, ge) == LevelOne(x, c, ge) + LevelWith(s, c, ge)
  {
    LevelWithCons(s[0], t, c, ge);
    SwapEmpty(LevelOne(x, c, ge), LevelOne(s[0], c, ge), LevelWith(s[1..], c, ge));
  }

  /** Two sequences, one of them empty, can trade places in front of r. */
  lemma SwapEmpty<T>(a: seq<T>, b: seq<T>, r: seq<T>)
    requires a == [] || b == []
    ensures b + (a + r) == a + (b + r)
  {
    if a == [] {
      assert a + r == r && a + (b + r) == b + r;
    } else {
      assert b + (a + r) == a + r && b + r == r;
    }
  }

  lemma LevelWithCons<T>(y: T, t: seq<T>, c: T, ge: (T, T) -> bool)
    ensures LevelWith([y] + t, c, ge) == LevelOne(y, c, ge) + LevelWith(t, c, ge)
  {
    assert ([y] + t)[1..] == t;
  }

  /** The sort is stable: the elements level with any c keep their order. */
  lemma {:induction false} SortByStable<T(!new)>(s: seq<T>, c: T, ge: (T, T) -> bool)
    requires TotalPreorder(ge)
    ensures LevelWith(SortBy(s, ge), c, ge) == LevelWith(s, c, ge)
  {
    if s != [] {
      var sorted := SortBy(s[1..], ge);
      SortByStable(s[1..], c, ge);
      forall i | 0 <= i < |sorted| && !ge(s[0], sorted[i])
        ensures LevelOne(s[0], c, ge) == [] || LevelOne(sorted[i], c, ge) == []
      {
        NotBothLevel(s[0], sorted[i], c, ge);
      }
      InsertLevel(s[0], sorted, c, ge);
    }
  }

  /** The index max(s, key) selects: the first element that ranks at least
      as high as every element. */
  function FirstBest<T>(s: seq<T>, ge: (T, T) -> bool): (k: nat)
    requires |s| > 0
    ensures k < |s|
  {
    if |s| == 1 then 0
    else
      var k := 1 + FirstBest(s[1..], ge);
      if ge(s[0], s[k]) then 0 else k
  }

  /** FirstBest is a best element, and every element before it ranks strictly
      lower, so it is the first of the best. */
  lemma {:induction false} FirstBestIsFirstMaximum<T(!new)>(s: seq<T>, ge: (T, T) -> bool)
    requires |s| > 0 && TotalPreorder(ge)
    ensures forall j :: 0 <= j < |s| ==> ge(s[FirstBest(s, ge)], s[j])
    ensures forall j :: 0 <= j < FirstBest(s, ge) ==> !ge(s[j], s[FirstBest(s, ge)])
  {
    if |s| > 1 {
      FirstBestIsFirstMaximum(s[1..], ge);
      var k := 1 + FirstBest(s[1..], ge);
      assert forall j :: 1 <= j < |s| ==> s[j] == s[1..][j - 1];
      if !ge(s[0], s[k]) {
        forall j | 0 < j < k ensures !ge(s[j], s[k]) {
          assert s[j] == s[1..][j - 1];
        }
      }
    }
  }

  /** The head of the stable sort is exactly the element max() returns. */
  lemma {:induction false} SortHeadIsFirstBest<T(!new)>(s: seq<T>, ge: (T, T) -> bool)
    requires |s| > 0 && TotalPreorder(ge)
    ensures SortBy(s, ge)[0] == s[FirstBest(s, ge)]
  {
    if |s| > 1 {
      SortHeadIsFirstBest(s[1..], ge);
      var rest := SortBy(s[1..], ge);
      var k := 1 + FirstBest(s[1..], ge);
      assert rest[0] == s[k];
    }
  }

  /** The first n elements of the sorted sequence, as `sorted(...)[:n]`. */
  function Take<T>(s: seq<T>, n: nat): (r: seq<T>)
    ensures |r| == if |s| < n then |s| else n
    ensures r == s[..|r|]
  {
    if |s| <= n then s else s[..n]
  }

  /** The first n of a stable sort: sorted, a prefix of a permutation of the
      input, and every element left off ranks no higher than any one kept. */
  lemma TopOfSorted<T(!new)>(xs: seq<T>, n: nat, ge: (T, T) -> bool)
    requires TotalPreorder(ge)
    ensures var s := SortBy(xs, ge);
            var r := Take(s, n);
            SortedBy(r, ge) && multiset(s) == multiset(xs) && r == s[..|r|] &&
            forall i, j :: 0 <= i < |r| <= j < |s| ==> ge(r[i], s[j])
  {
    SortBySorted(xs, ge);
  }

  /** An element of the input that is not kept ranks no higher than any
      element kept. */
  lemma LeftOffRanksLower<T(!new)>(xs: seq<T>, n: nat, ge: (T, T) -> bool, x: T)
    requires TotalPreorder(ge) && x in xs && x !in Take(SortBy(xs, ge), n)
    ensures forall i :: 0 <= i < |Take(SortBy(xs, ge), n)| ==> ge(Take(SortBy(xs, ge), n)[i], x)
  {
    TopOfSorted(xs, n, ge);
    var s := SortBy(xs, ge);
    assert x in multiset(s);
    var j :| 0 <= j < |s| && s[j] == x;
  }

  /** The first n of a stable sort, stated against the input alone: min(n,
      |xs|) of its elements, and every element left off ranks no higher
      than any one kept. */
  lemma TopKeepsHighest<T(!new)>(xs: seq<T>, n: nat, ge: (T, T) -> bool)
    requires TotalPreorder(ge)
    ensures |Take(SortBy(xs, ge), n)| == if |xs| < n then |xs| else n
    ensures multiset(Take(SortBy(xs, ge), n)) <= multiset(xs)
    ensures forall i, j ::
              0 <= i < |Take(SortBy(xs, ge), n)| && 0 <= j < |xs| && xs[j] !in Take(SortBy(xs, ge), n) ==>
              ge(Take(SortBy(xs, ge), n)[i], xs[j])
  {
    var s := SortBy(xs, ge);
    var r := Take(s, n);
    TopOfSorted(xs, n, ge);
    assert s == r + s[|r|..];
    assert multiset(s) == multiset(r) + multiset(s[|r|..]);
    forall j | 0 <= j < |xs| && xs[j] !in r
      ensures forall i :: 0 <= i < |r| ==> ge(r[i], xs[j])
    {
      LeftOffRanksLower(xs, n, ge, xs[j]);
    }
  }
}
