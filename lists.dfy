/** The list comprehensions the engine uses over query results:
    `[x for x in s if p(x)]`, `sum(1 for x in s if p(x))`,
    `sum(f(x) for x in s)` and `[f(x) for x in s]`. */
module Lists {

  function Filter<T>(s: seq<T>, p: T -> bool): (r: seq<T>)
    ensures |r| <= |s|
    ensures forall i :: 0 <= i < |r| ==> p(r[i]) && r[i] in s
    ensures forall i :: 0 <= i < |s| && p(s[i]) ==> s[i] in r
  {
    if s == [] then []
    else if p(s[0]) then [s[0]] + Filter(s[1..], p)
    else Filter(s[1..], p)
  }

  /** `sum(1 for x in s if p(x))` */
  function Count<T>(s: seq<T>, p: T -> bool): (n: nat)
    ensures n <= |s|
    ensures n == |Filter(s, p)|
    ensures n == 0 <==> forall i :: 0 <= i < |s| ==> !p(s[i])
    ensures n == |s| <==> forall i :: 0 <= i < |s| ==> p(s[i])
  {
    if s == [] then 0
    else
      assert forall i :: 1 <= i < |s| ==> s[i] == s[1..][i - 1];
      (if p(s[0]) then 1 else 0) + Count(s[1..], p)
  }

  /** `sum(f(x) for x in s)` */
  function SumBy<T>(s: seq<T>, f: T -> int): int
  {
    if s == [] then 0 else f(s[0]) + SumBy(s[1..], f)
  }

  /** `sum(s)` */
  function Sum(s: seq<int>): int
  {
    if s == [] then 0 else s[0] + Sum(s[1..])
  }

  /** The items of the rules that fire, in rule order: what a chain of
      `if condition: out.append(item)` leaves in `out`. */
  function Fired<T>(rules: seq<(T, bool)>): (r: seq<T>)
    ensures |r| <= |rules|
  {
    if rules == [] then []
    else
      var last := rules[|rules| - 1];
      Fired(rules[..|rules| - 1]) + (if last.1 then [last.0] else [])
  }

  /** An item is given exactly when one of its rules fires. */
  lemma {:induction false} FiredMembers<T>(rules: seq<(T, bool)>, x: T)
    ensures x in Fired(rules) <==> exists i :: 0 <= i < |rules| && rules[i] == (x, true)
  {
    if rules != [] {
      var init := rules[..|rules| - 1];
      FiredMembers(init, x);
      assert forall i :: 0 <= i < |init| ==> init[i] == rules[i];
      if exists i :: 0 <= i < |rules| && rules[i] == (x, true) {
        var i :| 0 <= i < |rules| && rules[i] == (x, true);
        if i < |init| {
          assert init[i] == (x, true);
        }
      }
    }
  }

  /** The items come out in the order of their rules: when each rule's item
      is ranked by the rule's position, the items' ranks strictly increase
      (so none repeats). */
  lemma {:induction false} FiredKeepsOrder<T>(rules: seq<(T, bool)>, rank: T -> int)
    requires forall i :: 0 <= i < |rules| ==> rank(rules[i].0) == i
    ensures var r := Fired(rules);
            forall i, j :: 0 <= i < j < |r| ==> rank(r[i]) < rank(r[j])
  {
    if rules != [] {
      var init := rules[..|rules| - 1];
      var last := rules[|rules| - 1];
      assert forall i :: 0 <= i < |init| ==> init[i] == rules[i];
      FiredKeepsOrder(init, rank);
      var head := Fired(init);
      forall k | 0 <= k < |head|
        ensures rank(head[k]) < rank(last.0)
      {
        FiredMembers(init, head[k]);
        var i :| 0 <= i < |init| && init[i] == (head[k], true);
      }
      var r := Fired(rules);
      assert r == head + (if last.1 then [last.0] else []);
      forall i, j | 0 <= i < j < |r|
        ensures rank(r[i]) < rank(r[j])
      {
        if j < |head| {
          assert r[i] == head[i] && r[j] == head[j];
        } else {
          assert r[i] == head[i] && r[j] == last.0;
        }
      }
    }
  }

  /** With one item per rule, ranked by the rule's position, rule k's item
      is given exactly when rule k fires. */
  lemma FiredItem<T>(rules: seq<(T, bool)>, rank: T -> int, k: int)
    requires forall i :: 0 <= i < |rules| ==> rank(rules[i].0) == i
    requires 0 <= k < |rules|
    ensures rules[k].0 in Fired(rules) <==> rules[k].1
  {
    FiredMembers(rules, rules[k].0);
  }

  /** `[f(x) for x in s]` */
  function Map<T, U>(s: seq<T>, f: T -> U): (r: seq<U>)
    ensures |r| == |s|
    ensures forall i :: 0 <= i < |s| ==> r[i] == f(s[i])
  {
    if s == [] then [] else [f(s[0])] + Map(s[1..], f)
  }

  /** The values of f over s, as a set: `set(f(x) for x in s)`. */
  function SetOf<T, U>(s: seq<T>, f: T -> U): set<U>
  {
    set i | 0 <= i < |s| :: f(s[i])
  }

  lemma {:induction false} SumByAppend<T>(a: seq<T>, b: seq<T>, f: T -> int)
    ensures SumBy(a + b, f) == SumBy(a, f) + SumBy(b, f)
  {
    if a == [] {
      assert a + b == b;
    } else {
      assert (a + b)[0] == a[0];
      assert (a + b)[1..] == a[1..] + b;
      SumByAppend(a[1..], b, f);
    }
  }

  /** Termwise no larger gives a sum no larger, and the same sum exactly
      when every term is the same. */
  lemma {:induction false} SumByMonotone<T>(s: seq<T>, f: T -> int, g: T -> int)
    requires forall i :: 0 <= i < |s| ==> f(s[i]) <= g(s[i])
    ensures SumBy(s, f) <= SumBy(s, g)
    ensures SumBy(s, f) == SumBy(s, g) <==> forall i :: 0 <= i < |s| ==> f(s[i]) == g(s[i])
  {
    if s != [] {
      assert forall i :: 1 <= i < |s| ==> s[i] == s[1..][i - 1];
      SumByMonotone(s[1..], f, g);
    }
  }

  lemma {:induction false} SumByZero<T>(s: seq<T>, f: T -> int)
    requires forall i :: 0 <= i < |s| ==> f(s[i]) == 0
    ensures SumBy(s, f) == 0
  {
    if s != [] {
      assert forall i :: 1 <= i < |s| ==> s[i] == s[1..][i - 1];
      SumByZero(s[1..], f);
    }
  }

  /** A sum of non-negative terms is non-negative. */
  lemma {:induction false} SumByNonNegative<T>(s: seq<T>, f: T -> int)
    requires forall i :: 0 <= i < |s| ==> f(s[i]) >= 0
    ensures SumBy(s, f) >= 0
  {
    if s != [] {
      assert forall i :: 1 <= i < |s| ==> s[i] == s[1..][i - 1];
      SumByNonNegative(s[1..], f);
    }
  }

  /** Summing only the kept elements is summing the filtered list. */
  lemma {:induction false} SumByFilter<T>(s: seq<T>, p: T -> bool, f: T -> int)
    requires forall i :: 0 <= i < |s| && !p(s[i]) ==> f(s[i]) == 0
    ensures SumBy(Filter(s, p), f) == SumBy(s, f)
  {
    if s != [] {
      assert forall i :: 1 <= i < |s| ==> s[i] == s[1..][i - 1];
      SumByFilter(s[1..], p, f);
    }
  }

  /** A non-empty sequence has at least one distinct value. */
  lemma SetOfNonEmpty<T, U>(s: seq<T>, f: T -> U)
    requires s != []
    ensures |SetOf(s, f)| >= 1
  {
    assert f(s[0]) in SetOf(s, f);
  }

  /** On s, q holds only where p does. */
  predicate HoldsOnlyWhere<T>(s: seq<T>, q: T -> bool, p: T -> bool)
  {
    forall i :: 0 <= i < |s| && q(s[i]) ==> p(s[i])
  }

  lemma HoldsOnlyWhereSplit<T>(s: seq<T>, q: T -> bool, p: T -> bool)
    requires |s| > 0
    ensures HoldsOnlyWhere(s, q, p) <==> (q(s[0]) ==> p(s[0])) && HoldsOnlyWhere(s[1..], q, p)
  {
    assert forall i :: 1 <= i < |s| ==> s[i] == s[1..][i - 1];
  }

  /** Counting a stronger condition gives no more, and the same count exactly
      when the two conditions agree on s. */
  lemma {:induction false} CountImplies<T>(s: seq<T>, p: T -> bool, q: T -> bool)
    requires HoldsOnlyWhere(s, p, q)
    ensures Count(s, p) <= Count(s, q)
    ensures Count(s, p) == Count(s, q) <==> HoldsOnlyWhere(s, q, p)
  {
    if |s| > 0 {
      HoldsOnlyWhereSplit(s, p, q);
      HoldsOnlyWhereSplit(s, q, p);
      CountImplies(s[1..], p, q);
    }
  }

  lemma {:induction false} CountAppend<T>(a: seq<T>, b: seq<T>, p: T -> bool)
    ensures Count(a + b, p) == Count(a, p) + Count(b, p)
  {
    if a == [] {
      assert a + b == b;
    } else {
      assert (a + b)[0] == a[0];
      assert (a + b)[1..] == a[1..] + b;
      CountAppend(a[1..], b, p);
    }
  }

  /** Two sequences that agree position by position on two conditions have
      the same counts. */
  lemma {:induction false} CountPointwise<T, U>(s: seq<T>, t: seq<U>, p: T -> bool, q: U -> bool)
    requires |s| == |t| && forall i :: 0 <= i < |s| ==> (p(s[i]) <==> q(t[i]))
    ensures Count(s, p) == Count(t, q)
  {
    if s != [] {
      assert forall i :: 1 <= i < |s| ==> s[i] == s[1..][i - 1] && t[i] == t[1..][i - 1];
      CountPointwise(s[1..], t[1..], p, q);
    }
  }

  /** Replacing an element that satisfies p by another that does keeps the count. */
  lemma {:induction false} CountUpdate<T>(s: seq<T>, i: int, x: T, p: T -> bool)
    requires 0 <= i < |s| && p(s[i]) && p(x)
    ensures Count(s[i := x], p) == Count(s, p)
  {
    if i > 0 {
      CountUpdate(s[1..], i - 1, x, p);
      assert s[i := x][1..] == s[1..][i - 1 := x];
    } else {
      assert s[i := x][1..] == s[1..];
    }
  }

  /** The index of the first element satisfying p, the row a query's
      `.first()` returns, or -1 when there is none. */
  function FirstIndex<T>(s: seq<T>, p: T -> bool): (i: int)
    ensures -1 <= i < |s|
    ensures i == -1 <==> forall j :: 0 <= j < |s| ==> !p(s[j])
    ensures i >= 0 ==> p(s[i]) && forall j :: 0 <= j < i ==> !p(s[j])
  {
    if s == [] then -1
    else if p(s[0]) then 0
    else
      var k := FirstIndex(s[1..], p);
      if k == -1 then -1 else k + 1
  }

  /** An upsert at index k: the row at k replaced by x, or x appended when
      k is -1 (no row matched). */
  function PutAt<T>(s: seq<T>, k: int, x: T): seq<T>
    requires -1 <= k < |s|
  {
    if k == -1 then s + [x] else s[k := x]
  }

  /** An upsert at a row matching key, or at the end when none does, of a
      row x that matches key: every row that does not match is kept, x is
      in place, a row is added only when none matched, and a single match
      stays single. */
  lemma PutAtProperties<T>(s: seq<T>, key: T -> bool, k: int, x: T)
    requires -1 <= k < |s| && key(x)
    requires k == -1 <==> forall j :: 0 <= j < |s| ==> !key(s[j])
    requires k >= 0 ==> key(s[k])
    ensures |PutAt(s, k, x)| == |s| + (if k == -1 then 1 else 0)
    ensures k == -1 <==> Count(s, key) == 0
    ensures forall j :: 0 <= j < |s| && !key(s[j]) ==> PutAt(s, k, x)[j] == s[j]
    ensures PutAt(s, k, x)[if k == -1 then |s| else k] == x
    ensures Count(s, key) <= 1 ==> Count(PutAt(s, k, x), key) == 1
  {
    if k == -1 {
      CountAppend(s, [x], key);
      assert Count([x], key) == 1;
    } else {
      CountUpdate(s, k, x, key);
    }
  }

  /** Removing the element at i. */
  function RemoveAt<T>(s: seq<T>, i: int): (r: seq<T>)
    requires 0 <= i < |s|
    ensures |r| == |s| - 1
    ensures forall j :: 0 <= j < i ==> r[j] == s[j]
    ensures forall j :: i <= j < |r| ==> r[j] == s[j + 1]
  {
    s[..i] + s[i + 1..]
  }

  /** The running maximum of a loop that starts at 0 and replaces the value
      only on a strictly larger element: the largest element, or 0 when
      there is none above 0. */
  function MaxOf(s: seq<int>): (m: int)
    ensures m >= 0
    ensures forall i :: 0 <= i < |s| ==> s[i] <= m
    ensures m == 0 || exists i :: 0 <= i < |s| && s[i] == m
  {
    if s == [] then 0
    else
      var init := s[..|s| - 1];
      var rest := MaxOf(init);
      assert forall i :: 0 <= i < |init| ==> init[i] == s[i];
      if s[|s| - 1] > rest then s[|s| - 1] else rest
  }

  /** `best = 0` then `best = max(best, f(x))` for each x: the largest f
      over s, or 0 when none is above 0. */
  function MaxOver<T>(s: seq<T>, f: T -> int): int
  {
    if s == [] then 0
    else
      var best := MaxOver(s[..|s| - 1], f);
      if f(s[|s| - 1]) > best then f(s[|s| - 1]) else best
  }

  lemma {:induction false} MaxOverMeaning<T>(s: seq<T>, f: T -> int)
    ensures MaxOver(s, f) >= 0
    ensures forall i :: 0 <= i < |s| ==> f(s[i]) <= MaxOver(s, f)
    ensures MaxOver(s, f) == 0 || exists i :: 0 <= i < |s| && f(s[i]) == MaxOver(s, f)
  {
    if s != [] {
      var init := s[..|s| - 1];
      MaxOverMeaning(init, f);
      assert forall i :: 0 <= i < |init| ==> init[i] == s[i];
      if MaxOver(s, f) == MaxOver(init, f) && MaxOver(s, f) != 0 {
        var i :| 0 <= i < |init| && f(init[i]) == MaxOver(init, f);
        assert s[i] == init[i];
      }
    }
  }

  /** The pick of a loop that starts from a value of 0 and takes an
      element x with keep(x) only when f(x) beats the current pick
      strictly: the index picked, or -1 when no element beats 0. */
  function PickIndex<T>(s: seq<T>, keep: T -> bool, f: T -> int): (p: int)
    ensures -1 <= p < |s|
  {
    if s == [] then -1
    else
      var p := PickIndex(s[..|s| - 1], keep, f);
      var current := if p == -1 then 0 else f(s[p]);
      if keep(s[|s| - 1]) && f(s[|s| - 1]) > current then |s| - 1 else p
  }

  /** The value a pick stands for: f of the element picked, or 0. */
  function PickValue<T>(s: seq<T>, keep: T -> bool, f: T -> int): int
  {
    var p := PickIndex(s, keep, f);
    if p == -1 then 0 else f(s[p])
  }

  /** The pick is a kept element with the largest f among the kept ones,
      positive, and the first such; with no kept element above 0 there is
      no pick. */
  lemma {:induction false} PickIndexMeaning<T>(s: seq<T>, keep: T -> bool, f: T -> int)
    ensures PickValue(s, keep, f) >= 0
    ensures forall i :: 0 <= i < |s| && keep(s[i]) ==> f(s[i]) <= PickValue(s, keep, f)
    ensures PickIndex(s, keep, f) == -1 <==> forall i :: 0 <= i < |s| && keep(s[i]) ==> f(s[i]) <= 0
    ensures var p := PickIndex(s, keep, f);
            p >= 0 ==> keep(s[p]) && f(s[p]) > 0 && forall j :: 0 <= j < p && keep(s[j]) ==> f(s[j]) < f(s[p])
  {
    if s != [] {
      var init := s[..|s| - 1];
      PickIndexMeaning(init, keep, f);
      assert forall i :: 0 <= i < |init| ==> init[i] == s[i];
    }
  }

  /** `[(x, f(x)) for x in s if keep(x)]`, built from the end like a loop
      that appends. */
  function FilterMap<T, U>(s: seq<T>, keep: T -> bool, f: T -> U): (r: seq<(T, U)>)
    ensures |r| <= |s|
  {
    if |s| == 0 then []
    else
      var rest := FilterMap(s[..|s| - 1], keep, f);
      var x := s[|s| - 1];
      if keep(x) then rest + [(x, f(x))] else rest
  }

  /** Every entry is a kept element paired with its own value. */
  lemma {:induction false} FilterMapEntries<T, U>(s: seq<T>, keep: T -> bool, f: T -> U)
    ensures forall i :: 0 <= i < |FilterMap(s, keep, f)| ==>
              FilterMap(s, keep, f)[i].0 in s && keep(FilterMap(s, keep, f)[i].0) &&
              FilterMap(s, keep, f)[i].1 == f(FilterMap(s, keep, f)[i].0)
  {
    if |s| > 0 {
      var init := s[..|s| - 1];
      FilterMapEntries(init, keep, f);
      assert forall x :: x in init ==> x in s;
    }
  }

  /** Every kept element has its entry. */
  lemma {:induction false} FilterMapComplete<T, U>(s: seq<T>, keep: T -> bool, f: T -> U)
    ensures forall i :: 0 <= i < |s| && keep(s[i]) ==> (s[i], f(s[i])) in FilterMap(s, keep, f)
  {
    if |s| > 0 {
      var init := s[..|s| - 1];
      FilterMapComplete(init, keep, f);
      assert forall i :: 0 <= i < |init| ==> init[i] == s[i];
    }
  }

  /** Searching for a condition that the first element satisfying p meets,
      and that implies p, finds that same element. */
  lemma FirstIndexNarrowed<T>(s: seq<T>, p: T -> bool, q: T -> bool)
    requires FirstIndex(s, p) >= 0 && q(s[FirstIndex(s, p)])
    requires forall j :: 0 <= j < |s| && q(s[j]) ==> p(s[j])
    ensures FirstIndex(s, q) == FirstIndex(s, p)
  {
  }

  /** One more element of a prefix adds its entry when it is kept. */
  lemma FilterMapStep<T, U>(s: seq<T>, keep: T -> bool, f: T -> U, i: int)
    requires 0 <= i < |s|
    ensures FilterMap(s[..i + 1], keep, f) ==
            if keep(s[i]) then FilterMap(s[..i], keep, f) + [(s[i], f(s[i]))] else FilterMap(s[..i], keep, f)
  {
    assert s[..i + 1][..i] == s[..i];
  }

  /** One more element of a prefix replaces the maximum when it is larger. */
  lemma MaxOverStep<T>(s: seq<T>, f: T -> int, i: int)
    requires 0 <= i < |s|
    ensures MaxOver(s[..i + 1], f) ==
            if f(s[i]) > MaxOver(s[..i], f) then f(s[i]) else MaxOver(s[..i], f)
  {
    assert s[..i + 1][..i] == s[..i];
  }

  /** One more element of a prefix becomes the pick when it is kept and
      beats the current pick's value. */
  lemma PickIndexStep<T>(s: seq<T>, keep: T -> bool, f: T -> int, i: int)
    requires 0 <= i < |s|
    ensures PickIndex(s[..i + 1], keep, f) ==
            if keep(s[i]) && f(s[i]) > PickValue(s[..i], keep, f) then i else PickIndex(s[..i], keep, f)
    ensures PickIndex(s[..i], keep, f) >= 0 ==>
              PickValue(s[..i], keep, f) == f(s[PickIndex(s[..i], keep, f)])
  {
    assert s[..i + 1][..i] == s[..i];
  }

  /** The members of `[x for x in s if p(x)]`. */
  lemma FilterMembers<T>(s: seq<T>, p: T -> bool)
    ensures forall x :: x in Filter(s, p) <==> x in s && p(x)
  {
  }

  /** A sum of non-negative numbers is at least each of them, and is 0
      exactly when all of them are. */
  lemma {:induction false} SumOfNonNegatives(s: seq<int>)
    requires forall i :: 0 <= i < |s| ==> s[i] >= 0
    ensures forall i :: 0 <= i < |s| ==> Sum(s) >= s[i]
    ensures Sum(s) == 0 <==> forall i :: 0 <= i < |s| ==> s[i] == 0
  {
    if s != [] {
      SumOfNonNegatives(s[1..]);
      assert forall i :: 1 <= i < |s| ==> s[i] == s[1..][i - 1];
    }
  }
}
