/** Sums and counts over sequences and maps, and what reordering does to them. */
module Folds {
  function Sum<T>(s: seq<T>, f: T -> int): int {
    if s == [] then 0 else f(s[0]) + Sum(s[1..], f)
  }

  function Indicator<T>(p: T -> bool): T -> int {
    x => if p(x) then 1 else 0
  }

  function Count<T>(s: seq<T>, p: T -> bool): nat {
    if s == [] then 0 else (if p(s[0]) then 1 else 0) + Count(s[1..], p)
  }

  function Map<A, B>(s: seq<A>, f: A -> B): (r: seq<B>)
    ensures |r| == |s|
    ensures forall i :: 0 <= i < |s| ==> r[i] == f(s[i])
  {
    if s == [] then [] else [f(s[0])] + Map(s[1..], f)
  }

  function Filter<T>(s: seq<T>, p: T -> bool): (r: seq<T>)
    ensures forall x | x in r :: x in s && p(x)
    ensures forall x | x in s && p(x) :: x in r
  {
    if s == [] then [] else (if p(s[0]) then [s[0]] else []) + Filter(s[1..], p)
  }

  lemma Prefix<T>(s: seq<T>, i: nat)
    requires i < |s|
    ensures s[..i + 1] == s[..i] + [s[i]]
    ensures s[..|s|] == s
  {
  }

  lemma Associate<T>(a: seq<T>, b: seq<T>, c: seq<T>)
    ensures a + (b + c) == a + b + c
  {
  }

  lemma {:induction false} SumAppend<T>(a: seq<T>, b: seq<T>, f: T -> int)
    ensures Sum(a + b, f) == Sum(a, f) + Sum(b, f)
  {
    if a == [] {
      assert a + b == b;
    } else {
      assert (a + b)[1..] == a[1..] + b;
      SumAppend(a[1..], b, f);
    }
  }

  lemma SumCons<T>(x: T, s: seq<T>, f: T -> int)
    ensures Sum([x] + s, f) == f(x) + Sum(s, f)
    ensures Sum([x], f) == f(x)
  {
    assert ([x] + s)[1..] == s;
    assert [x][1..] == [];
  }

  lemma CountCons<T>(x: T, s: seq<T>, p: T -> bool)
    ensures Count([x] + s, p) == (if p(x) then 1 else 0) + Count(s, p)
    ensures Count([x], p) == if p(x) then 1 else 0
  {
    assert ([x] + s)[1..] == s;
    assert [x][1..] == [];
  }

  lemma {:induction false} CountIsSum<T>(s: seq<T>, p: T -> bool)
    ensures Count(s, p) == Sum(s, Indicator(p))
  {
    if s != [] {
      CountIsSum(s[1..], p);
    }
  }

  lemma CountAppend<T>(a: seq<T>, b: seq<T>, p: T -> bool)
    ensures Count(a + b, p) == Count(a, p) + Count(b, p)
  {
    CountIsSum(a, p);
    CountIsSum(b, p);
    CountIsSum(a + b, p);
    SumAppend(a, b, Indicator(p));
  }

  lemma {:induction false} SumCongruent<T>(s: seq<T>, f: T -> int, g: T -> int)
    requires forall x :: x in s ==> f(x) == g(x)
    ensures Sum(s, f) == Sum(s, g)
  {
    if s != [] {
      SumCongruent(s[1..], f, g);
    }
  }

  lemma {:induction false} SumMap<A, B>(s: seq<A>, h: A -> B, f: B -> int, g: A -> int)
    requires forall x :: x in s ==> f(h(x)) == g(x)
    ensures Sum(Map(s, h), f) == Sum(s, g)
  {
    if s != [] {
      SumMap(s[1..], h, f, g);
    }
  }

  /** One element can be taken out of anywhere. */
  lemma SumRemove<T>(s: seq<T>, i: nat, f: T -> int)
    requires i < |s|
    ensures Sum(s, f) == f(s[i]) + Sum(s[..i] + s[i + 1..], f)
  {
    assert s == s[..i] + ([s[i]] + s[i + 1..]);
    SumAppend(s[..i], [s[i]] + s[i + 1..], f);
    SumAppend(s[..i], s[i + 1..], f);
  }

  lemma RemoveFromMultiset<T>(s: seq<T>, i: nat)
    requires i < |s|
    ensures multiset(s[..i] + s[i + 1..]) == multiset(s) - multiset{s[i]}
  {
    assert s == s[..i] + [s[i]] + s[i + 1..];
  }

  lemma RestIsPart<T>(part: seq<T>, whole: seq<T>, i: nat)
    requires multiset(part) <= multiset(whole) && part != [] && i < |whole| && whole[i] == part[0]
    ensures multiset(part[1..]) <= multiset(whole[..i] + whole[i + 1..])
  {
    RemoveFromMultiset(whole, i);
    RemoveFromMultiset(part, 0);
    assert part[..0] + part[1..] == part[1..];
  }

  /** A sub-collection of non-negative terms sums to no more than the whole. */
  lemma {:induction false} SumOfPart<T>(part: seq<T>, whole: seq<T>, f: T -> int)
    requires multiset(part) <= multiset(whole)
    requires forall k :: 0 <= k < |whole| ==> 0 <= f(whole[k])
    ensures Sum(part, f) <= Sum(whole, f)
  {
    if part == [] {
      SumNonNegative(whole, f);
    } else {
      var i := FindIn(part[0], part, whole);
      SumRemove(whole, i, f);
      RestIsPart(part, whole, i);
      SumOfPart(part[1..], whole[..i] + whole[i + 1..], f);
    }
  }

  lemma {:induction false} SumNonNegative<T>(s: seq<T>, f: T -> int)
    requires forall x :: x in s ==> 0 <= f(x)
    ensures 0 <= Sum(s, f)
  {
    if s != [] {
      SumNonNegative(s[1..], f);
    }
  }

  lemma FindIn<T>(x: T, part: seq<T>, whole: seq<T>) returns (i: nat)
    requires x in part && multiset(part) <= multiset(whole)
    ensures i < |whole| && whole[i] == x
  {
    assert x in multiset(part);
    assert x in multiset(whole);
    i :| i < |whole| && whole[i] == x;
  }

  lemma RestPermuted<T>(a: seq<T>, b: seq<T>, i: nat)
    requires multiset(a) == multiset(b) && a != [] && i < |b| && b[i] == a[0]
    ensures multiset(a[1..]) == multiset(b[..i] + b[i + 1..])
  {
    RemoveFromMultiset(b, i);
    RemoveFromMultiset(a, 0);
    assert a[..0] + a[1..] == a[1..];
  }

  /** Reordering changes no sum. */
  lemma {:induction false} SumPermuted<T>(a: seq<T>, b: seq<T>, f: T -> int)
    requires multiset(a) == multiset(b)
    ensures Sum(a, f) == Sum(b, f)
  {
    if a == [] {
      assert |multiset(b)| == 0;
    } else {
      var i := FindIn(a[0], a, b);
      SumRemove(b, i, f);
      RestPermuted(a, b, i);
      SumPermuted(a[1..], b[..i] + b[i + 1..], f);
    }
  }

  lemma CountPermuted<T>(a: seq<T>, b: seq<T>, p: T -> bool)
    requires multiset(a) == multiset(b)
    ensures Count(a, p) == Count(b, p)
  {
    CountIsSum(a, p);
    CountIsSum(b, p);
    SumPermuted(a, b, Indicator(p));
  }

  lemma CountOfPart<T>(part: seq<T>, whole: seq<T>, p: T -> bool)
    requires multiset(part) <= multiset(whole)
    ensures Count(part, p) <= Count(whole, p)
  {
    CountIsSum(part, p);
    CountIsSum(whole, p);
    SumOfPart(part, whole, Indicator(p));
  }

  lemma {:induction false} CountNone<T>(s: seq<T>, p: T -> bool)
    ensures Count(s, p) == 0 <==> (forall x :: x in s ==> !p(x))
  {
    if s != [] {
      CountNone(s[1..], p);
      assert forall x :: x in s <==> x == s[0] || x in s[1..];
    }
  }

  lemma {:induction false} FilterAppend<T>(a: seq<T>, b: seq<T>, p: T -> bool)
    ensures Filter(a + b, p) == Filter(a, p) + Filter(b, p)
  {
    if a == [] {
      assert a + b == b;
    } else {
      assert (a + b)[1..] == a[1..] + b;
      FilterAppend(a[1..], b, p);
    }
  }

  lemma {:induction false} MapAppend<A, B>(a: seq<A>, b: seq<A>, f: A -> B)
    ensures Map(a + b, f) == Map(a, f) + Map(b, f)
  {
    if a == [] {
      assert a + b == b;
    } else {
      assert (a + b)[1..] == a[1..] + b;
      MapAppend(a[1..], b, f);
    }
  }

  function Only<T>(p: T -> bool, f: T -> int): T -> int {
    x => if p(x) then f(x) else 0
  }

  lemma {:induction false} SumFilter<T>(s: seq<T>, p: T -> bool, f: T -> int)
    ensures Sum(Filter(s, p), f) == Sum(s, Only(p, f))
  {
    if s != [] {
      SumFilter(s[1..], p, f);
      var head := if p(s[0]) then [s[0]] else [];
      SumAppend(head, Filter(s[1..], p), f);
      SumCons(s[0], [], f);
    }
  }

  lemma {:induction false} SumPlus<T>(s: seq<T>, f: T -> int, g: T -> int, h: T -> int)
    requires forall x :: x in s ==> f(x) == g(x) + h(x)
    ensures Sum(s, f) == Sum(s, g) + Sum(s, h)
  {
    if s != [] {
      SumPlus(s[1..], f, g, h);
    }
  }

  // ----- maps -----

  /** The sum of a map's values. */
  ghost function MapSum<K>(m: map<K, int>): int {
    if m == map[] then 0
    else
      var k :| k in m;
      m[k] + MapSum(m - {k})
  }

  lemma {:induction false} MapSumRemove<K>(m: map<K, int>, k: K)
    requires k in m
    ensures MapSum(m) == m[k] + MapSum(m - {k})
    decreases |m|
  {
    var j :| j in m && MapSum(m) == m[j] + MapSum(m - {j});
    if j != k {
      MapSumRemove(m - {j}, k);
      MapSumRemove(m - {k}, j);
      assert m - {j} - {k} == m - {k} - {j};
    }
  }

  lemma MapSumPut<K>(m: map<K, int>, k: K, v: int)
    ensures MapSum(m[k := v]) == MapSum(m) + v - (if k in m then m[k] else 0)
  {
    MapSumRemove(m[k := v], k);
    assert m[k := v] - {k} == m - {k};
    if k in m {
      MapSumRemove(m, k);
    } else {
      assert m - {k} == m;
    }
  }
}
