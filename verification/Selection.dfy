/** Queries over stored documents: which positions satisfy a filter, each once. */
module Selection {
  import opened Folds

  function Positions(n: nat): seq<nat> {
    if n == 0 then [] else Positions(n - 1) + [n - 1]
  }

  predicate NoRepeats<T(==)>(s: seq<T>) {
    forall x, y :: 0 <= x < y < |s| ==> s[x] != s[y]
  }

  lemma {:induction false} PositionsSound(n: nat)
    ensures forall i :: i in Positions(n) <==> 0 <= i < n
    ensures forall x, y :: 0 <= x < y < |Positions(n)| ==> Positions(n)[x] != Positions(n)[y]
  {
    if n > 0 {
      PositionsSound(n - 1);
      var rest := Positions(n - 1);
      forall y | 0 <= y < |rest| ensures rest[y] < n - 1 {
        assert rest[y] in rest;
      }
    }
  }

  lemma {:induction false} FilterNoRepeats<T>(s: seq<T>, p: T -> bool)
    requires NoRepeats(s)
    ensures NoRepeats(Filter(s, p))
  {
    if s != [] {
      FilterNoRepeats(s[1..], p);
      var rest := Filter(s[1..], p);
      forall y | 0 <= y < |rest| ensures rest[y] != s[0] {
        assert rest[y] in rest;
      }
    }
  }

  lemma {:induction false} CountEach<T>(s: seq<T>)
    ensures NoRepeats(s) <==> forall x :: x in s ==> multiset(s)[x] == 1
  {
    if s != [] {
      CountEach(s[1..]);
      assert s == [s[0]] + s[1..];
      if NoRepeats(s) {
        assert s[0] !in s[1..];
        forall x | x in s ensures multiset(s)[x] == 1 {
          assert x != s[0] ==> x in s[1..];
        }
      }
      if forall x :: x in s ==> multiset(s)[x] == 1 {
        assert s[0] in s;
        assert s[0] !in multiset(s[1..]);
        forall x | x in s[1..] ensures multiset(s[1..])[x] == 1 {
          assert x in s;
        }
      }
    }
  }

  lemma PermutedNoRepeats<T>(a: seq<T>, b: seq<T>)
    requires multiset(a) == multiset(b) && NoRepeats(a)
    ensures NoRepeats(b) && forall x :: x in a <==> x in b
  {
    CountEach(a);
    CountEach(b);
    forall x ensures x in a <==> x in b {
      assert x in a <==> x in multiset(a);
      assert x in b <==> x in multiset(b);
    }
  }

  /** What a filter over all positions finds. */
  lemma FilterPositions(n: nat, p: nat -> bool)
    ensures var found := Filter(Positions(n), p);
      NoRepeats(found) && forall i: nat :: i in found <==> i < n && p(i)
  {
    PositionsSound(n);
    FilterNoRepeats(Positions(n), p);
  }

  /** Two ways to list the same things once each are rearrangements of one another. */
  lemma SameMembers<T>(a: seq<T>, b: seq<T>)
    requires NoRepeats(a) && NoRepeats(b) && forall x :: x in a <==> x in b
    ensures multiset(a) == multiset(b)
  {
    CountEach(a);
    CountEach(b);
    forall x ensures multiset(a)[x] == multiset(b)[x] {
      assert x in multiset(a) <==> x in a;
      assert x in multiset(b) <==> x in b;
    }
  }

  function At<T>(s: seq<T>, f: T -> int): nat -> int {
    (i: nat) => if i < |s| then f(s[i]) else 0
  }

  lemma {:induction false} SumOverPositions<T>(s: seq<T>, n: nat, f: T -> int)
    requires n <= |s|
    ensures Sum(Positions(n), At(s, f)) == Sum(s[..n], f)
  {
    if n > 0 {
      SumOverPositions(s, n - 1, f);
      SumAppend<nat>(Positions(n - 1), [n - 1], At(s, f));
      SumCons<nat>(n - 1, [], At(s, f));
      assert s[..n] == s[..n - 1] + [s[n - 1]];
      SumAppend(s[..n - 1], [s[n - 1]], f);
      SumCons(s[n - 1], [], f);
    }
  }

  /** Summing over the positions that satisfy a condition is summing over all elements that satisfy it. */
  lemma SumOfSelected<T>(s: seq<T>, ids: seq<nat>, p: T -> bool, f: T -> int)
    requires NoRepeats(ids) && forall i: nat :: i in ids <==> i < |s| && p(s[i])
    ensures Sum(ids, At(s, f)) == Sum(s, Only(p, f))
  {
    var holds := (i: nat) => i < |s| && p(s[i]);
    var all := Positions(|s|);
    FilterPositions(|s|, holds);
    SameMembers(ids, Filter(all, holds));
    SumPermuted(ids, Filter(all, holds), At(s, f));
    SumFilter(all, holds, At(s, f));
    SumCongruent(all, Only(holds, At(s, f)), At(s, Only(p, f)));
    SumOverPositions(s, |s|, Only(p, f));
    assert s[..|s|] == s;
  }
}
