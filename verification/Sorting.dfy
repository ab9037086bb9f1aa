/** JavaScript's Array.prototype.sort is stable: elements that compare equal keep their order. */
module Sorting {
  function InsertStable<T>(x: T, s: seq<T>, key: T -> int): seq<T> {
    if s == [] || key(x) <= key(s[0]) then [x] + s
    else [s[0]] + InsertStable(x, s[1..], key)
  }

  function SortStable<T>(s: seq<T>, key: T -> int): seq<T> {
    if s == [] then [] else InsertStable(s[0], SortStable(s[1..], key), key)
  }

  ghost predicate Ascending<T>(s: seq<T>, key: T -> int) {
    forall i, j :: 0 <= i < j < |s| ==> key(s[i]) <= key(s[j])
  }

  lemma PrependSorted<T>(x: T, s: seq<T>, key: T -> int)
    requires Ascending(s, key)
    requires forall k :: 0 <= k < |s| ==> key(x) <= key(s[k])
    ensures Ascending([x] + s, key)
  {
    forall i, j | 0 <= i < j < |[x] + s| ensures key(([x] + s)[i]) <= key(([x] + s)[j]) {
      assert ([x] + s)[j] == s[j - 1];
    }
  }

  lemma {:induction false} InsertStableAbove<T>(x: T, s: seq<T>, key: T -> int, low: int)
    requires low <= key(x)
    requires forall k :: 0 <= k < |s| ==> low <= key(s[k])
    ensures |InsertStable(x, s, key)| == |s| + 1
    ensures forall k :: 0 <= k < |s| + 1 ==> low <= key(InsertStable(x, s, key)[k])
  {
    if s != [] && key(x) > key(s[0]) {
      InsertStableAbove(x, s[1..], key, low);
    }
  }

  lemma {:induction false} InsertStableSorted<T>(x: T, s: seq<T>, key: T -> int)
    requires Ascending(s, key)
    ensures Ascending(InsertStable(x, s, key), key)
  {
    if s == [] || key(x) <= key(s[0]) {
      PrependSorted(x, s, key);
    } else {
      InsertStableSorted(x, s[1..], key);
      InsertStableAbove(x, s[1..], key, key(s[0]));
      PrependSorted(s[0], InsertStable(x, s[1..], key), key);
    }
  }

  lemma {:induction false} InsertStableAdds<T>(x: T, s: seq<T>, key: T -> int)
    ensures multiset(InsertStable(x, s, key)) == multiset([x]) + multiset(s)
    ensures |InsertStable(x, s, key)| == |s| + 1
  {
    if s != [] && key(x) > key(s[0]) {
      InsertStableAdds(x, s[1..], key);
      assert s == [s[0]] + s[1..];
    }
  }

  /** The sorted list is a rearrangement of its input in ascending order. */
  lemma {:induction false} SortStableSorted<T>(s: seq<T>, key: T -> int)
    ensures Ascending(SortStable(s, key), key)
    ensures multiset(SortStable(s, key)) == multiset(s)
    ensures |SortStable(s, key)| == |s|
  {
    if s != [] {
      SortStableSorted(s[1..], key);
      InsertStableSorted(s[0], SortStable(s[1..], key), key);
      InsertStableAdds(s[0], SortStable(s[1..], key), key);
      assert s == [s[0]] + s[1..];
    }
  }

  /** The first of the sorted list is the first element of the input that has the least key. */
  lemma {:induction false} SortStableHead<T>(s: seq<T>, key: T -> int) returns (i: nat)
    requires s != []
    ensures i < |s| && SortStable(s, key) != [] && SortStable(s, key)[0] == s[i]
    ensures forall j :: 0 <= j < |s| ==> key(s[i]) <= key(s[j])
    ensures forall j :: 0 <= j < i ==> key(s[i]) < key(s[j])
  {
    if |s| == 1 {
      i := 0;
    } else {
      var k := SortStableHead(s[1..], key);
      if key(s[0]) <= key(s[k + 1]) {
        i := 0;
      } else {
        i := k + 1;
      }
    }
  }

  lemma SortStableHeadIs<T>(s: seq<T>, key: T -> int, k: nat)
    requires k < |s|
    requires forall j :: 0 <= j < |s| ==> key(s[k]) <= key(s[j])
    requires forall j :: 0 <= j < k ==> key(s[k]) < key(s[j])
    ensures SortStable(s, key) != [] && SortStable(s, key)[0] == s[k]
  {
    var i := SortStableHead(s, key);
    assert key(s[i]) == key(s[k]);
  }
}
