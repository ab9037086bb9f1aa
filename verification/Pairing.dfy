/**
 * Accrual journal lines are one-sided; DATEV rows are two-sided. The export joins each line greedily with the first
 * later line of the opposite side, the same absolute amount and the same posting date.
 */
module Pairing {
  import opened Folds
  import opened Datev
  import opened Text
  import Sorting

  datatype Line = Line(amountCents: int, side: Side, account: string, gegenkonto: string, buKey: string,
                       postingDate: int, documentReference: string, bookingText: string)

  /** What the pairing decides: two lines joined in one row, or a line left on its own. */
  datatype Booking = Joined(first: Line, second: Line) | Lone(line: Line)

  predicate Matches(a: Line, b: Line) {
    a.side != b.side && Abs(a.amountCents) == Abs(b.amountCents) && a.postingDate == b.postingDate
  }

  function RowOf(b: Booking): Row {
    match b
    case Joined(x, y) =>
      Row(Abs(x.amountCents), x.side, x.account, y.account, FirstSet(x.buKey, y.buKey), x.postingDate,
          x.documentReference, FirstSet(x.bookingText, y.bookingText))
    case Lone(x) =>
      Row(Abs(x.amountCents), x.side, x.account, x.gegenkonto, x.buKey, x.postingDate, x.documentReference, x.bookingText)
  }

  function RowsOf(bs: seq<Booking>): seq<Row> {
    Map(bs, RowOf)
  }

  /** The position of the first line that can be joined with `a`; |rest| when there is none. */
  function Partner(a: Line, rest: seq<Line>): (j: nat)
    ensures j <= |rest|
    ensures j < |rest| ==> Matches(a, rest[j])
    ensures forall k :: 0 <= k < j ==> !Matches(a, rest[k])
  {
    if rest == [] || Matches(a, rest[0]) then 0 else 1 + Partner(a, rest[1..])
  }

  /** The simple form of the pairing: take the first line, remove its partner, go on with the rest. */
  function Greedy(lines: seq<Line>): seq<Booking>
    decreases |lines|
  {
    if lines == [] then []
    else
      var a, rest := lines[0], lines[1..];
      var j := Partner(a, rest);
      if j < |rest| then [Joined(a, rest[j])] + Greedy(rest[..j] + rest[j + 1..])
      else [Lone(a)] + Greedy(rest)
  }

  function ByDate(): Line -> int {
    (l: Line) => l.postingDate
  }

  function Pair(lines: seq<Line>): seq<Booking> {
    Greedy(Sorting.SortStable(lines, ByDate()))
  }

  // ----- the export's nested index loops compute exactly that -----

  /** The lines at positions lo..hi that no row has used yet. */
  ghost function Unused(s: seq<Line>, used: set<nat>, lo: nat, hi: nat): seq<Line>
    requires lo <= hi <= |s|
    decreases hi - lo
  {
    if lo == hi then [] else (if lo in used then [] else [s[lo]]) + Unused(s, used, lo + 1, hi)
  }

  lemma {:induction false} UnusedSplit(s: seq<Line>, used: set<nat>, lo: nat, mid: nat, hi: nat)
    requires lo <= mid <= hi <= |s|
    ensures Unused(s, used, lo, hi) == Unused(s, used, lo, mid) + Unused(s, used, mid, hi)
    decreases mid - lo
  {
    if lo < mid {
      UnusedSplit(s, used, lo + 1, mid, hi);
    }
  }

  lemma {:induction false} UnusedElsewhere(s: seq<Line>, used: set<nat>, more: set<nat>, lo: nat, hi: nat)
    requires lo <= hi <= |s|
    requires forall k :: lo <= k < hi ==> (k in used <==> k in more)
    ensures Unused(s, used, lo, hi) == Unused(s, more, lo, hi)
    decreases hi - lo
  {
    if lo < hi {
      UnusedElsewhere(s, used, more, lo + 1, hi);
    }
  }

  lemma {:induction false} UnusedAll(s: seq<Line>, lo: nat)
    requires lo <= |s|
    ensures Unused(s, {}, lo, |s|) == s[lo..]
    decreases |s| - lo
  {
    if lo < |s| {
      UnusedAll(s, lo + 1);
    }
  }

  lemma {:induction false} UnusedFrom(s: seq<Line>, used: set<nat>, lo: nat, hi: nat)
    requires lo <= hi <= |s|
    ensures forall x :: x in Unused(s, used, lo, hi) ==> exists k :: lo <= k < hi && k !in used && s[k] == x
    decreases hi - lo
  {
    if lo < hi {
      UnusedFrom(s, used, lo + 1, hi);
    }
  }

  lemma {:induction false} PartnerAt(a: Line, front: seq<Line>, b: Line, back: seq<Line>)
    requires Matches(a, b) && forall x :: x in front ==> !Matches(a, x)
    ensures Partner(a, front + [b] + back) == |front|
  {
    var rest := front + [b] + back;
    if front == [] {
      assert rest[0] == b;
    } else {
      assert rest[0] == front[0] && front[0] in front;
      assert rest[1..] == front[1..] + [b] + back;
      PartnerAt(a, front[1..], b, back);
    }
  }

  lemma {:induction false} PartnerNowhere(a: Line, rest: seq<Line>)
    requires forall x :: x in rest ==> !Matches(a, x)
    ensures Partner(a, rest) == |rest|
  {
    if rest != [] {
      assert rest[0] in rest;
      PartnerNowhere(a, rest[1..]);
    }
  }

  lemma UnusedBeforeJoin(s: seq<Line>, used: set<nat>, i: nat, j: nat)
    requires i < j < |s| && i !in used && j !in used
    ensures Unused(s, used, i, |s|) == [s[i]] + (Unused(s, used, i + 1, j) + [s[j]] + Unused(s, used, j + 1, |s|))
  {
    SplitAround(s, used, i, j);
  }

  lemma UsedHead(s: seq<Line>, used: set<nat>, j: nat)
    requires j < |s| && j in used
    ensures Unused(s, used, j, |s|) == Unused(s, used, j + 1, |s|)
  {
  }

  lemma UnusedWithout(s: seq<Line>, used: set<nat>, more: set<nat>, i: nat, j: nat)
    requires i < j < |s| && j in more
    requires forall k :: i < k < |s| && k != j ==> (k in used <==> k in more)
    ensures Unused(s, more, i + 1, |s|) == Unused(s, used, i + 1, j) + Unused(s, used, j + 1, |s|)
  {
    UnusedSplit(s, more, i + 1, j, |s|);
    UnusedElsewhere(s, more, used, i + 1, j);
    UnusedElsewhere(s, more, used, j + 1, |s|);
    UsedHead(s, more, j);
  }

  /** When nothing before position j matches and j does, the loop's partner is the simple form's. */
  lemma FoundPartner(s: seq<Line>, used: set<nat>, i: nat, j: nat)
    requires i < j < |s| && i !in used && j !in used && Matches(s[i], s[j])
    requires forall k :: i < k < j && k !in used ==> !Matches(s[i], s[k])
    ensures Greedy(Unused(s, used, i, |s|)) ==
      [Joined(s[i], s[j])] + Greedy(Unused(s, used + {i, j}, i + 1, |s|))
  {
    var front, back := Unused(s, used, i + 1, j), Unused(s, used, j + 1, |s|);
    UnusedFrom(s, used, i + 1, j);
    PartnerAt(s[i], front, s[j], back);
    UnusedBeforeJoin(s, used, i, j);
    UnusedWithout(s, used, used + {i, j}, i, j);
    GreedyJoins(s[i], front, s[j], back);
  }

  lemma SplitAround(s: seq<Line>, used: set<nat>, i: nat, j: nat)
    requires i < j < |s|
    ensures Unused(s, used, i, |s|) == (if i in used then [] else [s[i]]) + Unused(s, used, i + 1, |s|)
    ensures Unused(s, used, i + 1, |s|) ==
      Unused(s, used, i + 1, j) + (if j in used then [] else [s[j]]) + Unused(s, used, j + 1, |s|)
  {
    var front, back := Unused(s, used, i + 1, j), Unused(s, used, j + 1, |s|);
    UnusedSplit(s, used, i + 1, j, |s|);
    Associate(front, if j in used then [] else [s[j]], back);
  }

  lemma GreedyJoins(a: Line, front: seq<Line>, b: Line, back: seq<Line>)
    requires Partner(a, front + [b] + back) == |front|
    ensures Greedy([a] + (front + [b] + back)) == [Joined(a, b)] + Greedy(front + back)
  {
    var rest := front + [b] + back;
    assert ([a] + rest)[1..] == rest;
    assert rest[..|front|] + rest[|front| + 1..] == front + back;
  }

  lemma NoPartner(s: seq<Line>, used: set<nat>, i: nat)
    requires i < |s| && i !in used
    requires forall k :: i < k < |s| && k !in used ==> !Matches(s[i], s[k])
    ensures Greedy(Unused(s, used, i, |s|)) == [Lone(s[i])] + Greedy(Unused(s, used + {i}, i + 1, |s|))
  {
    var rest := Unused(s, used, i + 1, |s|);
    UnusedFrom(s, used, i + 1, |s|);
    PartnerNowhere(s[i], rest);
    UnusedElsewhere(s, used, used + {i}, i + 1, |s|);
    assert ([s[i]] + rest)[1..] == rest;
  }

  lemma NextRow(b: Booking, later: seq<Booking>)
    ensures RowsOf([b] + later) == [RowOf(b)] + RowsOf(later)
  {
    MapAppend([b], later, RowOf);
    assert [b][1..] == [];
  }

  /** The rows written so far, followed by the pairing of what is still unused, are the rows of the whole pairing. */
  ghost predicate Progress(s: seq<Line>, used: set<nat>, i: nat, rows: seq<Row>)
    requires i <= |s|
  {
    rows + RowsOf(Greedy(Unused(s, used, i, |s|))) == RowsOf(Greedy(s))
  }

  lemma Start(s: seq<Line>)
    ensures Progress(s, {}, 0, [])
  {
    UnusedAll(s, 0);
    assert s[0..] == s;
    assert [] + RowsOf(Greedy(s)) == RowsOf(Greedy(s));
  }

  lemma Finish(s: seq<Line>, used: set<nat>, rows: seq<Row>)
    requires Progress(s, used, |s|, rows)
    ensures rows == RowsOf(Greedy(s))
  {
    assert RowsOf(Greedy(Unused(s, used, |s|, |s|))) == [];
    assert rows + [] == rows;
  }

  lemma SkipUsed(s: seq<Line>, used: set<nat>, i: nat, rows: seq<Row>)
    requires i < |s| && i in used && Progress(s, used, i, rows)
    ensures Progress(s, used, i + 1, rows)
  {
    assert Unused(s, used, i, |s|) == Unused(s, used, i + 1, |s|);
  }

  lemma Advance(s: seq<Line>, used: set<nat>, i: nat, rows: seq<Row>, booking: Booking, used': set<nat>)
    requires i < |s| && Progress(s, used, i, rows)
    requires Greedy(Unused(s, used, i, |s|)) == [booking] + Greedy(Unused(s, used', i + 1, |s|))
    ensures Progress(s, used', i + 1, rows + [RowOf(booking)])
  {
    var later := Greedy(Unused(s, used', i + 1, |s|));
    calc {
      RowsOf(Greedy(s));
      rows + RowsOf([booking] + later);
      { NextRow(booking, later); }
      rows + ([RowOf(booking)] + RowsOf(later));
      { Associate(rows, [RowOf(booking)], RowsOf(later)); }
      rows + [RowOf(booking)] + RowsOf(later);
    }
  }

  lemma AdvanceJoined(s: seq<Line>, used: set<nat>, i: nat, j: nat, rows: seq<Row>)
    requires i < j < |s| && i !in used && j !in used && Matches(s[i], s[j]) && Progress(s, used, i, rows)
    requires forall k :: i < k < j && k !in used ==> !Matches(s[i], s[k])
    ensures Progress(s, used + {i, j}, i + 1, rows + [RowOf(Joined(s[i], s[j]))])
  {
    FoundPartner(s, used, i, j);
    Advance(s, used, i, rows, Joined(s[i], s[j]), used + {i, j});
  }

  lemma AdvanceLone(s: seq<Line>, used: set<nat>, i: nat, rows: seq<Row>)
    requires i < |s| && i !in used && Progress(s, used, i, rows)
    requires forall k :: i < k < |s| && k !in used ==> !Matches(s[i], s[k])
    ensures Progress(s, used + {i}, i + 1, rows + [RowOf(Lone(s[i]))])
  {
    NoPartner(s, used, i);
    Advance(s, used, i, rows, Lone(s[i]), used + {i});
  }

  /** The inner loop: the first later unused line that matches line i, or -1. */
  method FindPartner(sorted: seq<Line>, used: set<nat>, i: nat) returns (paired: int)
    requires i < |sorted|
    ensures paired == -1 || (i < paired < |sorted| && paired !in used && Matches(sorted[i], sorted[paired]))
    ensures forall k :: i < k < (if paired == -1 then |sorted| else paired) && k !in used ==> !Matches(sorted[i], sorted[k])
  {
    paired := -1;
    for j := i + 1 to |sorted|
      invariant paired == -1
      invariant forall k :: i < k < j && k !in used ==> !Matches(sorted[i], sorted[k])
    {
      if j in used {
        continue;
      }
      if Matches(sorted[i], sorted[j]) {
        return j;
      }
    }
  }

  method AccrualLinesToDatevRows(lines: seq<Line>) returns (rows: seq<Row>)
    ensures rows == RowsOf(Pair(lines))
  {
    var sorted := Sorting.SortStable(lines, ByDate());
    rows := [];
    var used: set<nat> := {};
    Start(sorted);
    for i := 0 to |sorted|
      invariant Progress(sorted, used, i, rows)
    {
      if i in used {
        SkipUsed(sorted, used, i, rows);
        continue;
      }
      var a := sorted[i];
      var paired := FindPartner(sorted, used, i);
      if paired >= 0 {
        AdvanceJoined(sorted, used, i, paired, rows);
        used := used + {i, paired};
        rows := rows + [RowOf(Joined(a, sorted[paired]))];
      } else {
        AdvanceLone(sorted, used, i, rows);
        used := used + {i};
        rows := rows + [RowOf(Lone(a))];
      }
    }
    Finish(sorted, used, rows);
  }

  // ----- every line is consumed exactly once -----

  function LinesOf(b: Booking): seq<Line> {
    match b
    case Joined(x, y) => [x, y]
    case Lone(x) => [x]
  }

  function AllLines(bs: seq<Booking>): seq<Line> {
    if bs == [] then [] else LinesOf(bs[0]) + AllLines(bs[1..])
  }

  function Loners(bs: seq<Booking>): seq<Line> {
    if bs == [] then [] else (if bs[0].Lone? then [bs[0].line] else []) + Loners(bs[1..])
  }

  predicate WellJoined(b: Booking) {
    b.Joined? ==> Matches(b.first, b.second)
  }

  lemma JoinedConsumes(a: Line, rest: seq<Line>, j: nat, later: seq<Booking>)
    requires j < |rest| && multiset(AllLines(later)) == multiset(rest[..j] + rest[j + 1..])
    ensures multiset(AllLines([Joined(a, rest[j])] + later)) == multiset([a] + rest)
  {
    RemoveFromMultiset(rest, j);
    assert ([Joined(a, rest[j])] + later)[1..] == later;
    assert AllLines([Joined(a, rest[j])] + later) == [a, rest[j]] + AllLines(later);
    assert rest[j] in multiset(rest);
  }

  lemma LoneConsumes(a: Line, rest: seq<Line>, later: seq<Booking>)
    requires multiset(AllLines(later)) == multiset(rest)
    ensures multiset(AllLines([Lone(a)] + later)) == multiset([a] + rest)
  {
    assert ([Lone(a)] + later)[1..] == later;
    assert AllLines([Lone(a)] + later) == [a] + AllLines(later);
  }

  lemma {:induction false} GreedyConsumes(lines: seq<Line>)
    ensures multiset(AllLines(Greedy(lines))) == multiset(lines)
    decreases |lines|
  {
    if lines != [] {
      var a, rest := lines[0], lines[1..];
      var j := Partner(a, rest);
      assert lines == [a] + rest;
      if j < |rest| {
        GreedyConsumes(rest[..j] + rest[j + 1..]);
        JoinedConsumes(a, rest, j, Greedy(rest[..j] + rest[j + 1..]));
      } else {
        GreedyConsumes(rest);
        LoneConsumes(a, rest, Greedy(rest));
      }
    }
  }

  lemma {:induction false} GreedyJoinsWell(lines: seq<Line>)
    ensures forall b :: b in Greedy(lines) ==> WellJoined(b)
    decreases |lines|
  {
    if lines != [] {
      var a, rest := lines[0], lines[1..];
      var j := Partner(a, rest);
      GreedyJoinsWell(if j < |rest| then rest[..j] + rest[j + 1..] else rest);
    }
  }

  /** Every line ends up in exactly one row, and a joined row's lines are opposite, equal in amount and date. */
  lemma PairConsumesEveryLine(lines: seq<Line>)
    ensures multiset(AllLines(Pair(lines))) == multiset(lines)
    ensures forall b :: b in Pair(lines) ==> WellJoined(b)
  {
    Sorting.SortStableSorted(lines, ByDate());
    GreedyConsumes(Sorting.SortStable(lines, ByDate()));
    GreedyJoinsWell(Sorting.SortStable(lines, ByDate()));
  }

  // ----- what stays unpaired -----

  /** A class is a posting date and an absolute amount; only lines of one class can be joined. */
  function InClass(date: int, amount: nat, side: Side): Line -> bool {
    (l: Line) => l.postingDate == date && Abs(l.amountCents) == amount && l.side == side
  }

  function Excess(n: nat, m: nat): nat {
    if n <= m then 0 else n - m
  }

  lemma {:induction false} GreedyLeavesTheExcess(lines: seq<Line>, date: int, amount: nat, side: Side)
    ensures Count(Loners(Greedy(lines)), InClass(date, amount, side)) ==
      Excess(Count(lines, InClass(date, amount, side)), Count(lines, InClass(date, amount, Opposite(side))))
    decreases |lines|
  {
    var here, there := InClass(date, amount, side), InClass(date, amount, Opposite(side));
    if lines != [] {
      var a, rest := lines[0], lines[1..];
      var j := Partner(a, rest);
      assert lines == [a] + rest;
      if j < |rest| {
        var left := rest[..j] + rest[j + 1..];
        GreedyLeavesTheExcess(left, date, amount, side);
        CountRemove(rest, j, here);
        CountRemove(rest, j, there);
        assert Loners(Greedy(lines)) == Loners(Greedy(left));
      } else {
        GreedyLeavesTheExcess(rest, date, amount, side);
        if here(a) {
          CountNone(rest, there);
        } else if there(a) {
          CountNone(rest, here);
        }
        assert Loners(Greedy(lines)) == [a] + Loners(Greedy(rest));
      }
    }
  }

  lemma CountRemove<T>(s: seq<T>, i: nat, p: T -> bool)
    requires i < |s|
    ensures Count(s, p) == (if p(s[i]) then 1 else 0) + Count(s[..i] + s[i + 1..], p)
  {
    CountIsSum(s, p);
    CountIsSum(s[..i] + s[i + 1..], p);
    SumRemove(s, i, Indicator(p));
  }

  /**
   * In each class, on each side, exactly the surplus over the other side stays unpaired; so all unpaired lines of a
   * class lie on one side, and their number is the difference of the two counts.
   */
  lemma PairLeavesTheExcess(lines: seq<Line>, date: int, amount: nat, side: Side)
    ensures Count(Loners(Pair(lines)), InClass(date, amount, side)) ==
      Excess(Count(lines, InClass(date, amount, side)), Count(lines, InClass(date, amount, Opposite(side))))
  {
    var sorted := Sorting.SortStable(lines, ByDate());
    Sorting.SortStableSorted(lines, ByDate());
    GreedyLeavesTheExcess(sorted, date, amount, side);
    CountPermuted(sorted, lines, InClass(date, amount, side));
    CountPermuted(sorted, lines, InClass(date, amount, Opposite(side)));
  }

  // ----- no pairing joins more lines -----

  predicate IsJoined(b: Booking) {
    b.Joined?
  }

  /** Any way at all to form joined rows out of the lines, each line at most once. */
  ghost predicate IsMatching(matching: seq<Booking>, lines: seq<Line>) {
    && (forall b :: b in matching ==> b.Joined? && WellJoined(b))
    && multiset(AllLines(matching)) <= multiset(lines)
  }

  /** The lines on the smaller side of their class (on S when the sides are equal). */
  ghost predicate IsScarce(lines: seq<Line>, date: int, amount: nat, side: Side) {
    var mine, theirs := Count(lines, InClass(date, amount, side)), Count(lines, InClass(date, amount, Opposite(side)));
    mine < theirs || (mine == theirs && side == S)
  }

  ghost function Scarce(lines: seq<Line>): Line -> bool {
    (l: Line) => IsScarce(lines, l.postingDate, Abs(l.amountCents), l.side)
  }

  lemma OneSideIsScarce(lines: seq<Line>, a: Line, b: Line)
    requires Matches(a, b)
    ensures Scarce(lines)(a) != Scarce(lines)(b)
  {
    assert b.side == Opposite(a.side) && a.side == Opposite(b.side);
  }

  /** Each joined row uses exactly one scarce line. */
  lemma {:induction false} ScarceInJoined(bs: seq<Booking>, lines: seq<Line>)
    requires forall b :: b in bs ==> WellJoined(b)
    ensures Count(AllLines(bs), Scarce(lines)) == Count(bs, IsJoined) + Count(Loners(bs), Scarce(lines))
  {
    if bs != [] {
      var p, later := Scarce(lines), bs[1..];
      assert bs[0] in bs;
      ScarceInBooking(bs[0], lines);
      ScarceInJoined(later, lines);
      CountAppend(LinesOf(bs[0]), AllLines(later), p);
      LonersCons(bs);
      CountAppend(Loners([bs[0]]), Loners(later), p);
    }
  }

  lemma ScarceInBooking(b: Booking, lines: seq<Line>)
    requires WellJoined(b)
    ensures Count(LinesOf(b), Scarce(lines)) == (if b.Joined? then 1 else 0) + Count(Loners([b]), Scarce(lines))
  {
    assert [b][1..] == [];
    match b
    case Joined(x, y) =>
      OneSideIsScarce(lines, x, y);
      CountCons(x, [y], Scarce(lines));
      CountCons(y, [], Scarce(lines));
      assert [x, y] == [x] + [y];
    case Lone(x) =>
  }

  /** All bookings joined: nothing is left over. */
  lemma {:induction false} NoLoners(bs: seq<Booking>)
    requires forall b :: b in bs ==> b.Joined?
    ensures Loners(bs) == [] && Count(bs, IsJoined) == |bs|
  {
    if bs != [] {
      assert bs[0] in bs;
      NoLoners(bs[1..]);
    }
  }

  lemma NoScarceLoner(lines: seq<Line>, l: Line)
    requires l in Loners(Pair(lines))
    ensures !Scarce(lines)(l)
  {
    PairLeavesTheExcess(lines, l.postingDate, Abs(l.amountCents), l.side);
    CountNone(Loners(Pair(lines)), InClass(l.postingDate, Abs(l.amountCents), l.side));
  }

  /** The greedy pairing is a maximum matching of the lines. */
  lemma GreedyIsMaximum(lines: seq<Line>, matching: seq<Booking>)
    requires IsMatching(matching, lines)
    ensures |matching| <= Count(Pair(lines), IsJoined)
  {
    PairConsumesEveryLine(lines);
    ScarceInJoined(matching, lines);
    NoLoners(matching);
    CountOfPart(AllLines(matching), lines, Scarce(lines));
    ScarceInJoined(Pair(lines), lines);
    CountPermuted(AllLines(Pair(lines)), lines, Scarce(lines));
    forall l | l in Loners(Pair(lines)) ensures !Scarce(lines)(l) {
      NoScarceLoner(lines, l);
    }
    CountNone(Loners(Pair(lines)), Scarce(lines));
  }

  // ----- pairing is perfect exactly when every class is balanced -----

  ghost predicate ClassBalanced(lines: seq<Line>, date: int, amount: nat) {
    Count(lines, InClass(date, amount, S)) == Count(lines, InClass(date, amount, H))
  }

  ghost predicate AllClassesBalanced(lines: seq<Line>) {
    forall date, amount: nat :: ClassBalanced(lines, date, amount)
  }

  lemma PerfectIffBalanced(lines: seq<Line>)
    ensures Loners(Pair(lines)) == [] <==> AllClassesBalanced(lines)
  {
    var loners := Loners(Pair(lines));
    if loners == [] {
      forall date, amount: nat ensures ClassBalanced(lines, date, amount) {
        PairLeavesTheExcess(lines, date, amount, S);
        PairLeavesTheExcess(lines, date, amount, H);
      }
    } else {
      var l := loners[0];
      PairLeavesTheExcess(lines, l.postingDate, Abs(l.amountCents), l.side);
      CountNone(loners, InClass(l.postingDate, Abs(l.amountCents), l.side));
      assert l in loners;
      assert !ClassBalanced(lines, l.postingDate, Abs(l.amountCents));
    }
  }

  // ----- pairing conserves the ledger -----

  function LinePosted(account: string, side: Side): Line -> int {
    (l: Line) => if l.account == account && l.side == side then Abs(l.amountCents) else 0
  }

  /** What an unpaired line's own gegenkonto adds on the other side. */
  function ContraPosted(account: string, side: Side): Line -> int {
    (l: Line) =>
      if l.gegenkonto != "" && l.gegenkonto == account && Opposite(l.side) == side then Abs(l.amountCents) else 0
  }

  lemma RowPostsItsLines(b: Booking, account: string, side: Side)
    requires account != "" && WellJoined(b)
    ensures Posted(account, side)(RowOf(b)) ==
      Sum(LinesOf(b), LinePosted(account, side)) + Sum(Loners([b]), ContraPosted(account, side))
  {
    assert [b][1..] == [];
    match b
    case Joined(x, y) =>
      SumCons(x, [y], LinePosted(account, side));
      SumCons(y, [], LinePosted(account, side));
      assert [x, y] == [x] + [y];
    case Lone(x) =>
      SumCons(x, [], LinePosted(account, side));
      SumCons(x, [], ContraPosted(account, side));
  }

  lemma LonersCons(bs: seq<Booking>)
    requires bs != []
    ensures Loners(bs) == Loners([bs[0]]) + Loners(bs[1..])
  {
    assert [bs[0]][1..] == [];
  }

  lemma RowsCons(bs: seq<Booking>, f: Row -> int)
    requires bs != []
    ensures Sum(RowsOf(bs), f) == f(RowOf(bs[0])) + Sum(RowsOf(bs[1..]), f)
  {
    NextRow(bs[0], bs[1..]);
    assert bs == [bs[0]] + bs[1..];
    SumCons(RowOf(bs[0]), RowsOf(bs[1..]), f);
  }

  lemma {:induction false} BookingsPostTheirLines(bs: seq<Booking>, account: string, side: Side)
    requires account != ""
    requires forall b :: b in bs ==> WellJoined(b)
    ensures Sum(RowsOf(bs), Posted(account, side)) ==
      Sum(AllLines(bs), LinePosted(account, side)) + Sum(Loners(bs), ContraPosted(account, side))
  {
    if bs != [] {
      var later := bs[1..];
      RowsCons(bs, Posted(account, side));
      RowPostsItsLines(bs[0], account, side);
      BookingsPostTheirLines(later, account, side);
      SumAppend(LinesOf(bs[0]), AllLines(later), LinePosted(account, side));
      LonersCons(bs);
      SumAppend(Loners([bs[0]]), Loners(later), ContraPosted(account, side));
    }
  }

  /**
   * For every account and side the rows post what the lines post, whichever entries the joined lines come from; only
   * an unpaired line that carries a gegenkonto of its own adds its contra posting.
   */
  lemma PairConservesTheLedger(lines: seq<Line>, account: string, side: Side)
    requires account != ""
    ensures Sum(RowsOf(Pair(lines)), Posted(account, side)) ==
      Sum(lines, LinePosted(account, side)) + Sum(Loners(Pair(lines)), ContraPosted(account, side))
    ensures (forall l :: l in lines ==> l.gegenkonto == "") ==>
      Sum(RowsOf(Pair(lines)), Posted(account, side)) == Sum(lines, LinePosted(account, side))
  {
    PairConsumesEveryLine(lines);
    BookingsPostTheirLines(Pair(lines), account, side);
    SumPermuted(AllLines(Pair(lines)), lines, LinePosted(account, side));
    if forall l :: l in lines ==> l.gegenkonto == "" {
      forall l | l in Loners(Pair(lines)) ensures ContraPosted(account, side)(l) == 0 {
        LonersAreLines(Pair(lines));
        assert l in multiset(AllLines(Pair(lines)));
        assert l in multiset(lines);
      }
      SumZero(Loners(Pair(lines)), ContraPosted(account, side));
    }
  }

  lemma {:induction false} LonersAreLines(bs: seq<Booking>)
    ensures forall l :: l in Loners(bs) ==> l in AllLines(bs)
    ensures forall b :: b in bs ==> forall l :: l in LinesOf(b) ==> l in AllLines(bs)
    ensures forall b :: b in bs && b.Lone? ==> b.line in Loners(bs)
  {
    if bs != [] {
      LonersAreLines(bs[1..]);
    }
  }

  lemma {:induction false} SumZero<T>(s: seq<T>, f: T -> int)
    requires forall x :: x in s ==> f(x) == 0
    ensures Sum(s, f) == 0
  {
    if s != [] {
      SumZero(s[1..], f);
    }
  }

  // ----- when the rows pass validation -----

  predicate LineExportable(l: Line, forbidden: set<string>) {
    l.account != "" && l.amountCents != 0 && l.account !in forbidden
  }

  lemma SameLines(lines: seq<Line>, l: Line)
    ensures l in lines <==> l in AllLines(Pair(lines))
  {
    PairConsumesEveryLine(lines);
    assert l in multiset(lines) <==> l in multiset(AllLines(Pair(lines)));
  }

  lemma JoinedRowExportable(x: Line, y: Line, forbidden: set<string>)
    requires Matches(x, y)
    ensures Exportable(RowOf(Joined(x, y)), forbidden) <==> LineExportable(x, forbidden) && LineExportable(y, forbidden)
  {
  }

  lemma RowsOfBookings(bs: seq<Booking>, forbidden: set<string>)
    ensures (forall r :: r in RowsOf(bs) ==> Exportable(r, forbidden)) <==>
      (forall b :: b in bs ==> Exportable(RowOf(b), forbidden))
  {
    if forall r :: r in RowsOf(bs) ==> Exportable(r, forbidden) {
      forall b | b in bs ensures Exportable(RowOf(b), forbidden) {
        var i :| 0 <= i < |bs| && bs[i] == b;
        assert RowsOf(bs)[i] == RowOf(b);
      }
    }
  }

  lemma ValidRowsAreJoined(lines: seq<Line>, forbidden: set<string>)
    requires forall l :: l in lines ==> l.gegenkonto == ""
    requires forall b :: b in Pair(lines) ==> Exportable(RowOf(b), forbidden)
    ensures forall b :: b in Pair(lines) ==> b.Joined?
    ensures Loners(Pair(lines)) == []
  {
    var bs := Pair(lines);
    PairConsumesEveryLine(lines);
    forall b | b in bs ensures b.Joined? {
      if b.Lone? {
        LonersAreLines(bs);
        SameLines(lines, b.line);
      }
    }
    NoLoners(bs);
  }

  lemma ValidRowsAreBalanced(lines: seq<Line>, forbidden: set<string>)
    requires forall l :: l in lines ==> l.gegenkonto == ""
    requires forall b :: b in Pair(lines) ==> Exportable(RowOf(b), forbidden)
    ensures AllClassesBalanced(lines) && forall l :: l in lines ==> LineExportable(l, forbidden)
  {
    var bs := Pair(lines);
    ValidRowsAreJoined(lines, forbidden);
    PerfectIffBalanced(lines);
    PairConsumesEveryLine(lines);
    forall l | l in lines ensures LineExportable(l, forbidden) {
      SameLines(lines, l);
      var b := BookingOfLine(bs, l);
      JoinedRowExportable(b.first, b.second, forbidden);
    }
  }

  lemma BalancedRowsAreValid(lines: seq<Line>, forbidden: set<string>)
    requires AllClassesBalanced(lines) && forall l :: l in lines ==> LineExportable(l, forbidden)
    ensures forall b :: b in Pair(lines) ==> Exportable(RowOf(b), forbidden)
  {
    var bs := Pair(lines);
    PairConsumesEveryLine(lines);
    PerfectIffBalanced(lines);
    LonersAreLines(bs);
    forall b | b in bs ensures Exportable(RowOf(b), forbidden) {
      assert b.Joined?;
      assert b.first in LinesOf(b) && b.second in LinesOf(b);
      SameLines(lines, b.first);
      SameLines(lines, b.second);
      JoinedRowExportable(b.first, b.second, forbidden);
    }
  }

  /**
   * For gathered lines (they carry no gegenkonto): the paired rows pass validation exactly when every line has an
   * amount and a permitted account and every (date, amount) class has as many S as H lines.
   */
  lemma RowsValidIffBalanced(lines: seq<Line>, forbidden: set<string>)
    requires forall l :: l in lines ==> l.gegenkonto == ""
    ensures (forall r :: r in RowsOf(Pair(lines)) ==> Exportable(r, forbidden)) <==>
      (AllClassesBalanced(lines) && forall l :: l in lines ==> LineExportable(l, forbidden))
    ensures RowsOf(Pair(lines)) == [] <==> lines == []
  {
    var bs := Pair(lines);
    RowsOfBookings(bs, forbidden);
    if forall b :: b in bs ==> Exportable(RowOf(b), forbidden) {
      ValidRowsAreBalanced(lines, forbidden);
    }
    if AllClassesBalanced(lines) && forall l :: l in lines ==> LineExportable(l, forbidden) {
      BalancedRowsAreValid(lines, forbidden);
    }
    if lines != [] {
      SameLines(lines, lines[0]);
    }
    if bs != [] {
      LonersAreLines(bs);
      assert LinesOf(bs[0])[0] in AllLines(bs);
      SameLines(lines, LinesOf(bs[0])[0]);
    }
  }

  lemma {:induction false} BookingOfLine(bs: seq<Booking>, l: Line) returns (b: Booking)
    requires l in AllLines(bs)
    ensures b in bs && l in LinesOf(b)
  {
    if l in LinesOf(bs[0]) {
      b := bs[0];
    } else {
      b := BookingOfLine(bs[1..], l);
    }
  }

  // ----- what a row carries -----

  predicate CarriesLine(r: Row, x: Line) {
    && r.amountCents == (if x.amountCents < 0 then -x.amountCents else x.amountCents)
    && r.side == x.side && r.konto == x.account && r.belegdatum == x.postingDate && r.belegfeld1 == x.documentReference
  }

  /** A joined row: the first line's data against the second line's account, with the first key and the first text that is set. */
  predicate CarriesBooking(r: Row, b: Booking) {
    match b
    case Joined(x, y) =>
      && CarriesLine(r, x) && r.gegenkonto == y.account
      && (if x.buKey != "" then r.buKey == x.buKey else r.buKey == y.buKey)
      && (if x.bookingText != "" then r.buchungstext == x.bookingText else r.buchungstext == y.bookingText)
    case Lone(x) => CarriesLine(r, x) && r.gegenkonto == x.gegenkonto && r.buKey == x.buKey && r.buchungstext == x.bookingText
  }

  /** Row by row, in the order of the pairing. */
  lemma RowsCarryTheirLines(lines: seq<Line>)
    ensures |RowsOf(Pair(lines))| == |Pair(lines)|
    ensures forall k :: 0 <= k < |Pair(lines)| ==> CarriesBooking(RowsOf(Pair(lines))[k], Pair(lines)[k])
  {
    forall k | 0 <= k < |Pair(lines)| ensures CarriesBooking(RowsOf(Pair(lines))[k], Pair(lines)[k]) {
      RowCarries(Pair(lines)[k]);
    }
  }

  lemma RowCarries(b: Booking)
    ensures CarriesBooking(RowOf(b), b)
  {
  }
}
