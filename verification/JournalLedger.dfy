/** What an accrual export says about the stored journal: its rows join the journal's own lines and post what they post. */
module JournalLedger {
  import opened Folds
  import opened Datev
  import opened Journal
  import opened JournalInvariant
  import opened JournalTheorems
  import opened Selection
  import Pairing

  // ----- reordering -----

  /** A rearrangement of what f makes of some ids comes from a rearrangement of the ids. */
  lemma {:induction false} PermutationOf<A, B>(a: seq<B>, ids: seq<A>, f: A -> B) returns (perm: seq<A>)
    requires multiset(a) == multiset(Map(ids, f))
    ensures multiset(perm) == multiset(ids) && Map(perm, f) == a
  {
    if a == [] {
      assert |multiset(Map(ids, f))| == 0;
      perm := [];
    } else {
      var i := FindIn(a[0], a, Map(ids, f));
      var rest := ids[..i] + ids[i + 1..];
      MapWithout(ids, i, f);
      RestPermuted(a, Map(ids, f), i);
      var tail := PermutationOf(a[1..], rest, f);
      perm := [ids[i]] + tail;
      PutBack(ids, i, tail);
      MapCons(ids[i], tail, f);
      assert a == [a[0]] + a[1..];
    }
  }

  lemma PutBack<T>(s: seq<T>, i: nat, tail: seq<T>)
    requires i < |s| && multiset(tail) == multiset(s[..i] + s[i + 1..])
    ensures multiset([s[i]] + tail) == multiset(s)
  {
    RemoveFromMultiset(s, i);
    assert s[i] in multiset(s);
  }

  lemma MapCons<A, B>(x: A, s: seq<A>, f: A -> B)
    ensures Map([x] + s, f) == [f(x)] + Map(s, f)
  {
    assert ([x] + s)[1..] == s;
  }

  lemma MapWithout<A, B>(s: seq<A>, i: nat, f: A -> B)
    requires i < |s|
    ensures Map(s[..i] + s[i + 1..], f) == Map(s, f)[..i] + Map(s, f)[i + 1..]
  {
    var left, right := Map(s[..i] + s[i + 1..], f), Map(s, f)[..i] + Map(s, f)[i + 1..];
    forall k | 0 <= k < |s| - 1 ensures left[k] == right[k] {
      assert (s[..i] + s[i + 1..])[k] == if k < i then s[k] else s[k + 1];
    }
  }

  // ----- the stored lines that an export takes -----

  /** The line's entry is posted, with a posting date of the period. */
  predicate IsDueLine(b: Books, lo: int, hi: int, l: JournalLine) {
    && l.entry < |b.entries|
    && b.entries[l.entry].status == EntryStatus.Posted
    && lo <= b.entries[l.entry].postingDate <= hi
  }

  predicate IsDue(b: Books, lo: int, hi: int, i: nat) {
    i < |b.lines| && IsDueLine(b, lo, hi, b.lines[i])
  }

  lemma GatheredIsDue(b: Books, lo: int, hi: int)
    requires Inv(b)
    ensures NoRepeats(Gather(b, lo, hi).lineIds)
    ensures forall i :: i in Gather(b, lo, hi).lineIds <==> IsDue(b, lo, hi, i)
  {
    var posted := EntriesWith(b, EntryStatus.Posted, lo, hi);
    EntriesWithSound(b, EntryStatus.Posted, lo, hi);
    GatherLinesSound(b.lines, posted);
    forall i: nat ensures i in Gather(b, lo, hi).lineIds <==> IsDue(b, lo, hi, i) {
      if i < |b.lines| {
        GatheredLine(b, lo, hi, i);
      }
    }
  }

  // ----- the rows -----

  /** The row that joins two lines: the first line's account on its side, the other one's account against it. */
  predicate Joins(b: Books, row: Row, i: nat, j: nat) {
    && i < |b.lines| && j < |b.lines|
    && var x, y := b.lines[i], b.lines[j];
       && x.entry < |b.entries| && x.side != y.side && x.amountCents == y.amountCents > 0 && x.postingDate == y.postingDate
       && row.amountCents == x.amountCents && row.side == x.side && row.konto == x.account && row.gegenkonto == y.account
       && row.buKey == (if x.buKey == "" then y.buKey else x.buKey)
       && row.belegdatum == x.postingDate
       && row.belegfeld1 == b.entries[x.entry].description
       && row.buchungstext == (if x.bookingText == "" then y.bookingText else x.bookingText)
  }

  lemma InputIs(b: Books, i: nat)
    requires Inv(b) && i < |b.lines|
    ensures b.lines[i].entry < |b.entries| && b.lines[i].amountCents > 0
    ensures var l := b.lines[i];
      LineInput(b)(i) == Pairing.Line(l.amountCents, l.side, l.account, "", l.buKey, l.postingDate,
                                      b.entries[l.entry].description, l.bookingText)
  {
    assert GoodLine(b, i);
    assert GoodEntry(b, b.lines[i].entry);
    LineIsEntryLine(b.lines, i);
    MirroredArePositive(EntryLines(b.lines, b.lines[i].entry));
  }

  lemma JoinedRow(b: Books, i: nat, j: nat)
    requires Inv(b) && i < |b.lines| && j < |b.lines| && Pairing.Matches(LineInput(b)(i), LineInput(b)(j))
    ensures Joins(b, Pairing.RowOf(Pairing.Joined(LineInput(b)(i), LineInput(b)(j))), i, j)
  {
    InputIs(b, i);
    InputIs(b, j);
  }

  /** The bookings' lines, two for each. */
  lemma {:induction false} LinesInPairs(bs: seq<Pairing.Booking>, k: nat)
    requires k < |bs| && forall x :: x in bs ==> x.Joined?
    ensures |Pairing.AllLines(bs)| == 2 * |bs|
    ensures Pairing.AllLines(bs)[2 * k] == bs[k].first && Pairing.AllLines(bs)[2 * k + 1] == bs[k].second
  {
    assert bs[0] in bs;
    if |bs| == 1 {
      assert bs[1..] == [];
    } else {
      LinesInPairs(bs[1..], if k == 0 then 0 else k - 1);
    }
  }

  /** The export has listed the period's posted lines two by two, each once, and row k joins the k-th pair. */
  ghost predicate JoinsDueLines(b: Books, lo: int, hi: int, rows: seq<Row>, order: seq<nat>) {
    && NoRepeats(order) && (forall i :: i in order <==> IsDue(b, lo, hi, i))
    && |order| == 2 * |rows|
    && forall k :: 0 <= k < |rows| ==> Joins(b, rows[k], order[2 * k], order[2 * k + 1])
  }

  lemma PairsJoin(b: Books, bs: seq<Pairing.Booking>, order: seq<nat>)
    requires Inv(b) && (forall i :: i in order ==> i < |b.lines|)
    requires Pairing.AllLines(bs) == Map(order, LineInput(b)) && forall x :: x in bs ==> x.Joined? && Pairing.WellJoined(x)
    ensures |order| == 2 * |bs|
    ensures forall k :: 0 <= k < |bs| ==> Joins(b, Pairing.RowsOf(bs)[k], order[2 * k], order[2 * k + 1])
  {
    if bs != [] {
      LinesInPairs(bs, 0);
    }
    forall k | 0 <= k < |bs| ensures Joins(b, Pairing.RowsOf(bs)[k], order[2 * k], order[2 * k + 1]) {
      LinesInPairs(bs, k);
      assert bs[k] in bs && order[2 * k] in order && order[2 * k + 1] in order;
      assert bs[k] == Pairing.Joined(LineInput(b)(order[2 * k]), LineInput(b)(order[2 * k + 1]));
      JoinedRow(b, order[2 * k], order[2 * k + 1]);
    }
  }

  lemma AllJoined(bs: seq<Pairing.Booking>)
    requires Pairing.Loners(bs) == []
    ensures forall x :: x in bs ==> x.Joined?
  {
    Pairing.LonersAreLines(bs);
  }

  lemma OrderOfRows(b: Books, lo: int, hi: int) returns (order: seq<nat>)
    requires Inv(b)
    ensures JoinsDueLines(b, lo, hi, Pairing.RowsOf(Pairing.Pair(Gather(b, lo, hi).inputs)), order)
  {
    var ids := Gather(b, lo, hi).lineIds;
    var bs := Pairing.Pair(Gather(b, lo, hi).inputs);
    GatheredBookings(b, lo, hi);
    order := PermutationOf(Pairing.AllLines(bs), ids, LineInput(b));
    GatheredIsDue(b, lo, hi);
    PermutedNoRepeats(ids, order);
    PairsJoin(b, bs, order);
  }

  lemma GatheredBookings(b: Books, lo: int, hi: int)
    requires Inv(b)
    ensures var bs := Pairing.Pair(Gather(b, lo, hi).inputs);
      && (forall x :: x in bs ==> x.Joined? && Pairing.WellJoined(x))
      && multiset(Pairing.AllLines(bs)) == multiset(Map(Gather(b, lo, hi).lineIds, LineInput(b)))
  {
    Pairing.PairConsumesEveryLine(Gather(b, lo, hi).inputs);
    ExportSucceedsIff(b, lo, hi, {});
    AllJoined(Pairing.Pair(Gather(b, lo, hi).inputs));
  }

  lemma StoredJob(b: Books, lo: int, hi: int, forbidden: set<string>)
    requires Export(b, lo, hi, forbidden).1.Ok?
    ensures var g := Gather(b, lo, hi);
      Export(b, lo, hi, forbidden).0.jobs == b.jobs + [Job(Pairing.RowsOf(Pairing.Pair(g.inputs)), g.entryIds, g.lineIds)]
  {
  }

  /**
   * A successful export stores one job. Its rows join the lines of the posted entries of the period two by two, each line
   * once, and everything in a row is what the stored lines and the first line's entry say.
   */
  lemma ExportJoinsStoredLines(b: Books, lo: int, hi: int, forbidden: set<string>) returns (order: seq<nat>)
    requires Inv(b) && Export(b, lo, hi, forbidden).1.Ok?
    ensures var jobs := Export(b, lo, hi, forbidden).0.jobs;
      && |jobs| == |b.jobs| + 1 && jobs[..|b.jobs|] == b.jobs
      && JoinsDueLines(b, lo, hi, jobs[|b.jobs|].rows, order)
      && (forall i :: i in jobs[|b.jobs|].lineIds <==> IsDue(b, lo, hi, i))
  {
    order := OrderOfRows(b, lo, hi);
    StoredJob(b, lo, hi, forbidden);
    GatheredIsDue(b, lo, hi);
  }

  // ----- conservation -----

  /** What a stored line posts. */
  function StoredAmount(account: string, side: Side): JournalLine -> int {
    (l: JournalLine) => if l.account == account && l.side == side then l.amountCents else 0
  }

  /** The same for a line that is due. */
  function DueAmount(b: Books, lo: int, hi: int, account: string, side: Side): JournalLine -> int {
    (l: JournalLine) => if IsDueLine(b, lo, hi, l) && l.account == account && l.side == side then l.amountCents else 0
  }

  function Due(b: Books, lo: int, hi: int): JournalLine -> bool {
    (l: JournalLine) => IsDueLine(b, lo, hi, l)
  }

  lemma RowPosts(b: Books, row: Row, i: nat, j: nat, account: string, side: Side)
    requires account != "" && Joins(b, row, i, j)
    ensures Datev.Posted(account, side)(row) == At(b.lines, StoredAmount(account, side))(i) + At(b.lines, StoredAmount(account, side))(j)
  {
  }

  lemma {:induction false} PairPosts(b: Books, rows: seq<Row>, order: seq<nat>, account: string, side: Side)
    requires account != "" && |order| == 2 * |rows|
    requires forall k :: 0 <= k < |rows| ==> Joins(b, rows[k], order[2 * k], order[2 * k + 1])
    ensures Sum(rows, Datev.Posted(account, side)) == Sum(order, At(b.lines, StoredAmount(account, side)))
  {
    if rows != [] {
      var f := At(b.lines, StoredAmount(account, side));
      var rest := order[2..];
      assert Joins(b, rows[0], order[2 * 0], order[2 * 0 + 1]);
      RowPosts(b, rows[0], order[0], order[1], account, side);
      forall k | 0 <= k < |rows[1..]| ensures Joins(b, rows[1..][k], rest[2 * k], rest[2 * k + 1]) {
        assert Joins(b, rows[k + 1], order[2 * (k + 1)], order[2 * (k + 1) + 1]);
      }
      PairPosts(b, rows[1..], rest, account, side);
      SumTwo(order, f);
    }
  }

  lemma SumTwo<T>(s: seq<T>, f: T -> int)
    requires |s| >= 2
    ensures Sum(s, f) == f(s[0]) + f(s[1]) + Sum(s[2..], f)
  {
    assert s[1..][1..] == s[2..];
  }

  /**
   * Conservation: for every account and side the exported rows post exactly what the stored lines of the period's posted
   * entries post there.
   */
  lemma ExportPostsTheJournal(b: Books, lo: int, hi: int, forbidden: set<string>, account: string, side: Side)
    requires Inv(b) && Export(b, lo, hi, forbidden).1.Ok? && account != ""
    ensures |Export(b, lo, hi, forbidden).0.jobs| > |b.jobs|
    ensures Sum(Export(b, lo, hi, forbidden).0.jobs[|b.jobs|].rows, Datev.Posted(account, side)) ==
      Sum(b.lines, DueAmount(b, lo, hi, account, side))
  {
    var order := ExportJoinsStoredLines(b, lo, hi, forbidden);
    PairPosts(b, Export(b, lo, hi, forbidden).0.jobs[|b.jobs|].rows, order, account, side);
    DueSum(b, lo, hi, order, account, side);
  }

  lemma DueSum(b: Books, lo: int, hi: int, order: seq<nat>, account: string, side: Side)
    requires NoRepeats(order) && forall i :: i in order <==> IsDue(b, lo, hi, i)
    ensures Sum(order, At(b.lines, StoredAmount(account, side))) == Sum(b.lines, DueAmount(b, lo, hi, account, side))
  {
    SumOfSelected(b.lines, order, Due(b, lo, hi), StoredAmount(account, side));
    SumCongruent(b.lines, Only(Due(b, lo, hi), StoredAmount(account, side)), DueAmount(b, lo, hi, account, side));
  }

  /** When an export succeeds, in terms of the stored documents alone. */
  lemma ExportSucceedsExactly(b: Books, lo: int, hi: int, forbidden: set<string>)
    requires Inv(b)
    ensures Export(b, lo, hi, forbidden).1.Ok? <==>
      && (exists k: nat :: k < |b.entries| && b.entries[k].status == EntryStatus.Posted && lo <= b.entries[k].postingDate <= hi)
      && (forall i: nat :: IsDue(b, lo, hi, i) ==> b.lines[i].account !in forbidden)
  {
    ExportSucceedsIff(b, lo, hi, forbidden);
    EntriesWithSound(b, EntryStatus.Posted, lo, hi);
    GatheredIsDue(b, lo, hi);
    var posted := EntriesWith(b, EntryStatus.Posted, lo, hi);
    if posted != [] {
      assert posted[0] in posted;
    }
    assert UsesForbidden(b, lo, hi, forbidden) <==> exists i: nat :: IsDue(b, lo, hi, i) && b.lines[i].account in forbidden;
  }
}
