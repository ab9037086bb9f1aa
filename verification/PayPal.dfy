/** The PayPal report: which records become rows, the balance check over them, and the demotion of excluded rows. */
module PayPal {
  import opened Wrappers
  import opened Folds
  import opened Sorting

  datatype Bookability = Bookable | Skipped | BalanceOnly

  /** A record of the file with its columns read: amounts in cents, `time` the booking date with its time of day. */
  datatype Record = Record(
    isEuro: bool, gross: Option<int>, grossInEuro: Option<int>, time: Option<int>,
    fee: Option<int>, balance: Option<int>, kind: string)

  datatype Row = Row(time: int, amount: int, fee: Option<int>, balance: Option<int>, kind: string, bookability: Bookability)

  /** `excluded` stands for the comparison with the configured type list. */
  datatype Settings = Settings(excluded: string -> bool, excludeTypes: bool, keepIntegrity: bool)

  datatype Check = Check(expected: Option<int>, calculated: Option<int>, matched: Option<bool>)

  // ----- reading -----

  function AmountOf(r: Record): Option<int> {
    if r.isEuro then r.gross else r.grossInEuro
  }

  predicate Readable(r: Record) {
    AmountOf(r).Some? && r.time.Some?
  }

  function IsReadable(): Record -> bool {
    r => Readable(r)
  }

  function ToRow(r: Record, o: Settings): Row
    requires Readable(r)
  {
    Row(r.time.value, AmountOf(r).value, r.fee, r.balance, r.kind,
        if o.excludeTypes && o.excluded(r.kind) then Skipped else Bookable)
  }

  function Reader(o: Settings): Record -> Row {
    r => if Readable(r) then ToRow(r, o) else Row(0, 0, None, None, r.kind, Bookable)
  }

  /** The rows of a file, before any demotion. */
  function RowsOf(records: seq<Record>, o: Settings): seq<Row> {
    Map(Filter(records, IsReadable()), Reader(o))
  }

  lemma RowsOfNext(records: seq<Record>, i: nat, o: Settings)
    requires i < |records|
    ensures RowsOf(records[..i + 1], o) ==
            RowsOf(records[..i], o) + if Readable(records[i]) then [ToRow(records[i], o)] else []
  {
    var one := [records[i]];
    assert records[..i + 1] == records[..i] + one;
    FilterAppend(records[..i], one, IsReadable());
    assert one[1..] == [];
    assert Filter(one, IsReadable()) == if Readable(records[i]) then one else [];
    MapAppend(Filter(records[..i], IsReadable()), Filter(one, IsReadable()), Reader(o));
    assert Map(one, Reader(o)) == [Reader(o)(records[i])];
    assert Map<Record, Row>([], Reader(o)) == [];
  }

  /** The positions of the unreadable ones among the first n records. */
  ghost predicate Rejects(records: seq<Record>, n: nat, errors: seq<nat>)
    requires n <= |records|
  {
    forall k: nat :: k in errors <==> k < n && !Readable(records[k])
  }

  lemma RejectsNext(records: seq<Record>, i: nat, errors: seq<nat>)
    requires i < |records| && Rejects(records, i, errors)
    ensures Readable(records[i]) ==> Rejects(records, i + 1, errors)
    ensures !Readable(records[i]) ==> Rejects(records, i + 1, errors + [i])
  {
  }

  method ReadRecords(records: seq<Record>, o: Settings) returns (interim: seq<Row>, errors: seq<nat>)
    ensures interim == RowsOf(records, o)
    ensures forall i: nat :: i in errors <==> i < |records| && !Readable(records[i])
    ensures |interim| + |errors| == |records|
  {
    interim, errors := [], [];
    var i := 0;
    while i < |records|
      invariant 0 <= i <= |records|
      invariant interim == RowsOf(records[..i], o)
      invariant Rejects(records, i, errors)
      invariant |interim| + |errors| == i
    {
      RowsOfNext(records, i, o);
      RejectsNext(records, i, errors);
      var r := records[i];
      var amount := r.gross;
      var skip := false;
      if !r.isEuro {
        if r.grossInEuro.Some? {
          amount := r.grossInEuro;
        } else {
          skip := true;
        }
      }
      if skip || r.time.None? || amount.None? {
        errors := errors + [i];
      } else {
        var bookability := if o.excludeTypes && o.excluded(r.kind) then Skipped else Bookable;
        interim := interim + [Row(r.time.value, amount.value, r.fee, r.balance, r.kind, bookability)];
      }
      i := i + 1;
    }
    assert records[..i] == records;
  }

  // ----- the check -----

  function Delta(r: Row): int {
    r.amount + if r.fee.Some? then r.fee.value else 0
  }

  function DeltaOf(): Row -> int {
    r => Delta(r)
  }

  function Time(): Row -> int {
    (r: Row) => r.time
  }

  function TimeDescending(): Row -> int {
    (r: Row) => -r.time
  }

  function Chronological(rows: seq<Row>): (r: seq<Row>)
    ensures |r| == |rows|
  {
    SortStableSorted(rows, Time());
    SortStable(rows, Time())
  }

  function Newest(rows: seq<Row>): Row
    requires rows != []
  {
    SortStableSorted(rows, TimeDescending());
    SortStable(rows, TimeDescending())[0]
  }

  function Expected(rows: seq<Row>): Option<int>
    requires rows != []
  {
    if Newest(rows).balance.Some? then Newest(rows).balance else rows[0].balance
  }

  /** The balance that the oldest row and the later amounts lead to. */
  function Calculated(rows: seq<Row>): Option<int>
    requires rows != []
  {
    var chrono := Chronological(rows);
    if chrono[0].balance.Some? then Some(chrono[0].balance.value + Sum(chrono[1..], DeltaOf())) else None
  }

  function CheckOf(rows: seq<Row>): Check {
    if rows == [] then Check(None, None, None)
    else
      var expected, calculated := Expected(rows), Calculated(rows);
      if expected.Some? && calculated.Some? then Check(expected, calculated, Some(calculated == expected))
      else Check(expected, None, None)
  }

  method CheckBalance(interim: seq<Row>) returns (check: Check)
    ensures check == CheckOf(interim)
  {
    check := Check(None, None, None);
    if |interim| > 0 {
      var chrono := Chronological(interim);
      var newest := Newest(interim);
      var expected := if newest.balance.Some? then newest.balance else interim[0].balance;
      check := Check(expected, None, None);
      var oldest := chrono[0];
      if oldest.balance.Some? && expected.Some? {
        var running := oldest.balance.value - Delta(oldest);
        var i := 0;
        while i < |chrono|
          invariant 0 <= i <= |chrono|
          invariant running == oldest.balance.value - Delta(oldest) + Sum(chrono[..i], DeltaOf())
        {
          assert chrono[..i + 1] == chrono[..i] + [chrono[i]];
          SumAppend(chrono[..i], [chrono[i]], DeltaOf());
          SumCons(chrono[i], [], DeltaOf());
          running := running + Delta(chrono[i]);
          i := i + 1;
        }
        assert chrono[..i] == chrono;
        check := Check(expected, Some(running), Some(running == expected.value));
      }
    }
  }

  // ----- demotion -----

  predicate Demotes(o: Settings, check: Check) {
    o.keepIntegrity && check.matched == Some(false)
  }

  method Demote(interim: seq<Row>, o: Settings) returns (rows: seq<Row>)
    ensures |rows| == |interim|
    ensures forall i :: 0 <= i < |rows| ==>
      rows[i] == interim[i].(bookability :=
        if interim[i].bookability == Skipped && o.excluded(interim[i].kind) then BalanceOnly else interim[i].bookability)
  {
    rows := interim;
    for i := 0 to |interim|
      invariant |rows| == |interim|
      invariant forall k :: 0 <= k < i ==>
        rows[k] == interim[k].(bookability :=
          if interim[k].bookability == Skipped && o.excluded(interim[k].kind) then BalanceOnly else interim[k].bookability)
      invariant forall k :: i <= k < |rows| ==> rows[k] == interim[k]
    {
      if rows[i].bookability == Skipped && o.excluded(rows[i].kind) {
        rows := rows[i := rows[i].(bookability := BalanceOnly)];
      }
    }
  }

  /**
   * The whole parse. Excluded rows stay in the list; after a failed check none of them is left skipped. Nothing but the
   * bookability ever differs from what was read.
   */
  method ParsePaypal(records: seq<Record>, o: Settings) returns (rows: seq<Row>, errors: seq<nat>, check: Check)
    ensures check == CheckOf(RowsOf(records, o))
    ensures |rows| + |errors| == |records|
    ensures forall i: nat :: i in errors <==> i < |records| && !Readable(records[i])
    ensures |rows| == |RowsOf(records, o)|
    ensures forall i :: 0 <= i < |rows| ==>
      rows[i] == RowsOf(records, o)[i].(bookability :=
        if !o.excludeTypes || !o.excluded(rows[i].kind) then Bookable
        else if Demotes(o, check) then BalanceOnly
        else Skipped)
  {
    var interim;
    interim, errors := ReadRecords(records, o);
    check := CheckBalance(interim);
    rows := interim;
    if o.keepIntegrity && check.matched == Some(false) {
      rows := Demote(interim, o);
    }
    forall i | 0 <= i < |interim|
      ensures interim[i].bookability == if o.excludeTypes && o.excluded(interim[i].kind) then Skipped else Bookable
    {
      RowFromRecord(records, o, i);
    }
  }

  lemma RowFromRecord(records: seq<Record>, o: Settings, i: nat)
    requires i < |RowsOf(records, o)|
    ensures var r := RowsOf(records, o)[i];
      r.bookability == if o.excludeTypes && o.excluded(r.kind) then Skipped else Bookable
  {
    var source := Filter(records, IsReadable())[i];
    assert source in Filter(records, IsReadable());
    assert IsReadable()(source);
  }

  // ----- what the check means -----

  function AmountIn(): Row -> int {
    (r: Row) => r.amount
  }

  /** A row without a fee has none. */
  function FeeIn(): Row -> int {
    (r: Row) => match r.fee
      case Some(fee) => fee
      case None => 0
  }

  lemma AmountsAndFees(rows: seq<Row>)
    ensures Sum(rows, DeltaOf()) == Sum(rows, AmountIn()) + Sum(rows, FeeIn())
  {
    SumPlus(rows, DeltaOf(), AmountIn(), FeeIn());
  }

  predicate FirstEarliest(rows: seq<Row>, a: nat) {
    && a < |rows|
    && (forall i :: 0 <= i < |rows| ==> rows[a].time <= rows[i].time)
    && (forall i :: 0 <= i < a ==> rows[a].time < rows[i].time)
  }

  predicate FirstLatest(rows: seq<Row>, z: nat) {
    && z < |rows|
    && (forall i :: 0 <= i < |rows| ==> rows[i].time <= rows[z].time)
    && (forall i :: 0 <= i < z ==> rows[i].time < rows[z].time)
  }

  /**
   * The whole check in terms of the file: `a` and `z` are the first rows that have the earliest and the latest time. The
   * balance of z (or of the first row of the file, if z has none) is compared with the balance of a plus the amounts and
   * the fees of all other rows.
   */
  lemma CheckIs(rows: seq<Row>, a: nat, z: nat)
    requires FirstEarliest(rows, a) && FirstLatest(rows, z)
    ensures var expected := if rows[z].balance.Some? then rows[z].balance else rows[0].balance;
      CheckOf(rows) ==
        if rows[a].balance.Some? && expected.Some? then
          var calculated := rows[a].balance.value + (Sum(rows, AmountIn()) - rows[a].amount) + (Sum(rows, FeeIn()) - FeeIn()(rows[a]));
          Check(expected, Some(calculated), Some(calculated == expected.value))
        else Check(expected, None, None)
  {
    EndsAre(rows, a, z);
    if rows[a].balance.Some? {
      CalculatedIs(rows, rows[a]);
    }
  }

  lemma EndsAre(rows: seq<Row>, a: nat, z: nat)
    requires FirstEarliest(rows, a) && FirstLatest(rows, z)
    ensures Chronological(rows)[0] == rows[a] && Newest(rows) == rows[z]
  {
    SortStableHeadIs(rows, Time(), a);
    SortStableHeadIs(rows, TimeDescending(), z);
  }

  lemma CalculatedIs(rows: seq<Row>, oldest: Row)
    requires rows != [] && Chronological(rows)[0] == oldest && oldest.balance.Some?
    ensures Calculated(rows) ==
      Some(oldest.balance.value + (Sum(rows, AmountIn()) - oldest.amount) + (Sum(rows, FeeIn()) - FeeIn()(oldest)))
  {
    CalculatedFromFile(rows);
    DeltaSplits(rows, oldest);
  }

  lemma DeltaSplits(rows: seq<Row>, oldest: Row)
    ensures Sum(rows, DeltaOf()) - Delta(oldest) ==
      (Sum(rows, AmountIn()) - oldest.amount) + (Sum(rows, FeeIn()) - FeeIn()(oldest))
  {
    AmountsAndFees(rows);
  }

  /** The order of the file matters only through which rows count as oldest and newest. */
  lemma CalculatedFromFile(rows: seq<Row>)
    requires rows != [] && Chronological(rows)[0].balance.Some?
    ensures var oldest := Chronological(rows)[0];
      Calculated(rows) == Some(oldest.balance.value - Delta(oldest) + Sum(rows, DeltaOf()))
  {
    SortStableSorted(rows, Time());
    var chrono := Chronological(rows);
    SumPermuted(chrono, rows, DeltaOf());
    SumCons(chrono[0], chrono[1..], DeltaOf());
    assert chrono == [chrono[0]] + chrono[1..];
  }

  predicate AllBalances(rows: seq<Row>) {
    forall r :: r in rows ==> r.balance.Some?
  }

  /** How far one balance is from what its predecessor and its own amount and fee lead to. */
  function Gap(previous: Row, next: Row): int
    requires previous.balance.Some? && next.balance.Some?
  {
    next.balance.value - previous.balance.value - next.amount - FeeIn()(next)
  }

  function Gaps(chrono: seq<Row>): int
    requires AllBalances(chrono)
  {
    if |chrono| < 2 then 0 else Gap(chrono[0], chrono[1]) + Gaps(chrono[1..])
  }

  lemma {:induction false} Telescope(chrono: seq<Row>)
    requires chrono != [] && AllBalances(chrono)
    ensures chrono[|chrono| - 1].balance.value ==
      chrono[0].balance.value + Sum(chrono[1..], AmountIn()) + Sum(chrono[1..], FeeIn()) + Gaps(chrono)
  {
    if |chrono| > 1 {
      Telescope(chrono[1..]);
      assert chrono[1..] == [chrono[1]] + chrono[1..][1..];
      SumCons(chrono[1], chrono[1..][1..], AmountIn());
      SumCons(chrono[1], chrono[1..][1..], FeeIn());
    }
  }

  predicate DistinctTimes(rows: seq<Row>) {
    forall i, j :: 0 <= i < j < |rows| ==> rows[i].time != rows[j].time
  }

  lemma PlaceInFile(rows: seq<Row>, k: nat) returns (i: nat)
    requires k < |rows|
    ensures i < |rows| && rows[i] == Chronological(rows)[k]
  {
    SortStableSorted(rows, Time());
    assert Chronological(rows)[k] in multiset(Chronological(rows));
    assert Chronological(rows)[k] in multiset(rows);
    i :| 0 <= i < |rows| && rows[i] == Chronological(rows)[k];
  }

  lemma PlaceInTime(rows: seq<Row>, i: nat) returns (k: nat)
    requires i < |rows|
    ensures k < |rows| && Chronological(rows)[k] == rows[i]
  {
    SortStableSorted(rows, Time());
    assert rows[i] in multiset(rows);
    assert rows[i] in multiset(Chronological(rows));
    k :| 0 <= k < |rows| && Chronological(rows)[k] == rows[i];
  }

  lemma LastIsLatest(rows: seq<Row>, i: nat)
    requires i < |rows|
    ensures rows[i].time <= Chronological(rows)[|rows| - 1].time
  {
    var k := PlaceInTime(rows, i);
    SortStableSorted(rows, Time());
    assert k == |rows| - 1 || Time()(Chronological(rows)[k]) <= Time()(Chronological(rows)[|rows| - 1]);
  }

  lemma NewestIsLast(rows: seq<Row>)
    requires rows != [] && DistinctTimes(rows)
    ensures Newest(rows) == Chronological(rows)[|rows| - 1]
  {
    var z := PlaceInFile(rows, |rows| - 1);
    forall i | 0 <= i < |rows| ensures rows[i].time <= rows[z].time {
      LastIsLatest(rows, i);
    }
    SortStableHeadIs(rows, TimeDescending(), z);
  }

  lemma ChronologicalBalances(rows: seq<Row>)
    requires AllBalances(rows)
    ensures AllBalances(Chronological(rows))
  {
    SortStableSorted(rows, Time());
    forall r | r in Chronological(rows) ensures r in rows {
      assert r in multiset(Chronological(rows));
      assert r in multiset(rows);
    }
  }

  /**
   * With distinct times and all balances present, in any file order: the check is off by exactly the sum of the gaps in
   * the chain, so it succeeds if and only if the gaps cancel.
   */
  lemma MatchedIffGapsCancel(rows: seq<Row>)
    requires rows != [] && AllBalances(rows) && DistinctTimes(rows)
    ensures AllBalances(Chronological(rows))
    ensures var check := CheckOf(rows);
      && check.expected.Some? && check.calculated.Some?
      && check.expected.value - check.calculated.value == Gaps(Chronological(rows))
      && check.matched == Some(Gaps(Chronological(rows)) == 0)
  {
    ChronologicalBalances(rows);
    NewestIsLast(rows);
    Telescope(Chronological(rows));
    AmountsAndFees(Chronological(rows)[1..]);
    assert Chronological(rows)[0] in Chronological(rows);
    assert Newest(rows) in Chronological(rows);
  }

  /** The balance after a row is the balance before it plus its amount and, if it has one, its fee. */
  predicate Follows(previous: Row, next: Row) {
    && previous.balance.Some? && next.balance.Some?
    && next.balance.value == previous.balance.value + next.amount + if next.fee.Some? then next.fee.value else 0
  }

  /** Row j is the next one in time after row i. */
  predicate NextInTime(rows: seq<Row>, i: nat, j: nat) {
    i < |rows| && j < |rows| && rows[i].time < rows[j].time
    && forall k :: 0 <= k < |rows| ==> rows[k].time <= rows[i].time || rows[j].time <= rows[k].time
  }

  predicate UnbrokenChain(rows: seq<Row>) {
    forall i, j :: 0 <= i < |rows| && 0 <= j < |rows| && NextInTime(rows, i, j) ==> Follows(rows[i], rows[j])
  }

  lemma {:induction false} FollowingHasNoGaps(chrono: seq<Row>)
    requires AllBalances(chrono) && forall k :: 0 <= k < |chrono| - 1 ==> Follows(chrono[k], chrono[k + 1])
    ensures Gaps(chrono) == 0
  {
    if |chrono| > 1 {
      assert Follows(chrono[0], chrono[0 + 1]);
      forall k | 0 <= k < |chrono[1..]| - 1 ensures Follows(chrono[1..][k], chrono[1..][k + 1]) {
        assert Follows(chrono[k + 1], chrono[k + 1 + 1]);
      }
      FollowingHasNoGaps(chrono[1..]);
    }
  }

  lemma TwiceTheSame(a: seq<Row>, k: nat, m: nat)
    requires k < m < |a| && a[k] == a[m]
    ensures multiset(a)[a[k]] >= 2
  {
    assert a == a[..k] + [a[k]] + a[k + 1..m] + [a[m]] + a[m + 1..];
  }

  lemma {:induction false} OnceEach(rows: seq<Row>, r: Row)
    requires DistinctTimes(rows)
    ensures multiset(rows)[r] <= 1
  {
    if rows != [] {
      assert rows == [rows[0]] + rows[1..];
      OnceEach(rows[1..], r);
      if r == rows[0] {
        assert r !in rows[1..];
      }
    }
  }

  /** Distinct times stay distinct in chronological order. */
  lemma ChronologicalDistinct(rows: seq<Row>, k: nat)
    requires DistinctTimes(rows) && k + 1 < |rows|
    ensures Chronological(rows)[k].time < Chronological(rows)[k + 1].time
  {
    SortStableSorted(rows, Time());
    var chrono := Chronological(rows);
    assert Time()(chrono[k]) <= Time()(chrono[k + 1]);
    var i := PlaceInFile(rows, k);
    var j := PlaceInFile(rows, k + 1);
    if chrono[k].time == chrono[k + 1].time {
      assert i == j;
      TwiceTheSame(chrono, k, k + 1);
      OnceEach(rows, chrono[k]);
    }
  }

  lemma NothingBetween(rows: seq<Row>, k: nat, m: nat)
    requires k + 1 < |rows| && m < |rows|
    ensures rows[m].time <= Chronological(rows)[k].time || Chronological(rows)[k + 1].time <= rows[m].time
  {
    var chrono := Chronological(rows);
    var n := PlaceInTime(rows, m);
    SortStableSorted(rows, Time());
    if n < k {
      assert Time()(chrono[n]) <= Time()(chrono[k]);
    } else if n > k + 1 {
      assert Time()(chrono[k + 1]) <= Time()(chrono[n]);
    }
  }

  lemma ChronologicalFollows(rows: seq<Row>, k: nat)
    requires DistinctTimes(rows) && UnbrokenChain(rows) && k + 1 < |rows|
    ensures Follows(Chronological(rows)[k], Chronological(rows)[k + 1])
  {
    var i := PlaceInFile(rows, k);
    var j := PlaceInFile(rows, k + 1);
    ChronologicalDistinct(rows, k);
    forall m | 0 <= m < |rows| ensures rows[m].time <= rows[i].time || rows[j].time <= rows[m].time {
      NothingBetween(rows, k, m);
    }
    assert NextInTime(rows, i, j);
  }

  /**
   * With distinct times: if every balance is the balance before it in time plus the row's amount and fee, the check
   * succeeds, whatever the order of the file, and no row is demoted.
   */
  lemma UnbrokenChainMatches(rows: seq<Row>, o: Settings)
    requires rows != [] && AllBalances(rows) && DistinctTimes(rows) && UnbrokenChain(rows)
    ensures CheckOf(rows).matched == Some(true) && !Demotes(o, CheckOf(rows))
  {
    MatchedIffGapsCancel(rows);
    forall k | 0 <= k < |rows| - 1 ensures Follows(Chronological(rows)[k], Chronological(rows)[k + 1]) {
      ChronologicalFollows(rows, k);
    }
    FollowingHasNoGaps(Chronological(rows));
  }

  // ----- rows with equal times -----

  /** The usual file: newest first, each balance following from the row below it. */
  ghost predicate NewestFirst(rows: seq<Row>) {
    && AllBalances(rows)
    && (forall i, j :: 0 <= i < j < |rows| ==> rows[j].time <= rows[i].time)
    && (forall i, j :: 0 <= i < j < |rows| && j == i + 1 ==> Follows(rows[j], rows[i]))
  }

  ghost predicate OldestFirst(rows: seq<Row>) {
    && AllBalances(rows)
    && (forall i, j :: 0 <= i < j < |rows| ==> rows[i].time <= rows[j].time)
    && (forall i, j :: 0 <= i < j < |rows| && j == i + 1 ==> Follows(rows[i], rows[j]))
  }

  lemma SumNext(rows: seq<Row>, k: nat)
    requires k < |rows|
    ensures Sum(rows[..k + 1], DeltaOf()) == Sum(rows[..k], DeltaOf()) + Delta(rows[k])
  {
    assert rows[..k + 1] == rows[..k] + [rows[k]];
    SumAppend(rows[..k], [rows[k]], DeltaOf());
    SumCons(rows[k], [], DeltaOf());
  }

  lemma {:induction false} ChainDown(rows: seq<Row>, k: nat)
    requires NewestFirst(rows) && k < |rows|
    ensures rows[0].balance.Some? && rows[k].balance.Some?
    ensures rows[0].balance.value == rows[k].balance.value + Sum(rows[..k], DeltaOf())
  {
    assert rows[0] in rows && rows[k] in rows;
    if k > 0 {
      ChainDown(rows, k - 1);
      SumNext(rows, k - 1);
      assert Follows(rows[k - 1 + 1], rows[k - 1]);
    }
  }

  lemma {:induction false} ChainUp(rows: seq<Row>, k: nat)
    requires OldestFirst(rows) && k < |rows|
    ensures rows[0].balance.Some? && rows[k].balance.Some?
    ensures rows[k].balance.value == rows[0].balance.value - Delta(rows[0]) + Sum(rows[..k + 1], DeltaOf())
  {
    assert rows[0] in rows && rows[k] in rows;
    SumNext(rows, k);
    if k > 0 {
      ChainUp(rows, k - 1);
      assert Follows(rows[k - 1], rows[k - 1 + 1]);
    }
  }

  lemma SumSplit(rows: seq<Row>, k: nat)
    requires k < |rows|
    ensures Sum(rows, DeltaOf()) == Sum(rows[..k + 1], DeltaOf()) + Sum(rows[k + 1..], DeltaOf())
  {
    assert rows == rows[..k + 1] + rows[k + 1..];
    SumAppend(rows[..k + 1], rows[k + 1..], DeltaOf());
  }

  predicate FirstOfItsTime(rows: seq<Row>, k: nat) {
    k < |rows| && forall i :: 0 <= i < k ==> rows[i].time != rows[k].time
  }

  lemma NewestFirstEnds(rows: seq<Row>, k: nat)
    requires NewestFirst(rows) && FirstOfItsTime(rows, k) && rows[k].time == rows[|rows| - 1].time
    ensures Newest(rows) == rows[0] && Chronological(rows)[0] == rows[k]
  {
    assert forall j :: 0 <= j < |rows| ==> TimeDescending()(rows[0]) <= TimeDescending()(rows[j]);
    SortStableHeadIs(rows, TimeDescending(), 0);
    SortStableHeadIs(rows, Time(), k);
  }

  lemma OldestFirstEnds(rows: seq<Row>, k: nat)
    requires OldestFirst(rows) && FirstOfItsTime(rows, k) && rows[k].time == rows[|rows| - 1].time
    ensures Newest(rows) == rows[k] && Chronological(rows)[0] == rows[0]
  {
    SortStableHeadIs(rows, TimeDescending(), k);
    SortStableHeadIs(rows, Time(), 0);
  }

  /**
   * A newest-first file with an unbroken chain: the first row in the file that has the earliest time is taken for the
   * oldest one. The check succeeds if and only if the rows listed after it add up to zero; with a single row at the
   * earliest time there are none.
   */
  lemma NewestFirstMatchesIff(rows: seq<Row>, k: nat)
    requires NewestFirst(rows) && FirstOfItsTime(rows, k) && rows[k].time == rows[|rows| - 1].time
    ensures CheckOf(rows).matched == Some(Sum(rows[k + 1..], AmountIn()) + Sum(rows[k + 1..], FeeIn()) == 0)
  {
    NewestFirstEnds(rows, k);
    ChainDown(rows, k);
    CalculatedFromFile(rows);
    SumSplit(rows, k);
    SumNext(rows, k);
    AmountsAndFees(rows[k + 1..]);
  }

  /** The same for an oldest-first file, where rows sharing the latest time are the problem. */
  lemma OldestFirstMatchesIff(rows: seq<Row>, k: nat)
    requires OldestFirst(rows) && FirstOfItsTime(rows, k) && rows[k].time == rows[|rows| - 1].time
    ensures CheckOf(rows).matched == Some(Sum(rows[k + 1..], AmountIn()) + Sum(rows[k + 1..], FeeIn()) == 0)
  {
    OldestFirstEnds(rows, k);
    ChainUp(rows, k);
    CalculatedFromFile(rows);
    SumSplit(rows, k);
    AmountsAndFees(rows[k + 1..]);
  }

  function TwoAtOnce(): seq<Record> {
    [Record(true, Some(100), None, Some(5), None, Some(1100), "sale"), Record(true, Some(1000), None, Some(5), None, Some(1000), "transfer")]
  }

  function ExcludeTransfers(): Settings {
    Settings((kind: string) => kind == "transfer", true, true)
  }

  lemma RowsOfTwo()
    ensures RowsOf(TwoAtOnce(), ExcludeTransfers()) ==
      [Row(5, 100, None, Some(1100), "sale", Bookable), Row(5, 1000, None, Some(1000), "transfer", Skipped)]
  {
    var records, o := TwoAtOnce(), ExcludeTransfers();
    assert records[..0] == [] && records[..2] == records;
    RowsOfNext(records, 0, o);
    RowsOfNext(records, 1, o);
    assert "sale"[0] != "transfer"[0];
  }

  /** A correct file with two rows at the same earliest time is reported as wrong, and its excluded row is demoted. */
  lemma FalseAlarmOnEqualTimes()
    ensures var rows := RowsOf(TwoAtOnce(), ExcludeTransfers());
      && NewestFirst(rows) && |rows| == 2 && rows[1].bookability == Skipped
      && Demotes(ExcludeTransfers(), CheckOf(rows))
  {
    RowsOfTwo();
    var rows := RowsOf(TwoAtOnce(), ExcludeTransfers());
    assert rows[0].balance == Some(1100) && rows[1].balance == Some(1000);
    assert Follows(rows[1], rows[0]);
    assert NewestFirst(rows);
    assert rows[1..] == [rows[1]];
    SumCons(rows[1], [], AmountIn());
    SumCons(rows[1], [], FeeIn());
    NewestFirstMatchesIff(rows, 0);
  }

  // ----- exclusion does not influence the check -----

  lemma {:induction false} InsertStableMap<A, B>(x: A, s: seq<A>, h: A -> B, keyA: A -> int, keyB: B -> int)
    requires forall a :: keyB(h(a)) == keyA(a)
    ensures InsertStable(h(x), Map(s, h), keyB) == Map(InsertStable(x, s, keyA), h)
  {
    if s == [] || keyA(x) <= keyA(s[0]) {
      assert ([x] + s)[1..] == s;
    } else {
      InsertStableMap(x, s[1..], h, keyA, keyB);
      var r := InsertStable(x, s[1..], keyA);
      assert ([s[0]] + r)[1..] == r;
      assert Map(s, h)[1..] == Map(s[1..], h);
    }
  }

  lemma {:induction false} SortStableMap<A, B>(s: seq<A>, h: A -> B, keyA: A -> int, keyB: B -> int)
    requires forall a :: keyB(h(a)) == keyA(a)
    ensures SortStable(Map(s, h), keyB) == Map(SortStable(s, keyA), h)
  {
    if s != [] {
      SortStableMap(s[1..], h, keyA, keyB);
      InsertStableMap(s[0], SortStable(s[1..], keyA), h, keyA, keyB);
      assert Map(s, h)[1..] == Map(s[1..], h);
    }
  }

  function Marked(b: Bookability): Row -> Row {
    (r: Row) => r.(bookability := b)
  }

  lemma EndsIgnoreMarks(rows: seq<Row>, b: Bookability)
    requires rows != []
    ensures var other := Map(rows, Marked(b));
      && Newest(other) == Marked(b)(Newest(rows))
      && Chronological(other) == Map(Chronological(rows), Marked(b))
  {
    SortStableMap(rows, Marked(b), Time(), Time());
    SortStableMap(rows, Marked(b), TimeDescending(), TimeDescending());
    SortStableSorted(rows, TimeDescending());
  }

  lemma MapTail<A, B>(s: seq<A>, h: A -> B)
    requires s != []
    ensures Map(s, h)[1..] == Map(s[1..], h) && Map(s, h)[0] == h(s[0])
  {
  }

  lemma DeltasIgnoreMarks(rows: seq<Row>, b: Bookability)
    ensures Sum(Map(rows, Marked(b)), DeltaOf()) == Sum(rows, DeltaOf())
  {
    SumMap(rows, Marked(b), DeltaOf(), DeltaOf());
  }

  lemma CalculatedIgnoresMarks(rows: seq<Row>, b: Bookability)
    requires rows != []
    ensures Calculated(Map(rows, Marked(b))) == Calculated(rows)
  {
    var chrono := Chronological(rows);
    EndsIgnoreMarks(rows, b);
    MapTail(chrono, Marked(b));
    DeltasIgnoreMarks(chrono[1..], b);
  }

  lemma ExpectedIgnoresMarks(rows: seq<Row>, b: Bookability)
    requires rows != []
    ensures Expected(Map(rows, Marked(b))) == Expected(rows)
  {
    EndsIgnoreMarks(rows, b);
  }

  lemma CheckIgnoresMarks(rows: seq<Row>, b: Bookability)
    ensures CheckOf(Map(rows, Marked(b))) == CheckOf(rows)
  {
    if rows != [] {
      ExpectedIgnoresMarks(rows, b);
      CalculatedIgnoresMarks(rows, b);
    }
  }

  lemma {:induction false} MarkedRowsAgree(records: seq<Record>, o: Settings, p: Settings, b: Bookability)
    ensures Map(Map(records, Reader(o)), Marked(b)) == Map(Map(records, Reader(p)), Marked(b))
  {
    if records != [] {
      MarkedRowsAgree(records[1..], o, p, b);
    }
  }

  /**
   * The balance check counts excluded rows like all others: switching the exclusion on or off, or changing its type
   * list, never changes the outcome.
   */
  lemma ExclusionNeverChangesTheCheck(records: seq<Record>, o: Settings, p: Settings)
    ensures CheckOf(RowsOf(records, o)) == CheckOf(RowsOf(records, p))
  {
    CheckIgnoresMarks(RowsOf(records, o), Bookable);
    CheckIgnoresMarks(RowsOf(records, p), Bookable);
    MarkedRowsAgree(Filter(records, IsReadable()), o, p, Bookable);
  }
}
