/** The trial balance over all accounts and the ledger of one account, computed from the cash transactions. */
module TrialBalance {
  import opened Wrappers
  import opened Folds
  import opened Sorting
  import opened Text
  import opened Cash
  import opened Datev
  import CashPosting

  datatype Period = Period(from: Option<int>, until: Option<int>)

  predicate InPeriod(p: Period, date: int) {
    (p.from.Some? ==> p.from.value <= date) && (p.until.Some? ==> date <= p.until.value)
  }

  /** The filter that both reports share. */
  function Counts(p: Period): Tx -> bool {
    (tx: Tx) => InPeriod(p, tx.bookingDate) && tx.bookability == Bookable && tx.status != Skipped
  }

  /** The stored side, or else outflows in debit and inflows in credit. */
  function KontoSide(tx: Tx): Side {
    match tx.booking.side
    case Some(side) => side
    case None => if tx.amountCents < 0 then S else H
  }

  // ----- the aggregate -----

  datatype Posting = Posting(account: string, side: Side, cents: nat)

  datatype Totals = Totals(debit: nat, credit: nat, count: nat)

  function PostingsOf(tx: Tx): seq<Posting> {
    if tx.booking.konto == "" || tx.booking.gegenkonto == "" then []
    else
      [Posting(tx.booking.konto, KontoSide(tx), Abs(tx.amountCents)),
       Posting(tx.booking.gegenkonto, Opposite(KontoSide(tx)), Abs(tx.amountCents))]
  }

  function Unwind(txs: seq<Tx>): seq<Posting> {
    if txs == [] then [] else PostingsOf(txs[0]) + Unwind(txs[1..])
  }

  /** The pipeline drops every posting on an account whose number reads "null". */
  function Named(): Posting -> bool {
    (x: Posting) => x.account != "" && x.account != "null"
  }

  function TotalsOf(m: map<string, Totals>, account: string): Totals {
    if account in m then m[account] else Totals(0, 0, 0)
  }

  function Put(m: map<string, Totals>, x: Posting): map<string, Totals> {
    var t := TotalsOf(m, x.account);
    m[x.account := Totals(t.debit + (if x.side == S then x.cents else 0),
                          t.credit + (if x.side == H then x.cents else 0), t.count + 1)]
  }

  function Group(postings: seq<Posting>): map<string, Totals> {
    if postings == [] then map[]
    else
      var last := |postings| - 1;
      Put(Group(postings[..last]), postings[last])
  }

  function Aggregate(txs: seq<Tx>, period: Period): map<string, Totals> {
    Group(Filter(Unwind(Filter(txs, Counts(period))), Named()))
  }

  // ----- what the aggregate contains -----

  function On(account: string, side: Side): Posting -> int {
    (x: Posting) => if x.account == account && x.side == side then x.cents else 0
  }

  function IsOn(account: string): Posting -> bool {
    (x: Posting) => x.account == account
  }

  function OfSide(side: Side): Posting -> int {
    (x: Posting) => if x.side == side then x.cents else 0
  }

  function Debits(m: map<string, Totals>): map<string, int> {
    map a | a in m :: m[a].debit
  }

  function Credits(m: map<string, Totals>): map<string, int> {
    map a | a in m :: m[a].credit
  }

  lemma SplitLast(postings: seq<Posting>, f: Posting -> int, p: Posting -> bool)
    requires postings != []
    ensures var last := |postings| - 1;
      && Sum(postings, f) == Sum(postings[..last], f) + f(postings[last])
      && Count(postings, p) == Count(postings[..last], p) + if p(postings[last]) then 1 else 0
  {
    var last := |postings| - 1;
    assert postings == postings[..last] + [postings[last]];
    SumAppend(postings[..last], [postings[last]], f);
    SumCons(postings[last], [], f);
    CountAppend(postings[..last], [postings[last]], p);
    CountCons(postings[last], [], p);
  }

  lemma {:induction false} GroupPerAccount(postings: seq<Posting>, a: string)
    ensures var t := TotalsOf(Group(postings), a);
      && t.debit == Sum(postings, On(a, S)) && t.credit == Sum(postings, On(a, H))
      && t.count == Count(postings, IsOn(a))
    ensures a in Group(postings) <==> exists x :: x in postings && x.account == a
  {
    if postings != [] {
      var last := |postings| - 1;
      GroupPerAccount(postings[..last], a);
      SplitLast(postings, On(a, S), IsOn(a));
      SplitLast(postings, On(a, H), IsOn(a));
      assert forall x :: x in postings <==> x in postings[..last] || x == postings[last];
    }
  }

  lemma PutTotals(m: map<string, Totals>, x: Posting)
    ensures MapSum(Debits(Put(m, x))) == MapSum(Debits(m)) + OfSide(S)(x)
    ensures MapSum(Credits(Put(m, x))) == MapSum(Credits(m)) + OfSide(H)(x)
  {
    var t := Put(m, x)[x.account];
    assert Debits(Put(m, x)) == Debits(m)[x.account := t.debit];
    assert Credits(Put(m, x)) == Credits(m)[x.account := t.credit];
    MapSumPut(Debits(m), x.account, t.debit);
    MapSumPut(Credits(m), x.account, t.credit);
  }

  lemma {:induction false} GroupTotals(postings: seq<Posting>)
    ensures MapSum(Debits(Group(postings))) == Sum(postings, OfSide(S))
    ensures MapSum(Credits(Group(postings))) == Sum(postings, OfSide(H))
  {
    if postings == [] {
      assert Debits(map[]) == map[] && Credits(map[]) == map[];
    } else {
      var last := |postings| - 1;
      GroupTotals(postings[..last]);
      PutTotals(Group(postings[..last]), postings[last]);
      SplitLast(postings, OfSide(S), Named());
      SplitLast(postings, OfSide(H), Named());
    }
  }

  /** A contribution per transaction that agrees with the contributions of its postings. */
  lemma {:induction false} SumUnwind(txs: seq<Tx>, f: Posting -> int, g: Tx -> int)
    requires forall tx :: tx in txs ==> Sum(PostingsOf(tx), f) == g(tx)
    ensures Sum(Unwind(txs), f) == Sum(txs, g)
  {
    if txs != [] {
      assert txs[0] in txs;
      SumUnwind(txs[1..], f, g);
      SumAppend(PostingsOf(txs[0]), Unwind(txs[1..]), f);
    }
  }

  lemma TwoPostings(tx: Tx, f: Posting -> int)
    requires tx.booking.konto != "" && tx.booking.gegenkonto != ""
    ensures Sum(PostingsOf(tx), f) == f(PostingsOf(tx)[0]) + f(PostingsOf(tx)[1])
  {
    var ps := PostingsOf(tx);
    assert ps == [ps[0]] + [ps[1]];
    SumCons(ps[0], [ps[1]], f);
    SumCons(ps[1], [], f);
  }

  lemma {:induction false} PostingsBalance(txs: seq<Tx>)
    ensures Sum(Unwind(txs), OfSide(S)) == Sum(Unwind(txs), OfSide(H))
    ensures forall x :: x in Unwind(txs) ==> x.account != ""
  {
    if txs != [] {
      PostingsBalance(txs[1..]);
      SumAppend(PostingsOf(txs[0]), Unwind(txs[1..]), OfSide(S));
      SumAppend(PostingsOf(txs[0]), Unwind(txs[1..]), OfSide(H));
      if PostingsOf(txs[0]) != [] {
        TwoPostings(txs[0], OfSide(S));
        TwoPostings(txs[0], OfSide(H));
      }
    }
  }

  lemma DroppedPart(postings: seq<Posting>, side: Side)
    requires forall x :: x in postings ==> x.account != ""
    ensures Sum(postings, OfSide(side)) == Sum(Filter(postings, Named()), OfSide(side)) + Sum(postings, On("null", side))
  {
    SumFilter(postings, Named(), OfSide(side));
    SumPlus(postings, OfSide(side), Only(Named(), OfSide(side)), On("null", side));
  }

  /**
   * Total debit and total credit of the trial balance differ by exactly what is booked on an account called "null", the
   * one that the report drops; without such bookings they are equal.
   */
  lemma TotalsDifferByNullAccount(txs: seq<Tx>, period: Period)
    ensures var t, dropped := Aggregate(txs, period), Unwind(Filter(txs, Counts(period)));
      MapSum(Debits(t)) + Sum(dropped, On("null", S)) == MapSum(Credits(t)) + Sum(dropped, On("null", H))
  {
    var all := Unwind(Filter(txs, Counts(period)));
    PostingsBalance(Filter(txs, Counts(period)));
    DroppedPart(all, S);
    DroppedPart(all, H);
    GroupTotals(Filter(all, Named()));
  }

  /** The report lists an account if and only if a counted transaction books on it; "null" and "" are never listed. */
  lemma ListedIff(txs: seq<Tx>, period: Period, a: string)
    ensures a in Aggregate(txs, period) <==>
      a != "" && a != "null" && exists x :: x in Unwind(Filter(txs, Counts(period))) && x.account == a
  {
    GroupPerAccount(Filter(Unwind(Filter(txs, Counts(period))), Named()), a);
  }

  /** Accounts from the chart are added with zero totals if asked for; no total changes by that. */
  method AccountTrialBalance(txs: seq<Tx>, period: Period, chart: seq<string>, includeEmpty: bool)
    returns (totals: map<string, Totals>)
    ensures forall a :: a in totals <==> a in Aggregate(txs, period) || (includeEmpty && a in chart)
    ensures forall a :: TotalsOf(totals, a) == TotalsOf(Aggregate(txs, period), a)
    ensures MapSum(Debits(totals)) == MapSum(Debits(Aggregate(txs, period)))
    ensures MapSum(Credits(totals)) == MapSum(Credits(Aggregate(txs, period)))
  {
    totals := Aggregate(txs, period);
    for i := 0 to |chart|
      invariant forall a :: a in totals <==> a in Aggregate(txs, period) || (includeEmpty && a in chart[..i])
      invariant forall a :: TotalsOf(totals, a) == TotalsOf(Aggregate(txs, period), a)
      invariant MapSum(Debits(totals)) == MapSum(Debits(Aggregate(txs, period)))
      invariant MapSum(Credits(totals)) == MapSum(Credits(Aggregate(txs, period)))
    {
      if includeEmpty && chart[i] !in totals {
        AddEmpty(totals, chart[i]);
        totals := totals[chart[i] := Totals(0, 0, 0)];
      }
      assert chart[..i + 1] == chart[..i] + [chart[i]];
    }
    assert chart[..|chart|] == chart;
  }

  lemma AddEmpty(m: map<string, Totals>, a: string)
    requires a !in m
    ensures MapSum(Debits(m[a := Totals(0, 0, 0)])) == MapSum(Debits(m))
    ensures MapSum(Credits(m[a := Totals(0, 0, 0)])) == MapSum(Credits(m))
  {
    assert Debits(m[a := Totals(0, 0, 0)]) == Debits(m)[a := 0];
    assert Credits(m[a := Totals(0, 0, 0)]) == Credits(m)[a := 0];
    MapSumPut(Debits(m), a, 0);
    MapSumPut(Credits(m), a, 0);
  }

  // ----- the ledger of one account -----

  datatype Sides = Sides(konto: string, gegenkonto: string, kontoSide: Side, gegenkontoSide: Side, cents: nat)

  function SidesForPayment(tx: Tx): Option<Sides> {
    var konto, gegenkonto := Trim(tx.booking.konto), Trim(tx.booking.gegenkonto);
    if konto == "" || gegenkonto == "" then None
    else Some(Sides(konto, gegenkonto, KontoSide(tx), Opposite(KontoSide(tx)), Abs(tx.amountCents)))
  }

  datatype Hit = Hit(side: Side, contra: string)

  function SideForAccount(sides: Option<Sides>, account: string): Option<Hit> {
    match sides
    case None => None
    case Some(s) =>
      if s.konto == account then Some(Hit(s.kontoSide, s.gegenkonto))
      else if s.gegenkonto == account then Some(Hit(s.gegenkontoSide, s.konto))
      else None
  }

  datatype LedgerLine = LedgerLine(bookingDate: int, cents: nat, side: Side, contra: string)

  datatype Ledger = Ledger(account: string, debit: int, credit: int, lines: seq<LedgerLine>)

  datatype LedgerError = NoAccountNumber

  function Touches(p: Period, account: string): Tx -> bool {
    (tx: Tx) => Counts(p)(tx) && (tx.booking.konto == account || tx.booking.gegenkonto == account)
  }

  function BookedOn(): Tx -> int {
    (tx: Tx) => tx.bookingDate
  }

  function Found(txs: seq<Tx>, period: Period, account: string): seq<Tx> {
    SortStable(Filter(txs, Touches(period, account)), BookedOn())
  }

  function HitOf(account: string, tx: Tx): Option<Hit> {
    SideForAccount(SidesForPayment(tx), account)
  }

  function IsHit(account: string): Tx -> bool {
    (tx: Tx) => HitOf(account, tx).Some?
  }

  /** What the ledger of an account adds up for one transaction on one side. */
  function LedgerAmount(account: string, side: Side): Tx -> int {
    (tx: Tx) => if HitOf(account, tx).Some? && HitOf(account, tx).value.side == side then Abs(tx.amountCents) else 0
  }

  function LineFor(account: string): Tx -> LedgerLine {
    (tx: Tx) => match HitOf(account, tx)
      case Some(hit) => LedgerLine(tx.bookingDate, Abs(tx.amountCents), hit.side, hit.contra)
      case None => LedgerLine(tx.bookingDate, 0, S, "")
  }

  lemma LedgerSums(found: seq<Tx>, i: nat, account: string, side: Side)
    requires i < |found|
    ensures Sum(found[..i + 1], LedgerAmount(account, side)) ==
            Sum(found[..i], LedgerAmount(account, side)) + LedgerAmount(account, side)(found[i])
  {
    assert found[..i + 1] == found[..i] + [found[i]];
    SumAppend(found[..i], [found[i]], LedgerAmount(account, side));
    SumCons(found[i], [], LedgerAmount(account, side));
  }

  lemma LedgerLines(found: seq<Tx>, i: nat, account: string)
    requires i < |found|
    ensures Map(Filter(found[..i + 1], IsHit(account)), LineFor(account)) ==
            Map(Filter(found[..i], IsHit(account)), LineFor(account)) +
            if IsHit(account)(found[i]) then [LineFor(account)(found[i])] else []
  {
    var one := [found[i]];
    assert found[..i + 1] == found[..i] + one;
    FilterAppend(found[..i], one, IsHit(account));
    assert one[1..] == [];
    MapAppend(Filter(found[..i], IsHit(account)), Filter(one, IsHit(account)), LineFor(account));
  }

  /** What one more transaction of the loop adds to the sums and the lines of the ledger. */
  lemma LedgerNext(found: seq<Tx>, i: nat, account: string, hit: Option<Hit>)
    requires i < |found| && hit == HitOf(account, found[i])
    ensures Sum(found[..i + 1], LedgerAmount(account, S)) == Sum(found[..i], LedgerAmount(account, S)) +
            if hit.Some? && hit.value.side == S then Abs(found[i].amountCents) else 0
    ensures Sum(found[..i + 1], LedgerAmount(account, H)) == Sum(found[..i], LedgerAmount(account, H)) +
            if hit.Some? && hit.value.side == H then Abs(found[i].amountCents) else 0
    ensures Map(Filter(found[..i + 1], IsHit(account)), LineFor(account)) ==
            Map(Filter(found[..i], IsHit(account)), LineFor(account)) +
            if hit.Some?
            then [LedgerLine(found[i].bookingDate, Abs(found[i].amountCents), hit.value.side, hit.value.contra)]
            else []
  {
    LedgerSums(found, i, account, S);
    LedgerSums(found, i, account, H);
    LedgerLines(found, i, account);
  }

  method AccountLedger(txs: seq<Tx>, number: string, period: Period) returns (r: Result<Ledger, LedgerError>)
    ensures r == if Trim(number) == "" then Err(NoAccountNumber) else
      var a := Trim(number);
      var found := Found(txs, period, a);
      Ok(Ledger(a, Sum(found, LedgerAmount(a, S)), Sum(found, LedgerAmount(a, H)),
                Map(Filter(found, IsHit(a)), LineFor(a))))
  {
    var account := Trim(number);
    if account == "" {
      return Err(NoAccountNumber);
    }
    var found := Found(txs, period, account);
    var debit, credit, lines := 0, 0, [];
    for i := 0 to |found|
      invariant debit == Sum(found[..i], LedgerAmount(account, S))
      invariant credit == Sum(found[..i], LedgerAmount(account, H))
      invariant lines == Map(Filter(found[..i], IsHit(account)), LineFor(account))
    {
      var tx := found[i];
      var sides := SidesForPayment(tx);
      var hit := SideForAccount(sides, account);
      LedgerNext(found, i, account, hit);
      if sides.Some? && hit.Some? {
        if hit.value.side == S {
          debit := debit + sides.value.cents;
        } else {
          credit := credit + sides.value.cents;
        }
        lines := lines + [LedgerLine(tx.bookingDate, sides.value.cents, hit.value.side, hit.value.contra)];
      }
    }
    assert found[..|found|] == found;
    r := Ok(Ledger(account, debit, credit, lines));
  }

  // ----- the two reports against each other -----

  /** Both accounts of one transaction are the given one. */
  predicate IsSelfBooking(account: string, tx: Tx) {
    tx.booking.konto == account && tx.booking.gegenkonto == account
  }

  function SelfBooked(account: string, side: Side): Tx -> int {
    (tx: Tx) => if IsSelfBooking(account, tx) && KontoSide(tx) == side then Abs(tx.amountCents) else 0
  }

  function TrialAmount(account: string, side: Side): Tx -> int {
    (tx: Tx) => Sum(PostingsOf(tx), On(account, side))
  }

  /** The schema trims account numbers when they are stored. */
  predicate Stored(txs: seq<Tx>) {
    forall tx :: tx in txs ==> Trim(tx.booking.konto) == tx.booking.konto && Trim(tx.booking.gegenkonto) == tx.booking.gegenkonto
  }

  lemma AmountsPerTransaction(tx: Tx, period: Period, a: string, side: Side)
    requires a != "" && Stored([tx])
    ensures Only(Counts(period), TrialAmount(a, side))(tx) ==
            Only(Touches(period, a), LedgerAmount(a, side))(tx) + Only(Counts(period), SelfBooked(a, Opposite(side)))(tx)
  {
    assert tx in [tx];
    if PostingsOf(tx) != [] {
      TwoPostings(tx, On(a, side));
    }
  }

  lemma TrialFromTransactions(txs: seq<Tx>, period: Period, a: string, side: Side)
    requires a != "" && a != "null"
    ensures Sum(Filter(Unwind(Filter(txs, Counts(period))), Named()), On(a, side)) ==
            Sum(txs, Only(Counts(period), TrialAmount(a, side)))
  {
    var counted := Filter(txs, Counts(period));
    SumFilter(Unwind(counted), Named(), On(a, side));
    SumCongruent(Unwind(counted), Only(Named(), On(a, side)), On(a, side));
    SumUnwind(counted, On(a, side), TrialAmount(a, side));
    SumFilter(txs, Counts(period), TrialAmount(a, side));
  }

  lemma LedgerFromTransactions(txs: seq<Tx>, period: Period, a: string, side: Side)
    ensures Sum(Found(txs, period, a), LedgerAmount(a, side)) == Sum(txs, Only(Touches(period, a), LedgerAmount(a, side)))
  {
    var touching := Filter(txs, Touches(period, a));
    SortStableSorted(touching, BookedOn());
    SumPermuted(Found(txs, period, a), touching, LedgerAmount(a, side));
    SumFilter(txs, Touches(period, a), LedgerAmount(a, side));
  }

  lemma SideAgainstSide(txs: seq<Tx>, period: Period, a: string, side: Side)
    requires a != "" && a != "null" && Stored(txs)
    ensures Sum(Filter(Unwind(Filter(txs, Counts(period))), Named()), On(a, side)) ==
            Sum(Found(txs, period, a), LedgerAmount(a, side)) + Sum(txs, Only(Counts(period), SelfBooked(a, Opposite(side))))
  {
    TrialFromTransactions(txs, period, a, side);
    LedgerFromTransactions(txs, period, a, side);
    forall tx | tx in txs
      ensures Only(Counts(period), TrialAmount(a, side))(tx) ==
        Only(Touches(period, a), LedgerAmount(a, side))(tx) + Only(Counts(period), SelfBooked(a, Opposite(side)))(tx)
    {
      AmountsPerTransaction(tx, period, a, side);
    }
    SumPlus(txs, Only(Counts(period), TrialAmount(a, side)), Only(Touches(period, a), LedgerAmount(a, side)),
            Only(Counts(period), SelfBooked(a, Opposite(side))));
  }

  /**
   * The trial balance of an account is its ledger plus the second side of every transaction booked from the account to
   * itself, of which the ledger shows only the konto side.
   */
  lemma TrialBalanceAgainstLedger(txs: seq<Tx>, period: Period, a: string)
    requires a != "" && a != "null" && Stored(txs)
    ensures var t, found := TotalsOf(Aggregate(txs, period), a), Found(txs, period, a);
      && t.debit == Sum(found, LedgerAmount(a, S)) + Sum(txs, Only(Counts(period), SelfBooked(a, H)))
      && t.credit == Sum(found, LedgerAmount(a, H)) + Sum(txs, Only(Counts(period), SelfBooked(a, S)))
  {
    GroupPerAccount(Filter(Unwind(Filter(txs, Counts(period))), Named()), a);
    SideAgainstSide(txs, period, a, S);
    SideAgainstSide(txs, period, a, H);
  }

  lemma {:induction false} SumZeroIff<T>(s: seq<T>, f: T -> int)
    requires forall x :: x in s ==> 0 <= f(x)
    ensures Sum(s, f) == 0 <==> forall x :: x in s ==> f(x) == 0
  {
    if s != [] {
      SumNonNegative(s[1..], f);
      SumZeroIff(s[1..], f);
      assert forall x :: x in s <==> x == s[0] || x in s[1..];
    }
  }

  predicate NoSelfBooking(txs: seq<Tx>, period: Period, a: string) {
    forall tx :: tx in txs && Counts(period)(tx) && IsSelfBooking(a, tx) ==> tx.amountCents == 0
  }

  lemma SelfBookedZeroIff(txs: seq<Tx>, period: Period, a: string)
    ensures var s, h := Only(Counts(period), SelfBooked(a, S)), Only(Counts(period), SelfBooked(a, H));
      && 0 <= Sum(txs, s) && 0 <= Sum(txs, h)
      && ((Sum(txs, s) == 0 && Sum(txs, h) == 0) <==> NoSelfBooking(txs, period, a))
  {
    var s, h := Only(Counts(period), SelfBooked(a, S)), Only(Counts(period), SelfBooked(a, H));
    SumNonNegative(txs, s);
    SumNonNegative(txs, h);
    SumZeroIff(txs, s);
    SumZeroIff(txs, h);
    assert forall tx :: (s(tx) == 0 && h(tx) == 0) <==> (Counts(period)(tx) && IsSelfBooking(a, tx) ==> tx.amountCents == 0);
  }

  /** The two reports agree on an account if and only if no counted amount is booked from the account to itself. */
  lemma ReportsAgreeIff(txs: seq<Tx>, period: Period, a: string)
    requires a != "" && a != "null" && Stored(txs)
    ensures var t, found := TotalsOf(Aggregate(txs, period), a), Found(txs, period, a);
      (t.debit == Sum(found, LedgerAmount(a, S)) && t.credit == Sum(found, LedgerAmount(a, H)))
      <==> NoSelfBooking(txs, period, a)
  {
    TrialBalanceAgainstLedger(txs, period, a);
    SelfBookedZeroIff(txs, period, a);
  }

  /** The account called "null" has a ledger but never a line in the trial balance. */
  lemma NullAccountOnlyInLedger(txs: seq<Tx>, period: Period, tx: Tx)
    requires tx in txs && Counts(period)(tx) && Stored(txs)
    requires tx.booking.konto == "null" && tx.booking.gegenkonto != ""
    ensures "null" !in Aggregate(txs, period)
    ensures tx in Found(txs, period, "null") && HitOf("null", tx) == Some(Hit(KontoSide(tx), tx.booking.gegenkonto))
  {
    ListedIff(txs, period, "null");
    var touching := Filter(txs, Touches(period, "null"));
    SortStableSorted(touching, BookedOn());
    assert tx in multiset(touching);
    assert tx in multiset(Found(txs, period, "null"));
  }

  // ----- both reports, read off the stored bookings -----

  /** Within the period, bookable, not skipped, and booked on both accounts. */
  predicate IsReported(p: Period, tx: Tx) {
    && (p.from.Some? ==> p.from.value <= tx.bookingDate) && (p.until.Some? ==> tx.bookingDate <= p.until.value)
    && tx.bookability == Bookable && tx.status != Skipped
    && tx.booking.konto != "" && tx.booking.gegenkonto != ""
  }

  function Reported(p: Period): Tx -> bool {
    (tx: Tx) => IsReported(p, tx)
  }

  /** The same, but a booking from the account to itself counts on its konto side only. */
  function BookedOnce(account: string, side: Side): Tx -> int {
    (tx: Tx) =>
      if tx.booking.konto == account && CashPosting.IsKontoSide(tx, side) then Abs(tx.amountCents)
      else if tx.booking.konto != account && tx.booking.gegenkonto == account && !CashPosting.IsKontoSide(tx, side)
      then Abs(tx.amountCents) else 0
  }

  lemma SidesAre(tx: Tx, side: Side)
    ensures KontoSide(tx) == side <==> CashPosting.IsKontoSide(tx, side)
    ensures Opposite(KontoSide(tx)) == side <==> !CashPosting.IsKontoSide(tx, side)
  {
  }

  lemma TrialOfOne(tx: Tx, p: Period, a: string, side: Side)
    requires a != ""
    ensures Only(Counts(p), TrialAmount(a, side))(tx) == Only(Reported(p), CashPosting.BookedOn(a, side))(tx)
  {
    SidesAre(tx, side);
    if PostingsOf(tx) != [] {
      TwoPostings(tx, On(a, side));
    }
  }

  /**
   * The trial balance of an account: its debit and credit are what the stored bookings of the reported transactions post
   * on the two sides, konto on the stored side (debit for outflows if none is stored) and gegenkonto on the other one.
   */
  lemma TrialBalanceIs(txs: seq<Tx>, p: Period, a: string)
    requires a != "" && a != "null"
    ensures TotalsOf(Aggregate(txs, p), a).debit == Sum(txs, Only(Reported(p), CashPosting.BookedOn(a, S)))
    ensures TotalsOf(Aggregate(txs, p), a).credit == Sum(txs, Only(Reported(p), CashPosting.BookedOn(a, H)))
  {
    GroupPerAccount(Filter(Unwind(Filter(txs, Counts(p))), Named()), a);
    forall tx, side | tx in txs
      ensures Only(Counts(p), TrialAmount(a, side))(tx) == Only(Reported(p), CashPosting.BookedOn(a, side))(tx)
    {
      TrialOfOne(tx, p, a, side);
    }
    TrialFromTransactions(txs, p, a, S);
    TrialFromTransactions(txs, p, a, H);
    SumCongruent(txs, Only(Counts(p), TrialAmount(a, S)), Only(Reported(p), CashPosting.BookedOn(a, S)));
    SumCongruent(txs, Only(Counts(p), TrialAmount(a, H)), Only(Reported(p), CashPosting.BookedOn(a, H)));
  }

  lemma CountedIs(tx: Tx, p: Period, a: string)
    ensures IsReported(p, tx) <==> Counts(p)(tx) && tx.booking.konto != "" && tx.booking.gegenkonto != ""
    ensures Touches(p, a)(tx) <==> Counts(p)(tx) && (tx.booking.konto == a || tx.booking.gegenkonto == a)
  {
  }

  lemma HitIs(tx: Tx, a: string)
    requires a != "" && Stored([tx])
    ensures HitOf(a, tx) ==
      if tx.booking.konto == "" || tx.booking.gegenkonto == "" then None
      else if tx.booking.konto == a then Some(Hit(KontoSide(tx), tx.booking.gegenkonto))
      else if tx.booking.gegenkonto == a then Some(Hit(Opposite(KontoSide(tx)), tx.booking.konto))
      else None
  {
    assert tx in [tx];
  }

  lemma LedgerOfOne(tx: Tx, p: Period, a: string, side: Side)
    requires a != "" && Stored([tx])
    ensures Only(Touches(p, a), LedgerAmount(a, side))(tx) == Only(Reported(p), BookedOnce(a, side))(tx)
  {
    SidesAre(tx, side);
    CountedIs(tx, p, a);
    HitIs(tx, a);
  }

  /** The ledger of an account sums up the same, with one side only of a booking from the account to itself. */
  lemma LedgerIs(txs: seq<Tx>, p: Period, a: string, side: Side)
    requires a != "" && Stored(txs)
    ensures Sum(Found(txs, p, a), LedgerAmount(a, side)) == Sum(txs, Only(Reported(p), BookedOnce(a, side)))
  {
    LedgerFromTransactions(txs, p, a, side);
    forall tx | tx in txs ensures Only(Touches(p, a), LedgerAmount(a, side))(tx) == Only(Reported(p), BookedOnce(a, side))(tx) {
      LedgerOfOne(tx, p, a, side);
    }
    SumCongruent(txs, Only(Touches(p, a), LedgerAmount(a, side)), Only(Reported(p), BookedOnce(a, side)));
  }

  /** A line of the ledger shows the other account of its transaction, and the side that the account has in it. */
  lemma LedgerLineIs(tx: Tx, p: Period, a: string)
    requires a != "" && Stored([tx]) && IsReported(p, tx) && (tx.booking.konto == a || tx.booking.gegenkonto == a)
    ensures IsHit(a)(tx)
    ensures var l := LineFor(a)(tx);
      && l.bookingDate == tx.bookingDate && l.cents == Abs(tx.amountCents)
      && l.contra == (if tx.booking.konto == a then tx.booking.gegenkonto else tx.booking.konto)
      && (CashPosting.IsKontoSide(tx, l.side) <==> tx.booking.konto == a)
  {
    assert tx in [tx];
  }
}
