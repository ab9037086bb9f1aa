/** What the journal books for an event, read off the stored event and the settings: amount, accounts, sides and VAT. */
module JournalBooking {
  import opened Folds
  import opened Wrappers
  import opened Datev
  import opened FeeVat
  import opened AccountMapping
  import opened Journal
  import opened JournalInvariant
  import opened JournalTheorems
  import opened Text
  import opened Selection
  import Sorting

  // ----- the booking that an event asks for -----

  /** The EUR amount if there is one, or else the original amount, without its sign. */
  predicate HasAmount(e: Event, cents: int) {
    match (e.eurAmountCents, e.originalAmountCents)
    case (Some(eur), _) => cents == (if eur >= 0 then eur else -eur)
    case (None, Some(original)) => cents == (if original >= 0 then original else -original)
    case (None, None) => cents == 0
  }

  predicate IsOutgoing(e: Event) {
    e.eventType == Fee || e.eventType == Refund || (e.originalAmountCents.Some? && e.originalAmountCents.value < 0)
  }

  /** The first of the accounts that is set. */
  predicate IsFirstSet(account: string, accounts: seq<string>) {
    if accounts == [] then account == "" else if accounts[0] != "" then account == accounts[0] else IsFirstSet(account, accounts[1..])
  }

  /** Which settings name the account of the first line, and which name the one against it. */
  predicate AccountsFor(t: EventType, mp: MarketplaceAccounts, revenue: string, account: string, against: string) {
    match t
    case OrderCreated => account == "" && against == ""
    case Cancellation => account == "" && against == ""
    case Sale => IsFirstSet(account, [mp.revenue, revenue, mp.debtor]) && IsFirstSet(against, [mp.clearing, mp.debtor])
    case Settlement => account == mp.clearing && IsFirstSet(against, [mp.debtor, mp.clearing])
    case Payout => account == mp.clearing && IsFirstSet(against, [mp.debtor, mp.clearing])
    case Fee => IsFirstSet(account, [mp.fee, revenue]) && against == mp.clearing
    case Refund => IsFirstSet(account, [mp.refund, revenue]) && against == mp.clearing
    case Adjustment => IsFirstSet(account, [mp.adjustment, revenue]) && against == mp.clearing
  }

  /** The marketplace's own accounts; without a marketplace, or settings for it, there are none. */
  predicate SettingsOf(e: Event, config: ClearingConfig, mp: MarketplaceAccounts) {
    if e.marketplace.Some? && e.marketplace.value in config.marketplaces then mp == config.marketplaces[e.marketplace.value]
    else mp == MarketplaceAccounts("", "", "", "", "", "", "", "")
  }

  /** A new line of an entry on the event's posting date. */
  predicate IsNewLine(l: JournalLine, entry: nat, e: Event, account: string, side: Side, cents: int, buKey: string) {
    && l.entry == entry && l.account == account && l.side == side && l.amountCents == cents && l.buKey == buKey
    && l.postingDate == (if e.accountingDate.Some? then e.accountingDate.value else e.eventDate)
    && l.bookingText == e.reference && l.exportJob == None
  }

  // ----- the VAT of a fee -----

  /** The event's own setting, then the marketplace's, then what is usual there; "auto" is no setting. */
  predicate IsTreatment(e: Event, overlay: Overlay, t: Treatment) {
    if e.feeVat.Some? && e.feeVat.value != Auto then t == e.feeVat.value
    else if overlay.treatment.Some? && overlay.treatment.value != Auto then t == overlay.treatment.value
    else
      match e.marketplace
      case Some(Amazon) => t == InputVat
      case Some(Backmarket) => t == ReverseCharge
      case Some(Refurbed) => t == ReverseCharge
      case Some(Kaufland) => t == NoVat
      case None => t == NoVat
  }

  predicate IsOverlay(e: Event, config: ClearingConfig, overlay: Overlay) {
    if e.marketplace.Some? && e.marketplace.value in config.feeVat then overlay == config.feeVat[e.marketplace.value]
    else overlay == Overlay(None, None, "", None)
  }

  /** The percentage of the net amount to the cent, halves rounded up. */
  predicate IsVatOf(vat: int, cents: int, overlay: Overlay) {
    var rate := if overlay.ratePercent.Some? then overlay.ratePercent.value else 19.0;
    100.0 * vat as real - 50.0 <= cents as real * rate < 100.0 * vat as real + 50.0
  }

  predicate InputAccountIs(account: string, e: Event, overlay: Overlay) {
    account == if overlay.inputVatAccount != "" then overlay.inputVatAccount else if e.marketplace == Some(Amazon) then "1576" else "1577"
  }

  predicate OutputAccountIs(account: string, e: Event, overlay: Overlay) {
    if overlay.outputVatAccount.Some? then
      account == (if overlay.outputVatAccount.value.Some? then overlay.outputVatAccount.value.value else "")
    else account == if e.marketplace == Some(Amazon) then "" else "1787"
  }

  /**
   * Reverse charge debits the input and credits the output VAT account, input VAT debits the input VAT account and credits
   * the clearing account; without an account, and for other treatments, there are no lines.
   */
  ghost predicate VatLinesAre(lines: seq<JournalLine>, entry: nat, e: Event, overlay: Overlay, cents: int, clearing: string) {
    exists t, vat, input, output ::
      && IsTreatment(e, overlay, t) && IsVatOf(vat, cents, overlay)
      && InputAccountIs(input, e, overlay) && OutputAccountIs(output, e, overlay)
      && if t == ReverseCharge && vat > 0 && input != "" && output != "" then
           |lines| == 2 && IsNewLine(lines[0], entry, e, input, S, vat, "94") && IsNewLine(lines[1], entry, e, output, H, vat, "94")
         else if t == InputVat && vat > 0 && input != "" then
           |lines| == 2 && IsNewLine(lines[0], entry, e, input, S, vat, "9") && IsNewLine(lines[1], entry, e, clearing, H, vat, "9")
         else lines == []
  }

  // ----- what a build does -----

  /** The build writes these lines. */
  ghost predicate BooksEvent(lines: seq<JournalLine>, entry: nat, e: Event, config: ClearingConfig) {
    exists cents, mp, account, against, overlay ::
      && HasAmount(e, cents) && cents > 0
      && SettingsOf(e, config, mp) && AccountsFor(e.eventType, mp, config.revenueDefault, account, against)
      && account != "" && against != ""
      && |lines| >= 2
      && IsNewLine(lines[0], entry, e, account, if IsOutgoing(e) then H else S, cents, "")
      && IsNewLine(lines[1], entry, e, against, if IsOutgoing(e) then S else H, cents, "")
      && IsOverlay(e, config, overlay)
      && if e.eventType == Fee then VatLinesAre(lines[2..], entry, e, overlay, cents, against) else |lines| == 2
  }

  /** The event can be booked and has no entry yet. */
  ghost predicate CanBeBuilt(b: Books, id: nat, config: ClearingConfig) {
    && id < |b.events|
    && b.events[id].eventType != OrderCreated && b.events[id].eventType != Cancellation
    && b.events[id].status != InvoicePending && b.events[id].status != Void
    && (forall k :: 0 <= k < |b.entries| ==> b.entries[k].event != id)
    && !HasAmount(b.events[id], 0)
    && exists mp, account, against ::
         && SettingsOf(b.events[id], config, mp)
         && AccountsFor(b.events[id].eventType, mp, config.revenueDefault, account, against) && account != "" && against != ""
  }

  lemma AmountIs(e: Event)
    ensures HasAmount(e, BookingAmount(e))
    ensures IsCredit(e) <==> IsOutgoing(e)
  {
  }

  lemma AccountsAre(e: Event, config: ClearingConfig)
    ensures SettingsOf(e, config, AccountsOf(e.marketplace, config))
    ensures var a := Resolve(e.eventType, e.marketplace, config);
      && AccountsFor(e.eventType, AccountsOf(e.marketplace, config), config.revenueDefault, a.primary, a.contra)
      && (a.bookable <==> e.eventType != OrderCreated && e.eventType != Cancellation)
  {
    var mp, r := AccountsOf(e.marketplace, config), config.revenueDefault;
    FirstOfTwo(r, mp.debtor);
    FirstOf(mp.revenue, [r, mp.debtor], FirstSet(r, mp.debtor));
    assert [mp.revenue] + [r, mp.debtor] == [mp.revenue, r, mp.debtor];
    FirstOfTwo(mp.clearing, mp.debtor);
    FirstOfTwo(mp.debtor, mp.clearing);
    FirstOfTwo(mp.fee, r);
    FirstOfTwo(mp.refund, r);
    FirstOfTwo(mp.adjustment, r);
  }

  lemma FirstOf(a: string, rest: seq<string>, account: string)
    requires IsFirstSet(account, rest)
    ensures IsFirstSet(FirstSet(a, account), [a] + rest)
  {
    assert ([a] + rest)[1..] == rest;
  }

  lemma FirstOfTwo(a: string, b: string)
    ensures IsFirstSet(FirstSet(a, b), [a, b])
  {
    assert [b][1..] == [];
    assert IsFirstSet(b, [b]);
    FirstOf(a, [b], b);
    assert [a] + [b] == [a, b];
  }

  lemma {:induction false} SameFirst(a: string, b: string, accounts: seq<string>)
    requires IsFirstSet(a, accounts) && IsFirstSet(b, accounts)
    ensures a == b
  {
    if accounts != [] && accounts[0] == "" {
      SameFirst(a, b, accounts[1..]);
    }
  }

  /** The settings leave no choice. */
  lemma AccountsAreUnique(t: EventType, mp: MarketplaceAccounts, r: string, a: string, b: string, c: string, d: string)
    requires AccountsFor(t, mp, r, a, b) && AccountsFor(t, mp, r, c, d)
    ensures a == c && b == d
  {
    match t
    case Sale =>
      SameFirst(a, c, [mp.revenue, r, mp.debtor]);
      SameFirst(b, d, [mp.clearing, mp.debtor]);
    case Settlement => SameFirst(b, d, [mp.debtor, mp.clearing]);
    case Payout => SameFirst(b, d, [mp.debtor, mp.clearing]);
    case Fee => SameFirst(a, c, [mp.fee, r]);
    case Refund => SameFirst(a, c, [mp.refund, r]);
    case Adjustment => SameFirst(a, c, [mp.adjustment, r]);
    case _ =>
  }

  lemma VatIs(e: Event, config: ClearingConfig, cents: nat)
    requires cents > 0
    ensures var overlay := OverlayOf(e.marketplace, config);
      IsOverlay(e, config, overlay) && IsVatOf(VatCentsFromNet(cents, FeeVatOf(e, config).ratePercent), cents, overlay)
  {
  }

  lemma VatSettings(e: Event, config: ClearingConfig)
    ensures var cfg, overlay := FeeVatOf(e, config), OverlayOf(e.marketplace, config);
      && IsTreatment(e, overlay, cfg.treatment) && InputAccountIs(cfg.inputVatAccount, e, overlay)
      && OutputAccountIs(cfg.outputVatAccount.GetOr(""), e, overlay)
  {
  }

  lemma FeeVatLines(entry: nat, e: Event, config: ClearingConfig)
    requires e.eventType == Fee && AmountRefusal(e, config) == None
    ensures VatLinesAre(Map(ExtraOf(e, config), VatLineOf(entry, e)), entry, e, OverlayOf(e.marketplace, config), BookingAmount(e),
                        Resolve(e.eventType, e.marketplace, config).contra)
  {
    var cfg := FeeVatOf(e, config);
    VatIs(e, config, BookingAmount(e));
    VatSettings(e, config);
    var vat, input, output := VatCentsFromNet(BookingAmount(e), cfg.ratePercent), cfg.inputVatAccount, cfg.outputVatAccount.GetOr("");
    assert IsTreatment(e, OverlayOf(e.marketplace, config), cfg.treatment);
  }

  lemma NewLinesBook(entry: nat, e: Event, config: ClearingConfig)
    requires AmountRefusal(e, config) == None
    ensures BooksEvent(NewLines(entry, e, config), entry, e, config)
  {
    AmountIs(e);
    AccountsAre(e, config);
    if e.eventType == Fee {
      FeeVatLines(entry, e, config);
    }
    TwoLinesFirst(entry, e, config);
    var a := Resolve(e.eventType, e.marketplace, config);
    var cents, mp, overlay := BookingAmount(e), AccountsOf(e.marketplace, config), OverlayOf(e.marketplace, config);
    assert HasAmount(e, cents) && SettingsOf(e, config, mp) && IsOverlay(e, config, overlay);
    assert AccountsFor(e.eventType, mp, config.revenueDefault, a.primary, a.contra);
  }

  lemma TwoLinesFirst(entry: nat, e: Event, config: ClearingConfig)
    requires IsCredit(e) <==> IsOutgoing(e)
    ensures var lines, a, cents := NewLines(entry, e, config), Resolve(e.eventType, e.marketplace, config), BookingAmount(e);
      && |lines| >= 2 && lines[2..] == Map(ExtraOf(e, config), VatLineOf(entry, e))
      && IsNewLine(lines[0], entry, e, a.primary, if IsOutgoing(e) then H else S, cents, "")
      && IsNewLine(lines[1], entry, e, a.contra, if IsOutgoing(e) then S else H, cents, "")
      && (e.eventType != Fee ==> |lines| == 2)
  {
  }

  /** A build makes an entry exactly when the stored event and the settings allow it, and refuses or finds one otherwise. */
  lemma BuildsIff(b: Books, id: nat, config: ClearingConfig)
    ensures BuildDraft(b, id, config).0 != b <==> CanBeBuilt(b, id, config)
  {
    if id < |b.events| {
      var e := b.events[id];
      FirstEntrySound(b.entries, id, 0);
      AmountIs(e);
      AccountsAre(e, config);
      var mp, a := AccountsOf(e.marketplace, config), Resolve(e.eventType, e.marketplace, config);
      if CanBeBuilt(b, id, config) {
        var mp', account, against :| SettingsOf(e, config, mp') &&
          AccountsFor(e.eventType, mp', config.revenueDefault, account, against) && account != "" && against != "";
        AccountsAreUnique(e.eventType, mp, config.revenueDefault, account, against, a.primary, a.contra);
      }
    }
  }

  /**
   * What a build that makes an entry stores: the entry, its lines with the amount, the accounts and the sides that the
   * event and the settings ask for, and two fields of the event.
   */
  lemma BuildBooks(b: Books, id: nat, config: ClearingConfig)
    requires BuildDraft(b, id, config).0 != b
    ensures id < |b.events|
    ensures var (c, r) := BuildDraft(b, id, config);
      var e, entry := b.events[id], |b.entries|;
      && r == Ok(entry) && c.jobs == b.jobs
      && c.entries == b.entries + [Entry(Built, id, if e.accountingDate.Some? then e.accountingDate.value else e.eventDate,
                                         e.reference, Draft, None)]
      && c.events == b.events[id := e.(journalEntry := Some(entry), status := EventDraft)]
      && |c.lines| >= |b.lines| && c.lines[..|b.lines|] == b.lines
      && BooksEvent(c.lines[|b.lines|..], entry, e, config)
  {
    var e, entry := b.events[id], |b.entries|;
    NewLinesBook(entry, e, config);
    assert BuildDraft(b, id, config).0.lines == b.lines + NewLines(entry, e, config);
  }

  // ----- the bulk build -----

  /** Not void and dated in the period. */
  predicate IsCandidate(b: Books, lo: int, hi: int, id: nat) {
    id < |b.events| && lo <= b.events[id].eventDate && b.events[id].eventDate <= hi && b.events[id].status != Void
  }

  lemma CandidatesAre(b: Books, lo: int, hi: int)
    ensures var ids := EventsToBuild(b, lo, hi);
      && NoRepeats(ids) && (forall id: nat :: id in ids <==> IsCandidate(b, lo, hi, id))
      && forall x, y :: 0 <= x < y < |ids| ==> EventDateOf(b)(ids[x]) <= EventDateOf(b)(ids[y])
  {
    var found := Filter(Positions(|b.events|), NotVoidWithin(b, lo, hi));
    FilterPositions(|b.events|, NotVoidWithin(b, lo, hi));
    Sorting.SortStableSorted(found, EventDateOf(b));
    PermutedNoRepeats(found, EventsToBuild(b, lo, hi));
  }

  ghost function IsRefused(b: Books, config: ClearingConfig): nat -> bool {
    (id: nat) => !CanBeBuilt(b, id, config)
  }

  lemma ReasonIs(b: Books, id: nat, config: ClearingConfig)
    ensures SkipReason(b, id, config) == None <==> CanBeBuilt(b, id, config)
  {
    BuildsIff(b, id, config);
    if SkipReason(b, id, config) == None {
      NoReasonNoFailure(b, id, config);
      assert BuildDraft(b, id, config).0.entries != b.entries;
    }
  }

  lemma OthersUnaffected(b: Books, id: nat, other: nat, config: ClearingConfig)
    requires other != id
    ensures SkipReason(BuildDraft(b, id, config).0, other, config) == None <==> SkipReason(b, other, config) == None
  {
    var c := BuildDraft(b, id, config).0;
    FirstEntrySound(b.entries, other, 0);
    FirstEntrySound(c.entries, other, 0);
    assert |c.entries| == |b.entries| || (|c.entries| == |b.entries| + 1 && c.entries[|b.entries|].event == id);
    assert forall k :: 0 <= k < |b.entries| ==> c.entries[k] == b.entries[k];
    assert other < |b.events| ==> c.events[other] == b.events[other];
    assert FindByEvent(c.entries, other) == None <==> FindByEvent(b.entries, other) == None;
  }

  lemma StepSkips(acc: Bulk, id: nat, config: ClearingConfig)
    ensures var next := BuildStep(acc, id, config);
      next.skipped == acc.skipped + if IsRefused(acc.books, config)(id) then [id] else []
    ensures BuildStep(acc, id, config).books == BuildDraft(acc.books, id, config).0
  {
    ReasonIs(acc.books, id, config);
    BuildsIff(acc.books, id, config);
    if SkipReason(acc.books, id, config) == None {
      NoReasonNoFailure(acc.books, id, config);
    }
  }

  lemma OthersStillRefused(b: Books, id: nat, other: nat, config: ClearingConfig)
    requires other != id
    ensures IsRefused(BuildDraft(b, id, config).0, config)(other) == IsRefused(b, config)(other)
  {
    OthersUnaffected(b, id, other, config);
    ReasonIs(b, other, config);
    ReasonIs(BuildDraft(b, id, config).0, other, config);
  }

  lemma {:induction false} FilterAgrees(ids: seq<nat>, p: nat -> bool, q: nat -> bool)
    requires forall id :: id in ids ==> p(id) == q(id)
    ensures Filter(ids, p) == Filter(ids, q)
  {
    if ids != [] {
      assert ids[0] in ids;
      FilterAgrees(ids[1..], p, q);
    }
  }

  lemma RestStillRefused(b: Books, ids: seq<nat>, config: ClearingConfig)
    requires NoRepeats(ids) && ids != []
    ensures Filter(ids[1..], IsRefused(BuildDraft(b, ids[0], config).0, config)) == Filter(ids[1..], IsRefused(b, config))
  {
    var c, rest := BuildDraft(b, ids[0], config).0, ids[1..];
    assert ids[0] !in rest;
    forall id | id in rest ensures IsRefused(c, config)(id) == IsRefused(b, config)(id) {
      OthersStillRefused(b, ids[0], id, config);
    }
    FilterAgrees(rest, IsRefused(c, config), IsRefused(b, config));
  }

  lemma {:induction false} BuildEachSkips(acc: Bulk, ids: seq<nat>, config: ClearingConfig)
    requires NoRepeats(ids)
    ensures BuildEach(acc, ids, config).skipped == acc.skipped + Filter(ids, IsRefused(acc.books, config))
    decreases |ids|
  {
    if ids == [] {
      assert acc.skipped + [] == acc.skipped;
    } else {
      var p, first := IsRefused(acc.books, config), if IsRefused(acc.books, config)(ids[0]) then [ids[0]] else [];
      StepSkips(acc, ids[0], config);
      BuildEachSkips(BuildStep(acc, ids[0], config), ids[1..], config);
      RestStillRefused(acc.books, ids, config);
      assert Filter(ids, p) == first + Filter(ids[1..], p);
      Associate(acc.skipped, first, Filter(ids[1..], p));
    }
  }

  /**
   * The bulk build goes once, by date, over the events of the period that are not void, and skips exactly those that cannot
   * be built; every other one gets its entry.
   */
  lemma BulkBuildSkips(b: Books, lo: int, hi: int, config: ClearingConfig)
    requires Inv(b)
    ensures var r := BulkBuild(b, lo, hi, config);
      && (forall id: nat :: id in r.skipped <==> IsCandidate(b, lo, hi, id) && !CanBeBuilt(b, id, config))
      && NoRepeats(r.skipped) && |r.books.entries| == |b.entries| + r.done
      && r.done + |r.skipped| == |EventsToBuild(b, lo, hi)|
  {
    var ids := EventsToBuild(b, lo, hi);
    CandidatesAre(b, lo, hi);
    BuildEachSkips(Bulk(b, 0, []), ids, config);
    FilterNoRepeats(ids, IsRefused(b, config));
    BulkBuildCounts(b, lo, hi, config);
    assert [] + Filter(ids, IsRefused(b, config)) == Filter(ids, IsRefused(b, config));
  }

  // ----- the true-up -----

  /** The lines of a true-up: a gain debits, a loss credits the clearing account, by the difference. */
  predicate BooksDifference(lines: seq<JournalLine>, entry: nat, e: Event, mp: MarketplaceAccounts, delta: int) {
    && |lines| == 2
    && if delta > 0 then
         IsNewLine(lines[0], entry, e, mp.clearing, S, delta, "") && IsNewLine(lines[1], entry, e, mp.fxGain, H, delta, "")
       else
         IsNewLine(lines[0], entry, e, mp.fxLoss, S, -delta, "") && IsNewLine(lines[1], entry, e, mp.clearing, H, -delta, "")
  }

  /**
   * A true-up that makes an entry posts the difference at once, and moves the clearing account by exactly the difference
   * (when that is not the gain or loss account itself).
   */
  lemma TrueUpBooks(b: Books, id: nat, delta: int, actual: int, config: ClearingConfig, mp: MarketplaceAccounts)
    requires FxTrueUp(b, id, delta, actual, config).0 != b
    requires id < |b.events| && SettingsOf(b.events[id], config, mp)
    ensures var (c, r) := FxTrueUp(b, id, delta, actual, config);
      var e, entry := b.events[id], |b.entries|;
      && r == Ok(entry) && c.jobs == b.jobs && delta != 0
      && c.entries == b.entries + [Entry(TrueUp, id, if e.accountingDate.Some? then e.accountingDate.value else e.eventDate,
                                         e.reference, EntryStatus.Posted, None)]
      && c.events == b.events[id := e.(eurAmountCents := Some(actual), trueUpPosted := true)]
      && |c.lines| >= |b.lines| && c.lines[..|b.lines|] == b.lines
      && BooksDifference(c.lines[|b.lines|..], entry, e, mp, delta)
      && (mp.clearing != mp.fxGain && mp.clearing != mp.fxLoss ==> Movement(c.lines[|b.lines|..], mp.clearing) == delta)
  {
    var e, entry := b.events[id], |b.entries|;
    var lines := TrueUpLines(entry, e, delta, config);
    assert FxTrueUp(b, id, delta, actual, config).0.lines == b.lines + lines;
    assert lines == [lines[0], lines[1]];
    SumOfTwo(lines[0], lines[1], OnAccount(mp.clearing, S));
    SumOfTwo(lines[0], lines[1], OnAccount(mp.clearing, H));
  }
}
