/**
 * The accrual journal as a state machine: business events are turned into two-sided draft entries, posted, and locked
 * by a DATEV export job.
 */
module Journal {
  import opened Folds
  import opened Wrappers
  import opened Datev
  import opened FeeVat
  import opened AccountMapping
  import opened Selection
  import Pairing
  import Sorting

  datatype EventStatus = EventDraft | PendingMatch | InvoicePending | Matched | EventPosted | Exceptional | Void

  datatype Event = Event(eventType: EventType, status: EventStatus, marketplace: Option<Marketplace>,
                         eurAmountCents: Option<int>, originalAmountCents: Option<int>, eventDate: int,
                         accountingDate: Option<int>, feeVat: Option<Treatment>, reference: string,
                         journalEntry: Option<nat>, trueUpPosted: bool)

  datatype EntryStatus = Draft | Posted | Exported

  /** Built from an event, or posted by the FX true-up of an event's entry. */
  datatype Kind = Built | TrueUp

  datatype Entry = Entry(kind: Kind, event: nat, postingDate: int, description: string, status: EntryStatus,
                         exportedIn: Option<nat>)

  datatype JournalLine = JournalLine(entry: nat, account: string, side: Side, amountCents: int, buKey: string,
                                     postingDate: int, bookingText: string, exportJob: Option<nat>)

  datatype Job = Job(rows: seq<Row>, entryIds: seq<nat>, lineIds: seq<nat>)

  /** The stored documents; an id is a position. Lines of one entry are stored in lineOrder. */
  datatype Books = Books(events: seq<Event>, entries: seq<Entry>, lines: seq<JournalLine>, jobs: seq<Job>)

  function Empty(): Books {
    Books([], [], [], [])
  }

  datatype Error =
    | NotFound
    | NotRevenue
    | InvoiceMissing
    | EventVoid
    | ZeroAmount
    | NotBookable
    | AccountsMissing
    | NotADraft
    | Unbalanced
    | AlreadyTrueUp
    | NotPosted
    | NothingToExport
    | Invalid(errors: seq<RowError>)

  // ----- buildDraftForEvent -----

  function FirstEntry(entries: seq<Entry>, event: nat, from: nat): Option<nat>
    requires from <= |entries|
    decreases |entries| - from
  {
    if from == |entries| then None
    else if entries[from].event == event then Some(from)
    else FirstEntry(entries, event, from + 1)
  }

  function FindByEvent(entries: seq<Entry>, event: nat): Option<nat> {
    FirstEntry(entries, event, 0)
  }

  function BookingAmount(e: Event): nat {
    Abs(if e.eurAmountCents.Some? then e.eurAmountCents.value else e.originalAmountCents.GetOr(0))
  }

  predicate IsCredit(e: Event) {
    e.originalAmountCents.GetOr(0) < 0 || e.eventType == Fee || e.eventType == Refund
  }

  function PostingDate(e: Event): int {
    e.accountingDate.GetOr(e.eventDate)
  }

  /** Why an event cannot be booked, in the order in which the checks are made. */
  function Refusal(e: Event): Option<Error> {
    if NoRevenue(e.eventType) then Some(NotRevenue)
    else if e.status == InvoicePending then Some(InvoiceMissing)
    else if e.status == Void then Some(EventVoid)
    else None
  }

  function AmountRefusal(e: Event, config: ClearingConfig): Option<Error> {
    var accounts := Resolve(e.eventType, e.marketplace, config);
    if BookingAmount(e) == 0 then Some(ZeroAmount)
    else if !accounts.bookable then Some(NotBookable)
    else if accounts.primary == "" || accounts.contra == "" then Some(AccountsMissing)
    else None
  }

  function NewLine(entry: nat, account: string, side: Side, amount: int, buKey: string, e: Event): JournalLine {
    JournalLine(entry, account, side, amount, buKey, PostingDate(e), e.reference, None)
  }

  function NetLines(entry: nat, e: Event, config: ClearingConfig): seq<JournalLine> {
    var accounts, amount := Resolve(e.eventType, e.marketplace, config), BookingAmount(e);
    var side := if IsCredit(e) then H else S;
    [NewLine(entry, accounts.primary, side, amount, "", e), NewLine(entry, accounts.contra, Opposite(side), amount, "", e)]
  }

  function ExtraOf(e: Event, config: ClearingConfig): seq<VatLine> {
    if e.eventType != Fee then []
    else
      BuildFeeVatExtraLines(BookingAmount(e), e.marketplace, e.feeVat, OverlayOf(e.marketplace, config),
                            Resolve(e.eventType, e.marketplace, config).contra).lines
  }

  function VatLineOf(entry: nat, e: Event): VatLine -> JournalLine {
    (l: VatLine) => NewLine(entry, l.account, l.side, l.amountCents, l.buKey, e)
  }

  function NewLines(entry: nat, e: Event, config: ClearingConfig): seq<JournalLine> {
    NetLines(entry, e, config) + Map(ExtraOf(e, config), VatLineOf(entry, e))
  }

  function AddEntry(b: Books, id: nat, config: ClearingConfig): Books
    requires id < |b.events|
  {
    var e, entry := b.events[id], |b.entries|;
    b.(entries := b.entries + [Entry(Built, id, PostingDate(e), e.reference, Draft, None)],
       lines := b.lines + NewLines(entry, e, config),
       events := b.events[id := e.(journalEntry := Some(entry), status := EventDraft)])
  }

  function BuildDraft(b: Books, id: nat, config: ClearingConfig): (Books, Result<nat, Error>) {
    if id >= |b.events| then (b, Err(NotFound))
    else
      var e := b.events[id];
      match Refusal(e)
      case Some(err) => (b, Err(err))
      case None =>
        match FindByEvent(b.entries, id)
        case Some(existing) => (b, Ok(existing))
        case None =>
          match AmountRefusal(e, config)
          case Some(err) => (b, Err(err))
          case None => (AddEntry(b, id, config), Ok(|b.entries|))
  }

  // ----- post -----

  function OnSide(entry: nat, side: Side): JournalLine -> int {
    (l: JournalLine) => if l.entry == entry && l.side == side then l.amountCents else 0
  }

  predicate SumsAgree(lines: seq<JournalLine>, entry: nat) {
    Sum(lines, OnSide(entry, S)) == Sum(lines, OnSide(entry, H))
  }

  function MarkPosted(b: Books, id: nat): Books
    requires id < |b.entries|
  {
    var event := b.entries[id].event;
    b.(entries := b.entries[id := b.entries[id].(status := Posted)],
       events := if event < |b.events| then b.events[event := b.events[event].(status := EventPosted)] else b.events)
  }

  function Post(b: Books, id: nat): (Books, Result<nat, Error>) {
    if id >= |b.entries| then (b, Err(NotFound))
    else if b.entries[id].status == Posted then (b, Ok(id))
    else if b.entries[id].status != Draft then (b, Err(NotADraft))
    else if !SumsAgree(b.lines, id) then (b, Err(Unbalanced))
    else (MarkPosted(b, id), Ok(id))
  }

  // ----- bulkBuild and bulkPost -----

  function NotVoidWithin(b: Books, lo: int, hi: int): nat -> bool {
    (i: nat) => i < |b.events| && lo <= b.events[i].eventDate <= hi && b.events[i].status != Void
  }

  function EventDateOf(b: Books): nat -> int {
    (i: nat) => if i < |b.events| then b.events[i].eventDate else 0
  }

  function EventsToBuild(b: Books, lo: int, hi: int): seq<nat> {
    Sorting.SortStable(Filter(Positions(|b.events|), NotVoidWithin(b, lo, hi)), EventDateOf(b))
  }

  /** The skip reasons are looked at before the build is tried. */
  function SkipReason(b: Books, id: nat, config: ClearingConfig): Option<Error> {
    if id >= |b.events| then Some(NotFound)
    else if Refusal(b.events[id]).Some? then Refusal(b.events[id])
    else if FindByEvent(b.entries, id).Some? then Some(NotBookable)
    else AmountRefusal(b.events[id], config)
  }

  datatype Bulk = Bulk(books: Books, done: nat, skipped: seq<nat>)

  function BuildStep(acc: Bulk, id: nat, config: ClearingConfig): Bulk {
    if SkipReason(acc.books, id, config).Some? then acc.(skipped := acc.skipped + [id])
    else
      var (books, result) := BuildDraft(acc.books, id, config);
      if result.Ok? then Bulk(books, acc.done + 1, acc.skipped) else Bulk(books, acc.done, acc.skipped + [id])
  }

  function BuildEach(acc: Bulk, ids: seq<nat>, config: ClearingConfig): Bulk
    decreases |ids|
  {
    if ids == [] then acc else BuildEach(BuildStep(acc, ids[0], config), ids[1..], config)
  }

  function BulkBuild(b: Books, lo: int, hi: int, config: ClearingConfig): Bulk {
    BuildEach(Bulk(b, 0, []), EventsToBuild(b, lo, hi), config)
  }

  function HasStatusWithin(b: Books, status: EntryStatus, lo: int, hi: int): nat -> bool {
    (i: nat) => i < |b.entries| && b.entries[i].status == status && lo <= b.entries[i].postingDate <= hi
  }

  function EntryDateOf(b: Books): nat -> int {
    (i: nat) => if i < |b.entries| then b.entries[i].postingDate else 0
  }

  function EntriesWith(b: Books, status: EntryStatus, lo: int, hi: int): seq<nat> {
    Sorting.SortStable(Filter(Positions(|b.entries|), HasStatusWithin(b, status, lo, hi)), EntryDateOf(b))
  }

  function PostStep(acc: Bulk, id: nat): Bulk {
    if id >= |acc.books.entries| || acc.books.entries[id].status != Draft || !SumsAgree(acc.books.lines, id) then
      acc.(skipped := acc.skipped + [id])
    else
      var (books, result) := Post(acc.books, id);
      if result.Ok? then Bulk(books, acc.done + 1, acc.skipped) else Bulk(books, acc.done, acc.skipped + [id])
  }

  function PostEach(acc: Bulk, ids: seq<nat>): Bulk
    decreases |ids|
  {
    if ids == [] then acc else PostEach(PostStep(acc, ids[0]), ids[1..])
  }

  function BulkPost(b: Books, lo: int, hi: int): Bulk {
    PostEach(Bulk(b, 0, []), EntriesWith(b, Draft, lo, hi))
  }

  // ----- FX true-up: a second, directly posted entry for the rate difference -----

  function TrueUpLines(entry: nat, e: Event, delta: int, config: ClearingConfig): seq<JournalLine> {
    var mp := AccountsOf(e.marketplace, config);
    if delta > 0 then
      [NewLine(entry, mp.clearing, S, delta, "", e), NewLine(entry, mp.fxGain, H, delta, "", e)]
    else
      [NewLine(entry, mp.fxLoss, S, -delta, "", e), NewLine(entry, mp.clearing, H, -delta, "", e)]
  }

  function PostTrueUp(b: Books, id: nat, delta: int, actualEurCents: int, config: ClearingConfig): Books
    requires id < |b.events|
  {
    var e, entry := b.events[id], |b.entries|;
    b.(entries := b.entries + [Entry(TrueUp, id, PostingDate(e), e.reference, Posted, None)],
       lines := b.lines + TrueUpLines(entry, e, delta, config),
       events := b.events[id := e.(eurAmountCents := Some(actualEurCents), trueUpPosted := true)])
  }

  /** `delta` is the marketplace's EUR amount minus the provisionally booked one. */
  function FxTrueUp(b: Books, id: nat, delta: int, actualEurCents: int, config: ClearingConfig): (Books, Result<nat, Error>) {
    if id >= |b.events| then (b, Err(NotFound))
    else if b.events[id].trueUpPosted then (b, Err(AlreadyTrueUp))
    else
      match FindByEvent(b.entries, id)
      case None => (b, Err(NotPosted))
      case Some(entry) =>
        var mp := AccountsOf(b.events[id].marketplace, config);
        if entry >= |b.entries| || b.entries[entry].status == Draft then (b, Err(NotPosted))
        else if delta == 0 then (b, Ok(entry))
        else if !config.provisionalFx then (b, Err(NotBookable))
        else if mp.fxGain == "" || mp.fxLoss == "" || mp.clearing == "" then (b, Err(AccountsMissing))
        else (PostTrueUp(b, id, delta, actualEurCents, config), Ok(|b.entries|))
  }

  // ----- accrual DATEV export -----

  /** The unlocked lines of one entry, from position `from` on. */
  function UnlockedFrom(lines: seq<JournalLine>, entry: nat, from: nat): seq<nat>
    requires from <= |lines|
    decreases |lines| - from
  {
    if from == |lines| then []
    else (if lines[from].entry == entry && lines[from].exportJob.None? then [from] else []) + UnlockedFrom(lines, entry, from + 1)
  }

  function Unlocked(lines: seq<JournalLine>, entry: nat): seq<nat> {
    UnlockedFrom(lines, entry, 0)
  }

  function GatherLines(lines: seq<JournalLine>, entries: seq<nat>): seq<nat> {
    if entries == [] then [] else Unlocked(lines, entries[0]) + GatherLines(lines, entries[1..])
  }

  function GatherEntries(lines: seq<JournalLine>, entries: seq<nat>): seq<nat> {
    if entries == [] then []
    else (if Unlocked(lines, entries[0]) == [] then [] else [entries[0]]) + GatherEntries(lines, entries[1..])
  }

  /** Lines carry no gegenkonto and no document reference of their own; the entry's description stands in. */
  function LineInput(b: Books): nat -> Pairing.Line {
    (i: nat) =>
      if i >= |b.lines| then Pairing.Line(0, S, "", "", "", 0, "", "")
      else
        var l := b.lines[i];
        var reference := if l.entry < |b.entries| then b.entries[l.entry].description else "";
        Pairing.Line(l.amountCents, l.side, l.account, "", l.buKey, l.postingDate, reference, l.bookingText)
  }

  function LockLines(lines: seq<JournalLine>, ids: seq<nat>, job: nat): seq<JournalLine> {
    seq(|lines|, i requires 0 <= i < |lines| => if i in ids then lines[i].(exportJob := Some(job)) else lines[i])
  }

  function LockEntries(entries: seq<Entry>, ids: seq<nat>, job: nat): seq<Entry> {
    seq(|entries|, i requires 0 <= i < |entries| =>
      if i in ids then entries[i].(status := Exported, exportedIn := Some(job)) else entries[i])
  }

  datatype Gathered = Gathered(entryIds: seq<nat>, lineIds: seq<nat>, inputs: seq<Pairing.Line>)

  function Gather(b: Books, lo: int, hi: int): Gathered {
    var entries := EntriesWith(b, Posted, lo, hi);
    var lineIds := GatherLines(b.lines, entries);
    Gathered(GatherEntries(b.lines, entries), lineIds, Map(lineIds, LineInput(b)))
  }

  function Lock(b: Books, g: Gathered, rows: seq<Row>): Books {
    var job := |b.jobs|;
    Books(b.events, LockEntries(b.entries, g.entryIds, job), LockLines(b.lines, g.lineIds, job),
          b.jobs + [Job(rows, g.entryIds, g.lineIds)])
  }

  function Export(b: Books, lo: int, hi: int, forbidden: set<string>): (Books, Result<nat, Error>) {
    var g := Gather(b, lo, hi);
    var rows := Pairing.RowsOf(Pairing.Pair(g.inputs));
    var errors := ErrorsUpTo(rows, |rows|, forbidden);
    if g.inputs == [] then (b, Err(NothingToExport))
    else if errors != [] then (b, Err(Invalid(errors)))
    else (Lock(b, g, rows), Ok(|b.jobs|))
  }
}
