/** Bank and PayPal transactions: import, classification, manual work, duplicates and the DATEV export with its lock. */
module Cash {
  import opened Folds
  import opened Wrappers
  import opened Datev
  import opened SystemPolicies
  import opened RuleEngine
  import opened Selection
  import opened Text
  import Sorting

  datatype Status = Imported | Suggested | Matched | Opened | InConflict | Reviewed | Skipped | Exported

  datatype Bookability = Bookable | NotBooked | BalanceOnly

  /** `clearing` says that the S5 clearing policy made the booking. */
  datatype Tx = Tx(importBatch: nat, source: Source, fingerprint: string, bookingDate: int, amountCents: int,
                   texts: TxTexts, reference: string, bookability: Bookability, status: Status, systemMatched: bool,
                   clearing: bool, booking: Booking, ruleIds: seq<string>, exportedIn: Option<nat>, duplicateOf: Option<nat>)

  datatype GroupStatus = GroupOpen | Merged | Ignored | KeptBoth

  datatype Group = Group(txIds: seq<nat>, status: GroupStatus)

  /** An ExportItem; its transaction id has a unique index. */
  datatype Item = Item(batch: nat, tx: nat)

  datatype ExportBatch = ExportBatch(rows: seq<Row>, txIds: seq<nat>)

  datatype CashBook = CashBook(txs: seq<Tx>, imports: nat, groups: seq<Group>, exports: seq<ExportBatch>, items: seq<Item>)

  function NoCash(): CashBook {
    CashBook([], 0, [], [], [])
  }

  datatype Context = Context(matcher: Matcher, world: World, policy: Policy, rules: seq<Rule>)

  // ----- one classifier -----

  datatype Decision = Clear(booking: Booking) | Park | ByRules(verdict: Verdict)

  /** Clearing, then the two park policies, then the human rules. */
  function Classify(c: Context, tx: TxLike): Decision {
    if IsClearing(c.matcher, tx.source, tx.texts, c.policy) then Clear(ClearingBooking(tx.source, tx.amountCents, c.policy))
    else if IsMarketplacePark(c.matcher, tx.texts, c.policy) || IsManualPark(c.matcher, tx.texts, c.policy) then Park
    else ByRules(ApplyHumanRules(c.world, tx, c.rules, c.policy))
  }

  /** What a decision writes into the transaction. */
  datatype Outcome = Outcome(status: Status, booking: Booking, ruleIds: seq<string>)

  function OutcomeOf(c: Context, source: Source, d: Decision): Outcome {
    match d
    case Clear(b) => Outcome(Matched, b, [])
    case Park => Outcome(Opened, NoBooking(), [])
    case ByRules(Open) => Outcome(Opened, NoBooking(), [])
    case ByRules(Booked(id, b)) => Outcome(Matched, AdjustInventory(b, source, c.policy), [id])
    case ByRules(Conflict(ids)) => Outcome(InConflict, NoBooking(), ids)
  }

  function Write(tx: Tx, o: Outcome): Tx {
    tx.(status := o.status, booking := o.booking, ruleIds := o.ruleIds)
  }

  function LikeAt(tx: Tx, date: Option<int>): TxLike {
    TxLike(tx.source, tx.amountCents, tx.texts, date)
  }

  datatype Tally = Tally(matched: nat, conflict: nat, open: nat, skipped: nat)

  function NoTally(): Tally {
    Tally(0, 0, 0, 0)
  }

  function CountOutcome(t: Tally, s: Status): Tally {
    match s
    case Matched => t.(matched := t.matched + 1)
    case InConflict => t.(conflict := t.conflict + 1)
    case Opened => t.(open := t.open + 1)
    case _ => t.(skipped := t.skipped + 1)
  }

  // ----- import -----

  datatype Parsed = Parsed(fingerprint: string, bookingDate: int, amountCents: int, texts: TxTexts, reference: string,
                           bookability: Bookability)

  function FirstWith(txs: seq<Tx>, fingerprint: string, from: nat): Option<nat>
    requires from <= |txs|
    decreases |txs| - from
  {
    if from == |txs| then None
    else if txs[from].fingerprint == fingerprint then Some(from)
    else FirstWith(txs, fingerprint, from + 1)
  }

  function FreshTx(batch: nat, source: Source, p: Parsed): Tx {
    Tx(batch, source, p.fingerprint, p.bookingDate, p.amountCents, p.texts, p.reference, p.bookability,
       if p.bookability == NotBooked then Skipped else Imported, false, false, NoBooking(), [], None, None)
  }

  /** The import passes no booking date on: validity dates of rules are judged at the time of the import. */
  function SettleFresh(c: Context, tx: Tx): Tx {
    var d := Classify(c, LikeAt(tx, None));
    Write(tx, OutcomeOf(c, tx.source, d)).(systemMatched := d.Clear?, clearing := d.Clear?)
  }

  datatype ImportState = ImportState(txs: seq<Tx>, created: nat, duplicates: seq<nat>, skipped: nat, tally: Tally)

  function ImportRow(c: Context, batch: nat, source: Source, st: ImportState, p: Parsed): ImportState {
    var existing := FirstWith(st.txs, p.fingerprint, 0);
    var row := FreshTx(batch, source, p);
    if existing.Some? then st.(duplicates := st.duplicates + [existing.value])
    else if p.bookability == NotBooked then st.(txs := st.txs + [row], skipped := st.skipped + 1)
    else
      var tx := SettleFresh(c, row);
      st.(txs := st.txs + [tx], created := st.created + 1, tally := CountOutcome(st.tally, tx.status))
  }

  function ImportRows(c: Context, batch: nat, source: Source, st: ImportState, rows: seq<Parsed>): ImportState
    decreases |rows|
  {
    if rows == [] then st else ImportRows(c, batch, source, ImportRow(c, batch, source, st, rows[0]), rows[1..])
  }

  function StartImport(s: CashBook): ImportState {
    ImportState(s.txs, 0, [], 0, NoTally())
  }

  function FinishImport(s: CashBook, st: ImportState): CashBook {
    s.(txs := st.txs, imports := s.imports + 1,
       groups := if st.duplicates == [] then s.groups else s.groups + [Group(st.duplicates, GroupOpen)])
  }

  /** The parsed rows of one new file. */
  function Import(s: CashBook, c: Context, source: Source, rows: seq<Parsed>): (CashBook, ImportState) {
    var st := ImportRows(c, s.imports, source, StartImport(s), rows);
    (FinishImport(s, st), st)
  }

  // ----- applyRules and reprocess -----

  /** What counts a transaction among the skipped, the matched, ... in a re-application. */
  datatype Reapplied = Reapplied(tx: Tx, counted: Status)

  function Reapply(c: Context, tx: Tx): Reapplied {
    if tx.status == Exported || tx.status == Reviewed || tx.bookability == NotBooked then Reapplied(tx, Skipped)
    else if tx.systemMatched && tx.clearing then Reapplied(tx, Matched)
    else
      var d := Classify(c, LikeAt(tx, Some(tx.bookingDate)));
      var o := OutcomeOf(c, tx.source, d);
      if d.Clear? then Reapplied(Write(tx, o).(systemMatched := true, clearing := true), Matched)
      else if d.Park? then Reapplied(Write(tx, o).(systemMatched := false), Opened)
      else if c.rules == [] then Reapplied(if tx.status == Opened then tx else Write(tx, o), Opened)
      else Reapplied(Write(tx, o).(systemMatched := false), o.status)
  }

  /** Re-processing a batch also goes over reviewed transactions, and passes no booking date on. */
  function Reprocess(c: Context, tx: Tx): Reapplied {
    if tx.systemMatched then Reapplied(tx, Matched)
    else
      var d := Classify(c, LikeAt(tx, None));
      var o := OutcomeOf(c, tx.source, d);
      Reapplied(if d.Clear? then Write(tx, o).(systemMatched := true, clearing := true) else Write(tx, o), o.status)
  }

  function Selected(txs: seq<Tx>, ids: set<nat>): nat -> bool {
    (i: nat) =>
      i < |txs| && if ids != {} then i in ids else txs[i].status in {Opened, Imported, InConflict, Matched, Suggested}
  }

  function OfBatch(txs: seq<Tx>, batch: nat): nat -> bool {
    (i: nat) => i < |txs| && txs[i].importBatch == batch && txs[i].status !in {Exported, Skipped} && txs[i].bookability != NotBooked
  }

  datatype Pass = Pass(txs: seq<Tx>, tally: Tally)

  function PassStep(p: Pass, i: nat, r: Reapplied): Pass
    requires i < |p.txs|
  {
    Pass(p.txs[i := r.tx], CountOutcome(p.tally, r.counted))
  }

  function ReapplyEach(c: Context, p: Pass, ids: seq<nat>): Pass
    decreases |ids|
  {
    if ids == [] then p
    else if ids[0] >= |p.txs| then ReapplyEach(c, p, ids[1..])
    else ReapplyEach(c, PassStep(p, ids[0], Reapply(c, p.txs[ids[0]])), ids[1..])
  }

  function ReprocessEach(c: Context, p: Pass, ids: seq<nat>): Pass
    decreases |ids|
  {
    if ids == [] then p
    else if ids[0] >= |p.txs| then ReprocessEach(c, p, ids[1..])
    else ReprocessEach(c, PassStep(p, ids[0], Reprocess(c, p.txs[ids[0]])), ids[1..])
  }

  function SelectedIds(txs: seq<Tx>, ids: set<nat>): seq<nat> {
    Filter(Positions(|txs|), Selected(txs, ids))
  }

  function BatchIds(txs: seq<Tx>, batch: nat): seq<nat> {
    Filter(Positions(|txs|), OfBatch(txs, batch))
  }

  /** With no ids given, everything that is not finished is taken. */
  function ApplyRules(s: CashBook, c: Context, ids: set<nat>): (CashBook, Tally) {
    var p := ReapplyEach(c, Pass(s.txs, NoTally()), SelectedIds(s.txs, ids));
    (s.(txs := p.txs), p.tally)
  }

  function ReprocessBatch(s: CashBook, c: Context, batch: nat): (CashBook, Tally) {
    var p := ReprocessEach(c, Pass(s.txs, NoTally()), BatchIds(s.txs, batch));
    (s.(txs := p.txs), p.tally)
  }

  // ----- manual work and duplicates -----

  datatype Error = NotFound | AlreadyExported | InvalidStatus | GroupResolved | NothingToExport | OpenItems
                 | Invalid(errors: seq<RowError>) | ItemExists(tx: nat)

  function Assign(s: CashBook, id: nat, konto: string, gegenkonto: string, buKey: string, text: string): (CashBook, Result<nat, Error>) {
    if id >= |s.txs| then (s, Err(NotFound))
    else if s.txs[id].status == Exported then (s, Err(AlreadyExported))
    else
      var booking := Booking(konto, gegenkonto, buKey, text, Some(SideOf(s.txs[id].amountCents)));
      (s.(txs := s.txs[id := s.txs[id].(status := Reviewed, booking := booking)]), Ok(id))
  }

  function SetStatus(s: CashBook, id: nat, status: Status): (CashBook, Result<nat, Error>) {
    if id >= |s.txs| then (s, Err(NotFound))
    else if s.txs[id].status == Exported then (s, Err(AlreadyExported))
    else if status !in {Opened, Reviewed, Matched, InConflict, Skipped} then (s, Err(InvalidStatus))
    else (s.(txs := s.txs[id := s.txs[id].(status := status)]), Ok(id))
  }

  function MarkDuplicates(txs: seq<Tx>, ids: seq<nat>, keeper: nat): seq<Tx>
    decreases |ids|
  {
    if ids == [] then txs
    else if ids[0] >= |txs| then MarkDuplicates(txs, ids[1..], keeper)
    else MarkDuplicates(txs[ids[0] := txs[ids[0]].(status := Skipped, duplicateOf := Some(keeper))], ids[1..], keeper)
  }

  /** `merge` keeps the group's first transaction; whatever status the others have, they become skipped. */
  function ResolveGroup(s: CashBook, id: nat, action: GroupStatus): (CashBook, Result<nat, Error>) {
    if id >= |s.groups| then (s, Err(NotFound))
    else if s.groups[id].status != GroupOpen then (s, Err(GroupResolved))
    else if action == GroupOpen then (s, Err(InvalidStatus))
    else
      var g := s.groups[id];
      var txs := if action == Merged && |g.txIds| > 1 then MarkDuplicates(s.txs, g.txIds[1..], g.txIds[0]) else s.txs;
      (s.(txs := txs, groups := s.groups[id := g.(status := action)]), Ok(id))
  }

  // ----- DATEV export -----

  /** The export's period, the shorter period of the open-items check, and the company's settings. */
  datatype ExportOptions = ExportOptions(lo: int, hi: int, openLo: int, openHi: int, allowMatched: bool, blockIfOpen: bool,
                                         forbidden: set<string>)

  function Eligible(txs: seq<Tx>, o: ExportOptions): nat -> bool {
    (i: nat) =>
      && i < |txs|
      && o.lo <= txs[i].bookingDate <= o.hi
      && (txs[i].status == Reviewed || (o.allowMatched && txs[i].status == Matched))
      && txs[i].bookability == Bookable
      && txs[i].exportedIn == None
      && txs[i].booking.konto != "" && txs[i].booking.gegenkonto != ""
  }

  function DateOf(txs: seq<Tx>): nat -> int {
    (i: nat) => if i < |txs| then txs[i].bookingDate else 0
  }

  function Gather(txs: seq<Tx>, o: ExportOptions): seq<nat> {
    Sorting.SortStable(Filter(Positions(|txs|), Eligible(txs, o)), DateOf(txs))
  }

  predicate HasOpenItems(txs: seq<Tx>, o: ExportOptions) {
    exists i :: 0 <= i < |txs| && o.openLo <= txs[i].bookingDate <= o.openHi && txs[i].status in {Opened, InConflict} &&
      txs[i].bookability == Bookable
  }

  function ToDatevRow(tx: Tx): Row {
    var b := tx.booking;
    Row(tx.amountCents, b.side.GetOr(SideOf(tx.amountCents)), b.konto, b.gegenkonto, b.buKey, tx.bookingDate, tx.reference,
        FirstSixty(FirstSet(b.bookingText, tx.texts.purpose)))
  }

  function RowAt(txs: seq<Tx>): nat -> Row {
    (i: nat) => if i < |txs| then ToDatevRow(txs[i]) else Row(0, S, "", "", "", 0, "", "")
  }

  predicate HasItem(items: seq<Item>, tx: nat) {
    exists k :: 0 <= k < |items| && items[k].tx == tx
  }

  /** Creates the item, which fails when the transaction already has one, and then marks the transaction. */
  function LockEach(s: CashBook, ids: seq<nat>, batch: nat): (CashBook, Result<nat, Error>)
    decreases |ids|
  {
    if ids == [] then (s, Ok(batch))
    else if HasItem(s.items, ids[0]) then (s, Err(ItemExists(ids[0])))
    else LockEach(LockOne(s, ids[0], batch), ids[1..], batch)
  }

  function LockOne(s: CashBook, id: nat, batch: nat): CashBook {
    s.(items := s.items + [Item(batch, id)],
       txs := if id < |s.txs| then s.txs[id := s.txs[id].(status := Exported, exportedIn := Some(batch))] else s.txs)
  }

  function CreateExport(s: CashBook, o: ExportOptions): (CashBook, Result<nat, Error>) {
    var ids := Gather(s.txs, o);
    var rows := Map(ids, RowAt(s.txs));
    var errors := ErrorsUpTo(rows, |rows|, o.forbidden);
    if ids == [] then (s, Err(NothingToExport))
    else if o.blockIfOpen && HasOpenItems(s.txs, o) then (s, Err(OpenItems))
    else if errors != [] then (s, Err(Invalid(errors)))
    else LockEach(s.(exports := s.exports + [ExportBatch(rows, ids)]), ids, |s.exports|)
  }
}
