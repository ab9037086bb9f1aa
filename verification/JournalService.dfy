/** The services that update the stored journal in place; each call does what the state machine's step says. */
module JournalService {
  import opened Folds
  import opened Wrappers
  import opened Datev
  import opened FeeVat
  import opened AccountMapping
  import opened Journal
  import JournalInvariant
  import Pairing

  lemma {:induction false} GatherSnoc(lines: seq<JournalLine>, entries: seq<nat>, k: nat)
    ensures GatherLines(lines, entries + [k]) == GatherLines(lines, entries) + Unlocked(lines, k)
    ensures GatherEntries(lines, entries + [k]) == GatherEntries(lines, entries) + if Unlocked(lines, k) == [] then [] else [k]
  {
    if entries == [] {
      assert [] + [k] == [k] && [k][1..] == [];
    } else {
      assert (entries + [k])[1..] == entries[1..] + [k];
      GatherSnoc(lines, entries[1..], k);
    }
  }

  lemma {:induction false} BuildEachSnoc(acc: Bulk, ids: seq<nat>, id: nat, config: ClearingConfig)
    ensures BuildEach(acc, ids + [id], config) == BuildStep(BuildEach(acc, ids, config), id, config)
    decreases |ids|
  {
    if ids == [] {
      assert [] + [id] == [id] && [id][1..] == [];
    } else {
      assert (ids + [id])[1..] == ids[1..] + [id];
      BuildEachSnoc(BuildStep(acc, ids[0], config), ids[1..], id, config);
    }
  }

  lemma {:induction false} PostEachSnoc(acc: Bulk, ids: seq<nat>, id: nat)
    ensures PostEach(acc, ids + [id]) == PostStep(PostEach(acc, ids), id)
    decreases |ids|
  {
    if ids == [] {
      assert [] + [id] == [id] && [id][1..] == [];
    } else {
      assert (ids + [id])[1..] == ids[1..] + [id];
      PostEachSnoc(PostStep(acc, ids[0]), ids[1..], id);
    }
  }

  lemma LockNextLine(lines: seq<JournalLine>, ids: seq<nat>, i: nat, job: nat)
    requires i < |ids| && ids[i] < |lines|
    ensures LockLines(lines, ids[..i + 1], job) ==
      LockLines(lines, ids[..i], job)[ids[i] := lines[ids[i]].(exportJob := Some(job))]
  {
    Prefix(ids, i);
  }

  lemma LockNextEntry(entries: seq<Entry>, ids: seq<nat>, i: nat, job: nat)
    requires i < |ids| && ids[i] < |entries|
    ensures LockEntries(entries, ids[..i + 1], job) ==
      LockEntries(entries, ids[..i], job)[ids[i] := entries[ids[i]].(status := Exported, exportedIn := Some(job))]
  {
    Prefix(ids, i);
  }

  class AccrualJournal {
    var events: seq<Event>
    var entries: seq<Entry>
    var lines: seq<JournalLine>
    var jobs: seq<Job>

    ghost function State(): Books
      reads this
    {
      Books(events, entries, lines, jobs)
    }

    constructor ()
      ensures State() == Empty()
    {
      events, entries, lines, jobs := [], [], [], [];
    }

    method FindByBusinessEventId(event: nat) returns (found: Option<nat>)
      ensures found == FindByEvent(entries, event)
    {
      var i := 0;
      while i < |entries|
        invariant 0 <= i <= |entries|
        invariant FindByEvent(entries, event) == FirstEntry(entries, event, i)
      {
        if entries[i].event == event {
          return Some(i);
        }
        i := i + 1;
      }
      found := None;
    }

    method BuildDraftForEvent(id: nat, config: ClearingConfig) returns (r: Result<nat, Error>)
      modifies this
      ensures (State(), r) == BuildDraft(old(State()), id, config)
    {
      if id >= |events| {
        return Err(NotFound);
      }
      var e := events[id];
      if e.eventType == OrderCreated || e.eventType == Cancellation {
        return Err(NotRevenue);
      }
      if e.status == InvoicePending {
        return Err(InvoiceMissing);
      }
      if e.status == Void {
        return Err(EventVoid);
      }
      var existing := FindByBusinessEventId(id);
      if existing.Some? {
        return Ok(existing.value);
      }
      var amount := BookingAmount(e);
      if amount == 0 {
        return Err(ZeroAmount);
      }
      var accounts := ResolveAccountsForEvent(e.eventType, e.marketplace, config);
      if !accounts.bookable {
        return Err(NotBookable);
      }
      if accounts.primary == "" || accounts.contra == "" {
        return Err(AccountsMissing);
      }
      var entry := |entries|;
      var side := if IsCredit(e) then H else S;
      var payload := [NewLine(entry, accounts.primary, side, amount, "", e),
                      NewLine(entry, accounts.contra, Opposite(side), amount, "", e)];
      if e.eventType == Fee {
        var extra := BuildFeeVatExtraLines(amount, e.marketplace, e.feeVat, OverlayOf(e.marketplace, config), accounts.contra);
        payload := payload + Map(extra.lines, VatLineOf(entry, e));
      }
      assert payload == NewLines(entry, e, config);
      entries := entries + [Entry(Built, id, PostingDate(e), e.reference, Draft, None)];
      lines := lines + payload;
      events := events[id := e.(journalEntry := Some(entry), status := EventDraft)];
      r := Ok(entry);
    }

    method SumSides(id: nat) returns (sumS: int, sumH: int)
      ensures sumS == Sum(lines, OnSide(id, S)) && sumH == Sum(lines, OnSide(id, H))
    {
      sumS, sumH := 0, 0;
      for i := 0 to |lines|
        invariant sumS == Sum(lines[..i], OnSide(id, S)) && sumH == Sum(lines[..i], OnSide(id, H))
      {
        Prefix(lines, i);
        SumAppend(lines[..i], [lines[i]], OnSide(id, S));
        SumAppend(lines[..i], [lines[i]], OnSide(id, H));
        SumCons(lines[i], [], OnSide(id, S));
        SumCons(lines[i], [], OnSide(id, H));
        if lines[i].entry == id {
          if lines[i].side == S {
            sumS := sumS + lines[i].amountCents;
          } else {
            sumH := sumH + lines[i].amountCents;
          }
        }
      }
      assert lines[..|lines|] == lines;
    }

    method PostEntry(id: nat) returns (r: Result<nat, Error>)
      modifies this
      ensures (State(), r) == Post(old(State()), id)
    {
      if id >= |entries| {
        return Err(NotFound);
      }
      if entries[id].status == EntryStatus.Posted {
        return Ok(id);
      }
      if entries[id].status != Draft {
        return Err(NotADraft);
      }
      var sumS, sumH := SumSides(id);
      if sumS != sumH {
        return Err(Unbalanced);
      }
      var event := entries[id].event;
      entries := entries[id := entries[id].(status := EntryStatus.Posted)];
      if event < |events| {
        events := events[event := events[event].(status := EventPosted)];
      }
      r := Ok(id);
    }

    method BuildPeriod(lo: int, hi: int, config: ClearingConfig) returns (built: nat, skipped: seq<nat>)
      modifies this
      ensures Bulk(State(), built, skipped) == BulkBuild(old(State()), lo, hi, config)
    {
      var ids := EventsToBuild(Books(events, entries, lines, jobs), lo, hi);
      built, skipped := 0, [];
      ghost var start := Bulk(State(), 0, []);
      for i := 0 to |ids|
        invariant Bulk(State(), built, skipped) == BuildEach(start, ids[..i], config)
      {
        Prefix(ids, i);
        BuildEachSnoc(start, ids[..i], ids[i], config);
        var reason := SkipReason(Books(events, entries, lines, jobs), ids[i], config);
        if reason.Some? {
          skipped := skipped + [ids[i]];
        } else {
          var r := BuildDraftForEvent(ids[i], config);
          if r.Ok? {
            built := built + 1;
          } else {
            skipped := skipped + [ids[i]];
          }
        }
      }
      assert ids[..|ids|] == ids;
    }

    method PostPeriod(lo: int, hi: int) returns (posted: nat, skipped: seq<nat>)
      modifies this
      ensures Bulk(State(), posted, skipped) == BulkPost(old(State()), lo, hi)
    {
      var ids := EntriesWith(Books(events, entries, lines, jobs), Draft, lo, hi);
      posted, skipped := 0, [];
      ghost var start := Bulk(State(), 0, []);
      for i := 0 to |ids|
        invariant Bulk(State(), posted, skipped) == PostEach(start, ids[..i])
      {
        Prefix(ids, i);
        PostEachSnoc(start, ids[..i], ids[i]);
        var sumS, sumH := SumSides(ids[i]);
        if ids[i] >= |entries| || entries[ids[i]].status != Draft || sumS != sumH {
          skipped := skipped + [ids[i]];
        } else {
          var r := PostEntry(ids[i]);
          if r.Ok? {
            posted := posted + 1;
          } else {
            skipped := skipped + [ids[i]];
          }
        }
      }
      assert ids[..|ids|] == ids;
    }

    method GatherExportable(lo: int, hi: int) returns (g: Gathered)
      ensures g == Gather(State(), lo, hi)
    {
      var b := Books(events, entries, lines, jobs);
      var posted := EntriesWith(b, EntryStatus.Posted, lo, hi);
      var entryIds: seq<nat>, lineIds: seq<nat> := [], [];
      for i := 0 to |posted|
        invariant lineIds == GatherLines(lines, posted[..i])
        invariant entryIds == GatherEntries(lines, posted[..i])
      {
        Prefix(posted, i);
        GatherSnoc(lines, posted[..i], posted[i]);
        var unexported := Unlocked(lines, posted[i]);
        if unexported == [] {
          continue;
        }
        entryIds := entryIds + [posted[i]];
        lineIds := lineIds + unexported;
      }
      assert posted[..|posted|] == posted;
      g := Gathered(entryIds, lineIds, Map(lineIds, LineInput(b)));
    }

    /** Locks the lines and then the entries, one document at a time. */
    method LockAll(g: Gathered, job: nat)
      requires forall i :: 0 <= i < |g.lineIds| ==> g.lineIds[i] < |lines|
      requires forall i :: 0 <= i < |g.entryIds| ==> g.entryIds[i] < |entries|
      modifies this`lines, this`entries
      ensures lines == LockLines(old(lines), g.lineIds, job)
      ensures entries == LockEntries(old(entries), g.entryIds, job)
    {
      for i := 0 to |g.lineIds|
        invariant lines == LockLines(old(lines), g.lineIds[..i], job)
        invariant entries == old(entries)
      {
        LockNextLine(old(lines), g.lineIds, i, job);
        lines := lines[g.lineIds[i] := lines[g.lineIds[i]].(exportJob := Some(job))];
      }
      assert g.lineIds[..|g.lineIds|] == g.lineIds;
      for i := 0 to |g.entryIds|
        invariant lines == LockLines(old(lines), g.lineIds, job)
        invariant entries == LockEntries(old(entries), g.entryIds[..i], job)
      {
        LockNextEntry(old(entries), g.entryIds, i, job);
        entries := entries[g.entryIds[i] := entries[g.entryIds[i]].(status := Exported, exportedIn := Some(job))];
      }
      assert g.entryIds[..|g.entryIds|] == g.entryIds;
    }

    lemma GatheredInRange(lo: int, hi: int)
      ensures var g := Gather(State(), lo, hi);
        (forall i :: 0 <= i < |g.lineIds| ==> g.lineIds[i] < |lines|) &&
        (forall i :: 0 <= i < |g.entryIds| ==> g.entryIds[i] < |entries|)
    {
      var g, posted := Gather(State(), lo, hi), EntriesWith(State(), EntryStatus.Posted, lo, hi);
      JournalInvariant.EntriesWithSound(State(), EntryStatus.Posted, lo, hi);
      JournalInvariant.GatherLinesSound(lines, posted);
      JournalInvariant.GatherEntriesSound(lines, posted);
      forall i | 0 <= i < |g.lineIds| ensures g.lineIds[i] < |lines| {
        assert g.lineIds[i] in g.lineIds;
      }
      forall i | 0 <= i < |g.entryIds| ensures g.entryIds[i] < |entries| {
        assert g.entryIds[i] in g.entryIds;
      }
    }

    /** What an export would write, and what validation says about it. */
    method Preview(lo: int, hi: int, forbidden: set<string>) returns (g: Gathered, rows: seq<Row>, errors: seq<RowError>)
      ensures g == Gather(State(), lo, hi)
      ensures rows == Pairing.RowsOf(Pairing.Pair(g.inputs)) && errors == ErrorsUpTo(rows, |rows|, forbidden)
    {
      g := GatherExportable(lo, hi);
      rows := Pairing.AccrualLinesToDatevRows(g.inputs);
      errors := ValidateDatevRows(rows, forbidden);
    }

    method StoreJob(lo: int, hi: int, g: Gathered, rows: seq<Row>)
      requires g == Gather(State(), lo, hi)
      modifies this
      ensures State() == Lock(old(State()), g, rows)
    {
      var job := |jobs|;
      GatheredInRange(lo, hi);
      jobs := jobs + [Job(rows, g.entryIds, g.lineIds)];
      LockAll(g, job);
    }

    /** The export call: gather, pair, validate, store the job, lock. The control totals belong to the stored rows. */
    method CreateExport(lo: int, hi: int, forbidden: set<string>) returns (r: Result<nat, Error>, totals: map<string, int>)
      modifies this
      ensures (State(), r) == Export(old(State()), lo, hi, forbidden)
      ensures r.Ok? ==> r.value < |jobs| && MapSum(totals) == Sum(jobs[r.value].rows, RowVolume())
      ensures r.Ok? ==> forall a :: AmountAt(totals, a) == Turnover(jobs[r.value].rows, a)
    {
      totals := map[];
      var g, rows, errors := Preview(lo, hi, forbidden);
      if g.inputs == [] {
        return Err(NothingToExport), totals;
      }
      if errors != [] {
        return Err(Invalid(errors)), totals;
      }
      totals := TotalsByAccount(rows);
      r := Ok(|jobs|);
      StoreJob(lo, hi, g, rows);
    }
  }
}
