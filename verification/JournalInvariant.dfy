/** What every step of the accrual journal keeps. */
module JournalInvariant {
  import opened Folds
  import opened Wrappers
  import opened Datev
  import opened FeeVat
  import opened AccountMapping
  import opened Journal
  import opened Selection
  import Pairing
  import Sorting

  // ----- the lines of one entry -----

  /** A line without its lock. */
  function Core(l: JournalLine): JournalLine {
    l.(exportJob := None)
  }

  function EntryLines(lines: seq<JournalLine>, entry: nat): seq<JournalLine> {
    if lines == [] then []
    else (if lines[0].entry == entry then [Core(lines[0])] else []) + EntryLines(lines[1..], entry)
  }

  lemma {:induction false} EntryLinesAppend(a: seq<JournalLine>, b: seq<JournalLine>, entry: nat)
    ensures EntryLines(a + b, entry) == EntryLines(a, entry) + EntryLines(b, entry)
  {
    if a == [] {
      assert a + b == b;
    } else {
      assert a == [a[0]] + a[1..];
      assert (a + b)[0] == a[0] && (a + b)[1..] == a[1..] + b;
      EntryLinesAppend(a[1..], b, entry);
    }
  }

  lemma {:induction false} EntryLinesOfOthers(lines: seq<JournalLine>, entry: nat)
    requires forall i :: 0 <= i < |lines| ==> lines[i].entry != entry
    ensures EntryLines(lines, entry) == []
  {
    if lines != [] {
      EntryLinesOfOthers(lines[1..], entry);
    }
  }

  lemma {:induction false} EntryLinesOfOne(lines: seq<JournalLine>, entry: nat)
    requires forall i :: 0 <= i < |lines| ==> lines[i].entry == entry && lines[i].exportJob == None
    ensures EntryLines(lines, entry) == lines
  {
    if lines != [] {
      EntryLinesOfOne(lines[1..], entry);
      assert Core(lines[0]) == lines[0];
      assert lines == [lines[0]] + lines[1..];
    }
  }

  /** Locking lines changes nothing else about them. */
  predicate SameCores(a: seq<JournalLine>, b: seq<JournalLine>) {
    |a| == |b| && forall i :: 0 <= i < |a| ==> Core(a[i]) == Core(b[i])
  }

  lemma {:induction false} EntryLinesSameCores(a: seq<JournalLine>, b: seq<JournalLine>, entry: nat)
    requires SameCores(a, b)
    ensures EntryLines(a, entry) == EntryLines(b, entry)
  {
    if a != [] {
      assert Core(a[0]) == Core(b[0]);
      assert a[0].entry == Core(a[0]).entry && b[0].entry == Core(b[0]).entry;
      forall i | 0 <= i < |a[1..]| ensures Core(a[1..][i]) == Core(b[1..][i]) {
        assert Core(a[i + 1]) == Core(b[i + 1]);
      }
      EntryLinesSameCores(a[1..], b[1..], entry);
    }
  }

  // ----- two-sided entries -----

  /** A debit and a credit of the same positive amount on named accounts. */
  predicate MirrorPair(x: JournalLine, y: JournalLine) {
    && x.side != y.side
    && x.amountCents == y.amountCents > 0
    && x.account != "" && y.account != ""
  }

  /** The lines come in pairs that cancel each other. */
  predicate Mirrored(lines: seq<JournalLine>) {
    lines == [] || (|lines| >= 2 && MirrorPair(lines[0], lines[1]) && Mirrored(lines[2..]))
  }

  lemma {:induction false} MirroredAppend(a: seq<JournalLine>, b: seq<JournalLine>)
    requires Mirrored(a) && Mirrored(b)
    ensures Mirrored(a + b)
  {
    if a == [] {
      assert a + b == b;
    } else {
      assert (a + b)[2..] == a[2..] + b;
      MirroredAppend(a[2..], b);
    }
  }

  lemma {:induction false} SumOfEntryLines(lines: seq<JournalLine>, entry: nat, side: Side)
    ensures Sum(lines, OnSide(entry, side)) == Sum(EntryLines(lines, entry), OnSide(entry, side))
  {
    if lines != [] {
      SumOfEntryLines(lines[1..], entry, side);
      if lines[0].entry == entry {
        SumCons(Core(lines[0]), EntryLines(lines[1..], entry), OnSide(entry, side));
      } else {
        assert [] + EntryLines(lines[1..], entry) == EntryLines(lines[1..], entry);
      }
    }
  }

  lemma {:induction false} MirroredSumsAgree(lines: seq<JournalLine>, entry: nat)
    requires Mirrored(lines) && forall i :: 0 <= i < |lines| ==> lines[i].entry == entry
    ensures Sum(lines, OnSide(entry, S)) == Sum(lines, OnSide(entry, H))
  {
    if lines != [] {
      var rest := lines[2..];
      MirroredSumsAgree(rest, entry);
      assert lines == [lines[0]] + ([lines[1]] + rest);
      SumCons(lines[0], [lines[1]] + rest, OnSide(entry, S));
      SumCons(lines[1], rest, OnSide(entry, S));
      SumCons(lines[0], [lines[1]] + rest, OnSide(entry, H));
      SumCons(lines[1], rest, OnSide(entry, H));
    }
  }

  lemma {:induction false} EntryLinesEntry(lines: seq<JournalLine>, entry: nat)
    ensures forall i :: 0 <= i < |EntryLines(lines, entry)| ==> EntryLines(lines, entry)[i].entry == entry
  {
    if lines != [] {
      EntryLinesEntry(lines[1..], entry);
    }
  }

  /** A mirrored entry has equal debit and credit totals. */
  lemma MirroredEntryBalances(lines: seq<JournalLine>, entry: nat)
    requires Mirrored(EntryLines(lines, entry))
    ensures SumsAgree(lines, entry)
  {
    SumOfEntryLines(lines, entry, S);
    SumOfEntryLines(lines, entry, H);
    EntryLinesEntry(lines, entry);
    MirroredSumsAgree(EntryLines(lines, entry), entry);
  }

  // ----- the invariant -----

  /** Entry k is two-sided, and all its lines carry its posting date and its lock. */
  predicate GoodEntry(b: Books, k: nat)
    requires k < |b.entries|
  {
    var e := b.entries[k];
    && e.event < |b.events| && !NoRevenue(b.events[e.event].eventType)
    && (e.kind == TrueUp ==> b.events[e.event].trueUpPosted && e.status != Draft)
    && EntryLines(b.lines, k) != [] && Mirrored(EntryLines(b.lines, k))
    && (e.status == Exported <==> e.exportedIn.Some?)
    && (e.exportedIn.Some? ==> e.exportedIn.value < |b.jobs|)
  }

  predicate GoodLine(b: Books, i: nat)
    requires i < |b.lines|
  {
    var l := b.lines[i];
    && l.entry < |b.entries|
    && l.postingDate == b.entries[l.entry].postingDate
    && l.exportJob == b.entries[l.entry].exportedIn
  }

  /** A job lists exactly the lines that it has locked, each once. */
  predicate GoodJob(b: Books, j: nat)
    requires j < |b.jobs|
  {
    && (forall i :: 0 <= i < |b.lines| ==> (b.lines[i].exportJob == Some(j) <==> i in b.jobs[j].lineIds))
    && (forall i :: i in b.jobs[j].lineIds ==> i < |b.lines|)
    && (forall x, y :: 0 <= x < y < |b.jobs[j].lineIds| ==> b.jobs[j].lineIds[x] != b.jobs[j].lineIds[y])
  }

  /** At most one entry built from an event, and at most one true-up. */
  predicate DistinctEntries(b: Books) {
    forall k, m :: 0 <= k < m < |b.entries| ==> (b.entries[k].event, b.entries[k].kind) != (b.entries[m].event, b.entries[m].kind)
  }

  predicate Inv(b: Books) {
    && (forall k :: 0 <= k < |b.entries| ==> GoodEntry(b, k))
    && (forall i :: 0 <= i < |b.lines| ==> GoodLine(b, i))
    && (forall j :: 0 <= j < |b.jobs| ==> GoodJob(b, j))
    && DistinctEntries(b)
  }

  // ----- adding an entry -----

  /** The lines that a step writes for a new entry. */
  predicate FreshLines(lines: seq<JournalLine>, entry: nat, postingDate: int) {
    && lines != [] && Mirrored(lines)
    && forall i :: 0 <= i < |lines| ==> lines[i].entry == entry && lines[i].exportJob == None && lines[i].postingDate == postingDate
  }

  /** Events may change in every respect but their type; a posted true-up stays posted. */
  predicate EventsKept(a: seq<Event>, b: seq<Event>) {
    |a| <= |b| && forall k :: 0 <= k < |a| ==> a[k].eventType == b[k].eventType && (a[k].trueUpPosted ==> b[k].trueUpPosted)
  }

  lemma EventsChange(b: Books, events: seq<Event>)
    requires Inv(b) && EventsKept(b.events, events)
    ensures Inv(b.(events := events))
  {
    var c := b.(events := events);
    forall k | 0 <= k < |c.entries| ensures GoodEntry(c, k) {
      assert GoodEntry(b, k);
    }
    forall i | 0 <= i < |c.lines| ensures GoodLine(c, i) {
      assert GoodLine(b, i);
    }
    forall j | 0 <= j < |c.jobs| ensures GoodJob(c, j) {
      assert GoodJob(b, j);
    }
  }

  function WithEntry(b: Books, e: Entry, lines: seq<JournalLine>): Books {
    b.(entries := b.entries + [e], lines := b.lines + lines)
  }

  lemma OldEntriesKept(b: Books, e: Entry, lines: seq<JournalLine>, k: nat)
    requires Inv(b) && k < |b.entries| && FreshLines(lines, |b.entries|, e.postingDate)
    ensures GoodEntry(WithEntry(b, e, lines), k)
  {
    assert GoodEntry(b, k);
    EntryLinesAppend(b.lines, lines, k);
    EntryLinesOfOthers(lines, k);
    assert EntryLines(b.lines, k) + [] == EntryLines(b.lines, k);
  }

  lemma NewEntryGood(b: Books, e: Entry, lines: seq<JournalLine>)
    requires Inv(b) && FreshLines(lines, |b.entries|, e.postingDate)
    requires e.event < |b.events| && !NoRevenue(b.events[e.event].eventType) && e.status != Exported && e.exportedIn == None
    requires e.kind == TrueUp ==> b.events[e.event].trueUpPosted && e.status != Draft
    ensures GoodEntry(WithEntry(b, e, lines), |b.entries|)
  {
    var k := |b.entries|;
    forall i | 0 <= i < |b.lines| ensures b.lines[i].entry != k {
      assert GoodLine(b, i);
    }
    EntryLinesAppend(b.lines, lines, k);
    EntryLinesOfOthers(b.lines, k);
    EntryLinesOfOne(lines, k);
    assert [] + lines == lines;
  }

  lemma LinesAndJobsKept(b: Books, e: Entry, lines: seq<JournalLine>)
    requires Inv(b) && FreshLines(lines, |b.entries|, e.postingDate) && e.exportedIn == None
    ensures var c := WithEntry(b, e, lines);
      (forall i :: 0 <= i < |c.lines| ==> GoodLine(c, i)) && (forall j :: 0 <= j < |c.jobs| ==> GoodJob(c, j))
  {
    var c := WithEntry(b, e, lines);
    forall i | 0 <= i < |c.lines| ensures GoodLine(c, i) {
      if i < |b.lines| {
        assert GoodLine(b, i);
      } else {
        assert c.lines[i] == lines[i - |b.lines|];
      }
    }
    forall j | 0 <= j < |c.jobs| ensures GoodJob(c, j) {
      assert GoodJob(b, j);
      forall i | 0 <= i < |c.lines| ensures c.lines[i].exportJob == Some(j) <==> i in c.jobs[j].lineIds {
        if i >= |b.lines| {
          assert c.lines[i] == lines[i - |b.lines|];
        }
      }
    }
  }

  lemma EntryAdded(b: Books, e: Entry, lines: seq<JournalLine>)
    requires Inv(b) && FreshLines(lines, |b.entries|, e.postingDate)
    requires e.event < |b.events| && !NoRevenue(b.events[e.event].eventType) && e.status != Exported && e.exportedIn == None
    requires e.kind == TrueUp ==> b.events[e.event].trueUpPosted && e.status != Draft
    requires forall k :: 0 <= k < |b.entries| ==> (b.entries[k].event, b.entries[k].kind) != (e.event, e.kind)
    ensures Inv(WithEntry(b, e, lines))
  {
    var c := WithEntry(b, e, lines);
    forall k | 0 <= k < |c.entries| ensures GoodEntry(c, k) {
      if k < |b.entries| {
        OldEntriesKept(b, e, lines, k);
      } else {
        NewEntryGood(b, e, lines);
      }
    }
    LinesAndJobsKept(b, e, lines);
  }

  // ----- build -----

  lemma {:induction false} FirstEntrySound(entries: seq<Entry>, event: nat, from: nat)
    requires from <= |entries|
    ensures var r := FirstEntry(entries, event, from);
      match r
      case None => forall k :: from <= k < |entries| ==> entries[k].event != event
      case Some(k) => from <= k < |entries| && entries[k].event == event && forall m :: from <= m < k ==> entries[m].event != event
    decreases |entries| - from
  {
    if from < |entries| && entries[from].event != event {
      FirstEntrySound(entries, event, from + 1);
    }
  }

  lemma NetLinesMirrored(entry: nat, e: Event, config: ClearingConfig)
    requires AmountRefusal(e, config) == None
    ensures FreshLines(NetLines(entry, e, config), entry, PostingDate(e))
  {
    var lines := NetLines(entry, e, config);
    assert lines[2..] == [];
  }

  lemma VatLinesMirrored(entry: nat, e: Event, config: ClearingConfig)
    ensures var lines := Map(ExtraOf(e, config), VatLineOf(entry, e));
      Mirrored(lines) &&
      forall i :: 0 <= i < |lines| ==> lines[i].entry == entry && lines[i].exportJob == None && lines[i].postingDate == PostingDate(e)
  {
    var extra, lines := ExtraOf(e, config), Map(ExtraOf(e, config), VatLineOf(entry, e));
    if extra != [] {
      ExtraLinesAreBalanced(BookingAmount(e), e.marketplace, e.feeVat, OverlayOf(e.marketplace, config),
                            Resolve(e.eventType, e.marketplace, config).contra);
      assert IsVatPair(extra);
      assert lines[2..] == [];
      assert MirrorPair(lines[0], lines[1]);
    }
  }

  lemma NewLinesFresh(entry: nat, e: Event, config: ClearingConfig)
    requires AmountRefusal(e, config) == None
    ensures FreshLines(NewLines(entry, e, config), entry, PostingDate(e))
  {
    NetLinesMirrored(entry, e, config);
    VatLinesMirrored(entry, e, config);
    MirroredAppend(NetLines(entry, e, config), Map(ExtraOf(e, config), VatLineOf(entry, e)));
  }

  lemma BuildKeepsInv(b: Books, id: nat, config: ClearingConfig)
    requires Inv(b)
    ensures Inv(BuildDraft(b, id, config).0)
  {
    if BuildDraft(b, id, config).0 != b {
      var e := b.events[id];
      NewLinesFresh(|b.entries|, e, config);
      FirstEntrySound(b.entries, id, 0);
      var entry := Entry(Built, id, PostingDate(e), e.reference, Draft, None);
      EntryAdded(b, entry, NewLines(|b.entries|, e, config));
      var c := WithEntry(b, entry, NewLines(|b.entries|, e, config));
      EventsChange(c, AddEntry(b, id, config).events);
      assert c.(events := AddEntry(b, id, config).events) == AddEntry(b, id, config);
    }
  }

  // ----- post -----

  lemma PostKeepsInv(b: Books, id: nat)
    requires Inv(b)
    ensures Inv(Post(b, id).0)
  {
    var c := Post(b, id).0;
    if c != b {
      forall k | 0 <= k < |c.entries| ensures GoodEntry(c, k) {
        assert GoodEntry(b, k);
        assert GoodEntry(b, id);
      }
      forall i | 0 <= i < |c.lines| ensures GoodLine(c, i) {
        assert GoodLine(b, i);
      }
      forall j | 0 <= j < |c.jobs| ensures GoodJob(c, j) {
        assert GoodJob(b, j);
      }
    }
  }

  /** The balance check of post never fails on an entry of the journal: every draft can be posted. */
  lemma EveryDraftPosts(b: Books, id: nat)
    requires Inv(b) && id < |b.entries|
    ensures Post(b, id).1.Ok? <==> b.entries[id].status != Exported
    ensures b.entries[id].status == Draft ==> Post(b, id).0.entries == b.entries[id := b.entries[id].(status := Posted)]
  {
    assert GoodEntry(b, id);
    MirroredEntryBalances(b.lines, id);
  }

  // ----- FX true-up -----

  lemma TrueUpKeepsInv(b: Books, id: nat, delta: int, actual: int, config: ClearingConfig)
    requires Inv(b)
    ensures Inv(FxTrueUp(b, id, delta, actual, config).0)
  {
    var (c, r) := FxTrueUp(b, id, delta, actual, config);
    if c != b {
      var e, k := b.events[id], |b.entries|;
      FirstEntrySound(b.entries, id, 0);
      assert GoodEntry(b, FindByEvent(b.entries, id).value);
      var lines := TrueUpLines(k, e, delta, config);
      assert lines[2..] == [];
      assert FreshLines(lines, k, PostingDate(e));
      var entry := Entry(TrueUp, id, PostingDate(e), e.reference, Posted, None);
      forall m | 0 <= m < |b.entries| ensures (b.entries[m].event, b.entries[m].kind) != (id, TrueUp) {
        assert GoodEntry(b, m);
      }
      EventsChange(b, c.events);
      EntryAdded(b.(events := c.events), entry, lines);
      assert WithEntry(b.(events := c.events), entry, lines) == c;
    }
  }

  // ----- gathering -----

  lemma {:induction false} UnlockedSound(lines: seq<JournalLine>, entry: nat, from: nat)
    requires from <= |lines|
    ensures var ids := UnlockedFrom(lines, entry, from);
      && (forall i :: i in ids <==> from <= i < |lines| && lines[i].entry == entry && lines[i].exportJob == None)
      && (forall x, y :: 0 <= x < y < |ids| ==> ids[x] < ids[y])
    decreases |lines| - from
  {
    if from < |lines| {
      UnlockedSound(lines, entry, from + 1);
      var rest := UnlockedFrom(lines, entry, from + 1);
      forall y | 0 <= y < |rest| ensures from < rest[y] {
        assert rest[y] in rest;
      }
    }
  }

  function CoreAt(lines: seq<JournalLine>): nat -> JournalLine {
    (i: nat) => if i < |lines| then Core(lines[i]) else JournalLine(0, "", S, 0, "", 0, "", None)
  }

  /** When no line of the entry is locked, its unlocked lines are all its lines. */
  lemma {:induction false} UnlockedAreEntryLines(lines: seq<JournalLine>, entry: nat, from: nat)
    requires from <= |lines|
    requires forall i :: 0 <= i < |lines| && lines[i].entry == entry ==> lines[i].exportJob == None
    ensures Map(UnlockedFrom(lines, entry, from), CoreAt(lines)) == EntryLines(lines[from..], entry)
    decreases |lines| - from
  {
    if from < |lines| {
      UnlockedAreEntryLines(lines, entry, from + 1);
      var rest := UnlockedFrom(lines, entry, from + 1);
      assert lines[from..][1..] == lines[from + 1..];
      assert lines[from..][0] == lines[from];
      if lines[from].entry == entry {
        MapAppend([from], rest, CoreAt(lines));
        assert Map([from], CoreAt(lines)) == [Core(lines[from])];
      } else {
        assert [] + rest == rest;
        assert [] + EntryLines(lines[from + 1..], entry) == EntryLines(lines[from + 1..], entry);
      }
    }
  }

  lemma EntriesWithSound(b: Books, status: EntryStatus, lo: int, hi: int)
    ensures var ids := EntriesWith(b, status, lo, hi);
      NoRepeats(ids) &&
      forall k: nat :: k in ids <==> k < |b.entries| && b.entries[k].status == status && lo <= b.entries[k].postingDate <= hi
  {
    var p, key := HasStatusWithin(b, status, lo, hi), EntryDateOf(b);
    var found := Filter(Positions(|b.entries|), p);
    PositionsSound(|b.entries|);
    FilterNoRepeats(Positions(|b.entries|), p);
    Sorting.SortStableSorted(found, key);
    PermutedNoRepeats(found, Sorting.SortStable(found, key));
  }

  lemma {:induction false} GatherLinesSound(lines: seq<JournalLine>, entries: seq<nat>)
    ensures forall i: nat :: i in GatherLines(lines, entries) <==>
      i < |lines| && lines[i].entry in entries && lines[i].exportJob == None
    ensures NoRepeats(entries) ==> NoRepeats(GatherLines(lines, entries))
  {
    if entries != [] {
      var first, rest := Unlocked(lines, entries[0]), GatherLines(lines, entries[1..]);
      GatherLinesSound(lines, entries[1..]);
      UnlockedSound(lines, entries[0], 0);
      if NoRepeats(entries) {
        assert entries[0] !in entries[1..];
        assert NoRepeats(entries[1..]);
        forall x, y | 0 <= x < y < |first + rest| ensures (first + rest)[x] != (first + rest)[y] {
          if x < |first| <= y {
            assert first[x] in first && rest[y - |first|] in rest;
          }
        }
      }
    }
  }

  lemma {:induction false} GatherEntriesSound(lines: seq<JournalLine>, entries: seq<nat>)
    ensures forall k :: k in GatherEntries(lines, entries) <==> k in entries && Unlocked(lines, k) != []
  {
    if entries != [] {
      GatherEntriesSound(lines, entries[1..]);
    }
  }

  // ----- export -----

  lemma GatheredEntry(b: Books, lo: int, hi: int, k: nat)
    requires Inv(b) && k < |b.entries|
    ensures k in Gather(b, lo, hi).entryIds <==> b.entries[k].status == Posted && lo <= b.entries[k].postingDate <= hi
  {
    var posted := EntriesWith(b, Posted, lo, hi);
    EntriesWithSound(b, Posted, lo, hi);
    GatherEntriesSound(b.lines, posted);
    if k in posted {
      assert GoodEntry(b, k);
      forall i | 0 <= i < |b.lines| && b.lines[i].entry == k ensures b.lines[i].exportJob == None {
        assert GoodLine(b, i);
      }
      UnlockedAreEntryLines(b.lines, k, 0);
      assert b.lines[0..] == b.lines;
    }
  }

  /** The gathered lines are exactly the lines of the posted entries in the period; none of them is locked. */
  lemma GatheredLine(b: Books, lo: int, hi: int, i: nat)
    requires Inv(b) && i < |b.lines|
    ensures b.lines[i].entry < |b.entries|
    ensures var e := b.entries[b.lines[i].entry];
      i in Gather(b, lo, hi).lineIds <==> e.status == Posted && lo <= e.postingDate <= hi
    ensures i in Gather(b, lo, hi).lineIds <==> b.lines[i].entry in Gather(b, lo, hi).entryIds
    ensures i in Gather(b, lo, hi).lineIds ==> b.lines[i].exportJob == None
  {
    var posted := EntriesWith(b, Posted, lo, hi);
    EntriesWithSound(b, Posted, lo, hi);
    GatherLinesSound(b.lines, posted);
    assert GoodLine(b, i);
    var k := b.lines[i].entry;
    GatheredEntry(b, lo, hi, k);
    assert GoodEntry(b, k);
  }

  lemma LockedEntryGood(b: Books, lo: int, hi: int, rows: seq<Row>, k: nat)
    requires Inv(b) && k < |b.entries|
    ensures GoodEntry(Lock(b, Gather(b, lo, hi), rows), k)
  {
    var c := Lock(b, Gather(b, lo, hi), rows);
    assert GoodEntry(b, k);
    forall i | 0 <= i < |b.lines| ensures Core(b.lines[i]) == Core(c.lines[i]) {
    }
    EntryLinesSameCores(b.lines, c.lines, k);
    GatheredEntry(b, lo, hi, k);
  }

  lemma LockedLineGood(b: Books, lo: int, hi: int, rows: seq<Row>, i: nat)
    requires Inv(b) && i < |b.lines|
    ensures GoodLine(Lock(b, Gather(b, lo, hi), rows), i)
  {
    assert GoodLine(b, i);
    GatheredLine(b, lo, hi, i);
  }

  lemma LockedJobGood(b: Books, lo: int, hi: int, rows: seq<Row>, j: nat)
    requires Inv(b) && j <= |b.jobs|
    ensures GoodJob(Lock(b, Gather(b, lo, hi), rows), j)
  {
    var g := Gather(b, lo, hi);
    var c := Lock(b, g, rows);
    EntriesWithSound(b, Posted, lo, hi);
    GatherLinesSound(b.lines, EntriesWith(b, Posted, lo, hi));
    if j < |b.jobs| {
      assert GoodJob(b, j);
    }
    forall i | 0 <= i < |c.lines| ensures c.lines[i].exportJob == Some(j) <==> i in c.jobs[j].lineIds {
      assert GoodLine(b, i);
      assert GoodEntry(b, b.lines[i].entry);
      GatheredLine(b, lo, hi, i);
    }
  }

  lemma LockKeepsInv(b: Books, lo: int, hi: int, rows: seq<Row>)
    requires Inv(b)
    ensures Inv(Lock(b, Gather(b, lo, hi), rows))
  {
    var c := Lock(b, Gather(b, lo, hi), rows);
    forall k | 0 <= k < |c.entries| ensures GoodEntry(c, k) {
      LockedEntryGood(b, lo, hi, rows, k);
    }
    forall i | 0 <= i < |c.lines| ensures GoodLine(c, i) {
      LockedLineGood(b, lo, hi, rows, i);
    }
    forall j | 0 <= j < |c.jobs| ensures GoodJob(c, j) {
      LockedJobGood(b, lo, hi, rows, j);
    }
  }

  lemma ExportKeepsInv(b: Books, lo: int, hi: int, forbidden: set<string>)
    requires Inv(b)
    ensures Inv(Export(b, lo, hi, forbidden).0)
  {
    LockKeepsInv(b, lo, hi, Pairing.RowsOf(Pairing.Pair(Gather(b, lo, hi).inputs)));
  }
}
