/** What the journal's overlapping calls keep, and the four races that break it: exact conditions over all runs. */
module JournalRaces {
  import opened Wrappers
  import opened Datev
  import opened AccountMapping
  import opened Journal
  import opened JournalInvariant
  import opened JournalOverlap
  import opened Selection
  import ExportOverlap
  import JournalTheorems

  // ----- what stored documents look like at any time -----

  predicate StatusFollowsLock(b: Books) {
    forall k :: 0 <= k < |b.entries| ==>
      && (b.entries[k].status == Exported <==> b.entries[k].exportedIn.Some?)
      && (b.entries[k].exportedIn.Some? ==> b.entries[k].exportedIn.value < |b.jobs|)
  }

  /**
   * Events have one entry of each kind, an entry is exported exactly when it is locked, all stored lines of an entry carry
   * its lock, and a job lists exactly the lines that it has locked.
   */
  predicate Orderly(b: Books) {
    && DistinctEntries(b) && StatusFollowsLock(b)
    && (forall i :: 0 <= i < |b.lines| ==> GoodLine(b, i))
    && (forall j :: 0 <= j < |b.jobs| ==> GoodJob(b, j))
  }

  /** A call still writes lines of the entry. */
  predicate Unfinished(s: State, k: nat) {
    exists p :: p in s.calls && s.calls[p].Writing? && s.calls[p].entry == k && s.calls[p].todo != []
  }

  predicate Open(s: State, k: nat) {
    exists p :: p in s.calls && s.calls[p].Writing? && s.calls[p].entry == k
  }

  /** A finished entry is two-sided; a true-up is known to its event, or its call is still open. */
  predicate EntryOk(s: State, k: nat)
    requires k < |s.books.entries|
  {
    var b, e := s.books, s.books.entries[k];
    && e.event < |b.events| && !NoRevenue(b.events[e.event].eventType)
    && (e.kind == TrueUp ==> e.status != Draft && (b.events[e.event].trueUpPosted || Open(s, k)))
    && (Unfinished(s, k) || (EntryLines(b.lines, k) != [] && Mirrored(EntryLines(b.lines, k))))
  }

  predicate NoEntryYet(b: Books, id: nat, kind: Kind) {
    forall k :: 0 <= k < |b.entries| ==> (b.entries[k].event, b.entries[k].kind) != (id, kind)
  }

  predicate CallOk(b: Books, c: Call) {
    && Writable(c.work, c.event) && c.id < |b.events|
    && c.event.eventType == b.events[c.id].eventType && !NoRevenue(c.event.eventType)
    && match c
       case Looked(w, id, _) => NoEntryYet(b, id, KindOf(w))
       case Writing(w, id, e, k, todo) =>
         && k < |b.entries| && b.entries[k].event == id && b.entries[k].kind == KindOf(w)
         && b.entries[k].postingDate == PostingDate(e) && (todo != [] ==> b.entries[k].exportedIn == None)
         && EntryLines(b.lines, k) + todo == LinesOf(w, k, e)
  }

  /** No two open calls make an entry of the same kind for one event. */
  predicate OneCallEach(s: State) {
    forall p, q :: p in s.calls && q in s.calls && p != q ==>
      (s.calls[p].id, KindOf(s.calls[p].work)) != (s.calls[q].id, KindOf(s.calls[q].work))
  }

  /** A gathered entry is finished, posted and not locked; its lines are gathered, and no others. */
  predicate HeldOk(s: State, h: Held) {
    HeldLines(s.books.lines, h.g) && forall k :: k in h.g.entryIds ==> k < |s.books.entries| && FreeToLock(s, k)
  }

  predicate HeldLines(lines: seq<JournalLine>, g: Gathered) {
    && NoRepeats(g.lineIds) && (forall i :: i in g.lineIds ==> i < |lines|)
    && (forall i :: 0 <= i < |lines| ==> (i in g.lineIds <==> lines[i].entry in g.entryIds))
  }

  predicate FreeToLock(s: State, k: nat)
    requires k < |s.books.entries|
  {
    s.books.entries[k].status == EntryStatus.Posted && s.books.entries[k].exportedIn == None && !Unfinished(s, k)
  }

  predicate HeldApart(s: State) {
    forall p, q, k :: p in s.exports && q in s.exports && p != q && k in s.exports[p].g.entryIds ==> k !in s.exports[q].g.entryIds
  }

  predicate EntriesOk(s: State) {
    forall k :: 0 <= k < |s.books.entries| ==> EntryOk(s, k)
  }

  predicate CallsOk(s: State) {
    && (forall p :: p in s.calls ==> CallOk(s.books, s.calls[p]))
    && (forall p :: p in s.posts ==> s.posts[p].entry < |s.books.entries|)
    && (forall p :: p in s.exports ==> HeldOk(s, s.exports[p]))
  }

  predicate Safe(s: State) {
    Orderly(s.books) && EntriesOk(s) && CallsOk(s) && OneCallEach(s) && HeldApart(s)
  }

  /** When no call is making an entry, the whole invariant of the journal holds. */
  lemma NothingOpen(s: State)
    requires Safe(s) && s.calls == map[]
    ensures Inv(s.books)
  {
    forall k | 0 <= k < |s.books.entries| ensures GoodEntry(s.books, k) {
      assert EntryOk(s, k);
    }
  }

  // ----- the four races -----

  /** A call looks while another one is making an entry of the same kind for the event. */
  predicate OverlappingLook(s: State, a: Action) {
    && a.Look? && a.p !in s.calls && Starts(s.books, a.work, a.id)
    && exists q :: q in s.calls && s.calls[q].id == a.id && KindOf(s.calls[q].work) == KindOf(a.work)
  }

  /** A post marks an entry that has been exported since the post read it. */
  predicate StalePost(s: State, a: Action) {
    && a.PostNext? && a.p in s.posts && !s.posts[a.p].written
    && s.posts[a.p].entry < |s.books.entries| && s.books.entries[s.posts[a.p].entry].status == Exported
  }

  predicate Gathers(s: State, a: Action) {
    a.GatherFor? && a.p !in s.exports && ExportOverlap.Proceeds(s.books, a.lo, a.hi, a.forbidden)
  }

  /** An export gathers an entry whose lines are not all created yet. */
  predicate EarlyGather(s: State, a: Action) {
    Gathers(s, a) && exists k :: k in Gather(s.books, a.lo, a.hi).entryIds && Unfinished(s, k)
  }

  /** An export gathers an entry that another open export has gathered. */
  predicate OverlappingGather(s: State, a: Action) {
    && Gathers(s, a)
    && exists q, k :: q in s.exports && k in Gather(s.books, a.lo, a.hi).entryIds && k in s.exports[q].g.entryIds
  }

  predicate Hazard(s: State, a: Action) {
    OverlappingLook(s, a) || StalePost(s, a) || EarlyGather(s, a) || OverlappingGather(s, a)
  }

  // ----- looks -----

  lemma LinesOfFresh(w: Work, k: nat, e: Event)
    requires Writable(w, e)
    ensures FreshLines(LinesOf(w, k, e), k, PostingDate(e))
  {
    match w
    case BuildWork(config) => NewLinesFresh(k, e, config);
    case TrueUpWork(delta, _, config) =>
      var lines := TrueUpLines(k, e, delta, config);
      assert lines[2..] == [];
  }

  lemma OpenHasCall(s: State, k: nat) returns (q: nat)
    requires CallsOk(s) && Open(s, k)
    ensures q in s.calls && s.calls[q].Writing? && s.calls[q].entry == k < |s.books.entries|
    ensures (s.calls[q].id, KindOf(s.calls[q].work)) == (s.books.entries[k].event, s.books.entries[k].kind)
  {
    q :| q in s.calls && s.calls[q].Writing? && s.calls[q].entry == k;
    assert CallOk(s.books, s.calls[q]);
  }

  lemma NoTrueUpYet(s: State, id: nat)
    requires Safe(s) && id < |s.books.events| && !s.books.events[id].trueUpPosted
    requires forall q :: q in s.calls ==> (s.calls[q].id, KindOf(s.calls[q].work)) != (id, TrueUp)
    ensures NoEntryYet(s.books, id, TrueUp)
  {
    forall k | 0 <= k < |s.books.entries| && s.books.entries[k].event == id ensures s.books.entries[k].kind != TrueUp {
      assert EntryOk(s, k);
      if Open(s, k) {
        var q := OpenHasCall(s, k);
      }
    }
  }

  lemma StartedIsOk(s: State, w: Work, id: nat)
    requires Safe(s) && Starts(s.books, w, id)
    requires forall q :: q in s.calls ==> (s.calls[q].id, KindOf(s.calls[q].work)) != (id, KindOf(w))
    ensures CallOk(s.books, Looked(w, id, s.books.events[id]))
  {
    FirstEntrySound(s.books.entries, id, 0);
    if w.TrueUpWork? {
      assert EntryOk(s, FindByEvent(s.books.entries, id).value);
      NoTrueUpYet(s, id);
    }
  }

  /** The writing calls of one state are those of another, so the same entries are open and unfinished. */
  predicate WritersKept(s: State, s': State) {
    && (forall p :: p in s.calls && s.calls[p].Writing? ==> p in s'.calls && s'.calls[p] == s.calls[p])
    && (forall p :: p in s'.calls && s'.calls[p].Writing? ==> p in s.calls && s.calls[p] == s'.calls[p])
  }

  lemma SameWriters(s: State, s': State)
    requires WritersKept(s, s')
    ensures forall k :: (Unfinished(s', k) <==> Unfinished(s, k)) && (Open(s', k) <==> Open(s, k))
  {
    forall k ensures (Unfinished(s', k) <==> Unfinished(s, k)) && (Open(s', k) <==> Open(s, k)) {
    }
  }

  lemma SameBooksKeepOk(s: State, s': State)
    requires s'.books == s.books && WritersKept(s, s') && EntriesOk(s)
    ensures EntriesOk(s')
    ensures forall h :: HeldOk(s, h) ==> HeldOk(s', h)
  {
    SameWriters(s, s');
    forall k | 0 <= k < |s.books.entries| ensures EntryOk(s', k) {
      assert EntryOk(s, k);
    }
  }

  lemma OneMoreCall(s: State, p: nat, c: Call)
    requires OneCallEach(s) && p !in s.calls
    requires forall q :: q in s.calls ==> (s.calls[q].id, KindOf(s.calls[q].work)) != (c.id, KindOf(c.work))
    ensures OneCallEach(s.(calls := s.calls[p := c]))
  {
  }

  lemma LookKeepsSafe(s: State, p: nat, c: Call)
    requires Safe(s) && p !in s.calls && c.Looked? && CallOk(s.books, c)
    requires forall q :: q in s.calls ==> (s.calls[q].id, KindOf(s.calls[q].work)) != (c.id, KindOf(c.work))
    ensures Safe(s.(calls := s.calls[p := c]))
  {
    var s' := s.(calls := s.calls[p := c]);
    OneMoreCall(s, p, c);
    SameBooksKeepOk(s, s');
    assert CallsOk(s');
  }

  lemma LookKeepsSafeIff(s: State, a: Action)
    requires Safe(s) && a.Look?
    ensures Safe(Step(s, a)) <==> !OverlappingLook(s, a)
  {
    if OverlappingLook(s, a) {
      var q :| q in s.calls && s.calls[q].id == a.id && KindOf(s.calls[q].work) == KindOf(a.work);
      var t := Step(s, a);
      assert q != a.p && t.calls[q] == s.calls[q] && t.calls[a.p] == Looked(a.work, a.id, s.books.events[a.id]);
      assert !OneCallEach(t);
    } else if Step(s, a) != s {
      StartedIsOk(s, a.work, a.id);
      LookKeepsSafe(s, a.p, Looked(a.work, a.id, s.books.events[a.id]));
    }
  }

  // ----- creating the entry -----

  lemma CreateKeepsEntries(s: State, p: nat)
    requires Safe(s) && p in s.calls && s.calls[p].Looked?
    ensures EntriesOk(CreateEntry(s, p))
  {
    var s', n := CreateEntry(s, p), |s.books.entries|;
    assert CallOk(s.books, s.calls[p]);
    LinesOfFresh(s.calls[p].work, n, s.calls[p].event);
    forall k | 0 <= k <= n ensures EntryOk(s', k) {
      if k < n {
        assert EntryOk(s, k);
        CreatedWriters(s, p, k);
      } else {
        assert s'.calls[p].entry == n && s'.calls[p].todo != [];
      }
    }
  }

  lemma CreatedWriters(s: State, p: nat, k: nat)
    requires p in s.calls && s.calls[p].Looked? && k < |s.books.entries|
    ensures (Unfinished(CreateEntry(s, p), k) <==> Unfinished(s, k)) && (Open(CreateEntry(s, p), k) <==> Open(s, k))
  {
    var s' := CreateEntry(s, p);
    if Open(s, k) {
      var q :| q in s.calls && s.calls[q].Writing? && s.calls[q].entry == k;
      assert s'.calls[q] == s.calls[q];
    }
    if Unfinished(s, k) {
      var q :| q in s.calls && s.calls[q].Writing? && s.calls[q].entry == k && s.calls[q].todo != [];
      assert s'.calls[q] == s.calls[q];
    }
  }

  lemma NoLinesYet(s: State, k: nat)
    requires Orderly(s.books) && k >= |s.books.entries|
    ensures EntryLines(s.books.lines, k) == []
  {
    forall i | 0 <= i < |s.books.lines| ensures s.books.lines[i].entry != k {
      assert GoodLine(s.books, i);
    }
    EntryLinesOfOthers(s.books.lines, k);
  }

  lemma SameIdsOneCall(s: State, s': State)
    requires OneCallEach(s) && s'.calls.Keys <= s.calls.Keys
    requires forall p :: p in s'.calls ==> s'.calls[p].id == s.calls[p].id && s'.calls[p].work == s.calls[p].work
    ensures OneCallEach(s')
  {
  }

  lemma CreateKeepsCalls(s: State, p: nat)
    requires Safe(s) && p in s.calls && s.calls[p].Looked?
    ensures CallsOk(CreateEntry(s, p)) && OneCallEach(CreateEntry(s, p))
  {
    var s' := CreateEntry(s, p);
    assert OneCallEach(s') by {
      SameIdsOneCall(s, s');
    }
    forall q | q in s'.calls ensures CallOk(s'.books, s'.calls[q]) {
      if q == p {
        CreatedIsOk(s, p);
      } else {
        CreateKeepsOther(s, p, q);
      }
    }
    forall x | x in s'.exports ensures HeldOk(s', s'.exports[x]) {
      CreateKeepsHeld(s, p, s.exports[x]);
    }
  }

  lemma CreatedIsOk(s: State, p: nat)
    requires Safe(s) && p in s.calls && s.calls[p].Looked?
    ensures CallOk(CreateEntry(s, p).books, CreateEntry(s, p).calls[p])
  {
    var c := CreateEntry(s, p).calls[p];
    assert CallOk(s.books, s.calls[p]);
    NoLinesYet(s, |s.books.entries|);
    NothingBefore(EntryLines(s.books.lines, |s.books.entries|), c.todo);
  }

  lemma NothingBefore<T>(a: seq<T>, b: seq<T>)
    requires a == []
    ensures a + b == b
  {
  }

  lemma CreateKeepsOther(s: State, p: nat, q: nat)
    requires Safe(s) && p in s.calls && s.calls[p].Looked? && q in s.calls && q != p
    ensures CallOk(CreateEntry(s, p).books, s.calls[q])
  {
    assert CallOk(s.books, s.calls[q]);
  }

  lemma CreateKeepsHeld(s: State, p: nat, h: Held)
    requires p in s.calls && s.calls[p].Looked? && HeldOk(s, h)
    ensures HeldOk(CreateEntry(s, p), h)
  {
    forall k | k in h.g.entryIds ensures FreeToLock(CreateEntry(s, p), k) {
      CreatedWriters(s, p, k);
    }
  }

  lemma CreateKeepsOrderly(s: State, p: nat)
    requires Safe(s) && p in s.calls && s.calls[p].Looked?
    ensures Orderly(CreateEntry(s, p).books)
  {
    var b := CreateEntry(s, p).books;
    assert CallOk(s.books, s.calls[p]);
    forall i | 0 <= i < |b.lines| ensures GoodLine(b, i) {
      assert GoodLine(s.books, i);
    }
    forall j | 0 <= j < |b.jobs| ensures GoodJob(b, j) {
      assert GoodJob(s.books, j);
    }
  }

  lemma CreateKeepsSafe(s: State, p: nat)
    requires Safe(s) && p in s.calls && s.calls[p].Looked?
    ensures Safe(CreateEntry(s, p))
  {
    CreateKeepsOrderly(s, p);
    CreateKeepsEntries(s, p);
    CreateKeepsCalls(s, p);
  }

  // ----- creating a line -----

  /** The call writes to an entry that no other call writes to, and its next line belongs there. */
  lemma NextLine(s: State, p: nat)
    requires Safe(s) && p in s.calls && s.calls[p].Writing? && s.calls[p].todo != []
    ensures var c := s.calls[p];
      && c.entry < |s.books.entries| && c.todo[0].entry == c.entry
      && c.todo[0].exportJob == None == s.books.entries[c.entry].exportedIn
      && c.todo[0].postingDate == s.books.entries[c.entry].postingDate
      && FreshLines(LinesOf(c.work, c.entry, c.event), c.entry, PostingDate(c.event))
      && EntryLines(s.books.lines, c.entry) + c.todo == LinesOf(c.work, c.entry, c.event)
      && (forall q :: q in s.calls && q != p && s.calls[q].Writing? ==> s.calls[q].entry != c.entry)
      && Unfinished(s, c.entry)
  {
    var c := s.calls[p];
    assert CallOk(s.books, c);
    LinesOfFresh(c.work, c.entry, c.event);
    var lines, sofar := LinesOf(c.work, c.entry, c.event), EntryLines(s.books.lines, c.entry);
    assert lines[|sofar|] == c.todo[0];
    forall q | q in s.calls && q != p && s.calls[q].Writing? ensures s.calls[q].entry != c.entry {
      assert CallOk(s.books, s.calls[q]);
    }
  }

  lemma OneMoreLine(lines: seq<JournalLine>, l: JournalLine, k: nat)
    requires l.exportJob == None
    ensures EntryLines(lines + [l], k) == EntryLines(lines, k) + if l.entry == k then [l] else []
  {
    EntryLinesAppend(lines, [l], k);
    assert [l][1..] == [] && EntryLines([l][1..], k) == [];
    assert Core(l) == l;
    assert [l] + [] == [l];
  }

  lemma LineWriters(s: State, p: nat, k: nat)
    requires p in s.calls && s.calls[p].Writing? && s.calls[p].todo != []
    requires forall q :: q in s.calls && q != p && s.calls[q].Writing? ==> s.calls[q].entry != s.calls[p].entry
    ensures Open(CreateLine(s, p), k) <==> Open(s, k)
    ensures Unfinished(CreateLine(s, p), k) <==> Unfinished(s, k) && !(k == s.calls[p].entry && |s.calls[p].todo| == 1)
  {
    var s' := CreateLine(s, p);
    if Open(s, k) {
      var q :| q in s.calls && s.calls[q].Writing? && s.calls[q].entry == k;
      assert s'.calls[q].entry == k;
    }
    if Unfinished(s, k) {
      var q :| q in s.calls && s.calls[q].Writing? && s.calls[q].entry == k && s.calls[q].todo != [];
      assert q in s'.calls && s'.calls[q].entry == k;
    }
    if Unfinished(s', k) {
      var q :| q in s'.calls && s'.calls[q].Writing? && s'.calls[q].entry == k && s'.calls[q].todo != [];
      assert q in s.calls && s.calls[q].entry == k && s.calls[q].todo != [];
    }
  }

  lemma LineKeepsEntries(s: State, p: nat)
    requires Safe(s) && p in s.calls && s.calls[p].Writing? && s.calls[p].todo != []
    ensures EntriesOk(CreateLine(s, p))
  {
    var s', c := CreateLine(s, p), s.calls[p];
    NextLine(s, p);
    forall k | 0 <= k < |s.books.entries| ensures EntryOk(s', k) {
      assert EntryOk(s, k);
      LineWriters(s, p, k);
      OneMoreLine(s.books.lines, c.todo[0], k);
      if k == c.entry {
        if |c.todo| == 1 {
          assert c.todo == [c.todo[0]];
        }
      } else {
        assert EntryLines(s.books.lines, k) + [] == EntryLines(s.books.lines, k);
      }
    }
  }

  lemma LineKeepsCalls(s: State, p: nat)
    requires Safe(s) && p in s.calls && s.calls[p].Writing? && s.calls[p].todo != []
    ensures CallsOk(CreateLine(s, p)) && OneCallEach(CreateLine(s, p))
  {
    var s' := CreateLine(s, p);
    assert OneCallEach(s') by {
      SameIdsOneCall(s, s');
    }
    forall q | q in s'.calls ensures CallOk(s'.books, s'.calls[q]) {
      if q == p {
        LineKeepsOwn(s, p);
      } else {
        LineKeepsOther(s, p, q);
      }
    }
    forall x | x in s'.exports ensures HeldOk(s', s'.exports[x]) {
      LineKeepsHeld(s, p, s.exports[x]);
    }
  }

  lemma LineKeepsOwn(s: State, p: nat)
    requires Safe(s) && p in s.calls && s.calls[p].Writing? && s.calls[p].todo != []
    ensures CallOk(CreateLine(s, p).books, CreateLine(s, p).calls[p])
  {
    var c := s.calls[p];
    NextLine(s, p);
    assert CallOk(s.books, c);
    OneMoreLine(s.books.lines, c.todo[0], c.entry);
    Regroup(EntryLines(s.books.lines, c.entry), c.todo);
  }

  lemma Regroup<T>(a: seq<T>, b: seq<T>)
    requires b != []
    ensures (a + [b[0]]) + b[1..] == a + b
  {
  }

  lemma LineKeepsOther(s: State, p: nat, q: nat)
    requires Safe(s) && p in s.calls && s.calls[p].Writing? && s.calls[p].todo != [] && q in s.calls && q != p
    ensures CallOk(CreateLine(s, p).books, s.calls[q])
  {
    var l, d := s.calls[p].todo[0], s.calls[q];
    NextLine(s, p);
    assert CallOk(s.books, d);
    if d.Writing? {
      OneMoreLine(s.books.lines, l, d.entry);
      assert EntryLines(s.books.lines, d.entry) + [] == EntryLines(s.books.lines, d.entry);
    }
  }

  lemma LineKeepsHeld(s: State, p: nat, h: Held)
    requires Safe(s) && p in s.calls && s.calls[p].Writing? && s.calls[p].todo != [] && HeldOk(s, h)
    ensures HeldOk(CreateLine(s, p), h)
  {
    var s', c := CreateLine(s, p), s.calls[p];
    NextLine(s, p);
    NotHeldYet(s, p, h);
    MoreLinesHeld(s.books.lines, c.todo[0], h.g);
    forall k | k in h.g.entryIds ensures FreeToLock(s', k) {
      LineWriters(s, p, k);
    }
  }

  lemma MoreLinesHeld(lines: seq<JournalLine>, l: JournalLine, g: Gathered)
    requires HeldLines(lines, g) && l.entry !in g.entryIds
    ensures HeldLines(lines + [l], g)
  {
  }

  lemma LineKeepsOrderly(s: State, p: nat)
    requires Safe(s) && p in s.calls && s.calls[p].Writing? && s.calls[p].todo != []
    ensures Orderly(CreateLine(s, p).books)
  {
    NextLine(s, p);
    WithLine(s.books, s.calls[p].todo[0]);
  }

  lemma WithLine(b: Books, l: JournalLine)
    requires Orderly(b) && l.entry < |b.entries| && l.exportJob == None == b.entries[l.entry].exportedIn
    requires l.postingDate == b.entries[l.entry].postingDate
    ensures Orderly(b.(lines := b.lines + [l]))
  {
    var c := b.(lines := b.lines + [l]);
    forall i | 0 <= i < |c.lines| ensures GoodLine(c, i) {
      if i < |b.lines| {
        assert GoodLine(b, i);
      }
    }
    forall j | 0 <= j < |c.jobs| ensures GoodJob(c, j) {
      assert GoodJob(b, j);
    }
  }

  lemma LineKeepsSafe(s: State, p: nat)
    requires Safe(s) && p in s.calls && s.calls[p].Writing? && s.calls[p].todo != []
    ensures Safe(CreateLine(s, p))
  {
    LineKeepsOrderly(s, p);
    LineKeepsEntries(s, p);
    LineKeepsCalls(s, p);
  }

  // ----- closing the call -----

  lemma ClosedWriters(s: State, p: nat, k: nat)
    requires p in s.calls && s.calls[p].Writing? && s.calls[p].todo == []
    ensures Unfinished(Close(s, p), k) <==> Unfinished(s, k)
    ensures Open(s, k) ==> Open(Close(s, p), k) || k == s.calls[p].entry
  {
    var s' := Close(s, p);
    if Unfinished(s, k) {
      var q :| q in s.calls && s.calls[q].Writing? && s.calls[q].entry == k && s.calls[q].todo != [];
      assert q in s'.calls && s'.calls[q] == s.calls[q];
    }
    if q :| q in s.calls && q != p && s.calls[q].Writing? && s.calls[q].entry == k {
      assert q in s'.calls && s'.calls[q] == s.calls[q];
    }
  }

  lemma CloseKeepsEntries(s: State, p: nat)
    requires Safe(s) && p in s.calls && s.calls[p].Writing? && s.calls[p].todo == []
    ensures EntriesOk(Close(s, p))
  {
    var s' := Close(s, p);
    assert CallOk(s.books, s.calls[p]);
    forall k | 0 <= k < |s.books.entries| ensures EntryOk(s', k) {
      assert EntryOk(s, k);
      ClosedWriters(s, p, k);
    }
  }

  lemma CloseKeepsCalls(s: State, p: nat)
    requires Safe(s) && p in s.calls && s.calls[p].Writing? && s.calls[p].todo == []
    ensures CallsOk(Close(s, p))
  {
    var s' := Close(s, p);
    ClosedKeepEvents(s, p);
    forall q | q in s'.calls ensures CallOk(s'.books, s'.calls[q]) {
      EventsKeepCall(s.books, s'.books.events, s.calls[q]);
    }
    forall x | x in s'.exports ensures HeldOk(s', s'.exports[x]) {
      CloseKeepsHeld(s, p, s.exports[x]);
    }
  }

  lemma CloseKeepsHeld(s: State, p: nat, h: Held)
    requires p in s.calls && s.calls[p].Writing? && s.calls[p].todo == [] && HeldOk(s, h)
    ensures HeldOk(Close(s, p), h)
  {
    forall k | k in h.g.entryIds ensures FreeToLock(Close(s, p), k) {
      ClosedWriters(s, p, k);
    }
  }

  lemma ClosedKeepEvents(s: State, p: nat)
    requires p in s.calls && s.calls[p].Writing?
    ensures EventsKept(s.books.events, Close(s, p).books.events)
  {
  }

  lemma EventsKeepCall(b: Books, events: seq<Event>, c: Call)
    requires CallOk(b, c) && EventsKept(b.events, events)
    ensures CallOk(b.(events := events), c)
  {
  }

  lemma EventsKeepOrderly(b: Books, events: seq<Event>)
    requires Orderly(b)
    ensures Orderly(b.(events := events))
  {
    var c := b.(events := events);
    forall i | 0 <= i < |c.lines| ensures GoodLine(c, i) {
      assert GoodLine(b, i);
    }
    forall j | 0 <= j < |c.jobs| ensures GoodJob(c, j) {
      assert GoodJob(b, j);
    }
  }

  lemma CloseKeepsSafe(s: State, p: nat)
    requires Safe(s) && p in s.calls && s.calls[p].Writing? && s.calls[p].todo == []
    ensures Safe(Close(s, p))
  {
    EventsKeepOrderly(s.books, ClosedEvents(s.books, s.calls[p]));
    CloseKeepsEntries(s, p);
    CloseKeepsCalls(s, p);
  }

  lemma NextKeepsSafe(s: State, p: nat)
    requires Safe(s)
    ensures Safe(NextNow(s, p))
  {
    if p in s.calls {
      if s.calls[p].Looked? {
        CreateKeepsSafe(s, p);
      } else if s.calls[p].todo != [] {
        LineKeepsSafe(s, p);
      } else {
        CloseKeepsSafe(s, p);
      }
    }
  }

  // ----- events and posts -----

  lemma EventsKeepSafe(s: State, events: seq<Event>)
    requires Safe(s) && EventsKept(s.books.events, events)
    ensures Safe(s.(books := s.books.(events := events)))
  {
    var s' := s.(books := s.books.(events := events));
    EventsKeepOrderly(s.books, events);
    SameWriters(s, s');
    forall k | 0 <= k < |s.books.entries| ensures EntryOk(s', k) {
      assert EntryOk(s, k);
    }
    forall p | p in s.calls ensures CallOk(s'.books, s.calls[p]) {
      EventsKeepCall(s.books, events, s.calls[p]);
    }
    forall p | p in s.exports ensures HeldOk(s', s.exports[p]) {
      assert HeldOk(s, s.exports[p]);
    }
  }

  lemma OtherKeepsSafe(s: State, c: JournalTheorems.Command)
    requires Safe(s)
    ensures Safe(Step(s, Other(c)))
  {
    match c
    case NewEvent(e) => EventsKeepSafe(s, s.books.events + [e]);
    case ChangeEvent(id, e) =>
      var after := JournalTheorems.Execute(s.books, c);
      assert after == s.books.(events := after.events);
      EventsKeepSafe(s, after.events);
    case _ =>
  }

  /** Marking an entry that is not exported. */
  lemma MarkKeepsSafe(s: State, k: nat)
    requires Safe(s) && k < |s.books.entries| && s.books.entries[k].status != Exported
    ensures Safe(s.(books := MarkEntry(s.books, k)))
  {
    var s' := s.(books := MarkEntry(s.books, k));
    SameWriters(s, s');
    MarkKeepsOrderly(s.books, k);
    forall m | 0 <= m < |s.books.entries| ensures EntryOk(s', m) {
      assert EntryOk(s, m);
    }
    forall p | p in s.calls ensures CallOk(s'.books, s.calls[p]) {
      MarkKeepsCall(s.books, k, s.calls[p]);
    }
    forall p | p in s.exports ensures HeldOk(s', s.exports[p]) {
      MarkKeepsHeld(s, k, s.exports[p]);
    }
  }

  lemma MarkKeepsCall(b: Books, k: nat, c: Call)
    requires CallOk(b, c)
    ensures CallOk(MarkEntry(b, k), c)
  {
  }

  lemma MarkKeepsHeld(s: State, k: nat, h: Held)
    requires HeldOk(s, h)
    ensures HeldOk(s.(books := MarkEntry(s.books, k)), h)
  {
    SameWriters(s, s.(books := MarkEntry(s.books, k)));
  }

  lemma MarkKeepsOrderly(b: Books, k: nat)
    requires Orderly(b) && k < |b.entries| && b.entries[k].status != Exported
    ensures Orderly(MarkEntry(b, k))
  {
    var c := MarkEntry(b, k);
    forall i | 0 <= i < |c.lines| ensures GoodLine(c, i) {
      assert GoodLine(b, i);
    }
    forall j | 0 <= j < |c.jobs| ensures GoodJob(c, j) {
      assert GoodJob(b, j);
    }
  }

  lemma PostsKeepSafe(s: State, posts: map<nat, Posting>)
    requires Safe(s) && forall p :: p in posts ==> posts[p].entry < |s.books.entries|
    ensures Safe(s.(posts := posts))
  {
    SameBooksKeepOk(s, s.(posts := posts));
  }

  lemma PostReadKeepsSafe(s: State, p: nat, k: nat)
    requires Safe(s)
    ensures Safe(PostReadNow(s, p, k))
  {
    PostsKeepSafe(s, PostReadNow(s, p, k).posts);
  }

  lemma PostNextKeepsSafeIff(s: State, a: Action)
    requires Safe(s) && a.PostNext?
    ensures Safe(Step(s, a)) <==> !StalePost(s, a)
    ensures StalePost(s, a) ==> !Orderly(Step(s, a).books)
  {
    if a.p in s.posts {
      var k, t := s.posts[a.p].entry, Step(s, a);
      if s.posts[a.p].written {
        EventsKeepSafe(s, MarkEvent(s.books, k).events);
        PostsKeepSafe(s.(books := t.books), t.posts);
      } else if StalePost(s, a) {
        assert t.books.entries[k].status == EntryStatus.Posted && t.books.entries[k].exportedIn.Some?;
      } else {
        MarkKeepsSafe(s, k);
        PostsKeepSafe(s.(books := t.books), t.posts);
      }
    }
  }

  // ----- exports -----

  /** The gathered entries are posted, and the gathered lines are all their lines. */
  lemma GatheredIs(b: Books, lo: int, hi: int)
    requires Orderly(b)
    ensures var g := Gather(b, lo, hi);
      && NoRepeats(g.lineIds) && (forall i :: i in g.lineIds ==> i < |b.lines|)
      && (forall i :: 0 <= i < |b.lines| ==> (i in g.lineIds <==> b.lines[i].entry in g.entryIds))
      && (forall k :: k in g.entryIds ==>
            k < |b.entries| && b.entries[k].status == EntryStatus.Posted && b.entries[k].exportedIn == None && HasLine(b, k))
  {
    var g, posted := Gather(b, lo, hi), EntriesWith(b, EntryStatus.Posted, lo, hi);
    EntriesWithSound(b, EntryStatus.Posted, lo, hi);
    GatherLinesSound(b.lines, posted);
    GatherEntriesSound(b.lines, posted);
    forall k | k in posted ensures Unlocked(b.lines, k) != [] <==> HasLine(b, k) {
      UnlockedIffHasLine(b, k);
    }
    forall i | 0 <= i < |b.lines| ensures i in g.lineIds <==> b.lines[i].entry in g.entryIds {
      GatheredWithEntry(b, posted, i);
    }
  }

  lemma GatheredWithEntry(b: Books, posted: seq<nat>, i: nat)
    requires Orderly(b) && i < |b.lines|
    requires forall k :: k in posted ==> k < |b.entries| && b.entries[k].status == EntryStatus.Posted
    ensures i in GatherLines(b.lines, posted) <==> b.lines[i].entry in GatherEntries(b.lines, posted)
  {
    GatherLinesSound(b.lines, posted);
    GatherEntriesSound(b.lines, posted);
    assert GoodLine(b, i);
    if b.lines[i].entry in posted {
      UnlockedIffHasLine(b, b.lines[i].entry);
      assert HasLine(b, b.lines[i].entry);
    }
  }

  predicate HasLine(b: Books, k: nat) {
    exists i :: 0 <= i < |b.lines| && b.lines[i].entry == k
  }

  lemma UnlockedIffHasLine(b: Books, k: nat)
    requires Orderly(b) && k < |b.entries| && b.entries[k].status == EntryStatus.Posted
    ensures Unlocked(b.lines, k) != [] <==> HasLine(b, k)
  {
    var ids := Unlocked(b.lines, k);
    UnlockedSound(b.lines, k, 0);
    if ids != [] {
      assert ids[0] in ids;
    }
    if i :| 0 <= i < |b.lines| && b.lines[i].entry == k {
      assert GoodLine(b, i);
      assert i in ids;
    }
  }

  lemma WithHeld(s: State, p: nat, h: Held)
    requires Safe(s) && p !in s.exports && HeldOk(s, h)
    requires forall q, k :: q in s.exports && k in h.g.entryIds ==> k !in s.exports[q].g.entryIds
    ensures Safe(s.(exports := s.exports[p := h]))
  {
    SameBooksKeepOk(s, s.(exports := s.exports[p := h]));
  }

  lemma GatheredIsHeldOk(s: State, lo: int, hi: int)
    requires Orderly(s.books) && forall k :: k in Gather(s.books, lo, hi).entryIds ==> !Unfinished(s, k)
    ensures HeldOk(s, HeldFrom(s.books, lo, hi))
  {
    GatheredIs(s.books, lo, hi);
    assert HeldFrom(s.books, lo, hi).g == Gather(s.books, lo, hi);
  }

  lemma NotEarly(s: State, a: Action)
    requires Gathers(s, a) && !EarlyGather(s, a)
    ensures HeldFrom(s.books, a.lo, a.hi).g == Gather(s.books, a.lo, a.hi)
    ensures forall k :: k in Gather(s.books, a.lo, a.hi).entryIds ==> !Unfinished(s, k)
  {
  }

  lemma NotOverlapping(s: State, a: Action)
    requires Gathers(s, a) && !OverlappingGather(s, a)
    ensures forall q, k :: q in s.exports && k in HeldFrom(s.books, a.lo, a.hi).g.entryIds ==> k !in s.exports[q].g.entryIds
  {
    assert HeldFrom(s.books, a.lo, a.hi).g == Gather(s.books, a.lo, a.hi);
  }

  lemma GatherKeepsSafe(s: State, a: Action)
    requires Safe(s) && Gathers(s, a) && !EarlyGather(s, a) && !OverlappingGather(s, a)
    ensures Safe(GatherNow(s, a.p, a.lo, a.hi, a.forbidden))
  {
    NotEarly(s, a);
    GatheredIsHeldOk(s, a.lo, a.hi);
    NotOverlapping(s, a);
    WithHeld(s, a.p, HeldFrom(s.books, a.lo, a.hi));
  }

  lemma UnfinishedIsNotFree(s: State, h: Held, k: nat)
    requires k in h.g.entryIds && Unfinished(s, k)
    ensures !HeldOk(s, h)
  {
  }

  lemma EarlyGatherIsUnsafe(s: State, a: Action)
    requires EarlyGather(s, a)
    ensures !CallsOk(Step(s, a))
  {
    var t := Step(s, a);
    var k :| k in Gather(s.books, a.lo, a.hi).entryIds && Unfinished(s, k);
    SameWriters(s, t);
    UnfinishedIsNotFree(t, t.exports[a.p], k);
  }

  lemma OverlappingGatherIsUnsafe(s: State, a: Action)
    requires OverlappingGather(s, a)
    ensures !HeldApart(Step(s, a))
  {
    var t := Step(s, a);
    var q, k :| q in s.exports && k in Gather(s.books, a.lo, a.hi).entryIds && k in s.exports[q].g.entryIds;
    assert k in t.exports[a.p].g.entryIds && k in t.exports[q].g.entryIds && q != a.p;
  }

  lemma GatherKeepsSafeIff(s: State, a: Action)
    requires Safe(s) && a.GatherFor?
    ensures Safe(Step(s, a)) <==> !EarlyGather(s, a) && !OverlappingGather(s, a)
  {
    if EarlyGather(s, a) {
      EarlyGatherIsUnsafe(s, a);
    } else if OverlappingGather(s, a) {
      OverlappingGatherIsUnsafe(s, a);
    } else if Gathers(s, a) {
      GatherKeepsSafe(s, a);
    }
  }

  lemma LockKeepsOrderly(s: State, h: Held)
    requires Orderly(s.books) && HeldOk(s, h)
    ensures Orderly(Lock(s.books, h.g, h.rows))
  {
    var b, c := s.books, Lock(s.books, h.g, h.rows);
    forall i | 0 <= i < |c.lines| ensures GoodLine(c, i) {
      assert GoodLine(b, i);
    }
    forall j | 0 <= j < |c.jobs| ensures GoodJob(c, j) {
      LockKeepsJob(s, h, j);
    }
  }

  lemma LockKeepsJob(s: State, h: Held, j: nat)
    requires Orderly(s.books) && HeldOk(s, h) && j <= |s.books.jobs|
    ensures GoodJob(Lock(s.books, h.g, h.rows), j)
  {
    var b, c := s.books, Lock(s.books, h.g, h.rows);
    if j < |b.jobs| {
      assert GoodJob(b, j);
      assert c.jobs[j] == b.jobs[j];
    }
    forall i | 0 <= i < |c.lines| ensures c.lines[i].exportJob == Some(j) <==> i in c.jobs[j].lineIds {
      assert GoodLine(b, i);
    }
  }

  lemma LockKeepsLines(b: Books, g: Gathered, rows: seq<Row>, k: nat)
    ensures EntryLines(Lock(b, g, rows).lines, k) == EntryLines(b.lines, k)
  {
    var after := Lock(b, g, rows).lines;
    forall i | 0 <= i < |b.lines| ensures Core(b.lines[i]) == Core(after[i]) {
    }
    EntryLinesSameCores(b.lines, after, k);
  }

  lemma LockKeepsEntries(s: State, p: nat)
    requires Safe(s) && p in s.exports
    ensures EntriesOk(LockNow(s, p))
  {
    var s' := LockNow(s, p);
    SameWriters(s, s');
    forall k | 0 <= k < |s.books.entries| ensures EntryOk(s', k) {
      assert EntryOk(s, k);
      LockKeepsLines(s.books, s.exports[p].g, s.exports[p].rows, k);
    }
  }

  lemma LockKeepsCall(s: State, p: nat, q: nat)
    requires Safe(s) && p in s.exports && q in s.calls
    ensures CallOk(LockNow(s, p).books, s.calls[q])
  {
    var c, h := s.calls[q], s.exports[p];
    assert CallOk(s.books, c);
    if c.Writing? {
      LockKeepsLines(s.books, h.g, h.rows, c.entry);
      if c.todo != [] {
        NotHeldYet(s, q, h);
      }
    }
  }

  lemma NotHeldYet(s: State, q: nat, h: Held)
    requires HeldOk(s, h) && q in s.calls && s.calls[q].Writing? && s.calls[q].todo != []
    ensures s.calls[q].entry !in h.g.entryIds
  {
    assert Unfinished(s, s.calls[q].entry);
  }

  lemma LockKeepsHeld(s: State, p: nat, q: nat)
    requires Safe(s) && p in s.exports && q in s.exports && p != q
    ensures HeldOk(LockNow(s, p), s.exports[q])
  {
    var s', h := LockNow(s, p), s.exports[q];
    SameWriters(s, s');
    assert HeldOk(s, h);
    forall k | k in h.g.entryIds ensures FreeToLock(s', k) {
      assert FreeToLock(s, k);
    }
  }

  lemma LockKeepsSafe(s: State, p: nat)
    requires Safe(s)
    ensures Safe(LockNow(s, p))
  {
    if p in s.exports {
      var s' := LockNow(s, p);
      LockKeepsOrderly(s, s.exports[p]);
      LockKeepsEntries(s, p);
      forall q | q in s'.calls ensures CallOk(s'.books, s'.calls[q]) {
        LockKeepsCall(s, p, q);
      }
      forall q | q in s'.exports ensures HeldOk(s', s'.exports[q]) {
        LockKeepsHeld(s, p, q);
      }
    }
  }

  /** Of all steps exactly the four races break what the calls rely on. */
  lemma SafeKeptIff(s: State, a: Action)
    requires Safe(s)
    ensures Safe(Step(s, a)) <==> !Hazard(s, a)
  {
    match a
    case Look(_, _, _) => LookKeepsSafeIff(s, a);
    case PostNext(_) => PostNextKeepsSafeIff(s, a);
    case GatherFor(_, _, _, _) => GatherKeepsSafeIff(s, a);
    case _ => HarmlessStep(s, a);
  }

  lemma HarmlessStep(s: State, a: Action)
    requires Safe(s) && (a.Next? || a.PostRead? || a.LockHeld? || a.Other?)
    ensures Safe(Step(s, a)) && !Hazard(s, a)
  {
    match a
    case Next(p) => NextKeepsSafe(s, p);
    case PostRead(p, k) => PostReadKeepsSafe(s, p, k);
    case LockHeld(p) => LockKeepsSafe(s, p);
    case Other(c) => OtherKeepsSafe(s, c);
  }

  predicate NoHazard(s: State, actions: seq<Action>)
    decreases |actions|
  {
    actions == [] || (!Hazard(s, actions[0]) && NoHazard(Step(s, actions[0]), actions[1..]))
  }

  lemma {:induction false} RunKeepsSafe(s: State, actions: seq<Action>)
    requires Safe(s) && NoHazard(s, actions)
    ensures Safe(Run(s, actions))
    decreases |actions|
  {
    if actions != [] {
      SafeKeptIff(s, actions[0]);
      RunKeepsSafe(Step(s, actions[0]), actions[1..]);
    }
  }

  /** Without the races the documents are orderly at any time, and the whole invariant holds when no entry is being made. */
  lemma RacelessRun(actions: seq<Action>)
    requires NoHazard(Start(), actions)
    ensures var s := Run(Start(), actions); Orderly(s.books) && (s.calls == map[] ==> Inv(s.books))
  {
    RunKeepsSafe(Start(), actions);
    if Run(Start(), actions).calls == map[] {
      NothingOpen(Run(Start(), actions));
    }
  }

  // ----- the races are exactly what brings disorder -----

  /** Documents are orderly, and stay so when any two open calls, exports, or one of each are completed. */
  predicate Room(s: State) {
    && Orderly(s.books)
    && (forall p, q :: p in s.calls && q in s.calls ==> Orderly(Finish(Finish(s, p), q).books))
    && (forall x, y :: x in s.exports && y in s.exports ==> Orderly(LockNow(LockNow(s, x), y).books))
    && (forall x, p :: x in s.exports && p in s.calls ==> Orderly(Finish(LockNow(s, x), p).books))
  }

  lemma {:induction false} FinishKeepsSafe(s: State, p: nat)
    requires Safe(s)
    ensures Safe(Finish(s, p))
    decreases p in s.calls && s.calls[p].Looked?, if p in s.calls && s.calls[p].Writing? then |s.calls[p].todo| + 1 else 0
  {
    if p in s.calls {
      NextKeepsSafe(s, p);
      FinishKeepsSafe(NextNow(s, p), p);
    }
  }

  lemma SafeHasRoom(s: State)
    requires Safe(s)
    ensures Room(s)
  {
    forall p, q | p in s.calls && q in s.calls ensures Orderly(Finish(Finish(s, p), q).books) {
      FinishKeepsSafe(s, p);
      FinishKeepsSafe(Finish(s, p), q);
    }
    forall x, y | x in s.exports && y in s.exports ensures Orderly(LockNow(LockNow(s, x), y).books) {
      LockKeepsSafe(s, x);
      LockKeepsSafe(LockNow(s, x), y);
    }
    forall x, p | x in s.exports && p in s.calls ensures Orderly(Finish(LockNow(s, x), p).books) {
      LockKeepsSafe(s, x);
      FinishKeepsSafe(LockNow(s, x), p);
    }
  }

  /** The entry that the call writes to is of its event and kind. */
  predicate Makes(b: Books, c: Call)
    requires c.Writing?
  {
    c.entry < |b.entries| && b.entries[c.entry].event == c.id && b.entries[c.entry].kind == KindOf(c.work)
  }

  /** Two calls that make an entry of one kind for one event. */
  lemma TwoEntries(t: State, p: nat, q: nat)
    requires p in t.calls && t.calls[p].Looked? && q in t.calls && p != q
    requires t.calls[p].id == t.calls[q].id && KindOf(t.calls[p].work) == KindOf(t.calls[q].work)
    requires t.calls[q].Writing? ==> Makes(t.books, t.calls[q])
    ensures !DistinctEntries(Finish(Finish(t, p), q).books)
  {
    var n, one := |t.books.entries|, Finish(t, p);
    FinishLooked(t, p);
    assert one.calls[q] == t.calls[q];
    var two := Finish(one, q).books;
    if t.calls[q].Looked? {
      FinishLooked(one, q);
      assert (two.entries[n].event, two.entries[n].kind) == (two.entries[n + 1].event, two.entries[n + 1].kind);
    } else {
      var k := t.calls[q].entry;
      FinishWriting(one, q);
      assert (two.entries[k].event, two.entries[k].kind) == (two.entries[n].event, two.entries[n].kind);
    }
  }

  lemma OverlappingLookDisorders(s: State, a: Action)
    requires Safe(s) && OverlappingLook(s, a)
    ensures !Room(Step(s, a))
  {
    var q :| q in s.calls && s.calls[q].id == a.id && KindOf(s.calls[q].work) == KindOf(a.work);
    assert CallOk(s.books, s.calls[q]);
    TwoEntries(Step(s, a), a.p, q);
  }

  /** A line that is created after its entry was locked. */
  lemma LateLine(t: State, x: nat, p: nat)
    requires x in t.exports && p in t.calls && t.calls[p].Writing? && t.calls[p].todo != []
    requires var c := t.calls[p];
      c.entry < |t.books.entries| && c.entry in t.exports[x].g.entryIds && c.todo[0].entry == c.entry && c.todo[0].exportJob == None
    ensures !Orderly(Finish(LockNow(t, x), p).books)
  {
    var locked, c := LockNow(t, x), t.calls[p];
    FinishWriting(locked, p);
    var b, i := Finish(locked, p).books, |t.books.lines|;
    assert b.lines[i] == c.todo[0] && b.entries[c.entry].exportedIn == Some(|t.books.jobs|);
    assert !GoodLine(b, i);
  }

  lemma EarlyGatherDisorders(s: State, a: Action)
    requires Safe(s) && EarlyGather(s, a)
    ensures !Room(Step(s, a))
  {
    var k :| k in Gather(s.books, a.lo, a.hi).entryIds && Unfinished(s, k);
    var p :| p in s.calls && s.calls[p].Writing? && s.calls[p].entry == k && s.calls[p].todo != [];
    NextLine(s, p);
    LateLine(Step(s, a), a.p, p);
  }

  /** A line that two exports lock. */
  lemma LockedTwice(t: State, x: nat, y: nat, i: nat)
    requires x in t.exports && y in t.exports && x != y
    requires i < |t.books.lines| && i in t.exports[x].g.lineIds && i in t.exports[y].g.lineIds
    ensures !Orderly(LockNow(LockNow(t, x), y).books)
  {
    var one, j := LockNow(t, x), |t.books.jobs|;
    assert one.exports[y] == t.exports[y];
    var b := LockNow(one, y).books;
    assert b.jobs[j].lineIds == t.exports[x].g.lineIds && b.lines[i].exportJob == Some(j + 1);
    assert !GoodJob(b, j);
  }

  lemma CommonLine(s: State, lo: int, hi: int, h: Held, k: nat) returns (i: nat)
    requires Orderly(s.books) && HeldOk(s, h) && k in Gather(s.books, lo, hi).entryIds && k in h.g.entryIds
    ensures i < |s.books.lines| && i in Gather(s.books, lo, hi).lineIds && i in h.g.lineIds
  {
    GatheredIs(s.books, lo, hi);
    assert HasLine(s.books, k);
    i :| 0 <= i < |s.books.lines| && s.books.lines[i].entry == k;
  }

  lemma OverlappingGatherDisorders(s: State, a: Action)
    requires Safe(s) && OverlappingGather(s, a)
    ensures !Room(Step(s, a))
  {
    var q, k :| q in s.exports && k in Gather(s.books, a.lo, a.hi).entryIds && k in s.exports[q].g.entryIds;
    var i := CommonLine(s, a.lo, a.hi, s.exports[q], k);
    GatherStep(s, a);
    HeldTwice(s, a.p, HeldFrom(s.books, a.lo, a.hi), q, i);
  }

  lemma GatherStep(s: State, a: Action)
    requires Gathers(s, a)
    ensures Step(s, a) == s.(exports := s.exports[a.p := HeldFrom(s.books, a.lo, a.hi)])
    ensures HeldFrom(s.books, a.lo, a.hi).g == Gather(s.books, a.lo, a.hi)
  {
  }

  lemma HeldTwice(s: State, p: nat, h: Held, q: nat, i: nat)
    requires p !in s.exports && q in s.exports && i < |s.books.lines| && i in h.g.lineIds && i in s.exports[q].g.lineIds
    ensures !Room(s.(exports := s.exports[p := h]))
  {
    var t := s.(exports := s.exports[p := h]);
    LockedTwice(t, p, q, i);
    NoRoomForLocks(t, p, q);
  }

  lemma NoRoomForLocks(t: State, x: nat, y: nat)
    requires x in t.exports && y in t.exports && !Orderly(LockNow(LockNow(t, x), y).books)
    ensures !Room(t)
  {
  }

  lemma HazardDisorders(s: State, a: Action)
    requires Safe(s) && Hazard(s, a)
    ensures !Room(Step(s, a))
  {
    if OverlappingLook(s, a) {
      OverlappingLookDisorders(s, a);
    } else if StalePost(s, a) {
      PostNextKeepsSafeIff(s, a);
    } else if EarlyGather(s, a) {
      EarlyGatherDisorders(s, a);
    } else {
      OverlappingGatherDisorders(s, a);
    }
  }

  /** Every state on the way has room. */
  predicate StaysOrderly(s: State, actions: seq<Action>)
    decreases |actions|
  {
    Room(s) && (actions != [] ==> StaysOrderly(Step(s, actions[0]), actions[1..]))
  }

  /** Over any run, the documents stay orderly, with room for the calls under way, if and only if no step is one of the races. */
  lemma {:induction false} StaysOrderlyIff(s: State, actions: seq<Action>)
    requires Safe(s)
    ensures StaysOrderly(s, actions) <==> NoHazard(s, actions)
    decreases |actions|
  {
    SafeHasRoom(s);
    if actions != [] {
      var next := Step(s, actions[0]);
      if Hazard(s, actions[0]) {
        HazardDisorders(s, actions[0]);
        assert !StaysOrderly(next, actions[1..]);
      } else {
        SafeKeptIff(s, actions[0]);
        StaysOrderlyIff(next, actions[1..]);
      }
    }
  }
}
