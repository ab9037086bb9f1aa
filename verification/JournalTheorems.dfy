/** End-to-end results about the accrual journal: exports succeed, bulk steps do what they report, locks are final. */
module JournalTheorems {
  import opened Folds
  import opened Wrappers
  import opened Datev
  import opened FeeVat
  import opened AccountMapping
  import opened Journal
  import opened JournalInvariant
  import opened Selection
  import opened Pairing

  // ----- gathered lines are class-balanced -----

  /** The lines come in pairs that the export can join. */
  predicate PairedInputs(s: seq<Line>) {
    s == [] || (|s| >= 2 && Matches(s[0], s[1]) && PairedInputs(s[2..]))
  }

  lemma {:induction false} PairedInputsAppend(a: seq<Line>, b: seq<Line>)
    requires PairedInputs(a) && PairedInputs(b)
    ensures PairedInputs(a + b)
  {
    if a == [] {
      assert a + b == b;
    } else {
      assert (a + b)[2..] == a[2..] + b;
      PairedInputsAppend(a[2..], b);
    }
  }

  lemma {:induction false} PairedInputsBalanced(s: seq<Line>, date: int, amount: nat)
    requires PairedInputs(s)
    ensures ClassBalanced(s, date, amount)
  {
    if s != [] {
      var rest := s[2..];
      PairedInputsBalanced(rest, date, amount);
      assert s == [s[0]] + ([s[1]] + rest);
      CountCons(s[0], [s[1]] + rest, InClass(date, amount, S));
      CountCons(s[1], rest, InClass(date, amount, S));
      CountCons(s[0], [s[1]] + rest, InClass(date, amount, H));
      CountCons(s[1], rest, InClass(date, amount, H));
    }
  }

  lemma MapDropTwo<A, B>(s: seq<A>, f: A -> B)
    requires |s| >= 2
    ensures Map(s[2..], f) == Map(s, f)[2..]
  {
  }

  lemma PairOfInputs(b: Books, i: nat, j: nat)
    requires i < |b.lines| && j < |b.lines| && b.lines[i].postingDate == b.lines[j].postingDate
    requires MirrorPair(CoreAt(b.lines)(i), CoreAt(b.lines)(j))
    ensures Matches(LineInput(b)(i), LineInput(b)(j))
    ensures b.lines[i].amountCents > 0 && b.lines[i].account != "" && b.lines[j].amountCents > 0 && b.lines[j].account != ""
  {
  }

  /** Inputs made from mirrored lines of one posting date. */
  lemma {:induction false} InputsOfMirrored(b: Books, ids: seq<nat>, date: int)
    requires forall x :: 0 <= x < |ids| ==> ids[x] < |b.lines| && b.lines[ids[x]].postingDate == date
    requires Mirrored(Map(ids, CoreAt(b.lines)))
    ensures PairedInputs(Map(ids, LineInput(b)))
    ensures forall x :: 0 <= x < |ids| ==> b.lines[ids[x]].amountCents > 0 && b.lines[ids[x]].account != ""
  {
    if ids != [] {
      var rest := ids[2..];
      MapDropTwo(ids, CoreAt(b.lines));
      MapDropTwo(ids, LineInput(b));
      PairOfInputs(b, ids[0], ids[1]);
      InputsOfMirrored(b, rest, date);
      forall x | 0 <= x < |ids| ensures b.lines[ids[x]].amountCents > 0 && b.lines[ids[x]].account != "" {
        if x >= 2 {
          assert rest[x - 2] == ids[x];
        }
      }
    }
  }

  lemma InputsOfEntry(b: Books, k: nat)
    requires Inv(b) && k < |b.entries| && b.entries[k].status != Exported
    ensures PairedInputs(Map(Unlocked(b.lines, k), LineInput(b)))
    ensures forall i :: i in Unlocked(b.lines, k) ==>
      i < |b.lines| && b.lines[i].amountCents > 0 && b.lines[i].account != ""
    ensures Unlocked(b.lines, k) != []
  {
    assert GoodEntry(b, k);
    forall i | 0 <= i < |b.lines| && b.lines[i].entry == k
      ensures b.lines[i].exportJob == None && b.lines[i].postingDate == b.entries[k].postingDate
    {
      assert GoodLine(b, i);
    }
    UnlockedAreEntryLines(b.lines, k, 0);
    assert b.lines[0..] == b.lines;
    UnlockedSound(b.lines, k, 0);
    var ids := Unlocked(b.lines, k);
    forall x | 0 <= x < |ids| ensures ids[x] < |b.lines| && b.lines[ids[x]].postingDate == b.entries[k].postingDate {
      assert ids[x] in ids;
    }
    InputsOfMirrored(b, ids, b.entries[k].postingDate);
  }

  lemma {:induction false} InputsOfEntries(b: Books, entries: seq<nat>)
    requires Inv(b) && forall k :: k in entries ==> k < |b.entries| && b.entries[k].status == EntryStatus.Posted
    ensures PairedInputs(Map(GatherLines(b.lines, entries), LineInput(b)))
    ensures forall i :: i in GatherLines(b.lines, entries) ==>
      i < |b.lines| && b.lines[i].amountCents > 0 && b.lines[i].account != ""
    ensures GatherLines(b.lines, entries) == [] <==> entries == []
  {
    if entries != [] {
      var first, rest := Unlocked(b.lines, entries[0]), GatherLines(b.lines, entries[1..]);
      assert entries[0] in entries;
      assert forall k :: k in entries[1..] ==> k in entries;
      InputsOfEntry(b, entries[0]);
      InputsOfEntries(b, entries[1..]);
      MapAppend(first, rest, LineInput(b));
      PairedInputsAppend(Map(first, LineInput(b)), Map(rest, LineInput(b)));
    }
  }

  lemma GatheredInputs(b: Books, lo: int, hi: int)
    requires Inv(b)
    ensures var g := Gather(b, lo, hi);
      && AllClassesBalanced(g.inputs)
      && (forall l :: l in g.inputs ==> l.gegenkonto == "" && l.account != "" && l.amountCents > 0)
      && (forall i :: i in g.lineIds ==> i < |b.lines|)
      && (g.inputs == [] <==> EntriesWith(b, EntryStatus.Posted, lo, hi) == [])
  {
    var g, posted := Gather(b, lo, hi), EntriesWith(b, EntryStatus.Posted, lo, hi);
    EntriesWithSound(b, EntryStatus.Posted, lo, hi);
    InputsOfEntries(b, posted);
    forall date, amount: nat ensures ClassBalanced(g.inputs, date, amount) {
      PairedInputsBalanced(g.inputs, date, amount);
    }
    forall l | l in g.inputs ensures l.gegenkonto == "" && l.account != "" && l.amountCents > 0 {
      var x :| 0 <= x < |g.inputs| && g.inputs[x] == l;
      assert g.lineIds[x] in g.lineIds;
      assert l == LineInput(b)(g.lineIds[x]);
    }
  }

  // ----- end to end -----

  /** Some posted entry of the period books to a forbidden collective account. */
  predicate UsesForbidden(b: Books, lo: int, hi: int, forbidden: set<string>) {
    exists i :: 0 <= i < |b.lines| && i in Gather(b, lo, hi).lineIds && b.lines[i].account in forbidden
  }

  lemma AccountsOfInputs(b: Books, lo: int, hi: int, forbidden: set<string>)
    requires Inv(b)
    ensures UsesForbidden(b, lo, hi, forbidden) <==> exists l :: l in Gather(b, lo, hi).inputs && l.account in forbidden
  {
    var g := Gather(b, lo, hi);
    GatheredInputs(b, lo, hi);
    if UsesForbidden(b, lo, hi, forbidden) {
      var i :| 0 <= i < |b.lines| && i in g.lineIds && b.lines[i].account in forbidden;
      var x :| 0 <= x < |g.lineIds| && g.lineIds[x] == i;
      assert g.inputs[x] == LineInput(b)(i) && g.inputs[x] in g.inputs;
    }
    if exists l :: l in g.inputs && l.account in forbidden {
      var l :| l in g.inputs && l.account in forbidden;
      var x :| 0 <= x < |g.inputs| && g.inputs[x] == l;
      assert l == LineInput(b)(g.lineIds[x]) && g.lineIds[x] in g.lineIds;
    }
  }

  /**
   * In every state of the journal an export succeeds exactly when the period has a posted entry and none of the posted
   * lines is on a forbidden collective account: pairing is perfect, so validation can find nothing else.
   */
  lemma ExportSucceedsIff(b: Books, lo: int, hi: int, forbidden: set<string>)
    requires Inv(b)
    ensures Export(b, lo, hi, forbidden).1.Ok? <==>
      EntriesWith(b, EntryStatus.Posted, lo, hi) != [] && !UsesForbidden(b, lo, hi, forbidden)
    ensures Loners(Pair(Gather(b, lo, hi).inputs)) == []
  {
    var g := Gather(b, lo, hi);
    var rows := RowsOf(Pair(g.inputs));
    GatheredInputs(b, lo, hi);
    PerfectIffBalanced(g.inputs);
    RowsValidIffBalanced(g.inputs, forbidden);
    ValidIffExportable(rows, forbidden);
    AccountsOfInputs(b, lo, hi, forbidden);
    assert (forall l :: l in g.inputs ==> LineExportable(l, forbidden)) <==> !(exists l :: l in g.inputs && l.account in forbidden);
  }

  /** The exported rows post to every account and side what the exported lines post. */
  lemma ExportConservesTheLedger(b: Books, lo: int, hi: int, forbidden: set<string>, account: string, side: Side)
    requires Inv(b) && Export(b, lo, hi, forbidden).1.Ok? && account != ""
    ensures var (c, r) := Export(b, lo, hi, forbidden);
      && |c.jobs| == |b.jobs| + 1 && r.value == |b.jobs|
      && Sum(c.jobs[r.value].rows, Datev.Posted(account, side)) == Sum(Gather(b, lo, hi).inputs, LinePosted(account, side))
      && (forall row :: row in c.jobs[r.value].rows ==> row.gegenkonto != "")
      && Sum(c.jobs[r.value].rows, RowVolume()) == 2 * Sum(c.jobs[r.value].rows, RowAmount())
  {
    var g := Gather(b, lo, hi);
    var rows := RowsOf(Pair(g.inputs));
    GatheredInputs(b, lo, hi);
    PairConservesTheLedger(g.inputs, account, side);
    ValidIffExportable(rows, forbidden);
    forall row | row in rows ensures row.gegenkonto != "" {
      assert Exportable(row, forbidden);
    }
    VolumeIsTwiceTheAmount(rows);
  }

  /** After an export its lines are locked by the new job, its entries are exported, and nothing else has changed. */
  lemma ExportLocks(b: Books, lo: int, hi: int, forbidden: set<string>)
    requires Inv(b) && Export(b, lo, hi, forbidden).1.Ok?
    ensures var (c, r) := Export(b, lo, hi, forbidden);
      && (forall i :: 0 <= i < |b.lines| ==>
            c.lines[i].exportJob == if i in c.jobs[r.value].lineIds then Some(r.value) else b.lines[i].exportJob)
      && (forall i :: 0 <= i < |b.lines| && i in c.jobs[r.value].lineIds ==> b.lines[i].exportJob == None)
      && (forall k :: 0 <= k < |b.entries| ==>
            c.entries[k].status == if b.entries[k].status == EntryStatus.Posted && lo <= b.entries[k].postingDate <= hi
                                   then Exported else b.entries[k].status)
      && forall k :: k !in EntriesWith(c, EntryStatus.Posted, lo, hi)
  {
    var (c, r) := Export(b, lo, hi, forbidden);
    forall i | 0 <= i < |b.lines| && i in c.jobs[r.value].lineIds ensures b.lines[i].exportJob == None {
      GatheredLine(b, lo, hi, i);
    }
    StatusAfterLock(b, lo, hi, RowsOf(Pair(Gather(b, lo, hi).inputs)));
  }

  lemma StatusAfterLock(b: Books, lo: int, hi: int, rows: seq<Row>)
    requires Inv(b)
    ensures var c := Lock(b, Gather(b, lo, hi), rows);
      && (forall k :: 0 <= k < |b.entries| ==>
            c.entries[k].status == if b.entries[k].status == EntryStatus.Posted && lo <= b.entries[k].postingDate <= hi
                                   then Exported else b.entries[k].status)
      && forall k :: k !in EntriesWith(c, EntryStatus.Posted, lo, hi)
  {
    var c := Lock(b, Gather(b, lo, hi), rows);
    forall k | 0 <= k < |b.entries|
      ensures c.entries[k].status == if b.entries[k].status == EntryStatus.Posted && lo <= b.entries[k].postingDate <= hi
                                     then Exported else b.entries[k].status
    {
      GatheredEntry(b, lo, hi, k);
    }
    EntriesWithSound(c, EntryStatus.Posted, lo, hi);
  }

  // ----- bulk steps -----

  /** When no skip reason is found, the build cannot fail: it adds one entry. */
  lemma NoReasonNoFailure(b: Books, id: nat, config: ClearingConfig)
    requires SkipReason(b, id, config) == None
    ensures BuildDraft(b, id, config) == (AddEntry(b, id, config), Ok(|b.entries|))
  {
  }

  lemma {:induction false} BuildEachCounts(acc: Bulk, ids: seq<nat>, config: ClearingConfig)
    requires Inv(acc.books)
    ensures var r := BuildEach(acc, ids, config);
      && Inv(r.books)
      && |r.books.entries| - |acc.books.entries| == r.done - acc.done
      && r.done + |r.skipped| == acc.done + |acc.skipped| + |ids|
      && acc.books.entries <= r.books.entries
    decreases |ids|
  {
    if ids != [] {
      var next := BuildStep(acc, ids[0], config);
      BuildKeepsInv(acc.books, ids[0], config);
      if SkipReason(acc.books, ids[0], config) == None {
        NoReasonNoFailure(acc.books, ids[0], config);
      }
      BuildEachCounts(next, ids[1..], config);
    }
  }

  /** bulkBuild reports exactly the number of new entries, and every event of the period is built or skipped. */
  lemma BulkBuildCounts(b: Books, lo: int, hi: int, config: ClearingConfig)
    requires Inv(b)
    ensures var r := BulkBuild(b, lo, hi, config);
      && Inv(r.books)
      && |r.books.entries| == |b.entries| + r.done
      && r.done + |r.skipped| == |EventsToBuild(b, lo, hi)|
  {
    BuildEachCounts(Bulk(b, 0, []), EventsToBuild(b, lo, hi), config);
  }

  lemma {:induction false} PostEachPosts(acc: Bulk, ids: seq<nat>)
    requires Inv(acc.books) && NoRepeats(ids)
    requires forall k :: k in ids ==> k < |acc.books.entries| && acc.books.entries[k].status == Draft
    ensures var r := PostEach(acc, ids);
      && Inv(r.books)
      && r.skipped == acc.skipped && r.done == acc.done + |ids|
      && r.books.lines == acc.books.lines && |r.books.entries| == |acc.books.entries|
      && forall k :: 0 <= k < |acc.books.entries| ==>
           r.books.entries[k] == if k in ids then acc.books.entries[k].(status := EntryStatus.Posted) else acc.books.entries[k]
    decreases |ids|
  {
    if ids != [] {
      assert ids[0] in ids;
      assert GoodEntry(acc.books, ids[0]);
      MirroredEntryBalances(acc.books.lines, ids[0]);
      EveryDraftPosts(acc.books, ids[0]);
      PostKeepsInv(acc.books, ids[0]);
      var next := PostStep(acc, ids[0]);
      assert next.books == Post(acc.books, ids[0]).0;
      assert ids[0] !in ids[1..];
      assert forall k :: k in ids[1..] ==> k in ids && k != ids[0];
      PostEachPosts(next, ids[1..]);
    }
  }

  /** bulkPost posts every draft of the period and skips none: its balance check can never reject one. */
  lemma BulkPostPostsAll(b: Books, lo: int, hi: int)
    requires Inv(b)
    ensures var r := BulkPost(b, lo, hi);
      && Inv(r.books)
      && r.skipped == [] && r.done == |EntriesWith(b, Draft, lo, hi)|
      && r.books.lines == b.lines && |r.books.entries| == |b.entries|
      && forall k :: 0 <= k < |b.entries| ==>
           r.books.entries[k] == if b.entries[k].status == Draft && lo <= b.entries[k].postingDate <= hi
                                 then b.entries[k].(status := EntryStatus.Posted) else b.entries[k]
  {
    EntriesWithSound(b, Draft, lo, hi);
    PostEachPosts(Bulk(b, 0, []), EntriesWith(b, Draft, lo, hi));
  }

  // ----- whole runs -----

  /** The steps of the journal; the first two stand for the services that create and change events. */
  datatype Command =
    | NewEvent(event: Event)
    | ChangeEvent(id: nat, event: Event)
    | BuildOne(id: nat, config: ClearingConfig)
    | PostOne(id: nat)
    | BuildMany(lo: int, hi: int, config: ClearingConfig)
    | PostMany(lo: int, hi: int)
    | TrueUpOne(id: nat, delta: int, actual: int, config: ClearingConfig)
    | ExportPeriod(lo: int, hi: int, forbidden: set<string>)

  function Execute(b: Books, c: Command): Books {
    match c
    case NewEvent(e) => b.(events := b.events + [e])
    case ChangeEvent(id, e) =>
      if id < |b.events| && e.eventType == b.events[id].eventType && e.trueUpPosted == b.events[id].trueUpPosted
      then b.(events := b.events[id := e]) else b
    case BuildOne(id, config) => BuildDraft(b, id, config).0
    case PostOne(id) => Post(b, id).0
    case BuildMany(lo, hi, config) => BulkBuild(b, lo, hi, config).books
    case PostMany(lo, hi) => BulkPost(b, lo, hi).books
    case TrueUpOne(id, delta, actual, config) => FxTrueUp(b, id, delta, actual, config).0
    case ExportPeriod(lo, hi, forbidden) => Export(b, lo, hi, forbidden).0
  }

  function Run(b: Books, commands: seq<Command>): Books
    decreases |commands|
  {
    if commands == [] then b else Run(Execute(b, commands[0]), commands[1..])
  }

  /** Stored lines never change except that an unlocked line may be locked. */
  predicate LinesOnlyLocked(a: Books, b: Books) {
    && |a.lines| <= |b.lines| && |a.jobs| <= |b.jobs|
    && (forall i :: 0 <= i < |a.lines| ==> Core(b.lines[i]) == Core(a.lines[i]))
    && (forall i :: 0 <= i < |a.lines| && a.lines[i].exportJob.Some? ==> b.lines[i].exportJob == a.lines[i].exportJob)
    && a.jobs <= b.jobs
  }

  lemma LinesOnlyLockedTransitive(a: Books, b: Books, c: Books)
    requires LinesOnlyLocked(a, b) && LinesOnlyLocked(b, c)
    ensures LinesOnlyLocked(a, c)
  {
    forall i | 0 <= i < |a.lines| ensures Core(c.lines[i]) == Core(a.lines[i]) {
      assert Core(b.lines[i]) == Core(a.lines[i]);
      assert Core(c.lines[i]) == Core(b.lines[i]);
    }
  }

  lemma {:induction false} BuildEachKeepsLines(acc: Bulk, ids: seq<nat>, config: ClearingConfig)
    ensures LinesOnlyLocked(acc.books, BuildEach(acc, ids, config).books)
    decreases |ids|
  {
    if ids != [] {
      var next := BuildStep(acc, ids[0], config);
      assert acc.books.lines <= next.books.lines && acc.books.jobs == next.books.jobs;
      BuildEachKeepsLines(next, ids[1..], config);
      LinesOnlyLockedTransitive(acc.books, next.books, BuildEach(acc, ids, config).books);
    }
  }

  lemma ExportOnlyLocks(b: Books, lo: int, hi: int, forbidden: set<string>)
    requires Inv(b)
    ensures LinesOnlyLocked(b, Export(b, lo, hi, forbidden).0)
  {
    if Export(b, lo, hi, forbidden).1.Ok? {
      ExportLocks(b, lo, hi, forbidden);
    }
  }

  lemma BulkStepsKeep(b: Books, lo: int, hi: int, config: ClearingConfig)
    requires Inv(b)
    ensures Inv(BulkBuild(b, lo, hi, config).books) && LinesOnlyLocked(b, BulkBuild(b, lo, hi, config).books)
    ensures Inv(BulkPost(b, lo, hi).books) && LinesOnlyLocked(b, BulkPost(b, lo, hi).books)
  {
    BulkBuildCounts(b, lo, hi, config);
    BuildEachKeepsLines(Bulk(b, 0, []), EventsToBuild(b, lo, hi), config);
    BulkPostPostsAll(b, lo, hi);
    PostEachKeepsJobs(Bulk(b, 0, []), EntriesWith(b, Draft, lo, hi));
  }

  lemma OnlyAdded(a: Books, b: Books)
    requires a.lines <= b.lines && a.jobs == b.jobs
    ensures LinesOnlyLocked(a, b)
  {
  }

  lemma BuildOnlyAdds(b: Books, id: nat, config: ClearingConfig)
    ensures LinesOnlyLocked(b, BuildDraft(b, id, config).0)
  {
    var c := BuildDraft(b, id, config).0;
    if c != b {
      assert c.lines == b.lines + NewLines(|b.entries|, b.events[id], config);
    }
    OnlyAdded(b, c);
  }

  lemma TrueUpOnlyAdds(b: Books, id: nat, delta: int, actual: int, config: ClearingConfig)
    ensures LinesOnlyLocked(b, FxTrueUp(b, id, delta, actual, config).0)
  {
    var c := FxTrueUp(b, id, delta, actual, config).0;
    if c != b {
      assert c.lines == b.lines + TrueUpLines(|b.entries|, b.events[id], delta, config);
    }
    OnlyAdded(b, c);
  }

  predicate Kept(b: Books, c: Command) {
    Inv(Execute(b, c)) && LinesOnlyLocked(b, Execute(b, c))
  }

  lemma EventStepsKeep(b: Books, c: Command)
    requires Inv(b) && (c.NewEvent? || c.ChangeEvent?)
    ensures Kept(b, c)
  {
    if c.NewEvent? {
      EventsChange(b, b.events + [c.event]);
    } else if Execute(b, c) != b {
      EventsChange(b, b.events[c.id := c.event]);
    }
    OnlyAdded(b, Execute(b, c));
  }

  lemma BuildStepKeeps(b: Books, id: nat, config: ClearingConfig)
    requires Inv(b)
    ensures Kept(b, BuildOne(id, config))
  {
    BuildKeepsInv(b, id, config);
    BuildOnlyAdds(b, id, config);
  }

  lemma PostStepKeeps(b: Books, id: nat)
    requires Inv(b)
    ensures Kept(b, PostOne(id))
  {
    PostKeepsInv(b, id);
    OnlyAdded(b, Post(b, id).0);
  }

  lemma TrueUpStepKeeps(b: Books, c: Command)
    requires Inv(b) && c.TrueUpOne?
    ensures Kept(b, c)
  {
    TrueUpKeepsInv(b, c.id, c.delta, c.actual, c.config);
    TrueUpOnlyAdds(b, c.id, c.delta, c.actual, c.config);
  }

  lemma ExecuteExport(b: Books, c: Command)
    requires c.ExportPeriod?
    ensures Execute(b, c) == Export(b, c.lo, c.hi, c.forbidden).0
  {
  }

  lemma ExportStepInv(b: Books, c: Command)
    requires Inv(b) && c.ExportPeriod?
    ensures Inv(Execute(b, c))
  {
    ExecuteExport(b, c);
    ExportKeepsInv(b, c.lo, c.hi, c.forbidden);
  }

  lemma ExportStepLocks(b: Books, c: Command)
    requires Inv(b) && c.ExportPeriod?
    ensures LinesOnlyLocked(b, Execute(b, c))
  {
    ExecuteExport(b, c);
    ExportOnlyLocks(b, c.lo, c.hi, c.forbidden);
  }

  lemma StepKeeps(b: Books, c: Command)
    requires Inv(b)
    ensures Kept(b, c)
  {
    match c
    case NewEvent(_) => EventStepsKeep(b, c);
    case ChangeEvent(_, _) => EventStepsKeep(b, c);
    case BuildOne(id, config) => BuildStepKeeps(b, id, config);
    case PostOne(id) => PostStepKeeps(b, id);
    case BuildMany(lo, hi, config) => BulkStepsKeep(b, lo, hi, config);
    case PostMany(lo, hi) => BulkStepsKeep(b, lo, hi, ClearingConfig("", map[], map[], false));
    case TrueUpOne(_, _, _, _) => TrueUpStepKeeps(b, c);
    case ExportPeriod(_, _, _) =>
      ExportStepInv(b, c);
      ExportStepLocks(b, c);
  }

  lemma {:induction false} PostEachKeepsJobs(acc: Bulk, ids: seq<nat>)
    ensures PostEach(acc, ids).books.jobs == acc.books.jobs
    decreases |ids|
  {
    if ids != [] {
      PostEachKeepsJobs(PostStep(acc, ids[0]), ids[1..]);
    }
  }

  /** Every state that any run reaches satisfies the invariant, and no run changes or releases a locked line. */
  lemma {:induction false} RunKeeps(b: Books, commands: seq<Command>)
    requires Inv(b)
    ensures Inv(Run(b, commands)) && LinesOnlyLocked(b, Run(b, commands))
    decreases |commands|
  {
    if commands != [] {
      var next := Execute(b, commands[0]);
      StepKeeps(b, commands[0]);
      RunKeeps(next, commands[1..]);
      LinesOnlyLockedTransitive(b, next, Run(b, commands));
    }
  }

  lemma EveryReachableStateIsGood(commands: seq<Command>)
    ensures Inv(Run(Empty(), commands))
  {
    RunKeeps(Empty(), commands);
  }

  lemma {:induction false} MirroredArePositive(lines: seq<JournalLine>)
    requires Mirrored(lines)
    ensures forall x :: 0 <= x < |lines| ==> lines[x].amountCents > 0
  {
    if lines != [] {
      MirroredArePositive(lines[2..]);
      forall x | 0 <= x < |lines| ensures lines[x].amountCents > 0 {
        if x >= 2 {
          assert lines[x] == lines[2..][x - 2];
        }
      }
    }
  }

  lemma {:induction false} LineIsEntryLine(lines: seq<JournalLine>, i: nat)
    requires i < |lines|
    ensures Core(lines[i]) in EntryLines(lines, lines[i].entry)
  {
    if i > 0 {
      LineIsEntryLine(lines[1..], i - 1);
    }
  }

  /** What the invariant says about one entry of any reachable state. */
  lemma ReachableEntry(commands: seq<Command>, k: nat)
    requires k < |Run(Empty(), commands).entries|
    ensures var b := Run(Empty(), commands);
      && SumsAgree(b.lines, k)
      && (forall i :: 0 <= i < |b.lines| && b.lines[i].entry == k ==> b.lines[i].amountCents > 0)
      && (forall m :: 0 <= m < |b.entries| && m != k ==> (b.entries[m].event, b.entries[m].kind) != (b.entries[k].event, b.entries[k].kind))
      && b.entries[k].event < |b.events| && !NoRevenue(b.events[b.entries[k].event].eventType)
      && (b.entries[k].status == Exported ==>
            exists j :: 0 <= j < |b.jobs| && forall i :: 0 <= i < |b.lines| && b.lines[i].entry == k ==> b.lines[i].exportJob == Some(j))
  {
    var b := Run(Empty(), commands);
    EveryReachableStateIsGood(commands);
    assert GoodEntry(b, k);
    MirroredEntryBalances(b.lines, k);
    MirroredArePositive(EntryLines(b.lines, k));
    forall i | 0 <= i < |b.lines| && b.lines[i].entry == k ensures b.lines[i].amountCents > 0 {
      LineIsEntryLine(b.lines, i);
    }
    if b.entries[k].status == Exported {
      var j := b.entries[k].exportedIn.value;
      forall i | 0 <= i < |b.lines| && b.lines[i].entry == k ensures b.lines[i].exportJob == Some(j) {
        assert GoodLine(b, i);
      }
    }
  }

  /** No line is exported twice: whatever happens after a line was locked, no export gathers it again. */
  lemma LockedLineIsNeverGatheredAgain(before: seq<Command>, after: seq<Command>, i: nat, lo: int, hi: int)
    requires i < |Run(Empty(), before).lines| && Run(Empty(), before).lines[i].exportJob.Some?
    ensures var b := Run(Run(Empty(), before), after);
      && i < |b.lines| && b.lines[i].exportJob == Run(Empty(), before).lines[i].exportJob
      && i !in Gather(b, lo, hi).lineIds
  {
    EveryReachableStateIsGood(before);
    RunKeeps(Run(Empty(), before), after);
    GatheredLine(Run(Run(Empty(), before), after), lo, hi, i);
  }

  /** The line lists of two jobs never overlap. */
  lemma JobsAreDisjoint(commands: seq<Command>, j: nat, m: nat, i: nat)
    requires j < m < |Run(Empty(), commands).jobs| && i in Run(Empty(), commands).jobs[j].lineIds
    ensures i !in Run(Empty(), commands).jobs[m].lineIds
  {
    var b := Run(Empty(), commands);
    EveryReachableStateIsGood(commands);
    assert GoodJob(b, j) && GoodJob(b, m);
  }

  // ----- the clearing side of a fee -----

  function OnAccount(account: string, side: Side): JournalLine -> int {
    (l: JournalLine) => if l.account == account && l.side == side then l.amountCents else 0
  }

  lemma SumOfFour(a: JournalLine, b: JournalLine, c: JournalLine, d: JournalLine, f: JournalLine -> int)
    ensures Sum([a, b] + [c, d], f) == f(a) + f(b) + f(c) + f(d)
  {
    assert [a, b] + [c, d] == [a] + ([b] + ([c] + [d]));
    SumCons(a, [b] + ([c] + [d]), f);
    SumCons(b, [c] + [d], f);
    SumCons(c, [d], f);
    SumCons(d, [], f);
  }

  lemma SumOfTwo(a: JournalLine, b: JournalLine, f: JournalLine -> int)
    ensures Sum([a, b], f) == f(a) + f(b)
  {
    assert [a, b] == [a] + [b];
    SumCons(a, [b], f);
    SumCons(b, [], f);
  }

  /** What the lines debit an account by, net of what they credit it by. */
  function Movement(lines: seq<JournalLine>, account: string): int {
    Sum(lines, OnAccount(account, S)) - Sum(lines, OnAccount(account, H))
  }

  function OnlyIf(c: bool, amount: int): int {
    if c then amount else 0
  }

  lemma FeeLinesOn(entry: nat, e: Event, config: ClearingConfig, account: string)
    requires e.eventType == Fee && AmountRefusal(e, config) == None
    ensures var accounts, net, pair := Resolve(e.eventType, e.marketplace, config), BookingAmount(e), ExtraOf(e, config);
      var lines := NewLines(entry, e, config);
      && (pair == [] || IsVatPair(pair))
      && Sum(lines, OnAccount(account, S)) == OnlyIf(accounts.contra == account, net) +
           (if pair == [] then 0 else OnlyIf(pair[0].account == account, pair[0].amountCents))
      && Sum(lines, OnAccount(account, H)) == OnlyIf(accounts.primary == account, net) +
           (if pair == [] then 0 else OnlyIf(pair[1].account == account, pair[1].amountCents))
  {
    var accounts, vat := Resolve(e.eventType, e.marketplace, config), ExtraOf(e, config);
    ExtraLinesAreBalanced(BookingAmount(e), e.marketplace, e.feeVat, OverlayOf(e.marketplace, config), accounts.contra);
    var net, extra := NetLines(entry, e, config), Map(vat, VatLineOf(entry, e));
    if vat == [] {
      assert NewLines(entry, e, config) == [net[0], net[1]];
      SumOfTwo(net[0], net[1], OnAccount(account, S));
      SumOfTwo(net[0], net[1], OnAccount(account, H));
    } else {
      assert net == [net[0], net[1]] && extra == [extra[0], extra[1]];
      SumOfFour(net[0], net[1], extra[0], extra[1], OnAccount(account, S));
      SumOfFour(net[0], net[1], extra[0], extra[1], OnAccount(account, H));
    }
  }

  function FeeVatOf(e: Event, config: ClearingConfig): VatConfig {
    ResolveConfig(e.marketplace, e.feeVat, OverlayOf(e.marketplace, config))
  }

  /** The fee gets a pair of lines for German input VAT. */
  predicate WritesInputVat(e: Event, config: ClearingConfig) {
    FeeVatOf(e, config).treatment == InputVat && ExtraOf(e, config) != []
  }

  /** None of the other accounts of the fee is the clearing account itself. */
  predicate ClearingIsApart(e: Event, config: ClearingConfig) {
    var accounts, vat := Resolve(e.eventType, e.marketplace, config), FeeVatOf(e, config);
    accounts.primary != accounts.contra && vat.inputVatAccount != accounts.contra && vat.outputVatAccount != Some(accounts.contra)
  }

  /**
   * Every fee: the clearing account moves by something other than the net amount exactly when one VAT line alone is on it
   * (or the fee is booked from the account to itself). With accounts of their own for everything else that is exactly
   * input VAT, and then the account moves by net minus VAT and not by the gross amount.
   */
  lemma FeeVatIsNettedOnClearing(entry: nat, e: Event, config: ClearingConfig)
    requires e.eventType == Fee && AmountRefusal(e, config) == None
    ensures var accounts, net, pair := Resolve(e.eventType, e.marketplace, config), BookingAmount(e), ExtraOf(e, config);
      var moved := Movement(NewLines(entry, e, config), accounts.contra);
      && (accounts.primary != accounts.contra ==>
            (moved != net <==> pair != [] && (pair[0].account == accounts.contra) != (pair[1].account == accounts.contra)))
      && (ClearingIsApart(e, config) ==> (moved != net <==> WritesInputVat(e, config)))
      && (ClearingIsApart(e, config) && WritesInputVat(e, config) ==> moved == net - pair[1].amountCents < net)
  {
    FeeLinesOn(entry, e, config, Resolve(e.eventType, e.marketplace, config).contra);
  }

  /** A settlement or payout moves no account exactly when the marketplace has no debtor account of its own. */
  lemma SettlementMovesNothingIff(entry: nat, e: Event, config: ClearingConfig)
    requires (e.eventType == Settlement || e.eventType == Payout) && AmountRefusal(e, config) == None
    ensures var mp := AccountsOf(e.marketplace, config);
      (forall a :: Movement(NewLines(entry, e, config), a) == 0) <==> mp.debtor in {"", mp.clearing}
  {
    var accounts, net := Resolve(e.eventType, e.marketplace, config), NetLines(entry, e, config);
    assert NewLines(entry, e, config) == [net[0], net[1]];
    forall a ensures Movement(NewLines(entry, e, config), a) ==
      if IsCredit(e) then OnlyIf(accounts.contra == a, BookingAmount(e)) - OnlyIf(accounts.primary == a, BookingAmount(e))
      else OnlyIf(accounts.primary == a, BookingAmount(e)) - OnlyIf(accounts.contra == a, BookingAmount(e))
    {
      SumOfTwo(net[0], net[1], OnAccount(a, S));
      SumOfTwo(net[0], net[1], OnAccount(a, H));
    }
    SettlementIsClearingOnly(e.eventType, e.marketplace, config, config);
    if accounts.primary != accounts.contra {
      assert Movement(NewLines(entry, e, config), accounts.primary) != 0;
    }
  }

  lemma AmazonFeeLines(e: Event, config: ClearingConfig)
    requires e == Event(Fee, EventDraft, Some(Amazon), Some(10000), None, 0, None, None, "1", None, false)
    requires config == ClearingConfig("", map[Amazon := MarketplaceAccounts("1361", "4970", "", "", "", "", "", "")], map[], false)
    ensures var accounts, vat := Resolve(e.eventType, e.marketplace, config), ExtraOf(e, config);
      && AmountRefusal(e, config) == None && |vat| == 2 && vat[1].account == accounts.contra == "1361"
      && vat[0].account == "1576" && vat[1].amountCents == 1900 && accounts.primary == "4970" && BookingAmount(e) == 10000
      && WritesInputVat(e, config) && FeeVatOf(e, config).inputVatAccount == "1576" && FeeVatOf(e, config).outputVatAccount == None
  {
    assert VatCentsFromNet(10000, 19.0) == 1900;
  }

  /** With default settings an Amazon fee is booked with input VAT. */
  lemma AmazonFeeIsNetted(entry: nat)
    ensures var e := Event(Fee, EventDraft, Some(Amazon), Some(10000), None, 0, None, None, "1", None, false);
      var config := ClearingConfig("", map[Amazon := MarketplaceAccounts("1361", "4970", "", "", "", "", "", "")], map[], false);
      var accounts, vat := Resolve(e.eventType, e.marketplace, config), ExtraOf(e, config);
      && AmountRefusal(e, config) == None && |vat| == 2 && vat[1].account == accounts.contra == "1361"
      && vat[0].account == "1576" && vat[1].amountCents == 1900
      && Movement(NewLines(entry, e, config), "1361") == 8100
  {
    var e := Event(Fee, EventDraft, Some(Amazon), Some(10000), None, 0, None, None, "1", None, false);
    var config := ClearingConfig("", map[Amazon := MarketplaceAccounts("1361", "4970", "", "", "", "", "", "")], map[], false);
    AmazonFeeLines(e, config);
    FeeVatIsNettedOnClearing(entry, e, config);
  }
}
