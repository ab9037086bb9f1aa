/** Export calls step by step: one alone is the whole export call, and two at the same time export a line twice. */
module ExportCalls {
  import opened Wrappers
  import opened Datev
  import opened Journal
  import opened JournalTheorems
  import opened ExportOverlap
  import JournalInvariant
  import Pairing
  import JournalRuns

  lemma {:induction false} RunAppend(s: State, a: seq<Action>, b: seq<Action>)
    ensures ExportOverlap.Run(s, a + b) == ExportOverlap.Run(ExportOverlap.Run(s, a), b)
    decreases |a|
  {
    if a == [] {
      assert a + b == b;
    } else {
      assert (a + b)[1..] == a[1..] + b;
      RunAppend(Step(s, a[0]), a[1..], b);
    }
  }

  lemma RunOne(s: State, a: Action)
    ensures ExportOverlap.Run(s, [a]) == Step(s, a)
  {
    assert [a][1..] == [];
  }

  lemma RunTwo(s: State, a: Action, b: Action)
    ensures ExportOverlap.Run(s, [a, b]) == Step(Step(s, a), b)
  {
    assert [a, b] == [a] + [b];
    RunAppend(s, [a], [b]);
    RunOne(s, a);
    RunOne(Step(s, a), b);
  }

  function LockSteps(p: nat, n: nat): seq<Action> {
    if n == 0 then [] else [LockNext(p)] + LockSteps(p, n - 1)
  }

  lemma RunLockStep(s: State, p: nat, n: nat)
    requires n > 0
    ensures ExportOverlap.Run(s, LockSteps(p, n)) == ExportOverlap.Run(LockNow(s, p), LockSteps(p, n - 1))
  {
    assert LockSteps(p, n)[1..] == LockSteps(p, n - 1);
  }

  lemma LockLinesCons(lines: seq<JournalLine>, ids: seq<nat>, next: nat, job: nat)
    requires next < |ids| && ids[next] < |lines|
    ensures LockLines(lines[ids[next] := lines[ids[next]].(exportJob := Some(job))], ids[next + 1..], job) ==
      LockLines(lines, ids[next..], job)
  {
    assert ids[next..] == [ids[next]] + ids[next + 1..];
  }

  lemma LockEntriesCons(entries: seq<Entry>, ids: seq<nat>, next: nat, job: nat)
    requires next < |ids| && ids[next] < |entries|
    ensures LockEntries(entries[ids[next] := entries[ids[next]].(status := Exported, exportedIn := Some(job))], ids[next + 1..], job) ==
      LockEntries(entries, ids[next..], job)
  {
    assert ids[next..] == [ids[next]] + ids[next + 1..];
  }

  lemma LockNothing(b: Books, job: nat)
    ensures LockLines(b.lines, [], job) == b.lines && LockEntries(b.entries, [], job) == b.entries
  {
  }

  function LinesDone(s: State, p: nat, job: nat, g: Gathered, next: nat): State
    requires next <= |g.lineIds|
  {
    State(s.books.(lines := LockLines(s.books.lines, g.lineIds[next..], job)), s.calls[p := LockingEntries(job, g, 0)])
  }

  lemma LinesDoneNext(s: State, p: nat, job: nat, g: Gathered, next: nat)
    requires p in s.calls && s.calls[p] == LockingLines(job, g, next) && next < |g.lineIds| && g.lineIds[next] < |s.books.lines|
    ensures LinesDone(LockNow(s, p), p, job, g, next + 1) == LinesDone(s, p, job, g, next)
  {
    LockLinesCons(s.books.lines, g.lineIds, next, job);
    assert LockNow(s, p).calls[p := LockingEntries(job, g, 0)] == s.calls[p := LockingEntries(job, g, 0)];
  }

  lemma {:induction false} AllLinesLocked(s: State, p: nat, job: nat, g: Gathered, next: nat)
    requires p in s.calls && s.calls[p] == LockingLines(job, g, next) && next <= |g.lineIds|
    requires forall x :: 0 <= x < |g.lineIds| ==> g.lineIds[x] < |s.books.lines|
    ensures ExportOverlap.Run(s, LockSteps(p, |g.lineIds| - next + 1)) == LinesDone(s, p, job, g, next)
    decreases |g.lineIds| - next
  {
    RunLockStep(s, p, |g.lineIds| - next + 1);
    if next < |g.lineIds| {
      AllLinesLocked(LockNow(s, p), p, job, g, next + 1);
      LinesDoneNext(s, p, job, g, next);
    } else {
      LockNothing(s.books, job);
    }
  }

  function EntriesDone(s: State, p: nat, job: nat, g: Gathered, next: nat): State
    requires next <= |g.entryIds|
  {
    State(s.books.(entries := LockEntries(s.books.entries, g.entryIds[next..], job)), s.calls - {p})
  }

  lemma EntriesDoneNext(s: State, p: nat, job: nat, g: Gathered, next: nat)
    requires p in s.calls && s.calls[p] == LockingEntries(job, g, next)
    requires next < |g.entryIds| && g.entryIds[next] < |s.books.entries|
    ensures EntriesDone(LockNow(s, p), p, job, g, next + 1) == EntriesDone(s, p, job, g, next)
  {
    LockEntriesCons(s.books.entries, g.entryIds, next, job);
    assert LockNow(s, p).calls - {p} == s.calls - {p};
  }

  lemma NoEntriesLeft(s: State, p: nat, job: nat, g: Gathered)
    requires p in s.calls && s.calls[p] == LockingEntries(job, g, |g.entryIds|)
    ensures LockNow(s, p) == EntriesDone(s, p, job, g, |g.entryIds|)
  {
    LockNothing(s.books, job);
  }

  lemma {:induction false} AllEntriesLocked(s: State, p: nat, job: nat, g: Gathered, next: nat)
    requires p in s.calls && s.calls[p] == LockingEntries(job, g, next) && next <= |g.entryIds|
    requires forall x :: 0 <= x < |g.entryIds| ==> g.entryIds[x] < |s.books.entries|
    ensures ExportOverlap.Run(s, LockSteps(p, |g.entryIds| - next + 1)) == EntriesDone(s, p, job, g, next)
    decreases |g.entryIds| - next
  {
    RunLockStep(s, p, |g.entryIds| - next + 1);
    if next < |g.entryIds| {
      AllEntriesLocked(LockNow(s, p), p, job, g, next + 1);
      EntriesDoneNext(s, p, job, g, next);
    } else {
      NoEntriesLeft(s, p, job, g);
    }
  }

  lemma GatheredInRange(b: Books, lo: int, hi: int)
    ensures var g := Gather(b, lo, hi);
      && (forall x :: 0 <= x < |g.lineIds| ==> g.lineIds[x] < |b.lines|)
      && (forall x :: 0 <= x < |g.entryIds| ==> g.entryIds[x] < |b.entries|)
  {
    var g := Gather(b, lo, hi);
    GatheredLines(b, lo, hi);
    JournalInvariant.EntriesWithSound(b, EntryStatus.Posted, lo, hi);
    JournalInvariant.GatherEntriesSound(b.lines, EntriesWith(b, EntryStatus.Posted, lo, hi));
    forall x | 0 <= x < |g.lineIds| ensures g.lineIds[x] < |b.lines| {
      assert g.lineIds[x] in g.lineIds;
    }
    forall x | 0 <= x < |g.entryIds| ensures g.entryIds[x] < |b.entries| {
      assert g.entryIds[x] in g.entryIds;
    }
  }

  /** The state after a call has stored the job for what it gathered. */
  function StoredWith(s: State, p: nat, g: Gathered, rows: seq<Row>): State {
    State(s.books.(jobs := s.books.jobs + [Job(rows, g.entryIds, g.lineIds)]), s.calls[p := LockingLines(|s.books.jobs|, g, 0)])
  }

  lemma LockedIsLock(s: State, p: nat, g: Gathered, rows: seq<Row>)
    requires p !in s.calls
    ensures var job := |s.books.jobs|;
      EntriesDone(LinesDone(StoredWith(s, p, g, rows), p, job, g, 0), p, job, g, 0) == s.(books := Lock(s.books, g, rows))
  {
    assert g.lineIds[0..] == g.lineIds && g.entryIds[0..] == g.entryIds;
    assert LinesDone(StoredWith(s, p, g, rows), p, |s.books.jobs|, g, 0).calls - {p} == s.calls;
  }

  lemma LockAlone(s: State, p: nat, g: Gathered, rows: seq<Row>)
    requires p !in s.calls
    requires forall x :: 0 <= x < |g.lineIds| ==> g.lineIds[x] < |s.books.lines|
    requires forall x :: 0 <= x < |g.entryIds| ==> g.entryIds[x] < |s.books.entries|
    ensures ExportOverlap.Run(StoredWith(s, p, g, rows), LockSteps(p, |g.lineIds| + 1) + LockSteps(p, |g.entryIds| + 1)) ==
      s.(books := Lock(s.books, g, rows))
  {
    var job, stored := |s.books.jobs|, StoredWith(s, p, g, rows);
    RunAppend(stored, LockSteps(p, |g.lineIds| + 1), LockSteps(p, |g.entryIds| + 1));
    AllLinesLocked(stored, p, job, g, 0);
    AllEntriesLocked(LinesDone(stored, p, job, g, 0), p, job, g, 0);
    LockedIsLock(s, p, g, rows);
  }

  lemma HoldThenStore(s: State, p: nat, g: Gathered, rows: seq<Row>)
    ensures StoreNow(s.(calls := s.calls[p := Holding(g, rows)]), p) == StoredWith(s, p, g, rows)
  {
    var held := s.(calls := s.calls[p := Holding(g, rows)]);
    assert StoreNow(held, p).calls == s.calls[p := LockingLines(|s.books.jobs|, g, 0)];
  }

  lemma ExportIsLock(b: Books, lo: int, hi: int, forbidden: set<string>)
    requires Proceeds(b, lo, hi, forbidden)
    ensures var g := Gather(b, lo, hi); Export(b, lo, hi, forbidden).0 == Lock(b, g, Pairing.RowsOf(Pairing.Pair(g.inputs)))
  {
  }

  /** An export that nobody comes between is the whole export call. */
  lemma UndisturbedExport(s: State, p: nat, lo: int, hi: int, forbidden: set<string>)
    requires p !in s.calls && Proceeds(s.books, lo, hi, forbidden)
    ensures var g := Gather(s.books, lo, hi);
      ExportOverlap.Run(s, [GatherFor(p, lo, hi, forbidden), StoreJob(p)] +
                           (LockSteps(p, |g.lineIds| + 1) + LockSteps(p, |g.entryIds| + 1))) ==
      s.(books := Export(s.books, lo, hi, forbidden).0)
  {
    var g := Gather(s.books, lo, hi);
    var rows := Pairing.RowsOf(Pairing.Pair(g.inputs));
    RunAppend(s, [GatherFor(p, lo, hi, forbidden), StoreJob(p)], LockSteps(p, |g.lineIds| + 1) + LockSteps(p, |g.entryIds| + 1));
    RunTwo(s, GatherFor(p, lo, hi, forbidden), StoreJob(p));
    HoldThenStore(s, p, g, rows);
    ExportIsLock(s.books, lo, hi, forbidden);
    GatheredInRange(s.books, lo, hi);
    LockAlone(s, p, g, rows);
  }

  function TwoExports(p: nat, q: nat, lo: int, hi: int, forbidden: set<string>): seq<Action> {
    [GatherFor(p, lo, hi, forbidden), GatherFor(q, lo, hi, forbidden)] + [StoreJob(p), StoreJob(q)]
  }

  /** The last two jobs, from the n-th on, list the same lines. */
  predicate ShareLines(b: Books, n: nat) {
    |b.jobs| == n + 2 && b.jobs[n].lineIds == b.jobs[n + 1].lineIds != [] && !JobsDisjoint(b)
  }

  lemma BothStore(s: State, p: nat, q: nat, g: Gathered, rows: seq<Row>)
    requires p != q && p in s.calls && q in s.calls && s.calls[p] == s.calls[q] == Holding(g, rows)
    requires g.lineIds != []
    ensures ShareLines(StoreNow(StoreNow(s, p), q).books, |s.books.jobs|)
  {
    assert StoreNow(s, p).calls[q] == s.calls[q];
    assert g.lineIds[0] in g.lineIds;
  }

  /** Two exports of one period at the same time store two jobs that list the same lines. */
  lemma GatheredTwice(s: State, p: nat, q: nat, lo: int, hi: int, forbidden: set<string>)
    requires p !in s.calls && q !in s.calls && p != q && Proceeds(s.books, lo, hi, forbidden)
    ensures ShareLines(ExportOverlap.Run(s, TwoExports(p, q, lo, hi, forbidden)).books, |s.books.jobs|)
  {
    var g := Gather(s.books, lo, hi);
    RunAppend(s, [GatherFor(p, lo, hi, forbidden), GatherFor(q, lo, hi, forbidden)], [StoreJob(p), StoreJob(q)]);
    RunTwo(s, GatherFor(p, lo, hi, forbidden), GatherFor(q, lo, hi, forbidden));
    var gathered := GatherNow(GatherNow(s, p, lo, hi, forbidden), q, lo, hi, forbidden);
    RunTwo(gathered, StoreJob(p), StoreJob(q));
    BothStore(gathered, p, q, g, Pairing.RowsOf(Pairing.Pair(g.inputs)));
  }

  function PostedSale(): seq<Command> {
    [NewEvent(JournalRuns.ASale()), BuildOne(0, JournalRuns.AConfig()), PostOne(0)]
  }

  lemma RunThree(b: Books, x: Command, y: Command, z: Command)
    ensures JournalTheorems.Run(b, [x, y, z]) == Execute(Execute(Execute(b, x), y), z)
  {
    assert [x, y, z][1..] == [y, z] && [y, z][1..] == [z] && [z][1..] == [];
    assert JournalTheorems.Run(b, [x, y, z]) == JournalTheorems.Run(Execute(b, x), [y, z]);
    assert JournalTheorems.Run(Execute(b, x), [y, z]) == JournalTheorems.Run(Execute(Execute(b, x), y), [z]);
  }

  lemma PostedSaleExports()
    ensures Proceeds(JournalTheorems.Run(Empty(), PostedSale()), 0, 0, {})
  {
    var e, config := JournalRuns.ASale(), JournalRuns.AConfig();
    JournalRuns.Bookable();
    var one := Execute(Empty(), NewEvent(e));
    var two := Execute(one, BuildOne(0, config));
    var three := Execute(two, PostOne(0));
    RunThree(Empty(), NewEvent(e), BuildOne(0, config), PostOne(0));
    StepKeeps(Empty(), NewEvent(e));
    StepKeeps(one, BuildOne(0, config));
    StepKeeps(two, PostOne(0));
    assert two.entries == [Entry(Built, 0, 0, "1", Draft, None)];
    JournalInvariant.EveryDraftPosts(two, 0);
    JournalInvariant.EntriesWithSound(three, EntryStatus.Posted, 0, 0);
    assert 0 in EntriesWith(three, EntryStatus.Posted, 0, 0);
    ExportSucceedsIff(three, 0, 0, {});
  }

  function AsOther(commands: seq<Command>): seq<Action> {
    if commands == [] then [] else [Other(commands[0])] + AsOther(commands[1..])
  }

  lemma {:induction false} RunOthers(s: State, commands: seq<Command>)
    requires forall c :: c in commands ==> !c.ExportPeriod?
    ensures ExportOverlap.Run(s, AsOther(commands)) == s.(books := JournalTheorems.Run(s.books, commands))
    decreases |commands|
  {
    if commands != [] {
      assert commands[0] in commands;
      assert AsOther(commands)[1..] == AsOther(commands[1..]);
      RunOthers(Step(s, Other(commands[0])), commands[1..]);
    }
  }

  lemma AfterPostedSale() returns (s: State)
    ensures s == ExportOverlap.Run(Start(), AsOther(PostedSale()))
    ensures s.calls == map[] && s.books.jobs == [] && Proceeds(s.books, 0, 0, {})
  {
    s := ExportOverlap.Run(Start(), AsOther(PostedSale()));
    RunOthers(Start(), PostedSale());
    PostedSaleExports();
    RunKeepsJobs(Empty(), PostedSale());
  }

  /** One posted sale, exported twice at the same time: both jobs list its lines. */
  lemma DoubleExport()
    ensures ShareLines(ExportOverlap.Run(Start(), AsOther(PostedSale()) + TwoExports(0, 1, 0, 0, {})).books, 0)
  {
    var s := AfterPostedSale();
    RunAppend(Start(), AsOther(PostedSale()), TwoExports(0, 1, 0, 0, {}));
    GatheredTwice(s, 0, 1, 0, 0, {});
  }

  lemma {:induction false} RunKeepsJobs(b: Books, commands: seq<Command>)
    requires forall c :: c in commands ==> !c.ExportPeriod?
    ensures JournalTheorems.Run(b, commands).jobs == b.jobs
    decreases |commands|
  {
    if commands != [] {
      assert commands[0] in commands;
      OtherAddsLines(b, commands[0]);
      RunKeepsJobs(Execute(b, commands[0]), commands[1..]);
    }
  }
}
