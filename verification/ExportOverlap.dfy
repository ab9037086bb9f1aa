/**
 * Accrual exports when calls overlap: gathering lines, storing the job and locking each line and entry are separate
 * repository calls, and nothing in the store keeps a line out of a second job. A call that dies takes no further step.
 */
module ExportOverlap {
  import opened Wrappers
  import opened AccountMapping
  import opened Datev
  import opened Journal
  import opened JournalTheorems
  import JournalInvariant
  import Pairing

  /** An open export call: what it gathered, and how far it has got in locking it. */
  datatype Call =
    | Holding(g: Gathered, rows: seq<Row>)
    | LockingLines(job: nat, g: Gathered, next: nat)
    | LockingEntries(job: nat, g: Gathered, next: nat)

  datatype State = State(books: Books, calls: map<nat, Call>)

  function Start(): State {
    State(Empty(), map[])
  }

  /**
   * `Other`: the journal's remaining calls, each as one step. `Outside`: any single write of such a call; it leaves the
   * stored lines and jobs alone.
   */
  datatype Action =
    | GatherFor(p: nat, lo: int, hi: int, forbidden: set<string>)
    | StoreJob(p: nat)
    | LockNext(p: nat)
    | Other(c: Command)
    | Outside(after: Books)

  /** The call goes on to store a job: it has found lines, and their rows are valid. */
  predicate Proceeds(b: Books, lo: int, hi: int, forbidden: set<string>) {
    Export(b, lo, hi, forbidden).1.Ok?
  }

  function GatherNow(s: State, p: nat, lo: int, hi: int, forbidden: set<string>): State {
    if p in s.calls || !Proceeds(s.books, lo, hi, forbidden) then s
    else
      var g := Gather(s.books, lo, hi);
      s.(calls := s.calls[p := Holding(g, Pairing.RowsOf(Pairing.Pair(g.inputs)))])
  }

  function StoreNow(s: State, p: nat): State {
    if p !in s.calls || !s.calls[p].Holding? then s
    else
      var g := s.calls[p].g;
      State(s.books.(jobs := s.books.jobs + [Job(s.calls[p].rows, g.entryIds, g.lineIds)]),
            s.calls[p := LockingLines(|s.books.jobs|, g, 0)])
  }

  function LockLine(b: Books, i: nat, job: nat): Books {
    if i < |b.lines| then b.(lines := b.lines[i := b.lines[i].(exportJob := Some(job))]) else b
  }

  function LockEntry(b: Books, k: nat, job: nat): Books {
    if k < |b.entries| then b.(entries := b.entries[k := b.entries[k].(status := Exported, exportedIn := Some(job))]) else b
  }

  /** The next line, after the last line the next entry, and after the last entry the call returns. */
  function LockNow(s: State, p: nat): State {
    if p !in s.calls then s
    else
      match s.calls[p]
      case Holding(_, _) => s
      case LockingLines(job, g, next) =>
        if next < |g.lineIds| then State(LockLine(s.books, g.lineIds[next], job), s.calls[p := LockingLines(job, g, next + 1)])
        else s.(calls := s.calls[p := LockingEntries(job, g, 0)])
      case LockingEntries(job, g, next) =>
        if next < |g.entryIds| then State(LockEntry(s.books, g.entryIds[next], job), s.calls[p := LockingEntries(job, g, next + 1)])
        else s.(calls := s.calls - {p})
  }

  predicate AddsLines(a: Books, b: Books) {
    a.lines <= b.lines && a.jobs == b.jobs
  }

  function Step(s: State, a: Action): State {
    match a
    case GatherFor(p, lo, hi, forbidden) => GatherNow(s, p, lo, hi, forbidden)
    case StoreJob(p) => StoreNow(s, p)
    case LockNext(p) => LockNow(s, p)
    case Other(c) => if c.ExportPeriod? then s else s.(books := Execute(s.books, c))
    case Outside(after) => if AddsLines(s.books, after) then s.(books := after) else s
  }

  function Run(s: State, actions: seq<Action>): State
    decreases |actions|
  {
    if actions == [] then s else Run(Step(s, actions[0]), actions[1..])
  }

  // ----- the invariant -----

  /** Lines that the call has gathered and not locked yet. */
  predicate Claims(c: Call, i: nat) {
    match c
    case Holding(g, _) => i in g.lineIds
    case LockingLines(_, g, next) => next <= |g.lineIds| && i in g.lineIds[next..]
    case LockingEntries(_, _, _) => false
  }

  predicate GoodCall(b: Books, c: Call) {
    match c
    case Holding(g, _) => forall i :: i in g.lineIds ==> i < |b.lines| && b.lines[i].exportJob == None
    case LockingLines(job, g, next) => job < |b.jobs| && b.jobs[job].lineIds == g.lineIds && next <= |g.lineIds|
    case LockingEntries(job, g, _) => job < |b.jobs| && b.jobs[job].lineIds == g.lineIds
  }

  /** Line i of job j is locked by it, or free and about to be locked by the call of that job. */
  predicate GoodJobLine(s: State, j: nat, i: nat) {
    && i < |s.books.lines|
    && (s.books.lines[i].exportJob == Some(j)
        || (s.books.lines[i].exportJob == None && exists p :: p in s.calls && IsLocking(s.calls[p], j, i)))
  }

  predicate IsLocking(c: Call, j: nat, i: nat) {
    c.LockingLines? && c.job == j && Claims(c, i)
  }

  predicate JobsDisjoint(b: Books) {
    forall j, m, i :: 0 <= j < m < |b.jobs| && i in b.jobs[j].lineIds ==> i !in b.jobs[m].lineIds
  }

  predicate Holds(s: State, p: nat, i: nat) {
    p in s.calls && s.calls[p].Holding? && i in s.calls[p].g.lineIds
  }

  /** What a call holds is in no job and held by no other call. */
  ghost predicate HeldApart(s: State) {
    && (forall p, j, i :: Holds(s, p, i) && 0 <= j < |s.books.jobs| ==> i !in s.books.jobs[j].lineIds)
    && (forall p, q, i :: p != q && Holds(s, p, i) ==> !Holds(s, q, i))
  }

  predicate JobCallsApart(s: State) {
    forall p, q :: p in s.calls && q in s.calls && p != q && !s.calls[p].Holding? && !s.calls[q].Holding? ==>
      s.calls[p].job != s.calls[q].job
  }

  predicate Tracked(s: State) {
    && (forall p :: p in s.calls ==> GoodCall(s.books, s.calls[p]))
    && (forall j, i :: 0 <= j < |s.books.jobs| && i in s.books.jobs[j].lineIds ==> GoodJobLine(s, j, i))
    && JobCallsApart(s)
  }

  ghost predicate Safe(s: State) {
    Tracked(s) && JobsDisjoint(s.books) && HeldApart(s)
  }

  /** A gather that takes a line which another open call has gathered and not locked yet. */
  predicate OverlappingGather(s: State, a: Action) {
    && a.GatherFor? && a.p !in s.calls && Proceeds(s.books, a.lo, a.hi, a.forbidden)
    && exists q, i :: q in s.calls && i in Gather(s.books, a.lo, a.hi).lineIds && Claims(s.calls[q], i)
  }

  lemma GatheredLines(b: Books, lo: int, hi: int)
    ensures forall i :: i in Gather(b, lo, hi).lineIds ==> i < |b.lines| && b.lines[i].exportJob == None
  {
    JournalInvariant.GatherLinesSound(b.lines, EntriesWith(b, EntryStatus.Posted, lo, hi));
  }

  lemma NotTaken(s: State, a: Action)
    requires Safe(s) && a.GatherFor? && a.p !in s.calls && Proceeds(s.books, a.lo, a.hi, a.forbidden) && !OverlappingGather(s, a)
    ensures var ids := Gather(s.books, a.lo, a.hi).lineIds;
      && (forall j, i :: 0 <= j < |s.books.jobs| && i in ids ==> i !in s.books.jobs[j].lineIds)
      && (forall q, i :: Holds(s, q, i) ==> i !in ids)
  {
    var ids := Gather(s.books, a.lo, a.hi).lineIds;
    GatheredLines(s.books, a.lo, a.hi);
    forall j, i | 0 <= j < |s.books.jobs| && i in ids ensures i !in s.books.jobs[j].lineIds {
      assert !GoodJobLine(s, j, i);
    }
    forall q, i | Holds(s, q, i) ensures i !in ids {
      assert Claims(s.calls[q], i);
    }
  }

  lemma NewHoldingApart(s: State, a: Action)
    requires Safe(s) && a.GatherFor? && a.p !in s.calls && Proceeds(s.books, a.lo, a.hi, a.forbidden) && !OverlappingGather(s, a)
    ensures HeldApart(Step(s, a))
  {
    var s', g := Step(s, a), Gather(s.books, a.lo, a.hi);
    NotTaken(s, a);
    forall q: nat, i: nat ensures Holds(s', q, i) <==> (Holds(s, q, i) || (q == a.p && i in g.lineIds)) {
    }
  }

  lemma JobLineStaysGood(s: State, s': State, j: nat, i: nat)
    requires GoodJobLine(s, j, i) && s'.books == s.books
    requires forall p :: p in s.calls ==> p in s'.calls && s'.calls[p] == s.calls[p]
    ensures GoodJobLine(s', j, i)
  {
    if s.books.lines[i].exportJob == None {
      var p :| p in s.calls && IsLocking(s.calls[p], j, i);
      assert IsLocking(s'.calls[p], j, i);
    }
  }

  lemma OneMoreHolding(s: State, p: nat, g: Gathered, rows: seq<Row>)
    requires Tracked(s) && p !in s.calls && GoodCall(s.books, Holding(g, rows))
    ensures Tracked(s.(calls := s.calls[p := Holding(g, rows)]))
  {
    var s' := s.(calls := s.calls[p := Holding(g, rows)]);
    forall j, i | 0 <= j < |s'.books.jobs| && i in s'.books.jobs[j].lineIds ensures GoodJobLine(s', j, i) {
      JobLineStaysGood(s, s', j, i);
    }
  }

  lemma GatherKeepsTracked(s: State, a: Action)
    requires Tracked(s) && a.GatherFor?
    ensures Tracked(Step(s, a))
  {
    if Step(s, a) != s {
      var g := Gather(s.books, a.lo, a.hi);
      GatheredLines(s.books, a.lo, a.hi);
      OneMoreHolding(s, a.p, g, Pairing.RowsOf(Pairing.Pair(g.inputs)));
    }
  }

  lemma HeldTwice(s: State, p: nat, q: nat, i: nat)
    requires Holds(s, p, i) && q in s.calls && p != q
    requires GoodCall(s.books, s.calls[q]) && Claims(s.calls[q], i)
    ensures !HeldApart(s)
  {
    if s.calls[q].LockingLines? {
      assert i in s.books.jobs[s.calls[q].job].lineIds;
    } else {
      assert Holds(s, q, i);
    }
  }

  /** An overlapping gather puts a line into the hands of two calls. */
  lemma OverlapIsNotApart(s: State, a: Action) returns (q: nat, i: nat)
    requires Tracked(s) && OverlappingGather(s, a)
    ensures var s' := Step(s, a);
      && Holds(s', a.p, i) && q in s'.calls && a.p != q && s'.calls[q] == s.calls[q]
      && GoodCall(s'.books, s'.calls[q]) && Claims(s'.calls[q], i)
      && !HeldApart(s')
  {
    q, i :| q in s.calls && i in Gather(s.books, a.lo, a.hi).lineIds && Claims(s.calls[q], i);
    assert GoodCall(s.books, s.calls[q]);
    HeldTwice(Step(s, a), a.p, q, i);
  }

  lemma GatherKeepsSafeIff(s: State, a: Action)
    requires Safe(s) && a.GatherFor?
    ensures Safe(Step(s, a)) <==> !OverlappingGather(s, a)
  {
    GatherKeepsTracked(s, a);
    if OverlappingGather(s, a) {
      var _, _ := OverlapIsNotApart(s, a);
    } else if Step(s, a) != s {
      NewHoldingApart(s, a);
    }
  }

  lemma StoreKeepsTracked(s: State, p: nat)
    requires Safe(s)
    ensures Tracked(StoreNow(s, p))
  {
    var s' := StoreNow(s, p);
    if s' != s {
      var g := s.calls[p].g;
      assert GoodCall(s.books, s.calls[p]);
      assert g.lineIds[0..] == g.lineIds;
      forall q | q in s'.calls ensures GoodCall(s'.books, s'.calls[q]) {
        assert GoodCall(s.books, s.calls[q]);
      }
      forall j, i | 0 <= j < |s'.books.jobs| && i in s'.books.jobs[j].lineIds ensures GoodJobLine(s', j, i) {
        if j < |s.books.jobs| {
          assert GoodJobLine(s, j, i);
          if s.books.lines[i].exportJob == None {
            var q :| q in s.calls && IsLocking(s.calls[q], j, i);
            assert IsLocking(s'.calls[q], j, i);
          }
        } else {
          assert IsLocking(s'.calls[p], j, i);
        }
      }
    }
  }

  lemma StoreKeepsApart(s: State, p: nat)
    requires Safe(s)
    ensures JobsDisjoint(StoreNow(s, p).books) && HeldApart(StoreNow(s, p))
  {
    var s' := StoreNow(s, p);
    if s' != s {
      forall q: nat, i: nat ensures Holds(s', q, i) <==> q != p && Holds(s, q, i) {
      }
      var last := |s.books.jobs|;
      forall j, i | 0 <= j < last && i in s'.books.jobs[j].lineIds ensures i !in s'.books.jobs[last].lineIds {
        assert !Holds(s, p, i);
      }
      forall q, i | Holds(s', q, i) ensures i !in s'.books.jobs[last].lineIds {
        assert !Holds(s, p, i);
      }
    }
  }

  lemma StoreKeepsSafe(s: State, p: nat)
    requires Safe(s)
    ensures Safe(StoreNow(s, p))
  {
    StoreKeepsTracked(s, p);
    StoreKeepsApart(s, p);
  }

  // ----- locking -----

  lemma LockKeepsApart(s: State, p: nat)
    requires Safe(s)
    ensures JobsDisjoint(LockNow(s, p).books) && HeldApart(LockNow(s, p))
  {
    var s' := LockNow(s, p);
    assert s'.books.jobs == s.books.jobs;
    forall q: nat, i: nat ensures Holds(s', q, i) <==> Holds(s, q, i) {
    }
  }

  /** The line that a call locks is in its own job and in no other, and held by nobody. */
  lemma LockedIsOwn(s: State, p: nat)
    requires Safe(s) && p in s.calls && s.calls[p].LockingLines? && s.calls[p].next < |s.calls[p].g.lineIds|
    ensures var c := s.calls[p];
      var i := c.g.lineIds[c.next];
      && GoodCall(s.books, c)
      && (forall j :: 0 <= j < |s.books.jobs| && j != c.job ==> i !in s.books.jobs[j].lineIds)
      && (forall q :: q in s.calls ==> !Holds(s, q, i))
  {
    var c := s.calls[p];
    assert GoodCall(s.books, c);
    assert c.g.lineIds[c.next] in s.books.jobs[c.job].lineIds;
  }

  lemma CallsStayGood(s: State, p: nat)
    requires Safe(s)
    ensures forall q :: q in LockNow(s, p).calls ==> GoodCall(LockNow(s, p).books, LockNow(s, p).calls[q])
    ensures JobCallsApart(LockNow(s, p))
  {
    var s' := LockNow(s, p);
    if p in s.calls && s.calls[p].LockingLines? && s.calls[p].next < |s.calls[p].g.lineIds| {
      LockedIsOwn(s, p);
    }
    forall q | q in s'.calls ensures GoodCall(s'.books, s'.calls[q]) {
      assert GoodCall(s.books, s.calls[q]);
      if q != p && s.calls[q].Holding? {
        forall i | i in s.calls[q].g.lineIds ensures i < |s'.books.lines| && s'.books.lines[i].exportJob == None {
          assert Holds(s, q, i);
        }
      }
    }
  }

  lemma ClaimsAfterLock(s: State, p: nat, q: nat, j: nat, i: nat)
    requires Safe(s) && q in s.calls && IsLocking(s.calls[q], j, i)
    ensures (q in LockNow(s, p).calls && IsLocking(LockNow(s, p).calls[q], j, i))
      || (q == p && s.calls[p].next < |s.calls[p].g.lineIds| && i == s.calls[p].g.lineIds[s.calls[p].next])
  {
    var c := s.calls[q];
    if q == p {
      assert c.g.lineIds[c.next..] == if c.next < |c.g.lineIds| then [c.g.lineIds[c.next]] + c.g.lineIds[c.next + 1..] else [];
    }
  }

  lemma JobLinesStayGood(s: State, p: nat, j: nat, i: nat)
    requires Safe(s) && j < |s.books.jobs| && i in s.books.jobs[j].lineIds
    ensures GoodJobLine(LockNow(s, p), j, i)
  {
    var s' := LockNow(s, p);
    assert GoodJobLine(s, j, i);
    if p in s.calls && s.calls[p].LockingLines? && s.calls[p].next < |s.calls[p].g.lineIds| {
      LockedIsOwn(s, p);
    }
    if s.books.lines[i].exportJob == None {
      var q :| q in s.calls && IsLocking(s.calls[q], j, i);
      ClaimsAfterLock(s, p, q, j, i);
    }
  }

  lemma LockKeepsSafe(s: State, p: nat)
    requires Safe(s)
    ensures Safe(LockNow(s, p))
  {
    LockKeepsApart(s, p);
    CallsStayGood(s, p);
    forall j, i | 0 <= j < |s.books.jobs| && i in s.books.jobs[j].lineIds ensures GoodJobLine(LockNow(s, p), j, i) {
      JobLinesStayGood(s, p, j, i);
    }
  }

  // ----- the other calls -----

  lemma {:induction false} BuildEachAddsLines(acc: Bulk, ids: seq<nat>, config: ClearingConfig)
    ensures AddsLines(acc.books, BuildEach(acc, ids, config).books)
    decreases |ids|
  {
    if ids != [] {
      BuildEachAddsLines(BuildStep(acc, ids[0], config), ids[1..], config);
    }
  }

  lemma {:induction false} PostEachAddsLines(acc: Bulk, ids: seq<nat>)
    ensures AddsLines(acc.books, PostEach(acc, ids).books)
    decreases |ids|
  {
    if ids != [] {
      PostEachAddsLines(PostStep(acc, ids[0]), ids[1..]);
    }
  }

  lemma OtherAddsLines(b: Books, c: Command)
    requires !c.ExportPeriod?
    ensures AddsLines(b, Execute(b, c))
  {
    match c
    case BuildMany(lo, hi, config) => BuildEachAddsLines(Bulk(b, 0, []), EventsToBuild(b, lo, hi), config);
    case PostMany(lo, hi) => PostEachAddsLines(Bulk(b, 0, []), EntriesWith(b, Draft, lo, hi));
    case _ =>
  }

  lemma MoreLinesKeepSafe(s: State, after: Books)
    requires Safe(s) && AddsLines(s.books, after)
    ensures Safe(s.(books := after))
  {
    var s' := s.(books := after);
    forall q | q in s.calls ensures GoodCall(after, s.calls[q]) {
      assert GoodCall(s.books, s.calls[q]);
    }
    forall j, i | 0 <= j < |after.jobs| && i in after.jobs[j].lineIds ensures GoodJobLine(s', j, i) {
      assert GoodJobLine(s, j, i);
      if s.books.lines[i].exportJob == None {
        var q :| q in s.calls && IsLocking(s.calls[q], j, i);
        assert IsLocking(s'.calls[q], j, i);
      }
    }
    forall q: nat, i: nat ensures Holds(s', q, i) <==> Holds(s, q, i) {
    }
  }

  /** Of all steps exactly the overlapping gathers break the job lists apart, with room for the jobs under way. */
  lemma SafeKeptIff(s: State, a: Action)
    requires Safe(s)
    ensures Safe(Step(s, a)) <==> !OverlappingGather(s, a)
  {
    match a
    case GatherFor(_, _, _, _) => GatherKeepsSafeIff(s, a);
    case StoreJob(p) => StoreKeepsSafe(s, p);
    case LockNext(p) => LockKeepsSafe(s, p);
    case Other(c) =>
      if !c.ExportPeriod? {
        OtherAddsLines(s.books, c);
        MoreLinesKeepSafe(s, Execute(s.books, c));
      }
    case Outside(after) =>
      if AddsLines(s.books, after) {
        MoreLinesKeepSafe(s, after);
      }
  }

  // ----- one job per line, exactly without overlapping gathers -----

  /** The job lists are disjoint, and stay so when any two calls under way store theirs. */
  predicate Room(s: State) {
    && JobsDisjoint(s.books)
    && (forall p :: p in s.calls ==> JobsDisjoint(StoreNow(s, p).books))
    && (forall p, q :: p in s.calls && q in s.calls && p != q ==> JobsDisjoint(StoreNow(StoreNow(s, p), q).books))
  }

  lemma SafeHasRoom(s: State)
    requires Safe(s)
    ensures Room(s)
  {
    forall p | p in s.calls ensures JobsDisjoint(StoreNow(s, p).books) {
      StoreKeepsSafe(s, p);
    }
    forall p, q | p in s.calls && q in s.calls && p != q ensures JobsDisjoint(StoreNow(StoreNow(s, p), q).books) {
      StoreKeepsSafe(s, p);
      StoreKeepsSafe(StoreNow(s, p), q);
    }
  }

  /** A line that one call holds and another has gathered and not locked gets into two jobs. */
  lemma HeldTwiceDoubles(s: State, p: nat, q: nat, i: nat)
    requires Holds(s, p, i) && q in s.calls && p != q && GoodCall(s.books, s.calls[q]) && Claims(s.calls[q], i)
    ensures !Room(s)
  {
    var one := StoreNow(s, p);
    var n := |s.books.jobs|;
    assert i in one.books.jobs[n].lineIds;
    if s.calls[q].LockingLines? {
      assert i in one.books.jobs[s.calls[q].job].lineIds;
      assert !JobsDisjoint(one.books);
    } else {
      var two := StoreNow(one, q);
      assert one.calls[q] == s.calls[q];
      assert i in two.books.jobs[n].lineIds && i in two.books.jobs[n + 1].lineIds;
      assert !JobsDisjoint(two.books);
    }
  }

  predicate StaysDisjoint(s: State, actions: seq<Action>)
    decreases |actions|
  {
    Room(s) && (actions != [] ==> StaysDisjoint(Step(s, actions[0]), actions[1..]))
  }

  predicate NoOverlappingGather(s: State, actions: seq<Action>)
    decreases |actions|
  {
    actions == [] || (!OverlappingGather(s, actions[0]) && NoOverlappingGather(Step(s, actions[0]), actions[1..]))
  }

  /**
   * Over any run, no line gets into two jobs (with room for the calls under way) if and only if no call gathers a line
   * that another one has gathered and not locked yet. A call that died in between keeps that window open for good.
   */
  lemma {:induction false} StaysDisjointIff(s: State, actions: seq<Action>)
    requires Safe(s)
    ensures StaysDisjoint(s, actions) <==> NoOverlappingGather(s, actions)
    decreases |actions|
  {
    SafeHasRoom(s);
    if actions != [] {
      var a, next := actions[0], Step(s, actions[0]);
      SafeKeptIff(s, a);
      if OverlappingGather(s, a) {
        var q, i := OverlapIsNotApart(s, a);
        HeldTwiceDoubles(next, a.p, q, i);
        assert !StaysDisjoint(next, actions[1..]);
      } else {
        StaysDisjointIff(next, actions[1..]);
      }
    }
  }

  lemma {:induction false} RunKeepsSafe(s: State, actions: seq<Action>)
    requires Safe(s) && NoOverlappingGather(s, actions)
    ensures Safe(Run(s, actions))
    decreases |actions|
  {
    if actions != [] {
      SafeKeptIff(s, actions[0]);
      RunKeepsSafe(Step(s, actions[0]), actions[1..]);
    }
  }

  /** Without overlapping gathers a job whose call is done with its lines has locked each of them, and keeps them. */
  lemma DoneJobOwnsItsLines(actions: seq<Action>, j: nat, i: nat)
    requires NoOverlappingGather(Start(), actions)
    requires var s := Run(Start(), actions);
      && j < |s.books.jobs| && i in s.books.jobs[j].lineIds
      && forall p :: p in s.calls && s.calls[p].LockingLines? ==> s.calls[p].job != j
    ensures var s := Run(Start(), actions); i < |s.books.lines| && s.books.lines[i].exportJob == Some(j)
  {
    RunKeepsSafe(Start(), actions);
    assert GoodJobLine(Run(Start(), actions), j, i);
  }
}
