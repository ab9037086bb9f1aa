/** Runs of the journal's overlapping calls, from the empty journal, in which something goes wrong. */
module JournalRuns {
  import opened Wrappers
  import opened AccountMapping
  import opened FeeVat
  import opened Journal
  import opened JournalInvariant
  import opened JournalOverlap
  import opened JournalRaces
  import ExportOverlap
  import JournalTheorems

  // ----- finishing a call is a run -----

  function Nexts(p: nat, n: nat): seq<Action> {
    if n == 0 then [] else [Next(p)] + Nexts(p, n - 1)
  }

  lemma RunNexts(s: State, p: nat, n: nat)
    requires n > 0
    ensures Run(s, Nexts(p, n)) == Run(NextNow(s, p), Nexts(p, n - 1))
  {
    assert Nexts(p, n)[1..] == Nexts(p, n - 1);
  }

  lemma {:induction false} RunAppend(s: State, a: seq<Action>, b: seq<Action>)
    ensures Run(s, a + b) == Run(Run(s, a), b)
    decreases |a|
  {
    if a == [] {
      assert a + b == b;
    } else {
      assert (a + b)[1..] == a[1..] + b;
      RunAppend(Step(s, a[0]), a[1..], b);
    }
  }

  lemma RunOne(s: State, a: Action)
    ensures Run(s, [a]) == Step(s, a)
  {
    assert [a][1..] == [];
  }

  lemma RunTwo(s: State, a: Action, b: Action)
    ensures Run(s, [a, b]) == Step(Step(s, a), b)
  {
    assert [a, b][1..] == [b];
    RunOne(Step(s, a), b);
  }

  lemma RunThree(s: State, a: Action, b: Action, c: Action)
    ensures Run(s, [a, b, c]) == Step(Step(Step(s, a), b), c)
  {
    assert [a, b, c][1..] == [b, c];
    RunTwo(Step(s, a), b, c);
  }

  function StepsLeft(s: State, p: nat): nat {
    if p !in s.calls then 0
    else
      match s.calls[p]
      case Looked(w, _, e) => |LinesOf(w, |s.books.entries|, e)| + 2
      case Writing(_, _, _, _, todo) => |todo| + 1
  }

  lemma {:induction false} RunFinishes(s: State, p: nat, n: nat)
    requires n == StepsLeft(s, p)
    ensures Run(s, Nexts(p, n)) == Finish(s, p)
    decreases n
  {
    if n > 0 {
      RunNexts(s, p, n);
      RunFinishes(NextNow(s, p), p, n - 1);
    }
  }

  // ----- two entries -----

  function ASale(): Event {
    Event(Sale, EventDraft, Some(Amazon), Some(11900), None, 0, None, None, "1", None, false)
  }

  function AFee(): Event {
    Event(Fee, EventDraft, Some(Amazon), Some(10000), None, 0, None, None, "1", None, false)
  }

  function AConfig(): ClearingConfig {
    ClearingConfig("8400", map[Amazon := MarketplaceAccounts("1361", "4970", "", "", "", "", "", "")], map[], false)
  }

  lemma Bookable()
    ensures Refusal(ASale()) == None && AmountRefusal(ASale(), AConfig()) == None
    ensures Refusal(AFee()) == None && AmountRefusal(AFee(), AConfig()) == None
  {
  }

  function Received(e: Event): State {
    State(Books([e], [], [], []), map[], map[], map[])
  }

  lemma RunReceived(e: Event)
    ensures Step(Start(), Other(JournalTheorems.NewEvent(e))) == Received(e)
  {
  }

  function Arrives(e: Event): Action {
    Other(JournalTheorems.NewEvent(e))
  }

  function Looks(p: nat): Action {
    Look(p, BuildWork(AConfig()), 0)
  }

  /** The event was received, and the call has looked for it. */
  function LookedAt(e: Event): State {
    Received(e).(calls := map[0 := Looked(BuildWork(AConfig()), 0, e)])
  }

  lemma RunLooks(e: Event)
    requires Refusal(e) == None && AmountRefusal(e, AConfig()) == None
    ensures Run(Start(), [Arrives(e), Looks(0)]) == LookedAt(e)
  {
    RunTwo(Start(), Arrives(e), Looks(0));
    RunReceived(e);
  }

  function BothLooked(): State {
    var c := Looked(BuildWork(AConfig()), 0, ASale());
    Received(ASale()).(calls := map[0 := c, 1 := c])
  }

  lemma RunBothLook()
    ensures Run(Start(), [Arrives(ASale()), Looks(0)] + [Looks(1)]) == BothLooked()
  {
    Bookable();
    RunAppend(Start(), [Arrives(ASale()), Looks(0)], [Looks(1)]);
    RunLooks(ASale());
    RunOne(LookedAt(ASale()), Looks(1));
    assert LookedAt(ASale()).calls[1 := LookedAt(ASale()).calls[0]] == BothLooked().calls;
  }

  lemma OneFinishes(s: State, p: nat)
    requires p in s.calls && s.calls[p].Looked? && forall k: nat :: |LinesOf(s.calls[p].work, k, s.calls[p].event)| == 2
    ensures Run(s, Nexts(p, 4)) == Finish(s, p) && Finish(s, p).calls == s.calls - {p}
  {
    RunFinishes(s, p, 4);
    FinishLooked(s, p);
  }

  lemma RunBothFinish(s: State, c: Call)
    requires c.Looked? && s.calls == map[0 := c, 1 := c] && forall k: nat :: |LinesOf(c.work, k, c.event)| == 2
    ensures var t := Run(s, Nexts(0, 4) + Nexts(1, 4)); t.calls == map[] && !DistinctEntries(t.books)
  {
    RunAppend(s, Nexts(0, 4), Nexts(1, 4));
    OneFinishes(s, 0);
    OneFinishes(Finish(s, 0), 1);
    TwoEntries(s, 0, 1);
  }

  /** Two builds of one sale: both look before either creates, and the sale has two entries. */
  lemma DoubleBuild()
    ensures var s := Run(Start(), ([Arrives(ASale()), Looks(0)] + [Looks(1)]) + (Nexts(0, 4) + Nexts(1, 4)));
      s.calls == map[] && !DistinctEntries(s.books)
  {
    RunAppend(Start(), [Arrives(ASale()), Looks(0)] + [Looks(1)], Nexts(0, 4) + Nexts(1, 4));
    RunBothLook();
    RunBothFinish(BothLooked(), BothLooked().calls[0]);
  }

  // ----- lines that come too late -----

  /** A draft of day 0 alone in the books, posted and exported. */
  lemma PostedAndExported(b: Books)
    requires Inv(b) && |b.entries| == 1 && b.entries[0].status == Draft && b.entries[0].postingDate == 0 && b.jobs == []
    ensures var posted := Post(b, 0).0;
      var c := Export(posted, 0, 0, {}).0;
      && Postable(b, 0) && ExportOverlap.Proceeds(posted, 0, 0, {})
      && |c.entries| == 1 && c.entries[0].status == Exported && c.entries[0].exportedIn == Some(0)
      && |c.lines| == |b.lines| && |c.events| == |b.events|
  {
    var posted := Post(b, 0).0;
    assert GoodEntry(b, 0);
    MirroredEntryBalances(b.lines, 0);
    PostKeepsInv(b, 0);
    EntriesWithSound(posted, EntryStatus.Posted, 0, 0);
    assert 0 in EntriesWith(posted, EntryStatus.Posted, 0, 0);
    JournalTheorems.ExportSucceedsIff(posted, 0, 0, {});
    GatheredEntry(posted, 0, 0, 0);
  }

  /** A fee whose call has created the entry and its two net lines; the VAT lines are still to come. */
  function HalfBuilt(): State {
    var lines := NewLines(0, AFee(), AConfig());
    State(Books([AFee()], [EntryOf(BuildWork(AConfig()), 0, AFee())], NetLines(0, AFee(), AConfig()), []),
          map[0 := Writing(BuildWork(AConfig()), 0, AFee(), 0, lines[2..])], map[], map[])
  }

  lemma FeeLines()
    ensures |NetLines(0, AFee(), AConfig())| == 2 && |NewLines(0, AFee(), AConfig())| == 4
    ensures FreshLines(NetLines(0, AFee(), AConfig()), 0, 0) && FreshLines(NewLines(0, AFee(), AConfig()), 0, 0)
  {
    assert VatCentsFromNet(10000, 19.0) == 1900;
    Bookable();
    NetLinesMirrored(0, AFee(), AConfig());
    NewLinesFresh(0, AFee(), AConfig());
  }

  function BuildHalf(): seq<Action> {
    [Arrives(AFee()), Looks(0)] + Nexts(0, 3)
  }

  lemma RunHalf(s: State)
    requires s == LookedAt(AFee())
    ensures Run(s, Nexts(0, 3)) == HalfBuilt()
  {
    var net, lines := NetLines(0, AFee(), AConfig()), NewLines(0, AFee(), AConfig());
    FeeLines();
    var one := NextNow(s, 0);
    var two := NextNow(one, 0);
    var three := NextNow(two, 0);
    RunNexts(s, 0, 3);
    RunNexts(one, 0, 2);
    RunNexts(two, 0, 1);
    assert two.books.lines == [lines[0]] && two.calls[0].todo == lines[1..];
    assert three.books.lines == net && three.calls[0].todo == lines[2..];
    assert three.calls == HalfBuilt().calls;
  }

  lemma RunBuildHalf()
    ensures Run(Start(), BuildHalf()) == HalfBuilt()
  {
    RunAppend(Start(), [Arrives(AFee()), Looks(0)], Nexts(0, 3));
    Bookable();
    RunLooks(AFee());
    RunHalf(LookedAt(AFee()));
  }

  lemma HalfBuiltIsGood()
    ensures Inv(HalfBuilt().books)
  {
    Bookable();
    FeeLines();
    EntryAdded(Received(AFee()).books, EntryOf(BuildWork(AConfig()), 0, AFee()), NetLines(0, AFee(), AConfig()));
    assert WithEntry(Received(AFee()).books, EntryOf(BuildWork(AConfig()), 0, AFee()), NetLines(0, AFee(), AConfig())) == HalfBuilt().books;
  }

  lemma RunPost(s: State)
    requires 0 !in s.posts
    ensures Run(s, [PostRead(0, 0), PostNext(0), PostNext(0)]) == s.(books := Post(s.books, 0).0)
  {
    RunThree(s, PostRead(0, 0), PostNext(0), PostNext(0));
    UndisturbedPost(s, 0, 0);
  }

  lemma StepsOfExport(s: State)
    ensures Step(Step(s, GatherFor(0, 0, 0, {})), LockHeld(0)) == LockNow(GatherNow(s, 0, 0, 0, {}), 0)
  {
  }

  lemma RunExport(s: State)
    requires 0 !in s.exports
    ensures Run(s, [GatherFor(0, 0, 0, {}), LockHeld(0)]) == s.(books := Export(s.books, 0, 0, {}).0)
  {
    RunTwo(s, GatherFor(0, 0, 0, {}), LockHeld(0));
    StepsOfExport(s);
    UndisturbedExport(s, 0, 0, 0, {});
  }

  function PostAndExport(): seq<Action> {
    [PostRead(0, 0), PostNext(0), PostNext(0)] + [GatherFor(0, 0, 0, {}), LockHeld(0)]
  }

  lemma RunPostAndExport(s: State)
    requires 0 !in s.posts && 0 !in s.exports
    ensures Run(s, PostAndExport()) == s.(books := Export(Post(s.books, 0).0, 0, 0, {}).0)
  {
    RunAppend(s, [PostRead(0, 0), PostNext(0), PostNext(0)], [GatherFor(0, 0, 0, {}), LockHeld(0)]);
    RunPost(s);
    RunExport(s.(books := Post(s.books, 0).0));
  }

  /** Line i is not locked although its entry is exported, and no export will ever gather it. */
  predicate LeftBehind(b: Books, i: nat) {
    && i < |b.lines| && b.lines[i].exportJob == None
    && b.lines[i].entry < |b.entries| && b.entries[b.lines[i].entry].status == Exported
  }

  lemma LeftBehindIsNeverGathered(b: Books, i: nat, lo: int, hi: int)
    requires LeftBehind(b, i)
    ensures i !in Gather(b, lo, hi).lineIds
  {
    EntriesWithSound(b, EntryStatus.Posted, lo, hi);
    GatherLinesSound(b.lines, EntriesWith(b, EntryStatus.Posted, lo, hi));
  }

  lemma LinesAfterExport(b: Books, i: nat, l: JournalLine)
    requires i < |b.lines| && b.lines[i] == l && l.exportJob == None && l.entry == 0
    requires |b.entries| == 1 && b.entries[0].status == Exported && b.entries[0].exportedIn == Some(0)
    ensures LeftBehind(b, i) && !GoodLine(b, i)
  {
  }

  /** The call goes on after its entry was exported. */
  lemma FinishTooLate(s: State)
    requires s.calls == HalfBuilt().calls && |s.books.lines| == 2
    requires |s.books.entries| == 1 && s.books.entries[0].status == Exported && s.books.entries[0].exportedIn == Some(0)
    ensures var b := Run(s, Nexts(0, 3)).books; |b.lines| == 4 && LeftBehind(b, 2) && LeftBehind(b, 3) && !Orderly(b)
  {
    var todo := s.calls[0].todo;
    FeeLines();
    assert todo == NewLines(0, AFee(), AConfig())[2..];
    RunFinishes(s, 0, 3);
    FinishWriting(s, 0);
    var b := Finish(s, 0).books;
    LinesAfterExport(b, 2, todo[0]);
    LinesAfterExport(b, 3, todo[1]);
  }

  /**
   * A fee is posted and exported between its net lines and its VAT lines: both VAT lines are left behind, and no look has
   * overlapped.
   */
  lemma VatLinesLeftBehind()
    ensures var b := Run(Start(), BuildHalf() + PostAndExport() + Nexts(0, 3)).books;
      |b.lines| == 4 && LeftBehind(b, 2) && LeftBehind(b, 3) && !Orderly(b)
  {
    RunAppend(Start(), BuildHalf() + PostAndExport(), Nexts(0, 3));
    RunAppend(Start(), BuildHalf(), PostAndExport());
    RunBuildHalf();
    RunPostAndExport(HalfBuilt());
    HalfBuiltIsGood();
    FeeLines();
    PostedAndExported(HalfBuilt().books);
    FinishTooLate(HalfBuilt().(books := Export(Post(HalfBuilt().books, 0).0, 0, 0, {}).0));
  }

  // ----- a post that comes too late -----

  function Build(): seq<Action> {
    [Arrives(ASale()), Looks(0)] + Nexts(0, 4)
  }

  function SaleBuilt(): State {
    State(BuildDraft(Received(ASale()).books, 0, AConfig()).0, map[], map[], map[])
  }

  lemma RunFour(s: State)
    requires s == LookedAt(ASale())
    ensures Run(s, Nexts(0, 4)) == SaleBuilt()
  {
    Bookable();
    RunFinishes(s, 0, 4);
    UndisturbedBuild(Received(ASale()), 0, 0, AConfig());
    assert LookNow(Received(ASale()), 0, BuildWork(AConfig()), 0) == s;
  }

  lemma RunBuild()
    ensures Run(Start(), Build()) == SaleBuilt()
  {
    RunAppend(Start(), [Arrives(ASale()), Looks(0)], Nexts(0, 4));
    Bookable();
    RunLooks(ASale());
    RunFour(LookedAt(ASale()));
  }

  lemma BuiltSale()
    ensures var b := SaleBuilt().books;
      Inv(b) && |b.entries| == 1 && b.entries[0].status == Draft && b.entries[0].postingDate == 0 && b.jobs == []
  {
    Bookable();
    BuildKeepsInv(Received(ASale()).books, 0, AConfig());
  }

  lemma MarkedAgain(s: State)
    requires s.posts == map[1 := Posting(0, false)]
    requires |s.books.entries| == 1 && s.books.entries[0].status == Exported && s.books.entries[0].exportedIn == Some(0)
    ensures var b := Run(s, [PostNext(1)]).books;
      |b.entries| == 1 && b.entries[0].status == EntryStatus.Posted && b.entries[0].exportedIn == Some(0) && !Orderly(b)
  {
    RunOne(s, PostNext(1));
    var e := Step(s, PostNext(1)).books.entries[0];
    assert e.status != Exported && e.exportedIn.Some?;
  }

  function ReadByBoth(): State {
    SaleBuilt().(posts := map[1 := Posting(0, false)])
  }

  lemma OneReads(s: State)
    requires s.posts == map[] && Postable(s.books, 0)
    ensures Run(s, [PostRead(1, 0)]) == s.(posts := map[1 := Posting(0, false)])
  {
    RunOne(s, PostRead(1, 0));
  }

  lemma RunRead()
    ensures Run(SaleBuilt(), [PostRead(1, 0)]) == ReadByBoth()
  {
    BuiltSale();
    PostedAndExported(SaleBuilt().books);
    OneReads(SaleBuilt());
  }

  lemma RunToTheEnd()
    ensures var b := Run(ReadByBoth(), PostAndExport() + [PostNext(1)]).books;
      |b.entries| == 1 && b.entries[0].status == EntryStatus.Posted && b.entries[0].exportedIn == Some(0) && !Orderly(b)
  {
    BuiltSale();
    PostedAndExported(SaleBuilt().books);
    RunAppend(ReadByBoth(), PostAndExport(), [PostNext(1)]);
    RunPostAndExport(ReadByBoth());
    MarkedAgain(ReadByBoth().(books := Export(Post(SaleBuilt().books, 0).0, 0, 0, {}).0));
  }

  /** Two posts read one draft; one of them posts it, it is exported, and the other one takes it back to posted. */
  lemma ExportedIsPostedAgain()
    ensures var b := Run(Start(), (Build() + [PostRead(1, 0)]) + (PostAndExport() + [PostNext(1)])).books;
      |b.entries| == 1 && b.entries[0].status == EntryStatus.Posted && b.entries[0].exportedIn == Some(0) && !Orderly(b)
  {
    RunAppend(Start(), Build() + [PostRead(1, 0)], PostAndExport() + [PostNext(1)]);
    RunAppend(Start(), Build(), [PostRead(1, 0)]);
    RunBuild();
    RunRead();
    RunToTheEnd();
  }
}
