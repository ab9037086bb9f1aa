/**
 * The journal's calls as single repository calls that may interleave: a build or a true-up looks, creates the entry, its
 * lines one by one, and updates the event; a post reads and writes; an export gathers and locks. Nothing in the store
 * keeps two entries of one event, or a line and its entry's lock, apart. A call that dies takes no further step.
 */
module JournalOverlap {
  import opened Wrappers
  import opened Datev
  import opened AccountMapping
  import opened FeeVat
  import opened Journal
  import JournalTheorems
  import ExportOverlap
  import Pairing

  // ----- the calls -----

  /** What a call that makes an entry wants to make of its event. */
  datatype Work = BuildWork(config: ClearingConfig) | TrueUpWork(delta: int, actual: int, config: ClearingConfig)

  /** A call that has looked, with the event as it was read; then one that has created its entry and `todo` has to follow. */
  datatype Call =
    | Looked(work: Work, id: nat, event: Event)
    | Writing(work: Work, id: nat, event: Event, entry: nat, todo: seq<JournalLine>)

  /** A post that has found its entry balanced; `written` says that the entry is marked and only the event is left. */
  datatype Posting = Posting(entry: nat, written: bool)

  /** An export that has gathered valid rows. */
  datatype Held = Held(g: Gathered, rows: seq<Row>)

  datatype State = State(books: Books, calls: map<nat, Call>, posts: map<nat, Posting>, exports: map<nat, Held>)

  function Start(): State {
    State(Empty(), map[], map[], map[])
  }

  function KindOf(w: Work): Kind {
    if w.BuildWork? then Built else TrueUp
  }

  function EntryOf(w: Work, id: nat, e: Event): Entry {
    Entry(KindOf(w), id, PostingDate(e), e.reference, if w.BuildWork? then Draft else EntryStatus.Posted, None)
  }

  function LinesOf(w: Work, entry: nat, e: Event): seq<JournalLine> {
    match w
    case BuildWork(config) => NewLines(entry, e, config)
    case TrueUpWork(delta, _, config) => TrueUpLines(entry, e, delta, config)
  }

  /** The last write: some fields of the stored event; a true-up also writes back amounts that it has read. */
  function Closed(w: Work, read: Event, entry: nat, e: Event): Event {
    match w
    case BuildWork(_) => e.(journalEntry := Some(entry), status := EventDraft)
    case TrueUpWork(_, actual, _) =>
      e.(eurAmountCents := Some(actual), originalAmountCents := read.originalAmountCents, trueUpPosted := true)
  }

  predicate AccountsSet(marketplace: Option<Marketplace>, config: ClearingConfig) {
    var mp := AccountsOf(marketplace, config);
    mp.fxGain != "" && mp.fxLoss != "" && mp.clearing != ""
  }

  /** The event as it was read gives an entry with lines. */
  predicate Writable(w: Work, e: Event) {
    match w
    case BuildWork(config) => Refusal(e) == None && AmountRefusal(e, config) == None
    case TrueUpWork(delta, _, config) => delta != 0 && AccountsSet(e.marketplace, config)
  }

  predicate IsPosted(b: Books, entry: Option<nat>) {
    entry.Some? && entry.value < |b.entries| && b.entries[entry.value].status != Draft
  }

  /** No check of the call stops it: it goes on to create an entry. */
  predicate Starts(b: Books, w: Work, id: nat) {
    && id < |b.events| && Writable(w, b.events[id])
    && match w
       case BuildWork(_) => FindByEvent(b.entries, id) == None
       case TrueUpWork(_, _, config) =>
         !b.events[id].trueUpPosted && config.provisionalFx && IsPosted(b, FindByEvent(b.entries, id))
  }

  // ----- single repository calls as steps -----

  /** `Other`: new and changed events; the bulk calls are sequences of the single ones. */
  datatype Action =
    | Look(p: nat, work: Work, id: nat)
    | Next(p: nat)
    | PostRead(p: nat, entry: nat)
    | PostNext(p: nat)
    | GatherFor(p: nat, lo: int, hi: int, forbidden: set<string>)
    | LockHeld(p: nat)
    | Other(c: JournalTheorems.Command)

  function LookNow(s: State, p: nat, w: Work, id: nat): State {
    if p in s.calls || !Starts(s.books, w, id) then s
    else s.(calls := s.calls[p := Looked(w, id, s.books.events[id])])
  }

  function CreateEntry(s: State, p: nat): State
    requires p in s.calls && s.calls[p].Looked?
  {
    var Looked(w, id, e) := s.calls[p];
    var k := |s.books.entries|;
    s.(books := s.books.(entries := s.books.entries + [EntryOf(w, id, e)]),
       calls := s.calls[p := Writing(w, id, e, k, LinesOf(w, k, e))])
  }

  function CreateLine(s: State, p: nat): State
    requires p in s.calls && s.calls[p].Writing? && s.calls[p].todo != []
  {
    var c := s.calls[p];
    s.(books := s.books.(lines := s.books.lines + [c.todo[0]]), calls := s.calls[p := c.(todo := c.todo[1..])])
  }

  function ClosedEvents(b: Books, c: Call): seq<Event>
    requires c.Writing?
  {
    if c.id < |b.events| then b.events[c.id := Closed(c.work, c.event, c.entry, b.events[c.id])] else b.events
  }

  function Close(s: State, p: nat): State
    requires p in s.calls && s.calls[p].Writing?
  {
    s.(books := s.books.(events := ClosedEvents(s.books, s.calls[p])), calls := s.calls - {p})
  }

  /** The entry, then line after line, then the event. */
  function NextNow(s: State, p: nat): State {
    if p !in s.calls then s
    else if s.calls[p].Looked? then CreateEntry(s, p)
    else if s.calls[p].todo != [] then CreateLine(s, p)
    else Close(s, p)
  }

  predicate Postable(b: Books, k: nat) {
    k < |b.entries| && b.entries[k].status == Draft && SumsAgree(b.lines, k)
  }

  function PostReadNow(s: State, p: nat, k: nat): State {
    if p in s.posts || !Postable(s.books, k) then s else s.(posts := s.posts[p := Posting(k, false)])
  }

  function MarkEntry(b: Books, k: nat): Books {
    if k < |b.entries| then b.(entries := b.entries[k := b.entries[k].(status := EntryStatus.Posted)]) else b
  }

  function MarkEvent(b: Books, k: nat): Books {
    if k < |b.entries| && b.entries[k].event < |b.events| then
      var id := b.entries[k].event;
      b.(events := b.events[id := b.events[id].(status := EventPosted)])
    else b
  }

  /** Neither write looks at the entry again. */
  function PostNextNow(s: State, p: nat): State {
    if p !in s.posts then s
    else
      var k := s.posts[p].entry;
      if s.posts[p].written then s.(books := MarkEvent(s.books, k), posts := s.posts - {p})
      else s.(books := MarkEntry(s.books, k), posts := s.posts[p := Posting(k, true)])
  }

  function HeldFrom(b: Books, lo: int, hi: int): Held {
    var g := Gather(b, lo, hi);
    Held(g, Pairing.RowsOf(Pairing.Pair(g.inputs)))
  }

  function GatherNow(s: State, p: nat, lo: int, hi: int, forbidden: set<string>): State {
    if p in s.exports || !ExportOverlap.Proceeds(s.books, lo, hi, forbidden) then s
    else s.(exports := s.exports[p := HeldFrom(s.books, lo, hi)])
  }

  function LockNow(s: State, p: nat): State {
    if p !in s.exports then s
    else s.(books := Lock(s.books, s.exports[p].g, s.exports[p].rows), exports := s.exports - {p})
  }

  function Step(s: State, a: Action): State {
    match a
    case Look(p, w, id) => LookNow(s, p, w, id)
    case Next(p) => NextNow(s, p)
    case PostRead(p, k) => PostReadNow(s, p, k)
    case PostNext(p) => PostNextNow(s, p)
    case GatherFor(p, lo, hi, forbidden) => GatherNow(s, p, lo, hi, forbidden)
    case LockHeld(p) => LockNow(s, p)
    case Other(c) => if c.NewEvent? || c.ChangeEvent? then s.(books := JournalTheorems.Execute(s.books, c)) else s
  }

  function Run(s: State, actions: seq<Action>): State
    decreases |actions|
  {
    if actions == [] then s else Run(Step(s, actions[0]), actions[1..])
  }

  /** The rest of a call that makes an entry. */
  function Finish(s: State, p: nat): State
    decreases p in s.calls && s.calls[p].Looked?, if p in s.calls && s.calls[p].Writing? then |s.calls[p].todo| + 1 else 0
  {
    if p in s.calls then Finish(NextNow(s, p), p) else s
  }

  // ----- calls that nobody comes between -----

  lemma {:induction false} FinishWriting(s: State, p: nat)
    requires p in s.calls && s.calls[p].Writing?
    ensures var c := s.calls[p];
      Finish(s, p) == s.(books := s.books.(lines := s.books.lines + c.todo, events := ClosedEvents(s.books, c)),
                         calls := s.calls - {p})
    decreases |s.calls[p].todo|
  {
    var c := s.calls[p];
    if c.todo != [] {
      var next := CreateLine(s, p);
      FinishWriting(next, p);
      assert Finish(s, p) == Finish(next, p);
      assert next.calls - {p} == s.calls - {p};
      assert s.books.lines + [c.todo[0]] + c.todo[1..] == s.books.lines + c.todo;
    } else {
      var next := Close(s, p);
      assert Finish(s, p) == Finish(next, p) == next;
      assert s.books.lines + [] == s.books.lines;
    }
  }

  lemma FinishLooked(s: State, p: nat)
    requires p in s.calls && s.calls[p].Looked?
    ensures var Looked(w, id, e) := s.calls[p];
      var k := |s.books.entries|;
      Finish(s, p) == s.(books := Books(ClosedEvents(s.books, Writing(w, id, e, k, [])), s.books.entries + [EntryOf(w, id, e)],
                                        s.books.lines + LinesOf(w, k, e), s.books.jobs),
                         calls := s.calls - {p})
  {
    var next := CreateEntry(s, p);
    FinishWriting(next, p);
    assert Finish(s, p) == Finish(next, p);
    assert next.calls - {p} == s.calls - {p};
  }

  /** A build that nobody comes between is the whole build call. */
  lemma UndisturbedBuild(s: State, p: nat, id: nat, config: ClearingConfig)
    requires p !in s.calls
    ensures Finish(LookNow(s, p, BuildWork(config), id), p) == s.(books := BuildDraft(s.books, id, config).0)
  {
    var looked := LookNow(s, p, BuildWork(config), id);
    if looked != s {
      FinishLooked(looked, p);
      assert looked.calls - {p} == s.calls;
    }
  }

  /** So is a true-up. */
  lemma UndisturbedTrueUp(s: State, p: nat, id: nat, delta: int, actual: int, config: ClearingConfig)
    requires p !in s.calls
    ensures Finish(LookNow(s, p, TrueUpWork(delta, actual, config), id), p) ==
      s.(books := FxTrueUp(s.books, id, delta, actual, config).0)
  {
    var looked := LookNow(s, p, TrueUpWork(delta, actual, config), id);
    if looked != s {
      FinishLooked(looked, p);
      assert looked.calls - {p} == s.calls;
    }
  }

  /** And a post: a read and two writes. */
  lemma UndisturbedPost(s: State, p: nat, k: nat)
    requires p !in s.posts
    ensures PostNextNow(PostNextNow(PostReadNow(s, p, k), p), p) == s.(books := Post(s.books, k).0)
  {
    var read := PostReadNow(s, p, k);
    if read != s {
      assert PostNextNow(read, p).posts - {p} == s.posts;
    }
  }

  /** And an export. */
  lemma UndisturbedExport(s: State, p: nat, lo: int, hi: int, forbidden: set<string>)
    requires p !in s.exports
    ensures LockNow(GatherNow(s, p, lo, hi, forbidden), p) == s.(books := Export(s.books, lo, hi, forbidden).0)
  {
    ExportIsLock(s.books, lo, hi, forbidden);
    if ExportOverlap.Proceeds(s.books, lo, hi, forbidden) {
      var h := HeldFrom(s.books, lo, hi);
      assert s.exports[p := h] - {p} == s.exports;
    }
  }

  lemma ExportIsLock(b: Books, lo: int, hi: int, forbidden: set<string>)
    ensures ExportOverlap.Proceeds(b, lo, hi, forbidden) ==>
      Export(b, lo, hi, forbidden).0 == Lock(b, HeldFrom(b, lo, hi).g, HeldFrom(b, lo, hi).rows)
    ensures !ExportOverlap.Proceeds(b, lo, hi, forbidden) ==> Export(b, lo, hi, forbidden).0 == b
  {
  }

  /** To the finer steps of an export every other step here is one from outside. */
  lemma OthersAreOutside(s: State, a: Action)
    requires !a.GatherFor? && !a.LockHeld?
    ensures ExportOverlap.AddsLines(s.books, Step(s, a).books)
  {
  }
}
