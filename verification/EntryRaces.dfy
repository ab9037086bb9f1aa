/** When an event can get two entries of one kind, whatever else the journal's calls do meanwhile. */
module EntryRaces {
  import opened Journal
  import opened JournalInvariant
  import opened JournalOverlap
  import opened JournalRaces
  import JournalTheorems

  predicate CallKnown(b: Books, c: Call) {
    && c.id < |b.events|
    && match c
       case Looked(w, id, _) => NoEntryYet(b, id, KindOf(w))
       case Writing(_, _, _, _, _) => Makes(b, c)
  }

  /** Every stored true-up is known to its event, or its call is still open. */
  predicate TrueUpsKnown(s: State) {
    forall k :: 0 <= k < |s.books.entries| && s.books.entries[k].kind == TrueUp ==>
      s.books.entries[k].event < |s.books.events| && (s.books.events[s.books.entries[k].event].trueUpPosted || Open(s, k))
  }

  /** Distinct entries, with room for those that the open calls are making. */
  predicate Tidy(s: State) {
    && DistinctEntries(s.books) && TrueUpsKnown(s) && OneCallEach(s)
    && forall p :: p in s.calls ==> CallKnown(s.books, s.calls[p])
  }

  predicate SameKeys(b: Books, c: Books) {
    |b.entries| == |c.entries|
    && forall k :: 0 <= k < |b.entries| ==> b.entries[k].event == c.entries[k].event && b.entries[k].kind == c.entries[k].kind
  }

  predicate SameCall(c: Call, d: Call) {
    c.work == d.work && c.id == d.id && c.Looked? == d.Looked? && (c.Writing? ==> c.entry == d.entry)
  }

  predicate SameCalls(s: State, s': State) {
    s.calls.Keys == s'.calls.Keys && forall p :: p in s.calls ==> SameCall(s.calls[p], s'.calls[p])
  }

  lemma SameCallsSameOpen(s: State, s': State, k: nat)
    requires SameCalls(s, s') && Open(s, k)
    ensures Open(s', k)
  {
    var p :| p in s.calls && s.calls[p].Writing? && s.calls[p].entry == k;
    assert SameCall(s.calls[p], s'.calls[p]);
  }

  /** Most steps leave entries, calls and the true-up marks of events alone in all that matters here. */
  lemma FrameKeepsTidy(s: State, s': State)
    requires Tidy(s) && SameKeys(s.books, s'.books) && EventsKept(s.books.events, s'.books.events) && SameCalls(s, s')
    ensures Tidy(s')
  {
    forall k | 0 <= k < |s'.books.entries| && s'.books.entries[k].kind == TrueUp
      ensures s'.books.entries[k].event < |s'.books.events|
      ensures s'.books.events[s'.books.entries[k].event].trueUpPosted || Open(s', k)
    {
      if Open(s, k) {
        SameCallsSameOpen(s, s', k);
      }
    }
    forall p | p in s'.calls ensures CallKnown(s'.books, s'.calls[p]) {
      assert CallKnown(s.books, s.calls[p]) && SameCall(s.calls[p], s'.calls[p]);
    }
    forall p, q | p in s'.calls && q in s'.calls && p != q
      ensures (s'.calls[p].id, KindOf(s'.calls[p].work)) != (s'.calls[q].id, KindOf(s'.calls[q].work))
    {
      assert SameCall(s.calls[p], s'.calls[p]) && SameCall(s.calls[q], s'.calls[q]);
    }
  }

  lemma StartedIsKnown(s: State, w: Work, id: nat)
    requires Tidy(s) && Starts(s.books, w, id)
    requires forall q :: q in s.calls ==> (s.calls[q].id, KindOf(s.calls[q].work)) != (id, KindOf(w))
    ensures CallKnown(s.books, Looked(w, id, s.books.events[id]))
  {
    FirstEntrySound(s.books.entries, id, 0);
    if w.TrueUpWork? {
      forall k | 0 <= k < |s.books.entries| && s.books.entries[k].event == id ensures s.books.entries[k].kind != TrueUp {
        if Open(s, k) {
          var q :| q in s.calls && s.calls[q].Writing? && s.calls[q].entry == k;
          assert CallKnown(s.books, s.calls[q]);
        }
      }
    }
  }

  lemma WithKnown(s: State, p: nat, c: Call)
    requires Tidy(s) && p !in s.calls && c.Looked? && CallKnown(s.books, c)
    requires forall q :: q in s.calls ==> (s.calls[q].id, KindOf(s.calls[q].work)) != (c.id, KindOf(c.work))
    ensures Tidy(s.(calls := s.calls[p := c]))
  {
    SameWriters(s, s.(calls := s.calls[p := c]));
  }

  lemma LookKeepsTidyIff(s: State, a: Action)
    requires Tidy(s) && a.Look?
    ensures Tidy(Step(s, a)) <==> !OverlappingLook(s, a)
  {
    if OverlappingLook(s, a) {
      var q :| q in s.calls && s.calls[q].id == a.id && KindOf(s.calls[q].work) == KindOf(a.work);
      var t := Step(s, a);
      assert q != a.p && t.calls[q] == s.calls[q] && t.calls[a.p] == Looked(a.work, a.id, s.books.events[a.id]);
      assert !OneCallEach(t);
    } else if Step(s, a) != s {
      StartedIsKnown(s, a.work, a.id);
      WithKnown(s, a.p, Looked(a.work, a.id, s.books.events[a.id]));
    }
  }

  lemma CreateKeepsKnown(s: State, p: nat)
    requires Tidy(s) && p in s.calls && s.calls[p].Looked?
    ensures DistinctEntries(CreateEntry(s, p).books) && TrueUpsKnown(CreateEntry(s, p))
  {
    var s', n := CreateEntry(s, p), |s.books.entries|;
    assert CallKnown(s.books, s.calls[p]);
    forall k | 0 <= k <= n && s'.books.entries[k].kind == TrueUp
      ensures s'.books.entries[k].event < |s'.books.events|
      ensures s'.books.events[s'.books.entries[k].event].trueUpPosted || Open(s', k)
    {
      if k < n {
        CreatedWriters(s, p, k);
      } else {
        assert s'.calls[p].entry == n;
      }
    }
  }

  lemma CreateKeepsTidy(s: State, p: nat)
    requires Tidy(s) && p in s.calls && s.calls[p].Looked?
    ensures Tidy(CreateEntry(s, p))
  {
    var s' := CreateEntry(s, p);
    CreateKeepsKnown(s, p);
    assert CallKnown(s.books, s.calls[p]);
    forall q | q in s'.calls ensures CallKnown(s'.books, s'.calls[q]) {
      assert CallKnown(s.books, s.calls[q]);
    }
  }

  lemma CloseKeepsTidy(s: State, p: nat)
    requires Tidy(s) && p in s.calls && s.calls[p].Writing? && s.calls[p].todo == []
    ensures Tidy(Close(s, p))
  {
    var s' := Close(s, p);
    assert CallKnown(s.books, s.calls[p]);
    ClosedKeepEvents(s, p);
    forall k | 0 <= k < |s'.books.entries| && s'.books.entries[k].kind == TrueUp
      ensures s'.books.entries[k].event < |s'.books.events|
      ensures s'.books.events[s'.books.entries[k].event].trueUpPosted || Open(s', k)
    {
      ClosedWriters(s, p, k);
    }
    forall q | q in s'.calls ensures CallKnown(s'.books, s'.calls[q]) {
      assert CallKnown(s.books, s.calls[q]);
    }
  }

  lemma NextKeepsTidy(s: State, p: nat)
    requires Tidy(s)
    ensures Tidy(NextNow(s, p))
  {
    if p in s.calls {
      if s.calls[p].Looked? {
        CreateKeepsTidy(s, p);
      } else if s.calls[p].todo != [] {
        FrameKeepsTidy(s, CreateLine(s, p));
      } else {
        CloseKeepsTidy(s, p);
      }
    }
  }

  lemma PostNextKeepsTidy(s: State, p: nat)
    requires Tidy(s)
    ensures Tidy(PostNextNow(s, p))
  {
    FrameKeepsTidy(s, PostNextNow(s, p));
  }

  lemma LockKeepsTidy(s: State, p: nat)
    requires Tidy(s)
    ensures Tidy(LockNow(s, p))
  {
    FrameKeepsTidy(s, LockNow(s, p));
  }

  lemma OtherKeepsTidy(s: State, c: JournalTheorems.Command)
    requires Tidy(s)
    ensures Tidy(Step(s, Other(c)))
  {
    FrameKeepsTidy(s, Step(s, Other(c)));
  }

  lemma ReadsKeepTidy(s: State, posts: map<nat, Posting>, exports: map<nat, Held>)
    requires Tidy(s)
    ensures Tidy(s.(posts := posts, exports := exports))
  {
    FrameKeepsTidy(s, s.(posts := posts, exports := exports));
  }

  /** Of all steps, whatever state posts and exports are in, exactly the overlapping looks make room for a second entry. */
  lemma TidyKeptIff(s: State, a: Action)
    requires Tidy(s)
    ensures Tidy(Step(s, a)) <==> !OverlappingLook(s, a)
  {
    match a
    case Look(_, _, _) => LookKeepsTidyIff(s, a);
    case Next(p) => NextKeepsTidy(s, p);
    case PostRead(p, k) => ReadsKeepTidy(s, PostReadNow(s, p, k).posts, s.exports);
    case PostNext(p) => PostNextKeepsTidy(s, p);
    case GatherFor(p, lo, hi, forbidden) => ReadsKeepTidy(s, s.posts, GatherNow(s, p, lo, hi, forbidden).exports);
    case LockHeld(p) => LockKeepsTidy(s, p);
    case Other(c) => OtherKeepsTidy(s, c);
  }

  // ----- over runs -----

  /** Entries are distinct, and stay so when any two open calls are completed. */
  predicate RoomForEntries(s: State) {
    DistinctEntries(s.books) && forall p, q :: p in s.calls && q in s.calls ==> DistinctEntries(Finish(Finish(s, p), q).books)
  }

  lemma {:induction false} FinishKeepsTidy(s: State, p: nat)
    requires Tidy(s)
    ensures Tidy(Finish(s, p))
    decreases p in s.calls && s.calls[p].Looked?, if p in s.calls && s.calls[p].Writing? then |s.calls[p].todo| + 1 else 0
  {
    if p in s.calls {
      NextKeepsTidy(s, p);
      FinishKeepsTidy(NextNow(s, p), p);
    }
  }

  predicate StaysDistinct(s: State, actions: seq<Action>)
    decreases |actions|
  {
    RoomForEntries(s) && (actions != [] ==> StaysDistinct(Step(s, actions[0]), actions[1..]))
  }

  predicate NoOverlappingLook(s: State, actions: seq<Action>)
    decreases |actions|
  {
    actions == [] || (!OverlappingLook(s, actions[0]) && NoOverlappingLook(Step(s, actions[0]), actions[1..]))
  }

  lemma TidyHasRoom(s: State)
    requires Tidy(s)
    ensures RoomForEntries(s)
  {
    forall p, q | p in s.calls && q in s.calls ensures DistinctEntries(Finish(Finish(s, p), q).books) {
      FinishKeepsTidy(s, p);
      FinishKeepsTidy(Finish(s, p), q);
    }
  }

  lemma OverlappingLookDoubles(s: State, a: Action)
    requires Tidy(s) && OverlappingLook(s, a)
    ensures !RoomForEntries(Step(s, a))
  {
    var q :| q in s.calls && s.calls[q].id == a.id && KindOf(s.calls[q].work) == KindOf(a.work);
    assert CallKnown(s.books, s.calls[q]);
    TwoEntries(Step(s, a), a.p, q);
  }

  /**
   * Over any run, events have at most one built entry and one true-up (with room for the calls under way) if and only if no
   * call looks while another one is making an entry of the same kind for the event. No post or export matters.
   */
  lemma {:induction false} StaysDistinctIff(s: State, actions: seq<Action>)
    requires Tidy(s)
    ensures StaysDistinct(s, actions) <==> NoOverlappingLook(s, actions)
    decreases |actions|
  {
    TidyHasRoom(s);
    if actions != [] {
      var next := Step(s, actions[0]);
      TidyKeptIff(s, actions[0]);
      if OverlappingLook(s, actions[0]) {
        OverlappingLookDoubles(s, actions[0]);
        assert !StaysDistinct(next, actions[1..]);
      } else {
        StaysDistinctIff(next, actions[1..]);
      }
    }
  }
}
