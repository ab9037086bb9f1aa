/** What overlapping calls can do to a cash export, and exactly when: lists that overlap, and statuses that get lost. */
module ExportRaces {
  import opened Wrappers
  import opened Cash
  import opened ExportLock

  // ----- batch documents -----

  predicate Gathers(s: Store, p: nat, t: nat) {
    ProcOf(s, p).Gathered? && t in ProcOf(s, p).ids
  }

  predicate BatchesApart(s: Store) {
    forall b, c, t :: 0 <= b < c < |s.batches| && t in s.batches[b] ==> t !in s.batches[c]
  }

  /** No transaction is listed twice, neither in stored batches nor in what open calls have gathered for theirs. */
  ghost predicate ListsApart(s: Store) {
    && BatchesApart(s)
    && (forall p, b, t :: Gathers(s, p, t) && 0 <= b < |s.batches| ==> t !in s.batches[b])
    && (forall p, q, t :: p != q && Gathers(s, p, t) ==> !Gathers(s, q, t))
  }

  /** A gather of a transaction that another call has gathered, or that a stored batch lists without having marked it. */
  ghost predicate OverlappingGather(s: Store, a: Action) {
    && a.Gather? && ProcOf(s, a.p) == Idle && CanGather(s, a.ids)
    && exists t :: t in a.ids && ((exists q :: Gathers(s, q, t)) || exists b :: 0 <= b < |s.batches| && t in s.batches[b])
  }

  lemma GatherKeepsListsIff(s: Store, a: Action)
    requires ListsApart(s) && a.Gather?
    ensures ListsApart(Step(s, a)) <==> !OverlappingGather(s, a)
  {
    var s' := Step(s, a);
    if ProcOf(s, a.p) == Idle && CanGather(s, a.ids) {
      forall q: nat, t: nat ensures Gathers(s', q, t) <==> (Gathers(s, q, t) || (q == a.p && t in a.ids)) {
      }
      if OverlappingGather(s, a) {
        var t :| t in a.ids && ((exists q :: Gathers(s, q, t)) || exists b :: 0 <= b < |s.batches| && t in s.batches[b]);
        assert Gathers(s', a.p, t);
        if q :| Gathers(s, q, t) {
          assert Gathers(s', q, t) && q != a.p;
        }
      } else {
        forall t | t in a.ids ensures forall b :: 0 <= b < |s.batches| ==> t !in s.batches[b] {
        }
        forall q, t | Gathers(s, q, t) ensures t !in a.ids {
        }
      }
    }
  }

  lemma CreateBatchKeepsLists(s: Store, p: nat)
    requires ListsApart(s)
    ensures ListsApart(Step(s, CreateBatch(p)))
  {
    var s' := Step(s, CreateBatch(p));
    if ProcOf(s, p).Gathered? {
      forall q: nat, t: nat ensures Gathers(s', q, t) <==> q != p && Gathers(s, q, t) {
      }
      forall t | t in ProcOf(s, p).ids ensures Gathers(s, p, t) {
      }
    }
  }

  lemma OtherStepsKeepLists(s: Store, a: Action)
    requires ListsApart(s) && !a.Gather? && !a.CreateBatch?
    ensures ListsApart(Step(s, a))
  {
    var s' := Step(s, a);
    assert s'.batches == s.batches;
    forall q: nat, t: nat | Gathers(s', q, t) ensures Gathers(s, q, t) {
    }
  }

  /** Of all steps exactly the overlapping gathers make two lists overlap. */
  lemma ListsApartKeptIff(s: Store, a: Action)
    requires ListsApart(s)
    ensures ListsApart(Step(s, a)) <==> !OverlappingGather(s, a)
  {
    match a
    case Gather(_, _) => GatherKeepsListsIff(s, a);
    case CreateBatch(p) => CreateBatchKeepsLists(s, p);
    case _ => OtherStepsKeepLists(s, a);
  }

  /** The batch documents are disjoint, and stay so when any two calls under way store theirs. */
  ghost predicate Room(s: Store) {
    && BatchesApart(s)
    && (forall p :: BatchesApart(Step(s, CreateBatch(p))))
    && (forall p, q :: BatchesApart(Step(Step(s, CreateBatch(p)), CreateBatch(q))))
  }

  lemma ApartHasRoom(s: Store)
    requires ListsApart(s)
    ensures Room(s)
  {
    forall p: nat ensures BatchesApart(Step(s, CreateBatch(p))) {
      CreateBatchKeepsLists(s, p);
    }
    forall p: nat, q: nat ensures BatchesApart(Step(Step(s, CreateBatch(p)), CreateBatch(q))) {
      CreateBatchKeepsLists(s, p);
      CreateBatchKeepsLists(Step(s, CreateBatch(p)), q);
    }
  }

  lemma ListedTwice(s: Store, p: nat, b: nat, t: nat)
    requires Gathers(s, p, t) && b < |s.batches| && t in s.batches[b]
    ensures !BatchesApart(Step(s, CreateBatch(p)))
  {
    var one := Step(s, CreateBatch(p));
    assert t in one.batches[b] && t in one.batches[|s.batches|];
  }

  lemma GatheredTwice(s: Store, p: nat, q: nat, t: nat)
    requires Gathers(s, p, t) && Gathers(s, q, t) && p != q
    ensures !BatchesApart(Step(Step(s, CreateBatch(p)), CreateBatch(q)))
  {
    var one := Step(s, CreateBatch(p));
    assert Gathers(one, q, t) && t in one.batches[|s.batches|];
    ListedTwice(one, q, |s.batches|, t);
  }

  lemma OverlapHasNoRoom(s: Store, a: Action)
    requires OverlappingGather(s, a)
    ensures !Room(Step(s, a))
  {
    var s' := Step(s, a);
    var t :| t in a.ids && ((exists q :: Gathers(s, q, t)) || exists b :: 0 <= b < |s.batches| && t in s.batches[b]);
    assert Gathers(s', a.p, t);
    if q :| Gathers(s, q, t) {
      assert Gathers(s', q, t) && q != a.p;
      GatheredTwice(s', a.p, q, t);
    } else {
      var b :| 0 <= b < |s.batches| && t in s.batches[b];
      ListedTwice(s', a.p, b, t);
    }
  }

  ghost predicate StaysApart(s: Store, actions: seq<Action>)
    decreases |actions|
  {
    Room(s) && (actions != [] ==> StaysApart(Step(s, actions[0]), actions[1..]))
  }

  ghost predicate NoOverlappingGather(s: Store, actions: seq<Action>)
    decreases |actions|
  {
    actions == [] || (!OverlappingGather(s, actions[0]) && NoOverlappingGather(Step(s, actions[0]), actions[1..]))
  }

  /** Over any run the batch documents stay disjoint (with room for the calls under way) iff no gather overlaps. */
  lemma {:induction false} StaysApartIff(s: Store, actions: seq<Action>)
    requires ListsApart(s)
    ensures StaysApart(s, actions) <==> NoOverlappingGather(s, actions)
    decreases |actions|
  {
    ApartHasRoom(s);
    if actions != [] {
      var next := Step(s, actions[0]);
      ListsApartKeptIff(s, actions[0]);
      if OverlappingGather(s, actions[0]) {
        OverlapHasNoRoom(s, actions[0]);
        assert !StaysApart(next, actions[1..]);
      } else {
        StaysApartIff(next, actions[1..]);
      }
    }
  }

  // ----- the status "exported" -----

  /** The step executes a pending write on transaction t. */
  predicate Overwrites(s: Store, a: Action, t: nat) {
    a.WriteNext? && ProcOf(s, a.p).Writing? && ProcOf(s, a.p).todo != [] && ProcOf(s, a.p).todo[0].tx == t
  }

  /**
   * In every reachable state exactly the pending writes take the status "exported" away; and each of them was decided on
   * a status read before the export, or is the "skipped" of a merge.
   */
  lemma ExportedStatusLostIff(before: seq<Action>, a: Action, t: nat)
    requires var s := Run(Blank(), before); t < |s.docs| && s.docs[t].status == Exported
    ensures var s := Run(Blank(), before);
      && t < |Step(s, a).docs|
      && (Step(s, a).docs[t].status != Exported <==> Overwrites(s, a, t))
      && (Overwrites(s, a, t) ==> var w := ProcOf(s, a.p).todo[0]; w.seen != Exported || w.status == Skipped)
  {
    var s := Run(Blank(), before);
    RunKeeps(Blank(), before);
    StepKeeps(s, a);
    if a.WriteNext? && ProcOf(s, a.p).Writing? && ProcOf(s, a.p).todo != [] {
      assert GoodProc(s, a.p);
      assert ProcOf(s, a.p).todo[0] in ProcOf(s, a.p).todo;
    }
  }

  predicate StaysExported(s: Store, t: nat, actions: seq<Action>)
    decreases |actions|
  {
    && t < |s.docs| && s.docs[t].status == Exported
    && (actions != [] ==> StaysExported(Step(s, actions[0]), t, actions[1..]))
  }

  predicate NoOverwrite(s: Store, t: nat, actions: seq<Action>)
    decreases |actions|
  {
    actions == [] || (!Overwrites(s, actions[0], t) && NoOverwrite(Step(s, actions[0]), t, actions[1..]))
  }

  lemma RunSnoc(actions: seq<Action>, a: Action)
    ensures Run(Blank(), actions + [a]) == Step(Run(Blank(), actions), a)
  {
    RunAppend(Blank(), actions, [a]);
    assert [a][1..] == [];
  }

  lemma {:induction false} RunAppend(s: Store, a: seq<Action>, b: seq<Action>)
    ensures Run(s, a + b) == Run(Run(s, a), b)
    decreases |a|
  {
    if a == [] {
      assert a + b == b;
    } else {
      assert (a + b)[1..] == a[1..] + b;
      RunAppend(Step(s, a[0]), a[1..], b);
    }
  }

  /** Once exported, a transaction keeps that status over a run if and only if no pending write on it is executed. */
  lemma {:induction false} StaysExportedIff(before: seq<Action>, t: nat, actions: seq<Action>)
    requires var s := Run(Blank(), before); t < |s.docs| && s.docs[t].status == Exported
    ensures StaysExported(Run(Blank(), before), t, actions) <==> NoOverwrite(Run(Blank(), before), t, actions)
    decreases |actions|
  {
    if actions != [] {
      ExportedStatusLostIff(before, actions[0], t);
      RunSnoc(before, actions[0]);
      if !Overwrites(Run(Blank(), before), actions[0], t) {
        StaysExportedIff(before + [actions[0]], t, actions[1..]);
      }
    }
  }

  // ----- failing runs -----

  /** Transaction 0 is exported by caller 0. */
  function ExportSteps(): seq<Action> {
    [Gather(0, [0]), CreateBatch(0), CreateItem(0), MarkExported(0)]
  }

  function OneReviewed(procs: map<nat, Proc>): Store {
    Store([Doc(Reviewed, None)], [], [], {}, procs)
  }

  lemma GatherAndStore(procs: map<nat, Proc>)
    requires 0 !in procs
    ensures Step(Step(OneReviewed(procs), Gather(0, [0])), CreateBatch(0)) ==
      OneReviewed(procs[0 := Locking(0, [0], 0, false)]).(batches := [[0]])
  {
    var s := OneReviewed(procs);
    assert CanGather(s, [0]);
    assert Step(s, Gather(0, [0])) == OneReviewed(procs[0 := Gathered([0])]);
    assert procs[0 := Gathered([0])][0 := Locking(0, [0], 0, false)] == procs[0 := Locking(0, [0], 0, false)];
  }

  lemma LockAndMark(procs: map<nat, Proc>)
    ensures var s := OneReviewed(procs[0 := Locking(0, [0], 0, false)]).(batches := [[0]]);
      Step(Step(s, CreateItem(0)), MarkExported(0)) == Store([Doc(Exported, Some(0))], [Item(0, 0)], [[0]], {0}, procs[0 := Idle])
  {
    var s := OneReviewed(procs[0 := Locking(0, [0], 0, false)]).(batches := [[0]]);
    var locked := procs[0 := Locking(0, [0], 0, true)];
    assert procs[0 := Locking(0, [0], 0, false)][0 := Locking(0, [0], 0, true)] == locked;
    assert Step(s, CreateItem(0)) == s.(items := [Item(0, 0)], procs := locked);
    assert locked[0 := Idle] == procs[0 := Idle];
  }

  lemma ExportOne(procs: map<nat, Proc>)
    requires 0 !in procs
    ensures Run(OneReviewed(procs), ExportSteps()) == Store([Doc(Exported, Some(0))], [Item(0, 0)], [[0]], {0}, procs[0 := Idle])
  {
    var s := OneReviewed(procs);
    assert ExportSteps() == [Gather(0, [0]), CreateBatch(0)] + ([CreateItem(0), MarkExported(0)] + []);
    RunTwo(s, Gather(0, [0]), CreateBatch(0), [CreateItem(0), MarkExported(0)] + []);
    GatherAndStore(procs);
    LockAndMark(procs);
    RunTwo(Step(Step(s, Gather(0, [0])), CreateBatch(0)), CreateItem(0), MarkExported(0), []);
  }

  /** A clerk reads a reviewed transaction, it is exported, and then the clerk's "open" is written. */
  lemma StaleWriteRun()
    ensures var write := Write(0, Opened, Reviewed);
      var s := Run(Blank(), [CreateTx(Reviewed), ReadForWrite(1, [write])] + (ExportSteps() + [WriteNext(1)]));
      s.docs == [Doc(Opened, Some(0))]
  {
    var write := Write(0, Opened, Reviewed);
    RunTwo(Blank(), CreateTx(Reviewed), ReadForWrite(1, [write]), ExportSteps() + [WriteNext(1)]);
    var read := OneReviewed(map[1 := Writing([write])]);
    assert Step(Step(Blank(), CreateTx(Reviewed)), ReadForWrite(1, [write])) == read;
    RunAppend(read, ExportSteps(), [WriteNext(1)]);
    ExportOne(map[1 := Writing([write])]);
    RunOne(Run(read, ExportSteps()), WriteNext(1));
  }

  lemma RunOne(s: Store, a: Action)
    ensures Run(s, [a]) == Step(s, a)
  {
    assert [a][1..] == [];
  }

  /** A transaction is exported, and then a merge skips it, having seen that it is exported. */
  lemma MergeAfterExportRun()
    ensures var write := Write(0, Skipped, Exported);
      var s := Run(Blank(), [CreateTx(Reviewed)] + (ExportSteps() + ([ReadForWrite(1, [write]), WriteNext(1)] + [])));
      s.docs == [Doc(Skipped, Some(0))]
  {
    var write := Write(0, Skipped, Exported);
    var merge := [ReadForWrite(1, [write]), WriteNext(1)] + [];
    RunAppend(Blank(), [CreateTx(Reviewed)], ExportSteps() + merge);
    RunOne(Blank(), CreateTx(Reviewed));
    assert Step(Blank(), CreateTx(Reviewed)) == OneReviewed(map[]);
    RunAppend(OneReviewed(map[]), ExportSteps(), merge);
    ExportOne(map[]);
    MergeOne(Run(OneReviewed(map[]), ExportSteps()), write);
  }

  lemma MergeOne(s: Store, write: Write)
    requires s.docs == [Doc(Exported, Some(0))] && write == Write(0, Skipped, Exported) && 1 !in s.procs
    ensures Run(s, [ReadForWrite(1, [write]), WriteNext(1)] + []).docs == [Doc(Skipped, Some(0))]
  {
    RunTwo(s, ReadForWrite(1, [write]), WriteNext(1), []);
    assert Step(s, ReadForWrite(1, [write])).procs[1] == Writing([write]);
  }

  /** Two exports that both gather transaction 0 store two batch documents with it. */
  lemma OverlappingBatchesRun()
    ensures var s := Run(Blank(), [CreateTx(Reviewed), Gather(0, [0])] + ([Gather(1, [0]), CreateBatch(0)] + [CreateBatch(1)]));
      s.batches == [[0], [0]] && !BatchesApart(s)
  {
    RunTwo(Blank(), CreateTx(Reviewed), Gather(0, [0]), [Gather(1, [0]), CreateBatch(0)] + [CreateBatch(1)]);
    var one := OneReviewed(map[]);
    assert Step(Blank(), CreateTx(Reviewed)) == one;
    GatherByTwo(one);
    RunTwo(Step(one, Gather(0, [0])), Gather(1, [0]), CreateBatch(0), [CreateBatch(1)]);
    var both := OneReviewed(map[0 := Gathered([0]), 1 := Gathered([0])]);
    var four := Step(both, CreateBatch(0));
    assert four.batches == [[0]] && four.procs[1] == Gathered([0]);
    RunOne(four, CreateBatch(1));
    assert 0 in [[0], [0]][0] && 0 in [[0], [0]][1];
  }

  lemma GatherByTwo(s: Store)
    requires s == OneReviewed(map[])
    ensures Step(Step(s, Gather(0, [0])), Gather(1, [0])) == OneReviewed(map[0 := Gathered([0]), 1 := Gathered([0])])
  {
    assert CanGather(s, [0]);
    var t := Step(s, Gather(0, [0]));
    assert t == OneReviewed(map[0 := Gathered([0])]);
    assert CanGather(t, [0]);
  }
}
