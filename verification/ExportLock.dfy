/**
 * The cash export lock when service calls overlap. Every repository call is one atomic step; between a call's read and
 * its writes any step of any other call may happen.
 */
module ExportLock {
  import opened Wrappers
  import opened Cash
  import opened Selection

  /** The fields of a stored transaction that the lock depends on. */
  datatype Doc = Doc(status: Status, exportedIn: Option<nat>)

  /** A write that a call has decided on from what it read earlier; `seen` is the status that it read. */
  datatype Write = Write(tx: nat, status: Status, seen: Status)

  datatype Proc =
    | Idle
    | Gathered(ids: seq<nat>)
    | Locking(batch: nat, ids: seq<nat>, next: nat, itemCreated: bool)
    | Writing(todo: seq<Write>)

  /** `completed`: the batches whose createExport call has returned successfully. */
  datatype Store = Store(docs: seq<Doc>, items: seq<Item>, batches: seq<seq<nat>>, completed: set<nat>, procs: map<nat, Proc>)

  function Blank(): Store {
    Store([], [], [], {}, map[])
  }

  function ProcOf(s: Store, p: nat): Proc {
    if p in s.procs then s.procs[p] else Idle
  }

  function Become(s: Store, p: nat, proc: Proc): Store {
    s.(procs := s.procs[p := proc])
  }

  /** The steps of all services, each by some caller p. */
  datatype Action =
    | CreateTx(status: Status)
    | Gather(p: nat, ids: seq<nat>)
    | Abort(p: nat)
    | CreateBatch(p: nat)
    | CreateItem(p: nat)
    | MarkExported(p: nat)
    | ReadForWrite(p: nat, todo: seq<Write>)
    | WriteNext(p: nat)

  /** What the query of an export may return, for any period and setting. */
  predicate CanGather(s: Store, ids: seq<nat>) {
    && ids != [] && NoRepeats(ids)
    && forall i :: i in ids ==> i < |s.docs| && s.docs[i].exportedIn == None && s.docs[i].status in {Reviewed, Matched}
  }

  /**
   * assign, setStatus, applyRules, reprocess and merge read first and write later. Merge writes "skipped" without
   * looking at the status; no other call decides to write a transaction that it has seen as exported.
   */
  predicate CanDecide(s: Store, w: Write) {
    w.tx < |s.docs| && w.seen == s.docs[w.tx].status && Decided(w)
  }

  predicate Decided(w: Write) {
    w.status in {Opened, Matched, InConflict, Reviewed, Skipped} && (w.seen == Exported ==> w.status == Skipped)
  }

  function Step(s: Store, a: Action): Store {
    match a
    case CreateTx(status) =>
      if status == Exported then s else s.(docs := s.docs + [Doc(status, None)])
    case Gather(p, ids) =>
      if ProcOf(s, p) == Idle && CanGather(s, ids) then Become(s, p, Gathered(ids)) else s
    case Abort(p) =>
      if ProcOf(s, p).Gathered? then Become(s, p, Idle) else s
    case CreateBatch(p) =>
      match ProcOf(s, p) {
        case Gathered(ids) => Become(s.(batches := s.batches + [ids]), p, Locking(|s.batches|, ids, 0, false))
        case _ => s
      }
    case CreateItem(p) =>
      match ProcOf(s, p) {
        case Locking(b, ids, k, false) =>
          if k >= |ids| then s
          else if HasItem(s.items, ids[k]) then Become(s, p, Idle)
          else Become(s.(items := s.items + [Item(b, ids[k])]), p, Locking(b, ids, k, true))
        case _ => s
      }
    case MarkExported(p) =>
      match ProcOf(s, p) {
        case Locking(b, ids, k, true) =>
          if k >= |ids| || ids[k] >= |s.docs| then s
          else
            var marked := s.(docs := s.docs[ids[k] := Doc(Exported, Some(b))]);
            if k + 1 == |ids| then Become(marked.(completed := s.completed + {b}), p, Idle)
            else Become(marked, p, Locking(b, ids, k + 1, false))
        case _ => s
      }
    case ReadForWrite(p, todo) =>
      if ProcOf(s, p) == Idle && forall w :: w in todo ==> CanDecide(s, w) then Become(s, p, Writing(todo)) else s
    case WriteNext(p) =>
      match ProcOf(s, p) {
        case Writing(todo) =>
          if todo == [] then Become(s, p, Idle)
          else if todo[0].tx >= |s.docs| then Become(s, p, Writing(todo[1..]))
          else Become(s.(docs := s.docs[todo[0].tx := s.docs[todo[0].tx].(status := todo[0].status)]), p, Writing(todo[1..]))
        case _ => s
      }
  }

  function Run(s: Store, actions: seq<Action>): Store
    decreases |actions|
  {
    if actions == [] then s else Run(Step(s, actions[0]), actions[1..])
  }

  // ----- the invariant -----

  predicate Owns(s: Store, b: nat, t: nat) {
    Item(b, t) in s.items
  }

  predicate Secured(s: Store, b: nat, t: nat) {
    Owns(s, b, t) && t < |s.docs| && s.docs[t].exportedIn == Some(b)
  }

  predicate GoodProc(s: Store, p: nat) {
    match ProcOf(s, p)
    case Gathered(ids) => ids != [] && forall i :: i in ids ==> i < |s.docs|
    case Locking(b, ids, k, created) =>
      && b < |s.batches| && s.batches[b] == ids && b !in s.completed && k < |ids|
      && (forall i :: i in ids ==> i < |s.docs|)
      && (forall x :: 0 <= x < k ==> Secured(s, b, ids[x]))
      && (created ==> Owns(s, b, ids[k]))
    case Writing(todo) => forall w :: w in todo ==> w.tx < |s.docs| && Decided(w)
    case Idle => true
  }

  predicate GoodCompleted(s: Store, b: nat) {
    b < |s.batches| && forall x :: 0 <= x < |s.batches[b]| ==> Secured(s, b, s.batches[b][x])
  }

  predicate OneItemEach(s: Store) {
    forall k, m :: 0 <= k < m < |s.items| ==> s.items[k].tx != s.items[m].tx
  }

  predicate MarkedAreOwned(s: Store) {
    forall t :: 0 <= t < |s.docs| && s.docs[t].exportedIn.Some? ==> Owns(s, s.docs[t].exportedIn.value, t)
  }

  predicate OwnBatches(s: Store) {
    forall p, q :: p in s.procs && q in s.procs && p != q && s.procs[p].Locking? && s.procs[q].Locking? ==>
      s.procs[p].batch != s.procs[q].batch
  }

  predicate Inv(s: Store) {
    && OneItemEach(s) && MarkedAreOwned(s) && OwnBatches(s)
    && (forall p :: p in s.procs ==> GoodProc(s, p))
    && (forall b :: b in s.completed ==> GoodCompleted(s, b))
  }

  /** What every step preserves about the past: documents and batches stay, marks and items are never taken back. */
  predicate Extends(s: Store, s': Store) {
    && |s.docs| <= |s'.docs| && s.items <= s'.items && s.batches <= s'.batches && s.completed <= s'.completed
    && forall t :: 0 <= t < |s.docs| && s.docs[t].exportedIn.Some? ==> s'.docs[t].exportedIn == s.docs[t].exportedIn
  }

  lemma OneOwner(s: Store, b: nat, c: nat, t: nat)
    requires OneItemEach(s) && Owns(s, b, t) && Owns(s, c, t)
    ensures b == c
  {
    var k :| 0 <= k < |s.items| && s.items[k] == Item(b, t);
    var m :| 0 <= m < |s.items| && s.items[m] == Item(c, t);
  }

  lemma SecuredStays(s: Store, s': Store, b: nat, t: nat)
    requires Extends(s, s') && Secured(s, b, t)
    ensures Secured(s', b, t)
  {
    assert Item(b, t) in s'.items;
  }

  /** Every process but the one that acted, p, stays good, and so do the completed batches. */
  lemma OthersStayGood(s: Store, s': Store, p: int)
    requires Inv(s) && Extends(s, s')
    requires forall q :: q in s'.procs && q != p ==> q in s.procs && s'.procs[q] == s.procs[q]
    requires forall q :: q in s.procs && q != p && s.procs[q].Locking? ==> s.procs[q].batch !in s'.completed
    requires forall b :: b in s'.completed && b !in s.completed ==> GoodCompleted(s', b)
    ensures forall q :: q in s'.procs && q != p ==> GoodProc(s', q)
    ensures forall b :: b in s'.completed ==> GoodCompleted(s', b)
  {
    forall q | q in s'.procs && q != p ensures GoodProc(s', q) {
      assert GoodProc(s, q);
      if s.procs[q].Locking? {
        var b, ids, k := s.procs[q].batch, s.procs[q].ids, s.procs[q].next;
        forall x | 0 <= x < k ensures Secured(s', b, ids[x]) {
          SecuredStays(s, s', b, ids[x]);
        }
      }
    }
    forall b | b in s'.completed ensures GoodCompleted(s', b) {
      if b in s.completed {
        assert GoodCompleted(s, b);
        forall x | 0 <= x < |s.batches[b]| ensures Secured(s', b, s'.batches[b][x]) {
          SecuredStays(s, s', b, s.batches[b][x]);
        }
      }
    }
  }

  lemma GatherStep(s: Store, p: nat, ids: seq<nat>)
    requires Inv(s)
    ensures var s' := Step(s, Gather(p, ids)); Inv(s') && Extends(s, s')
  {
    var s' := Step(s, Gather(p, ids));
    if s' != s {
      OthersStayGood(s, s', p);
    }
  }

  lemma AbortStep(s: Store, p: nat)
    requires Inv(s)
    ensures var s' := Step(s, Abort(p)); Inv(s') && Extends(s, s')
  {
    var s' := Step(s, Abort(p));
    if s' != s {
      OthersStayGood(s, s', p);
    }
  }

  lemma CreateTxStep(s: Store, status: Status)
    requires Inv(s)
    ensures var s' := Step(s, CreateTx(status)); Inv(s') && Extends(s, s')
  {
    var s' := Step(s, CreateTx(status));
    OthersStayGood(s, s', -1);
  }

  lemma CreateBatchStep(s: Store, p: nat)
    requires Inv(s)
    ensures var s' := Step(s, CreateBatch(p)); Inv(s') && Extends(s, s')
  {
    var s' := Step(s, CreateBatch(p));
    if s' != s {
      assert GoodProc(s, p);
      forall b | b in s.completed ensures b < |s.batches| {
        assert GoodCompleted(s, b);
      }
      forall q | q in s.procs && s.procs[q].Locking? ensures s.procs[q].batch < |s.batches| {
        assert GoodProc(s, q);
      }
      OthersStayGood(s, s', p);
      assert GoodProc(s', p);
    }
  }

  lemma CreateItemStep(s: Store, p: nat)
    requires Inv(s)
    ensures var s' := Step(s, CreateItem(p)); Inv(s') && Extends(s, s')
  {
    var s' := Step(s, CreateItem(p));
    if s' != s {
      assert GoodProc(s, p);
      OthersStayGood(s, s', p);
      if s'.items != s.items {
        var b, ids, k := s.procs[p].batch, s.procs[p].ids, s.procs[p].next;
        forall x | 0 <= x < k ensures Secured(s', b, ids[x]) {
          SecuredStays(s, s', b, ids[x]);
        }
        assert s'.items[|s.items|] == Item(b, ids[k]);
        assert GoodProc(s', p);
        forall t | 0 <= t < |s'.docs| && s'.docs[t].exportedIn.Some? ensures Owns(s', s'.docs[t].exportedIn.value, t) {
          assert Owns(s, s.docs[t].exportedIn.value, t);
        }
      }
    }
  }

  /** Marking is safe because the marker owns the transaction's only item. */
  lemma MarkExtends(s: Store, p: nat)
    requires Inv(s)
    ensures Extends(s, Step(s, MarkExported(p)))
  {
    if p in s.procs && s.procs[p].Locking? && s.procs[p].itemCreated {
      assert GoodProc(s, p);
      var b, t := s.procs[p].batch, s.procs[p].ids[s.procs[p].next];
      if t < |s.docs| && s.docs[t].exportedIn.Some? {
        OneOwner(s, b, s.docs[t].exportedIn.value, t);
      }
    }
  }

  lemma MarkSecures(s: Store, p: nat, x: nat)
    requires Inv(s) && p in s.procs && s.procs[p].Locking? && s.procs[p].itemCreated && x <= s.procs[p].next
    ensures GoodProc(s, p) && Secured(Step(s, MarkExported(p)), s.procs[p].batch, s.procs[p].ids[x])
  {
    assert GoodProc(s, p);
    MarkExtends(s, p);
    var s' := Step(s, MarkExported(p));
    var b, ids := s.procs[p].batch, s.procs[p].ids;
    if x < s.procs[p].next {
      SecuredStays(s, s', b, ids[x]);
    } else {
      assert ids[x] in ids;
      assert s'.items == s.items;
    }
  }

  lemma MarkExportedStep(s: Store, p: nat)
    requires Inv(s)
    ensures var s' := Step(s, MarkExported(p)); Inv(s') && Extends(s, s')
  {
    var s' := Step(s, MarkExported(p));
    MarkExtends(s, p);
    if s' != s {
      assert GoodProc(s, p);
      var b, ids, k := s.procs[p].batch, s.procs[p].ids, s.procs[p].next;
      forall x | 0 <= x <= k ensures Secured(s', b, ids[x]) {
        MarkSecures(s, p, x);
      }
      OthersStayGood(s, s', p);
      forall t | 0 <= t < |s'.docs| && s'.docs[t].exportedIn.Some? ensures Owns(s', s'.docs[t].exportedIn.value, t) {
        if t != ids[k] {
          assert s.docs[t] == s'.docs[t];
        }
      }
      assert GoodProc(s', p);
    }
  }

  lemma ReadForWriteStep(s: Store, p: nat, todo: seq<Write>)
    requires Inv(s)
    ensures var s' := Step(s, ReadForWrite(p, todo)); Inv(s') && Extends(s, s')
  {
    var s' := Step(s, ReadForWrite(p, todo));
    if s' != s {
      OthersStayGood(s, s', p);
    }
  }

  lemma WriteNextStep(s: Store, p: nat)
    requires Inv(s)
    ensures var s' := Step(s, WriteNext(p)); Inv(s') && Extends(s, s')
  {
    var s' := Step(s, WriteNext(p));
    if s' != s {
      assert GoodProc(s, p);
      assert forall t :: 0 <= t < |s.docs| ==> s'.docs[t].exportedIn == s.docs[t].exportedIn;
      OthersStayGood(s, s', p);
    }
  }

  lemma StepKeeps(s: Store, a: Action)
    requires Inv(s)
    ensures Inv(Step(s, a)) && Extends(s, Step(s, a))
  {
    match a
    case CreateTx(status) => CreateTxStep(s, status);
    case Gather(p, ids) => GatherStep(s, p, ids);
    case Abort(p) => AbortStep(s, p);
    case CreateBatch(p) => CreateBatchStep(s, p);
    case CreateItem(p) => CreateItemStep(s, p);
    case MarkExported(p) => MarkExportedStep(s, p);
    case ReadForWrite(p, todo) => ReadForWriteStep(s, p, todo);
    case WriteNext(p) => WriteNextStep(s, p);
  }

  lemma ExtendsTransitive(a: Store, b: Store, c: Store)
    requires Extends(a, b) && Extends(b, c)
    ensures Extends(a, c)
  {
  }

  lemma {:induction false} RunKeeps(s: Store, actions: seq<Action>)
    requires Inv(s)
    ensures Inv(Run(s, actions)) && Extends(s, Run(s, actions))
    decreases |actions|
  {
    if actions != [] {
      StepKeeps(s, actions[0]);
      RunKeeps(Step(s, actions[0]), actions[1..]);
      ExtendsTransitive(s, Step(s, actions[0]), Run(s, actions));
    }
  }

  // ----- safety over every interleaving -----

  /** However the calls interleave, no transaction ever has two export items. */
  lemma AtMostOneItem(actions: seq<Action>, k: nat, m: nat)
    requires k < m < |Run(Blank(), actions).items|
    ensures Run(Blank(), actions).items[k].tx != Run(Blank(), actions).items[m].tx
  {
    RunKeeps(Blank(), actions);
  }

  /** A transaction marked with a batch has its export item in that batch, and the mark is final. */
  lemma MarkIsOwnedAndFinal(before: seq<Action>, after: seq<Action>, t: nat)
    requires t < |Run(Blank(), before).docs| && Run(Blank(), before).docs[t].exportedIn.Some?
    ensures Owns(Run(Blank(), before), Run(Blank(), before).docs[t].exportedIn.value, t)
    ensures var later := Run(Run(Blank(), before), after);
      t < |later.docs| && later.docs[t].exportedIn == Run(Blank(), before).docs[t].exportedIn
  {
    RunKeeps(Blank(), before);
    RunKeeps(Run(Blank(), before), after);
  }

  /** Every export that runs to completion owns all its transactions; two of them never share one. */
  lemma CompletedExportsAreDisjoint(actions: seq<Action>, b: nat, c: nat, t: nat)
    requires var s := Run(Blank(), actions);
      b in s.completed && c in s.completed && b < |s.batches| && c < |s.batches| && t in s.batches[b] && t in s.batches[c]
    ensures b == c
    ensures var s := Run(Blank(), actions); t < |s.docs| && s.docs[t].exportedIn == Some(b)
  {
    RunKeeps(Blank(), actions);
    var s := Run(Blank(), actions);
    assert GoodCompleted(s, b) && GoodCompleted(s, c);
    var x :| 0 <= x < |s.batches[b]| && s.batches[b][x] == t;
    var y :| 0 <= y < |s.batches[c]| && s.batches[c][y] == t;
    assert Secured(s, b, s.batches[b][x]) && Secured(s, c, s.batches[c][y]);
  }

  // ----- what interleaving does break -----

  lemma RunTwo(s: Store, a: Action, b: Action, rest: seq<Action>)
    ensures Run(s, [a, b] + rest) == Run(Step(Step(s, a), b), rest)
  {
    assert ([a, b] + rest)[1..] == [b] + rest;
    assert ([b] + rest)[1..] == rest;
  }

  /** At most one of two overlapping batch documents belongs to an export that completed. */
  lemma OverlappingBatchesNeverBothComplete(actions: seq<Action>, b: nat, c: nat, t: nat)
    requires var s := Run(Blank(), actions);
      b < |s.batches| && c < |s.batches| && b != c && t in s.batches[b] && t in s.batches[c]
    ensures var s := Run(Blank(), actions); b !in s.completed || c !in s.completed
  {
    var s := Run(Blank(), actions);
    if b in s.completed && c in s.completed {
      CompletedExportsAreDisjoint(actions, b, c, t);
    }
  }

  /**
   * A call that read the transaction before it was exported overwrites the status "exported" afterwards. The mark stays,
   * and it alone keeps the transaction out of every later export.
   */
  lemma StaleWriteCannotUnlock(before: seq<Action>, after: seq<Action>, t: nat, ids: seq<nat>)
    requires t < |Run(Blank(), before).docs| && Run(Blank(), before).docs[t].exportedIn.Some?
    requires t in ids
    ensures !CanGather(Run(Run(Blank(), before), after), ids)
  {
    MarkIsOwnedAndFinal(before, after, t);
  }

  // ----- when an export completes -----

  /** A transaction whose item belongs to another export never lets this one complete, whatever happens. */
  lemma ForeignItemStopsExport(before: seq<Action>, after: seq<Action>, b: nat, c: nat, t: nat)
    requires Owns(Run(Blank(), before), b, t) && b != c
    requires var later := Run(Run(Blank(), before), after); c < |later.batches| && t in later.batches[c]
    ensures c !in Run(Run(Blank(), before), after).completed
  {
    var s := Run(Blank(), before);
    RunKeeps(Blank(), before);
    RunKeeps(s, after);
    var later := Run(s, after);
    if c in later.completed {
      assert GoodCompleted(later, c);
      var x :| 0 <= x < |later.batches[c]| && later.batches[c][x] == t;
      assert Secured(later, c, later.batches[c][x]);
      assert Item(b, t) in later.items;
      OneOwner(later, b, c, t);
    }
  }

  function LockSteps(p: nat, n: nat): seq<Action> {
    if n == 0 then [] else [CreateItem(p), MarkExported(p)] + LockSteps(p, n - 1)
  }

  lemma {:induction false} IdleStays(s: Store, p: nat, n: nat)
    requires ProcOf(s, p) == Idle
    ensures Run(s, LockSteps(p, n)) == s
  {
    if n > 0 {
      RunTwo(s, CreateItem(p), MarkExported(p), LockSteps(p, n - 1));
      IdleStays(s, p, n - 1);
    }
  }

  predicate NoneHasItem(items: seq<Item>, ids: seq<nat>, from: nat) {
    forall x :: from <= x < |ids| ==> !HasItem(items, ids[x])
  }

  /** One item more takes nothing from the transactions after it in a list without repetitions. */
  lemma NextItem(items: seq<Item>, b: nat, ids: seq<nat>, k: nat)
    requires k < |ids| && NoRepeats(ids)
    ensures NoneHasItem(items + [Item(b, ids[k])], ids, k + 1) <==> NoneHasItem(items, ids, k + 1)
  {
    forall x | k + 1 <= x < |ids| ensures HasItem(items + [Item(b, ids[k])], ids[x]) <==> HasItem(items, ids[x]) {
      assert ids[k] != ids[x];
      if HasItem(items, ids[x]) {
        var m :| 0 <= m < |items| && items[m].tx == ids[x];
        assert (items + [Item(b, ids[k])])[m].tx == ids[x];
      }
    }
  }

  function AfterLock(s: Store, p: nat, b: nat, ids: seq<nat>, k: nat): Store
    requires k < |ids| && ids[k] < |s.docs|
  {
    var locked := s.(items := s.items + [Item(b, ids[k])], docs := s.docs[ids[k] := Doc(Exported, Some(b))]);
    if k + 1 == |ids| then Become(locked.(completed := s.completed + {b}), p, Idle)
    else Become(locked, p, Locking(b, ids, k + 1, false))
  }

  lemma LockNext(s: Store, p: nat, b: nat, ids: seq<nat>, k: nat)
    requires ProcOf(s, p) == Locking(b, ids, k, false) && k < |ids| && ids[k] < |s.docs| && !HasItem(s.items, ids[k])
    ensures Step(Step(s, CreateItem(p)), MarkExported(p)) == AfterLock(s, p, b, ids, k)
  {
    var t := Step(s, CreateItem(p));
    assert ProcOf(t, p) == Locking(b, ids, k, true);
  }

  lemma {:induction false} LockingAlone(s: Store, p: nat, b: nat, ids: seq<nat>, k: nat)
    requires ProcOf(s, p) == Locking(b, ids, k, false) && k < |ids| && NoRepeats(ids) && b !in s.completed
    requires forall i :: i in ids ==> i < |s.docs|
    ensures b in Run(s, LockSteps(p, |ids| - k)).completed <==> NoneHasItem(s.items, ids, k)
    decreases |ids| - k
  {
    RunTwo(s, CreateItem(p), MarkExported(p), LockSteps(p, |ids| - k - 1));
    assert ids[k] in ids;
    if HasItem(s.items, ids[k]) {
      var t := Step(s, CreateItem(p));
      assert ProcOf(t, p) == Idle && Step(t, MarkExported(p)) == t;
      IdleStays(t, p, |ids| - k - 1);
    } else {
      var t := AfterLock(s, p, b, ids, k);
      LockNext(s, p, b, ids, k);
      NextItem(s.items, b, ids, k);
      if k + 1 == |ids| {
        IdleStays(t, p, 0);
      } else {
        LockingAlone(t, p, b, ids, k + 1);
      }
    }
  }

  /**
   * A call that nobody disturbs completes if and only if none of its transactions has an item already. The query that
   * gathers them looks at marks only, so a call that died between item and mark blocks its transaction for good.
   */
  lemma UndisturbedExportCompletesIff(s: Store, p: nat, ids: seq<nat>)
    requires Inv(s) && ProcOf(s, p) == Idle && CanGather(s, ids)
    ensures |s.batches| in Run(s, [Gather(p, ids), CreateBatch(p)] + LockSteps(p, |ids|)).completed <==>
      NoneHasItem(s.items, ids, 0)
  {
    RunTwo(s, Gather(p, ids), CreateBatch(p), LockSteps(p, |ids|));
    var g := Step(s, Gather(p, ids));
    assert ProcOf(g, p) == Gathered(ids);
    var c := Step(g, CreateBatch(p));
    assert ProcOf(c, p) == Locking(|s.batches|, ids, 0, false);
    forall b | b in s.completed ensures b < |s.batches| {
      assert GoodCompleted(s, b);
    }
    LockingAlone(c, p, |s.batches|, ids, 0);
  }
}
