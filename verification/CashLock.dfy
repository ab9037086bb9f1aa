/** The export lock over whole runs of the cash services, one call after the other. */
module CashLock {
  import opened Folds
  import opened Wrappers
  import opened Datev
  import opened SystemPolicies
  import opened Selection
  import opened Cash
  import opened CashTheorems
  import Sorting

  // ----- the invariant -----

  predicate GoodItem(s: CashBook, k: nat)
    requires k < |s.items|
  {
    var item := s.items[k];
    item.tx < |s.txs| && item.batch < |s.exports| && s.txs[item.tx].exportedIn == Some(item.batch)
  }

  predicate GoodTx(s: CashBook, i: nat)
    requires i < |s.txs|
  {
    s.txs[i].exportedIn.Some? ==>
      HasItem(s.items, i) && s.txs[i].exportedIn.value < |s.exports| && i in s.exports[s.txs[i].exportedIn.value].txIds
  }

  predicate GoodBatch(s: CashBook, b: nat)
    requires b < |s.exports|
  {
    forall t :: t in s.exports[b].txIds ==> t < |s.txs| && s.txs[t].exportedIn == Some(b)
  }

  predicate Inv(s: CashBook) {
    && UniqueFingerprints(s.txs)
    && (forall k :: 0 <= k < |s.items| ==> GoodItem(s, k))
    && (forall k, m :: 0 <= k < m < |s.items| ==> s.items[k].tx != s.items[m].tx)
    && (forall i :: 0 <= i < |s.txs| ==> GoodTx(s, i))
    && (forall b :: 0 <= b < |s.exports| ==> GoodBatch(s, b))
  }

  /** Steps that export nothing: they may append unlocked transactions and leave every lock and identity alone. */
  predicate SameLocks(a: seq<Tx>, b: seq<Tx>) {
    && SameIdentities(a, b)
    && (forall i :: 0 <= i < |a| ==> b[i].exportedIn == a[i].exportedIn)
    && (forall i :: |a| <= i < |b| ==> b[i].exportedIn == None)
  }

  /** Identities never change, and a transaction that is in an export batch stays in that batch. */
  predicate Follows(s: CashBook, s': CashBook) {
    && SameIdentities(s.txs, s'.txs)
    && (forall i :: 0 <= i < |s.txs| && s.txs[i].exportedIn.Some? ==> s'.txs[i].exportedIn == s.txs[i].exportedIn)
    && s.exports <= s'.exports
  }

  lemma SameLocksKeepInv(s: CashBook, s': CashBook)
    requires Inv(s) && SameLocks(s.txs, s'.txs) && s'.items == s.items && s'.exports == s.exports && UniqueFingerprints(s'.txs)
    ensures Inv(s')
  {
    forall k | 0 <= k < |s'.items| ensures GoodItem(s', k) {
      assert GoodItem(s, k);
    }
    forall i | 0 <= i < |s'.txs| ensures GoodTx(s', i) {
      if i < |s.txs| {
        assert GoodTx(s, i);
      }
    }
    forall b | 0 <= b < |s'.exports| ensures GoodBatch(s', b) {
      assert GoodBatch(s, b);
    }
  }

  lemma SameLocksUnique(a: seq<Tx>, b: seq<Tx>)
    requires UniqueFingerprints(a) && SameLocks(a, b) && |a| == |b|
    ensures UniqueFingerprints(b)
  {
  }

  // ----- the steps that export nothing -----

  lemma ReapplyKeepsLock(c: Context, tx: Tx)
    ensures var r := Reapply(c, tx).tx; r.exportedIn == tx.exportedIn && r.fingerprint == tx.fingerprint
  {
  }

  lemma ReprocessKeepsLock(c: Context, tx: Tx)
    ensures var r := Reprocess(c, tx).tx;
      r.exportedIn == tx.exportedIn && r.fingerprint == tx.fingerprint && r.bookingDate == tx.bookingDate
      && r.amountCents == tx.amountCents && r.bookability == tx.bookability
  {
  }

  lemma {:induction false} ReapplyEachKeepsLocks(c: Context, p: Pass, ids: seq<nat>)
    ensures SameLocks(p.txs, ReapplyEach(c, p, ids).txs) && |ReapplyEach(c, p, ids).txs| == |p.txs|
    decreases |ids|
  {
    if ids == [] {
    } else if ids[0] >= |p.txs| {
      ReapplyEachKeepsLocks(c, p, ids[1..]);
    } else {
      ReapplyKeepsLock(c, p.txs[ids[0]]);
      ReapplyKeepsFields(c, p.txs[ids[0]]);
      ReapplyEachKeepsLocks(c, PassStep(p, ids[0], Reapply(c, p.txs[ids[0]])), ids[1..]);
    }
  }

  lemma {:induction false} ReprocessEachKeepsLocks(c: Context, p: Pass, ids: seq<nat>)
    ensures SameLocks(p.txs, ReprocessEach(c, p, ids).txs) && |ReprocessEach(c, p, ids).txs| == |p.txs|
    decreases |ids|
  {
    if ids == [] {
    } else if ids[0] >= |p.txs| {
      ReprocessEachKeepsLocks(c, p, ids[1..]);
    } else {
      ReprocessKeepsLock(c, p.txs[ids[0]]);
      ReprocessEachKeepsLocks(c, PassStep(p, ids[0], Reprocess(c, p.txs[ids[0]])), ids[1..]);
    }
  }

  lemma {:induction false} MarkDuplicatesKeepsLocks(txs: seq<Tx>, ids: seq<nat>, keeper: nat)
    ensures SameLocks(txs, MarkDuplicates(txs, ids, keeper)) && |MarkDuplicates(txs, ids, keeper)| == |txs|
    decreases |ids|
  {
    if ids == [] {
    } else if ids[0] >= |txs| {
      MarkDuplicatesKeepsLocks(txs, ids[1..], keeper);
    } else {
      MarkDuplicatesKeepsLocks(txs[ids[0] := txs[ids[0]].(status := Skipped, duplicateOf := Some(keeper))], ids[1..], keeper);
    }
  }

  lemma {:induction false} ImportRowsUnlocked(c: Context, batch: nat, source: Source, st: ImportState, rows: seq<Parsed>)
    ensures var r := ImportRows(c, batch, source, st, rows);
      st.txs <= r.txs && forall i :: |st.txs| <= i < |r.txs| ==> r.txs[i].exportedIn == None
    decreases |rows|
  {
    if rows != [] {
      ImportRowsUnlocked(c, batch, source, ImportRow(c, batch, source, st, rows[0]), rows[1..]);
    }
  }

  // ----- the export step -----

  lemma GatherSound(txs: seq<Tx>, o: ExportOptions)
    ensures NoRepeats(Gather(txs, o)) && forall i: nat :: i in Gather(txs, o) <==> Eligible(txs, o)(i)
  {
    var found := Filter(Positions(|txs|), Eligible(txs, o));
    FilterPositions(|txs|, Eligible(txs, o));
    Sorting.SortStableSorted(found, DateOf(txs));
    PermutedNoRepeats(found, Gather(txs, o));
  }

  function ItemOf(batch: nat): nat -> Item {
    (i: nat) => Item(batch, i)
  }

  /** Locking transactions that have no item yet succeeds and locks exactly them. */
  lemma {:induction false} LockEachPointwise(s: CashBook, ids: seq<nat>, batch: nat)
    requires NoRepeats(ids) && forall i :: i in ids ==> i < |s.txs| && !HasItem(s.items, i)
    ensures var r := LockEach(s, ids, batch);
      && r.1 == Ok(batch)
      && r.0 == s.(txs := r.0.txs, items := s.items + Map(ids, ItemOf(batch)))
      && |r.0.txs| == |s.txs|
      && forall i :: 0 <= i < |s.txs| ==>
           r.0.txs[i] == if i in ids then s.txs[i].(status := Exported, exportedIn := Some(batch)) else s.txs[i]
    decreases |ids|
  {
    if ids == [] {
      assert s.items + [] == s.items;
    } else {
      var next := LockOne(s, ids[0], batch);
      assert ids[0] in ids && ids[0] !in ids[1..];
      forall i | i in ids[1..] ensures i < |next.txs| && !HasItem(next.items, i) {
        assert i in ids && i != ids[0];
      }
      LockEachPointwise(next, ids[1..], batch);
      assert Map(ids, ItemOf(batch)) == [Item(batch, ids[0])] + Map(ids[1..], ItemOf(batch));
      Associate(s.items, [Item(batch, ids[0])], Map(ids[1..], ItemOf(batch)));
    }
  }

  lemma UnlockedHasNoItem(s: CashBook, i: nat)
    requires Inv(s) && i < |s.txs| && s.txs[i].exportedIn == None
    ensures !HasItem(s.items, i)
  {
    forall k | 0 <= k < |s.items| ensures s.items[k].tx != i {
      assert GoodItem(s, k);
    }
  }

  function RowsFor(s: CashBook, ids: seq<nat>): seq<Row> {
    Map<nat, Row>(ids, RowAt(s.txs))
  }

  /** The state after a successful export, written out. */
  predicate IsExportOf(s: CashBook, s': CashBook, ids: seq<nat>) {
    var b := |s.exports|;
    && s'.exports == s.exports + [ExportBatch(RowsFor(s, ids), ids)] && s'.items == s.items + Map<nat, Item>(ids, ItemOf(b))
    && |s'.txs| == |s.txs|
    && forall i :: 0 <= i < |s.txs| ==>
         s'.txs[i] == if i in ids then s.txs[i].(status := Exported, exportedIn := Some(b)) else s.txs[i]
  }

  lemma GatheredAreFree(s: CashBook, o: ExportOptions)
    requires Inv(s)
    ensures NoRepeats(Gather(s.txs, o))
    ensures forall i :: i in Gather(s.txs, o) ==> i < |s.txs| && s.txs[i].exportedIn == None && !HasItem(s.items, i)
  {
    GatherSound(s.txs, o);
    forall i | i in Gather(s.txs, o) ensures i < |s.txs| && s.txs[i].exportedIn == None && !HasItem(s.items, i) {
      assert Eligible(s.txs, o)(i);
      UnlockedHasNoItem(s, i);
    }
  }

  /** In every state of a run the item of a gathered transaction can be created: the unique index is never hit. */
  lemma LockingSucceeds(s: CashBook, o: ExportOptions)
    requires Inv(s)
    ensures var ids := Gather(s.txs, o);
      var r := LockEach(s.(exports := s.exports + [ExportBatch(RowsFor(s, ids), ids)]), ids, |s.exports|);
      r.1 == Ok(|s.exports|) && IsExportOf(s, r.0, ids)
  {
    var ids := Gather(s.txs, o);
    GatheredAreFree(s, o);
    LockEachPointwise(s.(exports := s.exports + [ExportBatch(RowsFor(s, ids), ids)]), ids, |s.exports|);
  }

  lemma ExportResult(s: CashBook, o: ExportOptions)
    requires Inv(s)
    ensures CreateExport(s, o).1.Ok? ==> IsExportOf(s, CreateExport(s, o).0, Gather(s.txs, o))
    ensures CreateExport(s, o).1.Err? ==> CreateExport(s, o).0 == s && !CreateExport(s, o).1.error.ItemExists?
    ensures CreateExport(s, o).1.Ok? <==>
      && Gather(s.txs, o) != [] && !(o.blockIfOpen && HasOpenItems(s.txs, o))
      && ErrorsUpTo(RowsFor(s, Gather(s.txs, o)), |RowsFor(s, Gather(s.txs, o))|, o.forbidden) == []
  {
    LockingSucceeds(s, o);
  }

  lemma ItemAfterExport(s: CashBook, s': CashBook, ids: seq<nat>, k: nat)
    requires IsExportOf(s, s', ids) && k < |s'.items|
    ensures k < |s.items| ==> s'.items[k] == s.items[k]
    ensures k >= |s.items| ==> k - |s.items| < |ids| && s'.items[k] == Item(|s.exports|, ids[k - |s.items|]) && s'.items[k].tx in ids
  {
    if k >= |s.items| {
      var x := k - |s.items|;
      assert s'.items[k] == Map<nat, Item>(ids, ItemOf(|s.exports|))[x];
      assert ids[x] in ids;
    }
  }

  lemma ExportedItemsGood(s: CashBook, s': CashBook, ids: seq<nat>)
    requires Inv(s) && IsExportOf(s, s', ids)
    requires forall i :: i in ids ==> i < |s.txs| && s.txs[i].exportedIn == None
    ensures forall k :: 0 <= k < |s'.items| ==> GoodItem(s', k)
  {
    forall k | 0 <= k < |s'.items| ensures GoodItem(s', k) {
      ItemAfterExport(s, s', ids, k);
      if k < |s.items| {
        assert GoodItem(s, k);
      }
    }
  }

  lemma ExportedItemsDistinct(s: CashBook, s': CashBook, ids: seq<nat>)
    requires Inv(s) && IsExportOf(s, s', ids) && NoRepeats(ids)
    requires forall i :: i in ids ==> i < |s.txs| && s.txs[i].exportedIn == None
    ensures forall k, m :: 0 <= k < m < |s'.items| ==> s'.items[k].tx != s'.items[m].tx
  {
    forall k, m | 0 <= k < m < |s'.items| ensures s'.items[k].tx != s'.items[m].tx {
      ItemAfterExport(s, s', ids, k);
      ItemAfterExport(s, s', ids, m);
      if k < |s.items| {
        assert GoodItem(s, k);
      }
    }
  }

  lemma ExportedTxsGood(s: CashBook, s': CashBook, ids: seq<nat>)
    requires Inv(s) && IsExportOf(s, s', ids)
    requires forall i :: i in ids ==> i < |s.txs| && s.txs[i].exportedIn == None
    ensures forall i :: 0 <= i < |s'.txs| ==> GoodTx(s', i)
  {
    forall i | 0 <= i < |s'.txs| ensures GoodTx(s', i) {
      assert GoodTx(s, i);
      if i in ids {
        var x :| 0 <= x < |ids| && ids[x] == i;
        ItemAfterExport(s, s', ids, |s.items| + x);
      } else if HasItem(s.items, i) {
        var k :| 0 <= k < |s.items| && s.items[k].tx == i;
        ItemAfterExport(s, s', ids, k);
      }
    }
  }

  lemma ExportedBatchesGood(s: CashBook, s': CashBook, ids: seq<nat>)
    requires Inv(s) && IsExportOf(s, s', ids)
    requires forall i :: i in ids ==> i < |s.txs| && s.txs[i].exportedIn == None
    ensures forall b :: 0 <= b < |s'.exports| ==> GoodBatch(s', b)
  {
    forall b | 0 <= b < |s'.exports| ensures GoodBatch(s', b) {
      if b < |s.exports| {
        assert GoodBatch(s, b);
      }
    }
  }

  lemma ExportedStateGood(s: CashBook, s': CashBook, ids: seq<nat>)
    requires Inv(s) && IsExportOf(s, s', ids) && NoRepeats(ids)
    requires forall i :: i in ids ==> i < |s.txs| && s.txs[i].exportedIn == None
    ensures Inv(s') && Follows(s, s')
  {
    ExportedItemsGood(s, s', ids);
    ExportedItemsDistinct(s, s', ids);
    ExportedTxsGood(s, s', ids);
    ExportedBatchesGood(s, s', ids);
  }

  lemma ExportFollows(s: CashBook, o: ExportOptions)
    requires Inv(s)
    ensures Kept(s, CreateExport(s, o).0)
  {
    ExportResult(s, o);
    if CreateExport(s, o).1.Ok? {
      GatheredAreFree(s, o);
      ExportedStateGood(s, CreateExport(s, o).0, Gather(s.txs, o));
    }
  }

  /** When an export succeeds, in every state of a run. */
  lemma ExportSucceedsIff(s: CashBook, o: ExportOptions)
    requires Inv(s)
    ensures CreateExport(s, o).1.Ok? <==>
      && Gather(s.txs, o) != []
      && !(o.blockIfOpen && HasOpenItems(s.txs, o))
      && forall i :: i in Gather(s.txs, o) ==> i < |s.txs| && Acceptable(s.txs[i], o.forbidden)
  {
    ExportResult(s, o);
    ValidIffExportable(RowsFor(s, Gather(s.txs, o)), o.forbidden);
    RowsExportable(s, o, Gather(s.txs, o), RowsFor(s, Gather(s.txs, o)));
  }

  predicate Acceptable(tx: Tx, forbidden: set<string>) {
    tx.amountCents != 0 && tx.booking.konto !in forbidden && tx.booking.gegenkonto !in forbidden
  }

  lemma RowExportable(s: CashBook, o: ExportOptions, ids: seq<nat>, rows: seq<Row>, x: nat)
    requires ids == Gather(s.txs, o) && rows == RowsFor(s, ids) && x < |ids|
    ensures x < |rows| && ids[x] < |s.txs| && (Exportable(rows[x], o.forbidden) <==> Acceptable(s.txs[ids[x]], o.forbidden))
  {
    GatherSound(s.txs, o);
    assert ids[x] in ids;
    assert Eligible(s.txs, o)(ids[x]);
    assert rows[x] == ToDatevRow(s.txs[ids[x]]);
  }

  lemma RowsExportable(s: CashBook, o: ExportOptions, ids: seq<nat>, rows: seq<Row>)
    requires ids == Gather(s.txs, o) && rows == RowsFor(s, ids)
    ensures (forall r :: r in rows ==> Exportable(r, o.forbidden)) <==>
      forall i :: i in ids ==> i < |s.txs| && Acceptable(s.txs[i], o.forbidden)
  {
    forall x | 0 <= x < |ids|
      ensures ids[x] < |s.txs| && (Exportable(rows[x], o.forbidden) <==> Acceptable(s.txs[ids[x]], o.forbidden))
    {
      RowExportable(s, o, ids, rows, x);
    }
    if forall r :: r in rows ==> Exportable(r, o.forbidden) {
      forall i | i in ids ensures i < |s.txs| && Acceptable(s.txs[i], o.forbidden) {
        var x :| 0 <= x < |ids| && ids[x] == i;
        assert rows[x] in rows;
      }
    }
    if forall i :: i in ids ==> i < |s.txs| && Acceptable(s.txs[i], o.forbidden) {
      forall r | r in rows ensures Exportable(r, o.forbidden) {
        var x :| 0 <= x < |rows| && rows[x] == r;
        assert ids[x] in ids;
      }
    }
  }

  // ----- whole runs -----

  datatype Command =
    | ImportFile(context: Context, source: Source, rows: seq<Parsed>)
    | ApplyTo(context: Context, ids: set<nat>)
    | ReprocessOne(context: Context, batch: nat)
    | AssignTx(id: nat, konto: string, gegenkonto: string, buKey: string, text: string)
    | SetTxStatus(id: nat, status: Status)
    | Resolve(group: nat, action: GroupStatus)
    | ExportPeriod(options: ExportOptions)

  function Execute(s: CashBook, c: Command): CashBook {
    match c
    case ImportFile(context, source, rows) => Import(s, context, source, rows).0
    case ApplyTo(context, ids) => ApplyRules(s, context, ids).0
    case ReprocessOne(context, batch) => ReprocessBatch(s, context, batch).0
    case AssignTx(id, konto, gegenkonto, buKey, text) => Assign(s, id, konto, gegenkonto, buKey, text).0
    case SetTxStatus(id, status) => SetStatus(s, id, status).0
    case Resolve(group, action) => ResolveGroup(s, group, action).0
    case ExportPeriod(options) => CreateExport(s, options).0
  }

  function Run(s: CashBook, commands: seq<Command>): CashBook
    decreases |commands|
  {
    if commands == [] then s else Run(Execute(s, commands[0]), commands[1..])
  }

  predicate Kept(s: CashBook, s': CashBook) {
    Inv(s') && Follows(s, s')
  }

  lemma SameLocksFollow(s: CashBook, s': CashBook)
    requires Inv(s) && SameLocks(s.txs, s'.txs) && s'.items == s.items && s'.exports == s.exports && UniqueFingerprints(s'.txs)
    ensures Kept(s, s')
  {
    SameLocksKeepInv(s, s');
  }

  lemma ImportFollows(s: CashBook, c: Context, source: Source, rows: seq<Parsed>)
    requires Inv(s)
    ensures Kept(s, Import(s, c, source, rows).0)
  {
    ImportPartitions(s, c, source, rows);
    ImportRowsUnlocked(c, s.imports, source, StartImport(s), rows);
    var s' := Import(s, c, source, rows).0;
    assert s.txs <= s'.txs;
    SameLocksFollow(s, s');
  }

  lemma PassesFollow(s: CashBook, c: Context, ids: set<nat>, batch: nat)
    requires Inv(s)
    ensures Kept(s, ApplyRules(s, c, ids).0)
    ensures Kept(s, ReprocessBatch(s, c, batch).0)
  {
    var p := Pass(s.txs, NoTally());
    ReapplyEachKeepsLocks(c, p, SelectedIds(s.txs, ids));
    SameLocksUnique(s.txs, ApplyRules(s, c, ids).0.txs);
    SameLocksFollow(s, ApplyRules(s, c, ids).0);
    ReprocessEachKeepsLocks(c, p, BatchIds(s.txs, batch));
    SameLocksUnique(s.txs, ReprocessBatch(s, c, batch).0.txs);
    SameLocksFollow(s, ReprocessBatch(s, c, batch).0);
  }

  lemma AssignFollows(s: CashBook, id: nat, konto: string, gegenkonto: string, buKey: string, text: string)
    requires Inv(s)
    ensures var a := Assign(s, id, konto, gegenkonto, buKey, text).0; Kept(s, a)
  {
    var a := Assign(s, id, konto, gegenkonto, buKey, text).0;
    SameLocksUnique(s.txs, a.txs);
    SameLocksFollow(s, a);
  }

  lemma SetStatusFollows(s: CashBook, id: nat, status: Status)
    requires Inv(s)
    ensures var a := SetStatus(s, id, status).0; Kept(s, a)
  {
    var a := SetStatus(s, id, status).0;
    SameLocksUnique(s.txs, a.txs);
    SameLocksFollow(s, a);
  }

  lemma ResolveFollows(s: CashBook, id: nat, action: GroupStatus)
    requires Inv(s)
    ensures var a := ResolveGroup(s, id, action).0; Kept(s, a)
  {
    var a := ResolveGroup(s, id, action).0;
    if id < |s.groups| && |s.groups[id].txIds| > 1 {
      MarkDuplicatesKeepsLocks(s.txs, s.groups[id].txIds[1..], s.groups[id].txIds[0]);
    }
    SameLocksUnique(s.txs, a.txs);
    SameLocksFollow(s, a);
  }

  lemma ImportCommandFollows(s: CashBook, c: Command)
    requires Inv(s) && c.ImportFile?
    ensures Kept(s, Execute(s, c))
  {
    ImportFollows(s, c.context, c.source, c.rows);
  }

  lemma PassCommandFollows(s: CashBook, c: Command)
    requires Inv(s) && (c.ApplyTo? || c.ReprocessOne?)
    ensures Kept(s, Execute(s, c))
  {
    if c.ApplyTo? {
      PassesFollow(s, c.context, c.ids, 0);
    } else {
      PassesFollow(s, c.context, {}, c.batch);
    }
  }

  lemma ManualCommandFollows(s: CashBook, c: Command)
    requires Inv(s) && (c.AssignTx? || c.SetTxStatus? || c.Resolve?)
    ensures Kept(s, Execute(s, c))
  {
    match c
    case AssignTx(id, konto, gegenkonto, buKey, text) => AssignFollows(s, id, konto, gegenkonto, buKey, text);
    case SetTxStatus(id, status) => SetStatusFollows(s, id, status);
    case Resolve(group, action) => ResolveFollows(s, group, action);
  }

  lemma ExecuteExport(s: CashBook, c: Command)
    requires c.ExportPeriod?
    ensures Execute(s, c) == CreateExport(s, c.options).0
  {
  }

  lemma ExportCommandFollows(s: CashBook, c: Command)
    requires Inv(s) && c.ExportPeriod?
    ensures Kept(s, Execute(s, c))
  {
    ExecuteExport(s, c);
    ExportFollows(s, c.options);
  }

  lemma StepFollows(s: CashBook, c: Command)
    requires Inv(s)
    ensures Kept(s, Execute(s, c))
  {
    match c
    case ImportFile(_, _, _) => ImportCommandFollows(s, c);
    case ApplyTo(_, _) => PassCommandFollows(s, c);
    case ReprocessOne(_, _) => PassCommandFollows(s, c);
    case ExportPeriod(_) => ExportCommandFollows(s, c);
    case _ => ManualCommandFollows(s, c);
  }

  lemma FollowsTransitive(a: CashBook, b: CashBook, c: CashBook)
    requires Follows(a, b) && Follows(b, c)
    ensures Follows(a, c)
  {
  }

  lemma {:induction false} RunFollows(s: CashBook, commands: seq<Command>)
    requires Inv(s)
    ensures Inv(Run(s, commands)) && Follows(s, Run(s, commands))
    decreases |commands|
  {
    if commands != [] {
      var next := Execute(s, commands[0]);
      StepFollows(s, commands[0]);
      RunFollows(next, commands[1..]);
      FollowsTransitive(s, next, Run(s, commands));
    }
  }

  /** In any run, a transaction is listed by at most one export batch, and that batch is its exportedInBatchId. */
  lemma ExportedAtMostOnce(commands: seq<Command>, b: nat, t: nat)
    requires b < |Run(NoCash(), commands).exports|
    ensures var s := Run(NoCash(), commands);
      t in s.exports[b].txIds <==> t < |s.txs| && s.txs[t].exportedIn == Some(b)
  {
    RunFollows(NoCash(), commands);
    var s := Run(NoCash(), commands);
    assert GoodBatch(s, b);
    if t < |s.txs| {
      assert GoodTx(s, t);
    }
  }

  /**
   * The lock is final: whatever is done to an exported transaction afterwards (merging overwrites its status), it keeps
   * its batch and no later export picks it up.
   */
  lemma LockIsFinal(before: seq<Command>, after: seq<Command>, t: nat, o: ExportOptions)
    requires t < |Run(NoCash(), before).txs| && Run(NoCash(), before).txs[t].exportedIn.Some?
    ensures var s := Run(Run(NoCash(), before), after);
      t < |s.txs| && s.txs[t].exportedIn == Run(NoCash(), before).txs[t].exportedIn && t !in Gather(s.txs, o)
  {
    RunFollows(NoCash(), before);
    RunFollows(Run(NoCash(), before), after);
    var s := Run(Run(NoCash(), before), after);
    GatherSound(s.txs, o);
    assert !Eligible(s.txs, o)(t);
  }

  /** A file imported at any point of a run creates nothing when it is imported again at any later point. */
  lemma ImportedOnceAndForAll(before: seq<Command>, c: Context, source: Source, rows: seq<Parsed>, after: seq<Command>, c2: Context, source2: Source)
    ensures var later := Run(Execute(Run(NoCash(), before), ImportFile(c, source, rows)), after);
      var (s2, st) := Import(later, c2, source2, rows);
      s2.txs == later.txs && st.created == 0 && st.skipped == 0 && |st.duplicates| == |rows|
  {
    var s := Run(NoCash(), before);
    RunFollows(NoCash(), before);
    StepFollows(s, ImportFile(c, source, rows));
    RunFollows(Execute(s, ImportFile(c, source, rows)), after);
    ReimportCreatesNothing(s, c, source, rows, Run(Execute(s, ImportFile(c, source, rows)), after), c2, source2);
  }

  // ----- what merging a re-upload group does -----

  lemma {:induction false} MarkedPointwise(txs: seq<Tx>, ids: seq<nat>, keeper: nat, i: nat)
    requires i < |txs|
    ensures i < |MarkDuplicates(txs, ids, keeper)|
    ensures i in ids ==> MarkDuplicates(txs, ids, keeper)[i].status == Skipped && MarkDuplicates(txs, ids, keeper)[i].duplicateOf == Some(keeper)
    ensures i !in ids ==> MarkDuplicates(txs, ids, keeper)[i] == txs[i]
    decreases |ids|
  {
    if ids == [] {
    } else if ids[0] >= |txs| {
      MarkedPointwise(txs, ids[1..], keeper, i);
    } else {
      var next := txs[ids[0] := txs[ids[0]].(status := Skipped, duplicateOf := Some(keeper))];
      MarkedPointwise(next, ids[1..], keeper, i);
      if i !in ids[1..] && i in ids {
        assert i == ids[0];
      }
    }
  }

  predicate GroupsInRange(s: CashBook) {
    forall g :: 0 <= g < |s.groups| ==> InRange(s.groups[g].txIds, |s.txs|)
  }

  predicate InRange(ids: seq<nat>, n: nat) {
    forall i :: i in ids ==> i < n
  }

  lemma {:induction false} DuplicatesInRange(c: Context, batch: nat, source: Source, st: ImportState, rows: seq<Parsed>)
    requires InRange(st.duplicates, |st.txs|)
    ensures var r := ImportRows(c, batch, source, st, rows); InRange(r.duplicates, |r.txs|) && |st.txs| <= |r.txs|
    decreases |rows|
  {
    if rows != [] {
      FirstWithSound(st.txs, rows[0].fingerprint, 0);
      DuplicatesInRange(c, batch, source, ImportRow(c, batch, source, st, rows[0]), rows[1..]);
    }
  }

  lemma OtherGroups(s: CashBook, c: Command)
    requires !c.ImportFile?
    ensures |Execute(s, c).groups| == |s.groups|
    ensures forall g :: 0 <= g < |s.groups| ==> Execute(s, c).groups[g].txIds == s.groups[g].txIds
  {
    if c.ExportPeriod? {
      LockKeepsGroups(s.(exports := s.exports + [ExportBatch(Map(Gather(s.txs, c.options), RowAt(s.txs)), Gather(s.txs, c.options))]),
                      Gather(s.txs, c.options), |s.exports|);
    }
  }

  lemma {:induction false} LockKeepsGroups(s: CashBook, ids: seq<nat>, batch: nat)
    ensures LockEach(s, ids, batch).0.groups == s.groups
    decreases |ids|
  {
    if ids != [] && !HasItem(s.items, ids[0]) {
      LockKeepsGroups(LockOne(s, ids[0], batch), ids[1..], batch);
    }
  }

  lemma StepKeepsGroups(s: CashBook, c: Command)
    requires Inv(s) && GroupsInRange(s)
    ensures GroupsInRange(Execute(s, c))
  {
    StepFollows(s, c);
    if c.ImportFile? {
      DuplicatesInRange(c.context, s.imports, c.source, StartImport(s), c.rows);
    } else {
      OtherGroups(s, c);
    }
  }

  lemma {:induction false} RunKeepsGroups(s: CashBook, commands: seq<Command>)
    requires Inv(s) && GroupsInRange(s)
    ensures GroupsInRange(Run(s, commands))
    decreases |commands|
  {
    if commands != [] {
      StepFollows(s, commands[0]);
      StepKeepsGroups(s, commands[0]);
      RunKeepsGroups(Execute(s, commands[0]), commands[1..]);
    }
  }

  /**
   * A group made by a re-upload lists stored transactions, whose fingerprints are all different. Merging it therefore
   * marks as duplicates of its first member only transactions that are not duplicates of it (or that member itself).
   */
  lemma MergedMembersAreNotDuplicates(commands: seq<Command>, group: nat, i: nat)
    requires var s := Run(NoCash(), commands);
      && group < |s.groups| && s.groups[group].status == GroupOpen && |s.groups[group].txIds| > 1
      && i in s.groups[group].txIds[1..]
    ensures var s := Run(NoCash(), commands);
      var keeper, merged := s.groups[group].txIds[0], ResolveGroup(s, group, Merged).0;
      && keeper < |s.txs| && i < |s.txs| && i < |merged.txs|
      && merged.txs[i].status == Skipped && merged.txs[i].duplicateOf == Some(keeper)
      && (i == keeper || s.txs[i].fingerprint != s.txs[keeper].fingerprint)
  {
    var s := Run(NoCash(), commands);
    RunFollows(NoCash(), commands);
    RunKeepsGroups(NoCash(), commands);
    var g := s.groups[group];
    assert InRange(g.txIds, |s.txs|);
    assert g.txIds[0] in g.txIds && i in g.txIds;
    MarkedPointwise(s.txs, g.txIds[1..], g.txIds[0], i);
  }

  lemma ImportTwo(c: Context, batch: nat, source: Source, st: ImportState, p: Parsed, q: Parsed)
    ensures ImportRows(c, batch, source, st, [p, q]) == ImportRow(c, batch, source, ImportRow(c, batch, source, st, p), q)
  {
    assert [p, q][1..] == [q] && [q][1..] == [];
    assert ImportRows(c, batch, source, st, [p, q]) == ImportRows(c, batch, source, ImportRow(c, batch, source, st, p), [q]);
  }

  lemma FreshPair(c: Context, p: Parsed, q: Parsed)
    requires p.fingerprint != q.fingerprint
    ensures var s := Import(NoCash(), c, Bank, [p, q]).0;
      |s.txs| == 2 && s.txs[0].fingerprint == p.fingerprint && s.txs[1].fingerprint == q.fingerprint && s.groups == []
  {
    var start := StartImport(NoCash());
    var one := ImportRow(c, 0, Bank, start, p);
    ImportTwo(c, 0, Bank, start, p, q);
    FirstWithSound(start.txs, p.fingerprint, 0);
    SettledStatus(c, FreshTx(0, Bank, p));
    assert |one.txs| == 1 && one.txs[0].fingerprint == p.fingerprint && one.duplicates == [];
    FirstWithSound(one.txs, q.fingerprint, 0);
    SettledStatus(c, FreshTx(0, Bank, q));
  }

  lemma SecondUpload(s: CashBook, c: Context, p: Parsed, q: Parsed)
    requires |s.txs| == 2 && s.txs[0].fingerprint == p.fingerprint && s.txs[1].fingerprint == q.fingerprint && s.groups == []
    requires p.fingerprint != q.fingerprint
    ensures Import(s, c, Bank, [p, q]).0.groups == [Group([0, 1], GroupOpen)]
  {
    var start := StartImport(s);
    ImportTwo(c, s.imports, Bank, start, p, q);
    FirstWithSound(s.txs, p.fingerprint, 0);
    FirstWithSound(s.txs, q.fingerprint, 0);
    assert FirstWith(s.txs, p.fingerprint, 0) == Some(0) && FirstWith(s.txs, q.fingerprint, 0) == Some(1);
    assert ImportRow(c, s.imports, Bank, start, p).duplicates == [0];
    assert ImportRows(c, s.imports, Bank, start, [p, q]).duplicates == [0, 1];
  }

  lemma RunTwo(s: CashBook, a: Command, b: Command)
    ensures Run(s, [a, b]) == Execute(Execute(s, a), b)
  {
    assert [a, b][1..] == [b] && [b][1..] == [];
    assert Run(s, [a, b]) == Run(Execute(s, a), [b]);
    assert Run(Execute(s, a), [b]) == Run(Execute(Execute(s, a), b), []);
  }

  /** Such groups arise: a file of two different rows, uploaded again in another file, makes a group of the two. */
  lemma ReuploadMakesGroup(c: Context, p: Parsed, q: Parsed)
    requires p.fingerprint != q.fingerprint
    ensures Run(NoCash(), [ImportFile(c, Bank, [p, q]), ImportFile(c, Bank, [p, q])]).groups == [Group([0, 1], GroupOpen)]
  {
    FreshPair(c, p, q);
    SecondUpload(Import(NoCash(), c, Bank, [p, q]).0, c, p, q);
    RunTwo(NoCash(), ImportFile(c, Bank, [p, q]), ImportFile(c, Bank, [p, q]));
  }
}
