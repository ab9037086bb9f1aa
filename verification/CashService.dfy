/** The services that update stored transactions in place; each call does what the corresponding step says. */
module CashService {
  import opened Folds
  import opened Wrappers
  import opened Datev
  import opened SystemPolicies
  import opened RuleEngine
  import opened Cash
  import CashTheorems

  lemma {:induction false} ImportRowsSnoc(c: Context, batch: nat, source: Source, st: ImportState, rows: seq<Parsed>, p: Parsed)
    ensures ImportRows(c, batch, source, st, rows + [p]) == ImportRow(c, batch, source, ImportRows(c, batch, source, st, rows), p)
    decreases |rows|
  {
    if rows == [] {
      assert [] + [p] == [p] && [p][1..] == [];
    } else {
      assert (rows + [p])[1..] == rows[1..] + [p];
      ImportRowsSnoc(c, batch, source, ImportRow(c, batch, source, st, rows[0]), rows[1..], p);
    }
  }

  function ReapplyAt(c: Context, p: Pass, i: nat): Pass {
    if i >= |p.txs| then p else PassStep(p, i, Reapply(c, p.txs[i]))
  }

  lemma {:induction false} ReapplyEachSnoc(c: Context, p: Pass, ids: seq<nat>, i: nat)
    ensures ReapplyEach(c, p, ids + [i]) == ReapplyAt(c, ReapplyEach(c, p, ids), i)
    decreases |ids|
  {
    if ids == [] {
      assert [] + [i] == [i] && [i][1..] == [];
    } else {
      assert (ids + [i])[1..] == ids[1..] + [i];
      ReapplyEachSnoc(c, ReapplyAt(c, p, ids[0]), ids[1..], i);
    }
  }

  function ReprocessAt(c: Context, p: Pass, i: nat): Pass {
    if i >= |p.txs| then p else PassStep(p, i, Reprocess(c, p.txs[i]))
  }

  lemma {:induction false} ReprocessEachSnoc(c: Context, p: Pass, ids: seq<nat>, i: nat)
    ensures ReprocessEach(c, p, ids + [i]) == ReprocessAt(c, ReprocessEach(c, p, ids), i)
    decreases |ids|
  {
    if ids == [] {
      assert [] + [i] == [i] && [i][1..] == [];
    } else {
      assert (ids + [i])[1..] == ids[1..] + [i];
      ReprocessEachSnoc(c, ReprocessAt(c, p, ids[0]), ids[1..], i);
    }
  }

  class CashLedger {
    var txs: seq<Tx>
    var imports: nat
    var groups: seq<Group>
    var exports: seq<ExportBatch>
    var items: seq<Item>

    ghost function State(): CashBook
      reads this
    {
      CashBook(txs, imports, groups, exports, items)
    }

    constructor ()
      ensures State() == NoCash()
    {
      txs, imports, groups, exports, items := [], 0, [], [], [];
    }

    method FindByFingerprint(fingerprint: string) returns (found: Option<nat>)
      ensures found == FirstWith(txs, fingerprint, 0)
    {
      var i := 0;
      while i < |txs|
        invariant 0 <= i <= |txs|
        invariant FirstWith(txs, fingerprint, 0) == FirstWith(txs, fingerprint, i)
      {
        if txs[i].fingerprint == fingerprint {
          return Some(i);
        }
        i := i + 1;
      }
      found := None;
    }

    /** The cascade of the import loop: clearing, marketplace park, manual park, human rules. */
    method Settle(c: Context, row: Tx) returns (tx: Tx)
      ensures tx == SettleFresh(c, row)
    {
      var like := LikeAt(row, None);
      if IsClearing(c.matcher, row.source, row.texts, c.policy) {
        return row.(status := Matched, systemMatched := true, clearing := true, ruleIds := [],
                    booking := ClearingBooking(row.source, row.amountCents, c.policy));
      }
      if IsMarketplacePark(c.matcher, row.texts, c.policy) {
        return row.(status := Opened, systemMatched := false, clearing := false, ruleIds := [], booking := NoBooking());
      }
      if IsManualPark(c.matcher, row.texts, c.policy) {
        return row.(status := Opened, systemMatched := false, clearing := false, ruleIds := [], booking := NoBooking());
      }
      var verdict := ApplyHumanRules(c.world, like, c.rules, c.policy);
      tx := row.(systemMatched := false, clearing := false);
      match verdict {
        case Booked(id, b) =>
          tx := tx.(status := Matched, ruleIds := [id], booking := AdjustInventory(b, row.source, c.policy));
        case Conflict(ids) => tx := tx.(status := InConflict, ruleIds := ids, booking := NoBooking());
        case Open => tx := tx.(status := Opened, ruleIds := [], booking := NoBooking());
      }
    }

    method ImportParsed(c: Context, source: Source, rows: seq<Parsed>) returns (st: ImportState)
      modifies this
      ensures (State(), st) == Import(old(State()), c, source, rows)
    {
      var batch := imports;
      imports := imports + 1;
      ghost var start := StartImport(old(State()));
      var created, skipped, duplicates, tally := 0, 0, [], NoTally();
      for i := 0 to |rows|
        invariant ImportState(txs, created, duplicates, skipped, tally) == ImportRows(c, batch, source, start, rows[..i])
        invariant imports == old(imports) + 1 && groups == old(groups) && exports == old(exports) && items == old(items)
      {
        Prefix(rows, i);
        ImportRowsSnoc(c, batch, source, start, rows[..i], rows[i]);
        var existing := FindByFingerprint(rows[i].fingerprint);
        if existing.Some? {
          duplicates := duplicates + [existing.value];
          continue;
        }
        var row := FreshTx(batch, source, rows[i]);
        if rows[i].bookability == NotBooked {
          skipped := skipped + 1;
          txs := txs + [row];
          continue;
        }
        var tx := Settle(c, row);
        txs := txs + [tx];
        created := created + 1;
        tally := CountOutcome(tally, tx.status);
      }
      assert rows[..|rows|] == rows;
      if duplicates != [] {
        groups := groups + [Group(duplicates, GroupOpen)];
      }
      st := ImportState(txs, created, duplicates, skipped, tally);
    }

    /** The last part of a round of applyRules: no rules at all, or what the human rules say. */
    method ReapplyByRules(c: Context, i: nat, tally: Tally) returns (after: Tally)
      requires i < |txs| && !CashTheorems.Locked(txs[i])
      requires !IsClearing(c.matcher, txs[i].source, txs[i].texts, c.policy)
      requires !IsMarketplacePark(c.matcher, txs[i].texts, c.policy) && !IsManualPark(c.matcher, txs[i].texts, c.policy)
      modifies this`txs
      ensures Pass(txs, after) == PassStep(Pass(old(txs), tally), i, Reapply(c, old(txs)[i]))
    {
      var tx := txs[i];
      var like := LikeAt(tx, Some(tx.bookingDate));
      if c.rules == [] {
        if tx.status != Opened {
          txs := txs[i := tx.(status := Opened, booking := NoBooking(), ruleIds := [])];
        }
        return tally.(open := tally.open + 1);
      }
      match ApplyHumanRules(c.world, like, c.rules, c.policy) {
        case Booked(id, b) =>
          var booking := AdjustInventory(b, tx.source, c.policy);
          txs := txs[i := tx.(status := Matched, systemMatched := false, ruleIds := [id], booking := booking)];
          after := tally.(matched := tally.matched + 1);
        case Conflict(ids) =>
          txs := txs[i := tx.(status := InConflict, systemMatched := false, ruleIds := ids, booking := NoBooking())];
          after := tally.(conflict := tally.conflict + 1);
        case Open =>
          txs := txs[i := tx.(status := Opened, systemMatched := false, ruleIds := [], booking := NoBooking())];
          after := tally.(open := tally.open + 1);
      }
    }

    /** One round of applyRules: the guards and the field updates of each outcome, with its counter. */
    method ReapplyOne(c: Context, i: nat, tally: Tally) returns (after: Tally)
      requires i < |txs|
      modifies this`txs
      ensures Pass(txs, after) == PassStep(Pass(old(txs), tally), i, Reapply(c, old(txs)[i]))
    {
      var tx := txs[i];
      if tx.status == Exported || tx.status == Reviewed {
        return tally.(skipped := tally.skipped + 1);
      }
      if tx.bookability == NotBooked {
        return tally.(skipped := tally.skipped + 1);
      }
      if tx.systemMatched && tx.clearing {
        return tally.(matched := tally.matched + 1);
      }
      if IsClearing(c.matcher, tx.source, tx.texts, c.policy) {
        txs := txs[i := tx.(status := Matched, systemMatched := true, clearing := true, ruleIds := [],
                            booking := ClearingBooking(tx.source, tx.amountCents, c.policy))];
        return tally.(matched := tally.matched + 1);
      }
      if IsMarketplacePark(c.matcher, tx.texts, c.policy) {
        txs := txs[i := tx.(status := Opened, systemMatched := false, ruleIds := [], booking := NoBooking())];
        return tally.(open := tally.open + 1);
      }
      if IsManualPark(c.matcher, tx.texts, c.policy) {
        txs := txs[i := tx.(status := Opened, systemMatched := false, ruleIds := [], booking := NoBooking())];
        return tally.(open := tally.open + 1);
      }
      after := ReapplyByRules(c, i, tally);
    }

    method ReapplyRules(c: Context, ids: set<nat>) returns (tally: Tally)
      modifies this`txs
      ensures (State(), tally) == ApplyRules(old(State()), c, ids)
    {
      var selected := SelectedIds(txs, ids);
      ghost var start := Pass(txs, NoTally());
      tally := NoTally();
      for i := 0 to |selected|
        invariant Pass(txs, tally) == ReapplyEach(c, start, selected[..i])
      {
        Prefix(selected, i);
        ReapplyEachSnoc(c, start, selected[..i], selected[i]);
        if selected[i] < |txs| {
          tally := ReapplyOne(c, selected[i], tally);
        }
      }
      assert selected[..|selected|] == selected;
    }

    /** One round of re-processing: judged at the present time, and the system flag is never taken away. */
    method ReprocessOne(c: Context, i: nat, tally: Tally) returns (after: Tally)
      requires i < |txs|
      modifies this`txs
      ensures Pass(txs, after) == PassStep(Pass(old(txs), tally), i, Reprocess(c, old(txs)[i]))
    {
      var tx := txs[i];
      if tx.systemMatched {
        return tally.(matched := tally.matched + 1);
      }
      var like := LikeAt(tx, None);
      if IsClearing(c.matcher, tx.source, tx.texts, c.policy) {
        txs := txs[i := tx.(status := Matched, systemMatched := true, clearing := true, ruleIds := [],
                            booking := ClearingBooking(tx.source, tx.amountCents, c.policy))];
        return tally.(matched := tally.matched + 1);
      }
      if IsMarketplacePark(c.matcher, tx.texts, c.policy) {
        txs := txs[i := tx.(status := Opened, booking := NoBooking(), ruleIds := [])];
        return tally.(open := tally.open + 1);
      }
      if IsManualPark(c.matcher, tx.texts, c.policy) {
        txs := txs[i := tx.(status := Opened, booking := NoBooking(), ruleIds := [])];
        return tally.(open := tally.open + 1);
      }
      match ApplyHumanRules(c.world, like, c.rules, c.policy) {
        case Booked(id, b) =>
          var booking := AdjustInventory(b, tx.source, c.policy);
          txs := txs[i := tx.(status := Matched, ruleIds := [id], booking := booking)];
          after := tally.(matched := tally.matched + 1);
        case Conflict(ids) =>
          txs := txs[i := tx.(status := InConflict, ruleIds := ids, booking := NoBooking())];
          after := tally.(conflict := tally.conflict + 1);
        case Open =>
          txs := txs[i := tx.(status := Opened, ruleIds := [], booking := NoBooking())];
          after := tally.(open := tally.open + 1);
      }
    }

    method ReprocessImport(c: Context, batch: nat) returns (tally: Tally)
      modifies this`txs
      ensures (State(), tally) == ReprocessBatch(old(State()), c, batch)
    {
      var selected := BatchIds(txs, batch);
      ghost var start := Pass(txs, NoTally());
      tally := NoTally();
      for i := 0 to |selected|
        invariant Pass(txs, tally) == ReprocessEach(c, start, selected[..i])
      {
        Prefix(selected, i);
        ReprocessEachSnoc(c, start, selected[..i], selected[i]);
        if selected[i] < |txs| {
          tally := ReprocessOne(c, selected[i], tally);
        }
      }
      assert selected[..|selected|] == selected;
    }

    method AssignTx(id: nat, konto: string, gegenkonto: string, buKey: string, text: string) returns (r: Result<nat, Error>)
      modifies this`txs
      ensures (State(), r) == Assign(old(State()), id, konto, gegenkonto, buKey, text)
    {
      if id >= |txs| {
        return Err(NotFound);
      }
      if txs[id].status == Exported {
        return Err(AlreadyExported);
      }
      var booking := Booking(konto, gegenkonto, buKey, text, Some(SideOf(txs[id].amountCents)));
      txs := txs[id := txs[id].(status := Reviewed, booking := booking)];
      r := Ok(id);
    }

    method SetTxStatus(id: nat, status: Status) returns (r: Result<nat, Error>)
      modifies this`txs
      ensures (State(), r) == SetStatus(old(State()), id, status)
    {
      if id >= |txs| {
        return Err(NotFound);
      }
      if txs[id].status == Exported {
        return Err(AlreadyExported);
      }
      if status !in {Opened, Reviewed, Matched, InConflict, Skipped} {
        return Err(InvalidStatus);
      }
      txs := txs[id := txs[id].(status := status)];
      r := Ok(id);
    }

    method Resolve(id: nat, action: GroupStatus) returns (r: Result<nat, Error>)
      modifies this`txs, this`groups
      ensures (State(), r) == ResolveGroup(old(State()), id, action)
    {
      if id >= |groups| {
        return Err(NotFound);
      }
      if groups[id].status != GroupOpen {
        return Err(GroupResolved);
      }
      if action == GroupOpen {
        return Err(InvalidStatus);
      }
      var txIds := groups[id].txIds;
      if action == Merged && |txIds| > 1 {
        for i := 1 to |txIds|
          invariant MarkDuplicates(old(txs), txIds[1..], txIds[0]) == MarkDuplicates(txs, txIds[i..], txIds[0])
          invariant groups == old(groups)
        {
          assert txIds[i..][1..] == txIds[i + 1..];
          if txIds[i] < |txs| {
            txs := txs[txIds[i] := txs[txIds[i]].(status := Skipped, duplicateOf := Some(txIds[0]))];
          }
        }
      }
      groups := groups[id := groups[id].(status := action)];
      r := Ok(id);
    }

    /** Creates the export items one by one; stops at the first transaction that already has one. */
    method LockTransactions(ids: seq<nat>, batch: nat) returns (r: Result<nat, Error>)
      modifies this`txs, this`items
      ensures (State(), r) == LockEach(old(State()), ids, batch)
    {
      for i := 0 to |ids|
        invariant LockEach(old(State()), ids, batch) == LockEach(State(), ids[i..], batch)
      {
        assert ids[i..][1..] == ids[i + 1..];
        if HasItem(items, ids[i]) {
          return Err(ItemExists(ids[i]));
        }
        items := items + [Item(batch, ids[i])];
        if ids[i] < |txs| {
          txs := txs[ids[i] := txs[ids[i]].(status := Exported, exportedIn := Some(batch))];
        }
      }
      r := Ok(batch);
    }

    method PreviewExport(o: ExportOptions) returns (ids: seq<nat>, rows: seq<Row>, errors: seq<RowError>)
      ensures ids == Gather(txs, o) && rows == Map<nat, Row>(ids, RowAt(txs)) && errors == ErrorsUpTo(rows, |rows|, o.forbidden)
    {
      ids := Gather(txs, o);
      rows := Map<nat, Row>(ids, RowAt(txs));
      errors := ValidateDatevRows(rows, o.forbidden);
    }

    method Export(o: ExportOptions) returns (r: Result<nat, Error>)
      modifies this
      ensures (State(), r) == CreateExport(old(State()), o)
    {
      var ids, rows, errors := PreviewExport(o);
      if ids == [] {
        return Err(NothingToExport);
      }
      if o.blockIfOpen && HasOpenItems(txs, o) {
        return Err(OpenItems);
      }
      if errors != [] {
        return Err(Invalid(errors));
      }
      var batch := |exports|;
      exports := exports + [ExportBatch(rows, ids)];
      r := LockTransactions(ids, batch);
    }
  }
}
