/** What a cash export says about the stored transactions: which it takes, what each row carries, and what the rows post. */
module CashPosting {
  import opened Folds
  import opened Wrappers
  import opened Datev
  import opened Selection
  import opened Cash
  import CashLock
  import Sorting

  /** Approved, bookable, completely booked, in the period and in no export yet. */
  predicate IsDue(o: ExportOptions, tx: Tx) {
    && o.lo <= tx.bookingDate && tx.bookingDate <= o.hi
    && (tx.status == Reviewed || (tx.status == Matched && o.allowMatched))
    && tx.bookability == Bookable && tx.exportedIn == None
    && tx.booking.konto != "" && tx.booking.gegenkonto != ""
  }

  /** The side of the booking's konto: the stored one, or else debit for an outflow and credit for an inflow. */
  predicate IsKontoSide(tx: Tx, side: Side) {
    match tx.booking.side
    case Some(stored) => side == stored
    case None => if tx.amountCents < 0 then side == S else side == H
  }

  /** The row carries what is stored in the transaction. */
  predicate Carries(row: Row, tx: Tx) {
    && row.amountCents == tx.amountCents && IsKontoSide(tx, row.side)
    && row.konto == tx.booking.konto && row.gegenkonto == tx.booking.gegenkonto && row.buKey == tx.booking.buKey
    && row.belegdatum == tx.bookingDate && row.belegfeld1 == tx.reference
    && var text := if tx.booking.bookingText == "" then tx.texts.purpose else tx.booking.bookingText;
       row.buchungstext == text[..if |text| <= 60 then |text| else 60]
  }

  /** The transactions taken, each once and by date, and one row for each. */
  ghost predicate ListsDue(s: CashBook, o: ExportOptions, batch: ExportBatch) {
    && NoRepeats(batch.txIds) && (forall i: nat :: i in batch.txIds <==> i < |s.txs| && IsDue(o, s.txs[i]))
    && (forall k :: 0 <= k < |batch.txIds| ==> batch.txIds[k] < |s.txs|)
    && (forall k, m :: 0 <= k < m < |batch.txIds| ==> s.txs[batch.txIds[k]].bookingDate <= s.txs[batch.txIds[m]].bookingDate)
    && |batch.rows| == |batch.txIds|
    && forall k :: 0 <= k < |batch.rows| ==> Carries(batch.rows[k], s.txs[batch.txIds[k]])
  }

  lemma GatheredByDate(txs: seq<Tx>, o: ExportOptions)
    ensures forall k, m :: 0 <= k < m < |Gather(txs, o)| ==> DateOf(txs)(Gather(txs, o)[k]) <= DateOf(txs)(Gather(txs, o)[m])
  {
    Sorting.SortStableSorted(Filter(Positions(|txs|), Eligible(txs, o)), DateOf(txs));
  }

  lemma {:induction false} LockingKeepsBatches(s: CashBook, ids: seq<nat>, batch: nat)
    ensures LockEach(s, ids, batch).0.exports == s.exports
    decreases |ids|
  {
    if ids != [] && !HasItem(s.items, ids[0]) {
      LockingKeepsBatches(LockOne(s, ids[0], batch), ids[1..], batch);
    }
  }

  lemma GatheredIsDue(s: CashBook, o: ExportOptions)
    ensures NoRepeats(Gather(s.txs, o))
    ensures forall i: nat :: i in Gather(s.txs, o) <==> i < |s.txs| && IsDue(o, s.txs[i])
  {
    CashLock.GatherSound(s.txs, o);
    forall i: nat ensures i in Gather(s.txs, o) <==> i < |s.txs| && IsDue(o, s.txs[i]) {
      assert i in Gather(s.txs, o) <==> Eligible(s.txs, o)(i);
    }
  }

  lemma RowCarries(txs: seq<Tx>, i: nat)
    requires i < |txs|
    ensures Carries(RowAt(txs)(i), txs[i])
  {
  }

  lemma RowsCarry(s: CashBook, o: ExportOptions)
    ensures ListsDue(s, o, ExportBatch(CashLock.RowsFor(s, Gather(s.txs, o)), Gather(s.txs, o)))
  {
    var ids := Gather(s.txs, o);
    GatheredIsDue(s, o);
    GatheredByDate(s.txs, o);
    forall k | 0 <= k < |ids| ensures ids[k] < |s.txs| && Carries(CashLock.RowsFor(s, ids)[k], s.txs[ids[k]]) {
      assert ids[k] in ids;
      RowCarries(s.txs, ids[k]);
    }
  }

  lemma StoredBatch(s: CashBook, o: ExportOptions)
    requires CreateExport(s, o).1.Ok?
    ensures CreateExport(s, o).0.exports == s.exports + [ExportBatch(CashLock.RowsFor(s, Gather(s.txs, o)), Gather(s.txs, o))]
  {
    var ids := Gather(s.txs, o);
    LockingKeepsBatches(s.(exports := s.exports + [ExportBatch(CashLock.RowsFor(s, ids), ids)]), ids, |s.exports|);
  }

  /** A successful export stores one batch; it takes exactly the due transactions, and row k carries what the k-th has stored. */
  lemma ExportCarriesTransactions(s: CashBook, o: ExportOptions)
    requires CreateExport(s, o).1.Ok?
    ensures var exports := CreateExport(s, o).0.exports;
      |exports| == |s.exports| + 1 && exports[..|s.exports|] == s.exports && ListsDue(s, o, exports[|s.exports|])
  {
    StoredBatch(s, o);
    RowsCarry(s, o);
  }

  // ----- conservation -----

  /** What a stored booking posts on one side of an account: the konto on its side, the gegenkonto on the other one. */
  function BookedOn(account: string, side: Side): Tx -> int {
    (tx: Tx) =>
      (if tx.booking.konto == account && IsKontoSide(tx, side) then Abs(tx.amountCents) else 0) +
      (if tx.booking.gegenkonto == account && !IsKontoSide(tx, side) then Abs(tx.amountCents) else 0)
  }

  function Due(o: ExportOptions): Tx -> bool {
    (tx: Tx) => IsDue(o, tx)
  }

  lemma RowPosts(row: Row, tx: Tx, account: string, side: Side)
    requires Carries(row, tx) && tx.booking.gegenkonto != ""
    ensures Posted(account, side)(row) == BookedOn(account, side)(tx)
  {
  }

  lemma {:induction false} RowsPost(rows: seq<Row>, txs: seq<Tx>, ids: seq<nat>, account: string, side: Side)
    requires |rows| == |ids| && forall i :: i in ids ==> i < |txs| && txs[i].booking.gegenkonto != ""
    requires forall k :: 0 <= k < |rows| ==> ids[k] in ids && Carries(rows[k], txs[ids[k]])
    ensures Sum(rows, Posted(account, side)) == Sum(ids, At(txs, BookedOn(account, side)))
  {
    if rows != [] {
      assert ids[0] in ids;
      RowPosts(rows[0], txs[ids[0]], account, side);
      assert forall i :: i in ids[1..] ==> i in ids;
      RowsPost(rows[1..], txs, ids[1..], account, side);
    }
  }

  /** Conservation: for every account and side the rows post exactly what the due transactions' stored bookings post. */
  lemma ExportPostsTheBookings(s: CashBook, o: ExportOptions, account: string, side: Side)
    requires CreateExport(s, o).1.Ok?
    ensures |CreateExport(s, o).0.exports| > |s.exports|
    ensures Sum(CreateExport(s, o).0.exports[|s.exports|].rows, Posted(account, side)) ==
      Sum(s.txs, Only(Due(o), BookedOn(account, side)))
  {
    ExportCarriesTransactions(s, o);
    var batch := CreateExport(s, o).0.exports[|s.exports|];
    RowsPost(batch.rows, s.txs, batch.txIds, account, side);
    SumOfSelected(s.txs, batch.txIds, Due(o), BookedOn(account, side));
  }

  // ----- success and the state afterwards -----

  /** An open or conflicting bookable transaction in the shorter period. */
  predicate IsOpenItem(o: ExportOptions, tx: Tx) {
    && o.openLo <= tx.bookingDate && tx.bookingDate <= o.openHi
    && (tx.status == Opened || tx.status == InConflict) && tx.bookability == Bookable
  }

  /**
   * In every state of a run: an export succeeds if and only if something is due, nothing open blocks it, and everything due
   * has an amount and permitted accounts.
   */
  lemma ExportSucceedsExactly(s: CashBook, o: ExportOptions)
    requires CashLock.Inv(s)
    ensures CreateExport(s, o).1.Ok? <==>
      && (exists i: nat :: i < |s.txs| && IsDue(o, s.txs[i]))
      && !(o.blockIfOpen && exists i: nat :: i < |s.txs| && IsOpenItem(o, s.txs[i]))
      && (forall i: nat :: i < |s.txs| && IsDue(o, s.txs[i]) ==>
            s.txs[i].amountCents != 0 && s.txs[i].booking.konto !in o.forbidden && s.txs[i].booking.gegenkonto !in o.forbidden)
  {
    CashLock.ExportSucceedsIff(s, o);
    GatheredIsDue(s, o);
    var ids := Gather(s.txs, o);
    if ids != [] {
      assert ids[0] in ids;
    }
    assert HasOpenItems(s.txs, o) <==> exists i: nat :: i < |s.txs| && IsOpenItem(o, s.txs[i]);
  }

  /** It marks exactly the due transactions as exported by the new batch, and changes no other one. */
  lemma ExportMarks(s: CashBook, o: ExportOptions, i: nat)
    requires CashLock.Inv(s) && CreateExport(s, o).1.Ok? && i < |s.txs|
    ensures |CreateExport(s, o).0.txs| == |s.txs|
    ensures CreateExport(s, o).0.txs[i] ==
      if IsDue(o, s.txs[i]) then s.txs[i].(status := Exported, exportedIn := Some(|s.exports|)) else s.txs[i]
  {
    CashLock.ExportResult(s, o);
    GatheredIsDue(s, o);
  }
}
