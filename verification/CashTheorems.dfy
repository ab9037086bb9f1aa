/** What the cash steps keep, and how import, re-application and re-processing relate to the one classifier. */
module CashTheorems {
  import opened Folds
  import opened Wrappers
  import opened SystemPolicies
  import opened RuleEngine
  import opened Selection
  import opened Cash

  // ----- import: partition and idempotence -----

  lemma {:induction false} FirstWithSound(txs: seq<Tx>, fingerprint: string, from: nat)
    requires from <= |txs|
    ensures match FirstWith(txs, fingerprint, from)
      case None => forall i :: from <= i < |txs| ==> txs[i].fingerprint != fingerprint
      case Some(i) => from <= i < |txs| && txs[i].fingerprint == fingerprint
    decreases |txs| - from
  {
    if from < |txs| && txs[from].fingerprint != fingerprint {
      FirstWithSound(txs, fingerprint, from + 1);
    }
  }

  predicate UniqueFingerprints(txs: seq<Tx>) {
    forall i, j :: 0 <= i < j < |txs| ==> txs[i].fingerprint != txs[j].fingerprint
  }

  predicate Stored(txs: seq<Tx>, p: Parsed) {
    exists i :: 0 <= i < |txs| && txs[i].fingerprint == p.fingerprint
  }

  function TallySum(t: Tally): nat {
    t.matched + t.conflict + t.open + t.skipped
  }

  /** A settled transaction is matched, open or in conflict. */
  lemma SettledStatus(c: Context, tx: Tx)
    ensures SettleFresh(c, tx).status in {Matched, Opened, InConflict}
    ensures SettleFresh(c, tx).fingerprint == tx.fingerprint
  {
  }

  /** How an import loop gets from one state to a later one over n rows. */
  predicate Counted(a: ImportState, b: ImportState, n: nat) {
    && b.created + |b.duplicates| + b.skipped == a.created + |a.duplicates| + a.skipped + n
    && b.created - a.created == TallySum(b.tally) - TallySum(a.tally)
    && b.tally.skipped == a.tally.skipped
    && a.txs <= b.txs && |b.txs| - |a.txs| == b.created - a.created + b.skipped - a.skipped
  }

  lemma CountedTransitive(a: ImportState, b: ImportState, c: ImportState, n: nat, m: nat)
    requires Counted(a, b, n) && Counted(b, c, m)
    ensures Counted(a, c, n + m)
  {
  }

  lemma ImportRowKeeps(c: Context, batch: nat, source: Source, st: ImportState, p: Parsed)
    requires UniqueFingerprints(st.txs)
    ensures var r := ImportRow(c, batch, source, st, p);
      Counted(st, r, 1) && UniqueFingerprints(r.txs) && Stored(r.txs, p)
  {
    FirstWithSound(st.txs, p.fingerprint, 0);
    var r := ImportRow(c, batch, source, st, p);
    if FirstWith(st.txs, p.fingerprint, 0) == None {
      SettledStatus(c, FreshTx(batch, source, p));
      assert r.txs[|st.txs|].fingerprint == p.fingerprint;
    }
  }

  lemma StaysStored(a: seq<Tx>, b: seq<Tx>, p: Parsed)
    requires a <= b && Stored(a, p)
    ensures Stored(b, p)
  {
    var i :| 0 <= i < |a| && a[i].fingerprint == p.fingerprint;
    assert b[i].fingerprint == p.fingerprint;
  }

  lemma {:induction false} ImportRowsKeep(c: Context, batch: nat, source: Source, st: ImportState, rows: seq<Parsed>)
    requires UniqueFingerprints(st.txs)
    ensures var r := ImportRows(c, batch, source, st, rows);
      Counted(st, r, |rows|) && UniqueFingerprints(r.txs) && forall p :: p in rows ==> Stored(r.txs, p)
    decreases |rows|
  {
    if rows != [] {
      var next := ImportRow(c, batch, source, st, rows[0]);
      var r := ImportRows(c, batch, source, next, rows[1..]);
      ImportRowKeeps(c, batch, source, st, rows[0]);
      ImportRowsKeep(c, batch, source, next, rows[1..]);
      CountedTransitive(st, next, r, 1, |rows[1..]|);
      StaysStored(next.txs, r.txs, rows[0]);
      assert forall p :: p in rows ==> p == rows[0] || p in rows[1..];
    }
  }

  /** Every row of the file is counted once, and every created transaction is matched, open or in conflict. */
  predicate Partition(before: seq<Tx>, st: ImportState, n: nat) {
    && st.created + |st.duplicates| + st.skipped == n
    && st.created == st.tally.matched + st.tally.open + st.tally.conflict
    && before <= st.txs && |st.txs| == |before| + st.created + st.skipped
  }

  lemma CountedFromStart(s: CashBook, st: ImportState, n: nat)
    requires Counted(StartImport(s), st, n)
    ensures Partition(s.txs, st, n)
  {
  }

  lemma ImportPartitions(s: CashBook, c: Context, source: Source, rows: seq<Parsed>)
    requires UniqueFingerprints(s.txs)
    ensures Partition(s.txs, Import(s, c, source, rows).1, |rows|)
    ensures Import(s, c, source, rows).0.txs == Import(s, c, source, rows).1.txs
    ensures UniqueFingerprints(Import(s, c, source, rows).1.txs)
    ensures forall p :: p in rows ==> Stored(Import(s, c, source, rows).1.txs, p)
  {
    ImportRowsKeep(c, s.imports, source, StartImport(s), rows);
    CountedFromStart(s, Import(s, c, source, rows).1, |rows|);
  }

  lemma {:induction false} StoredRowsAreDuplicates(c: Context, batch: nat, source: Source, st: ImportState, rows: seq<Parsed>)
    requires forall p :: p in rows ==> Stored(st.txs, p)
    ensures var r := ImportRows(c, batch, source, st, rows);
      && r.txs == st.txs && r.created == st.created && r.skipped == st.skipped && r.tally == st.tally
      && |r.duplicates| == |st.duplicates| + |rows|
    decreases |rows|
  {
    if rows != [] {
      assert rows[0] in rows;
      FirstWithSound(st.txs, rows[0].fingerprint, 0);
      StoredRowsAreDuplicates(c, batch, source, ImportRow(c, batch, source, st, rows[0]), rows[1..]);
    }
  }

  /** Transactions keep their identity: later steps may append, and never change a fingerprint. */
  predicate SameIdentities(a: seq<Tx>, b: seq<Tx>) {
    |a| <= |b| && forall i :: 0 <= i < |a| ==>
      b[i].fingerprint == a[i].fingerprint && b[i].bookingDate == a[i].bookingDate && b[i].amountCents == a[i].amountCents
      && b[i].bookability == a[i].bookability
  }

  /** Once imported, the same rows in another file create nothing, whatever was done in between. */
  lemma ReimportCreatesNothing(s: CashBook, c: Context, source: Source, rows: seq<Parsed>, later: CashBook, c2: Context, source2: Source)
    requires UniqueFingerprints(s.txs) && SameIdentities(Import(s, c, source, rows).0.txs, later.txs)
    ensures var (s2, st) := Import(later, c2, source2, rows);
      s2.txs == later.txs && st.created == 0 && st.skipped == 0 && |st.duplicates| == |rows|
  {
    ImportPartitions(s, c, source, rows);
    var first := Import(s, c, source, rows).0;
    forall p | p in rows ensures Stored(later.txs, p) {
      var i :| 0 <= i < |first.txs| && first.txs[i].fingerprint == p.fingerprint;
      assert later.txs[i].fingerprint == p.fingerprint;
    }
    StoredRowsAreDuplicates(c2, later.imports, source2, StartImport(later), rows);
  }

  // ----- the three loops and the classifier -----

  predicate Locked(tx: Tx) {
    tx.status == Exported || tx.status == Reviewed || tx.bookability == NotBooked || (tx.systemMatched && tx.clearing)
  }

  /** applyRules writes the classifier's outcome, judged on the booking date, and leaves locked transactions alone. */
  lemma ReapplyRefinesClassifier(c: Context, tx: Tx)
    ensures Locked(tx) ==> Reapply(c, tx).tx == tx
    ensures !Locked(tx) && (c.rules != [] || tx.status != Opened) ==>
      var r, o := Reapply(c, tx).tx, OutcomeOf(c, tx.source, Classify(c, LikeAt(tx, Some(tx.bookingDate))));
      Outcome(r.status, r.booking, r.ruleIds) == o
    ensures !Locked(tx) ==>
      Reapply(c, tx).tx.status == OutcomeOf(c, tx.source, Classify(c, LikeAt(tx, Some(tx.bookingDate)))).status
  {
  }

  lemma ReapplyKeepsFields(c: Context, tx: Tx)
    ensures var r := Reapply(c, tx).tx;
      r.source == tx.source && r.amountCents == tx.amountCents && r.texts == tx.texts && r.bookingDate == tx.bookingDate
      && r.bookability == tx.bookability
  {
  }

  /** The outcome for a transaction depends on fields that re-application does not change. */
  lemma SameOutcomeAgain(c: Context, tx: Tx)
    ensures Classify(c, LikeAt(Reapply(c, tx).tx, Some(Reapply(c, tx).tx.bookingDate))) ==
      Classify(c, LikeAt(tx, Some(tx.bookingDate)))
  {
    ReapplyKeepsFields(c, tx);
    assert LikeAt(Reapply(c, tx).tx, Some(Reapply(c, tx).tx.bookingDate)) == LikeAt(tx, Some(tx.bookingDate));
  }

  lemma ReapplyIsIdempotent(c: Context, tx: Tx)
    ensures Reapply(c, Reapply(c, tx).tx).tx == Reapply(c, tx).tx
  {
    if !Locked(tx) {
      ReapplyKeepsFields(c, tx);
      SameOutcomeAgain(c, tx);
    }
  }

  /** The rules are as active now as they were on the booking date. */
  predicate ValidityUnchanged(c: Context, date: int) {
    forall r :: r in c.rules ==> (ActiveOn(c.world, r, c.world.now) <==> ActiveOn(c.world, r, date))
  }

  lemma {:induction false} SameMatches(w: World, a: TxLike, b: TxLike, rules: seq<Rule>)
    requires forall r :: r in rules ==> (RuleMatches(w, a, r) <==> RuleMatches(w, b, r))
    ensures Filter(rules, MatchesTx(w, a)) == Filter(rules, MatchesTx(w, b))
  {
    if rules != [] {
      assert rules[0] in rules;
      assert forall r :: r in rules[1..] ==> r in rules;
      SameMatches(w, a, b, rules[1..]);
    }
  }

  /** Conditions look at the immutable fields of a transaction, never at its booking date. */
  ghost predicate DateFree(w: World) {
    forall a: TxLike, c: Condition :: w.holds(a, c) == w.holds(a.(bookingDate := None), c)
  }

  lemma SameVerdictAtImport(c: Context, tx: Tx)
    requires DateFree(c.world) && ValidityUnchanged(c, tx.bookingDate)
    ensures Classify(c, LikeAt(tx, None)) == Classify(c, LikeAt(tx, Some(tx.bookingDate)))
  {
    var a, b := LikeAt(tx, None), LikeAt(tx, Some(tx.bookingDate));
    forall r | r in c.rules ensures RuleMatches(c.world, a, r) <==> RuleMatches(c.world, b, r) {
      assert ActiveOn(c.world, r, c.world.now) <==> ActiveOn(c.world, r, tx.bookingDate);
      forall cond: Condition ensures c.world.holds(a, cond) == c.world.holds(b, cond) {
        assert b.(bookingDate := None) == a;
      }
    }
    SameMatches(c.world, a, b, c.rules);
  }

  /**
   * For rules without validity dates (more generally: equally active then and now), applying the rules to a freshly
   * imported transaction reproduces what the import loop wrote, and so does re-processing its batch.
   */
  lemma ImportAndReapplyAgree(c: Context, batch: nat, source: Source, p: Parsed)
    requires p.bookability != NotBooked && DateFree(c.world) && ValidityUnchanged(c, p.bookingDate)
    ensures var row := FreshTx(batch, source, p);
      var imported := SettleFresh(c, row);
      && Reapply(c, imported).tx == imported
      && Reprocess(c, imported).tx == imported
      && Reapply(c, row).tx == imported
      && Reprocess(c, row).tx == imported
  {
    var row := FreshTx(batch, source, p);
    SameVerdictAtImport(c, row);
    var imported := SettleFresh(c, row);
    assert LikeAt(imported, None) == LikeAt(row, None);
    assert LikeAt(imported, Some(imported.bookingDate)) == LikeAt(row, Some(row.bookingDate));
  }

  lemma NoValidityDates(c: Context, date: int)
    requires forall r :: r in c.rules ==> r.validFrom == None && r.validTo == None
    ensures ValidityUnchanged(c, date)
  {
  }

  /** All that a match asks for except that the rule is valid. */
  predicate MatchesOtherwise(w: World, tx: TxLike, rule: Rule) {
    && rule.enabled && rule.conditions != []
    && if rule.anyCondition then exists c :: c in rule.conditions && w.holds(tx, c)
       else forall c :: c in rule.conditions ==> w.holds(tx, c)
  }

  function Written(tx: Tx): Outcome {
    Outcome(tx.status, tx.booking, tx.ruleIds)
  }

  lemma OneRuleDecides(c: Context, rule: Rule, tx: Tx, date: Option<int>)
    requires c.rules == [rule] && DateFree(c.world)
    requires !IsClearing(c.matcher, tx.source, tx.texts, c.policy)
    requires !IsMarketplacePark(c.matcher, tx.texts, c.policy) && !IsManualPark(c.matcher, tx.texts, c.policy)
    ensures var usable := MatchesOtherwise(c.world, LikeAt(tx, None), rule) && CanBook(LikeAt(tx, None), rule, c.policy);
      Classify(c, LikeAt(tx, date)) == ByRules(
        if usable && ActiveOn(c.world, rule, date.GetOr(c.world.now)) then VerdictOfOne(LikeAt(tx, None), rule, c.policy) else Open)
  {
    var like, p := LikeAt(tx, date), MatchesTx(c.world, LikeAt(tx, date));
    forall cond: Condition ensures c.world.holds(like, cond) == c.world.holds(LikeAt(tx, None), cond) {
      assert like.(bookingDate := None) == LikeAt(tx, None);
    }
    assert [rule][1..] == [];
    assert Filter([rule], p) == if RuleMatches(c.world, like, rule) then [rule] else [];
  }

  /**
   * With one rule that decides about a transaction, import and applyRules write different outcomes if and only if the
   * rule would book it and is valid at just one of the two times: the import judges it now, applyRules on the booking date.
   */
  lemma ExpiredRuleSeparatesImportAndReapply(c: Context, rule: Rule, tx: Tx)
    requires c.rules == [rule] && DateFree(c.world) && !Locked(tx)
    requires !IsClearing(c.matcher, tx.source, tx.texts, c.policy)
    requires !IsMarketplacePark(c.matcher, tx.texts, c.policy) && !IsManualPark(c.matcher, tx.texts, c.policy)
    ensures Written(SettleFresh(c, tx)) != Written(Reapply(c, tx).tx) <==>
      && MatchesOtherwise(c.world, LikeAt(tx, None), rule) && CanBook(LikeAt(tx, None), rule, c.policy)
      && (ActiveOn(c.world, rule, c.world.now) <==> !ActiveOn(c.world, rule, tx.bookingDate))
  {
    OneRuleDecides(c, rule, tx, None);
    OneRuleDecides(c, rule, tx, Some(tx.bookingDate));
  }

  /** Unlike applyRules, re-processing overwrites what a human has reviewed. */
  lemma ReprocessDiscardsReview(c: Context, tx: Tx)
    requires tx.status == Reviewed && !tx.systemMatched
    ensures Reprocess(c, tx).tx.status != Reviewed
    ensures Outcome(Reprocess(c, tx).tx.status, Reprocess(c, tx).tx.booking, Reprocess(c, tx).tx.ruleIds) ==
      OutcomeOf(c, tx.source, Classify(c, LikeAt(tx, None)))
    ensures Reapply(c, tx).tx == tx
  {
  }

  // ----- whole passes -----

  lemma {:induction false} ReapplyEachPointwise(c: Context, p: Pass, ids: seq<nat>)
    requires NoRepeats(ids) && forall i :: i in ids ==> i < |p.txs|
    ensures var r := ReapplyEach(c, p, ids);
      && |r.txs| == |p.txs|
      && (forall i :: 0 <= i < |p.txs| ==> r.txs[i] == if i in ids then Reapply(c, p.txs[i]).tx else p.txs[i])
      && TallySum(r.tally) == TallySum(p.tally) + |ids|
    decreases |ids|
  {
    if ids != [] {
      assert ids[0] in ids && ids[0] !in ids[1..];
      var next := PassStep(p, ids[0], Reapply(c, p.txs[ids[0]]));
      assert forall i :: i in ids[1..] ==> i in ids;
      ReapplyEachPointwise(c, next, ids[1..]);
    }
  }

  lemma {:induction false} ReprocessEachPointwise(c: Context, p: Pass, ids: seq<nat>)
    requires NoRepeats(ids) && forall i :: i in ids ==> i < |p.txs|
    ensures var r := ReprocessEach(c, p, ids);
      && |r.txs| == |p.txs|
      && (forall i :: 0 <= i < |p.txs| ==> r.txs[i] == if i in ids then Reprocess(c, p.txs[i]).tx else p.txs[i])
      && TallySum(r.tally) == TallySum(p.tally) + |ids|
    decreases |ids|
  {
    if ids != [] {
      assert ids[0] in ids && ids[0] !in ids[1..];
      var next := PassStep(p, ids[0], Reprocess(c, p.txs[ids[0]]));
      assert forall i :: i in ids[1..] ==> i in ids;
      ReprocessEachPointwise(c, next, ids[1..]);
    }
  }

  /**
   * Re-processing a batch takes the review of a transaction away if and only if the transaction is selected for it and
   * was not booked by the system; a review that stays leaves the whole transaction as it was.
   */
  lemma ReprocessKeepsReviewIff(s: CashBook, c: Context, batch: nat, i: nat)
    requires i < |s.txs| && s.txs[i].status == Reviewed
    ensures var after := ReprocessBatch(s, c, batch).0.txs;
      && |after| == |s.txs|
      && (after[i].status == Reviewed <==> !OfBatch(s.txs, batch)(i) || s.txs[i].systemMatched)
      && (after[i].status == Reviewed ==> after[i] == s.txs[i])
  {
    FilterPositions(|s.txs|, OfBatch(s.txs, batch));
    ReprocessEachPointwise(c, Pass(s.txs, NoTally()), BatchIds(s.txs, batch));
    if !s.txs[i].systemMatched {
      ReprocessDiscardsReview(c, s.txs[i]);
    }
  }

  /** A pass writes r for the selected transactions, leaves the others, and counts each selected one. */
  ghost predicate PassResult(before: seq<Tx>, after: seq<Tx>, tally: Tally, ids: seq<nat>, write: Tx -> Tx) {
    && |after| == |before|
    && TallySum(tally) == |ids|
    && forall i :: 0 <= i < |before| ==> after[i] == if i in ids then write(before[i]) else before[i]
  }

  function Reapplies(c: Context): Tx -> Tx {
    (tx: Tx) => Reapply(c, tx).tx
  }

  /** The pass writes the selected transactions only, and its four counters add up to the number processed. */
  lemma ApplyRulesPointwise(s: CashBook, c: Context, ids: set<nat>)
    ensures PassResult(s.txs, ApplyRules(s, c, ids).0.txs, ApplyRules(s, c, ids).1, SelectedIds(s.txs, ids), Reapplies(c))
    ensures forall i: nat :: i in SelectedIds(s.txs, ids) <==> Selected(s.txs, ids)(i)
    ensures ApplyRules(s, c, ids).0 == s.(txs := ApplyRules(s, c, ids).0.txs)
  {
    FilterPositions(|s.txs|, Selected(s.txs, ids));
    ReapplyEachPointwise(c, Pass(s.txs, NoTally()), SelectedIds(s.txs, ids));
  }

  /** No exported, reviewed, skipped or cleared transaction is touched, even when its id is given. */
  lemma ApplyRulesLeavesLocked(s: CashBook, c: Context, ids: set<nat>, i: nat)
    requires i < |s.txs| && Locked(s.txs[i])
    ensures |ApplyRules(s, c, ids).0.txs| == |s.txs| && ApplyRules(s, c, ids).0.txs[i] == s.txs[i]
  {
    ApplyRulesPointwise(s, c, ids);
    ReapplyRefinesClassifier(c, s.txs[i]);
  }

  /** A transaction that a pass may take again has a status of the default selection afterwards. */
  lemma ReapplyStatus(c: Context, tx: Tx)
    ensures Reapply(c, tx).tx.status == tx.status || Reapply(c, tx).tx.status in {Opened, InConflict, Matched}
  {
  }

  lemma StillSelected(s: CashBook, c: Context, ids: set<nat>, i: nat)
    requires i < |s.txs|
    ensures Selected(ApplyRules(s, c, ids).0.txs, ids)(i) == Selected(s.txs, ids)(i)
  {
    ApplyRulesPointwise(s, c, ids);
    ReapplyStatus(c, s.txs[i]);
    SelectedAfter(s.txs, ApplyRules(s, c, ids).0.txs, ids, Reapplies(c), i);
  }

  lemma SelectedAfter(before: seq<Tx>, after: seq<Tx>, ids: set<nat>, write: Tx -> Tx, i: nat)
    requires i < |before| == |after|
    requires after[i] == if Selected(before, ids)(i) then write(before[i]) else before[i]
    requires write(before[i]).status == before[i].status || write(before[i]).status in {Opened, InConflict, Matched}
    ensures Selected(after, ids)(i) == Selected(before, ids)(i)
  {
  }

  /** A second run with the same rules and policies changes nothing. */
  lemma ApplyRulesIsIdempotent(s: CashBook, c: Context, ids: set<nat>)
    ensures ApplyRules(ApplyRules(s, c, ids).0, c, ids).0 == ApplyRules(s, c, ids).0
  {
    var once := ApplyRules(s, c, ids).0;
    var twice := ApplyRules(once, c, ids).0;
    ApplyRulesPointwise(s, c, ids);
    ApplyRulesPointwise(once, c, ids);
    forall i | 0 <= i < |s.txs| ensures twice.txs[i] == once.txs[i] {
      StillSelected(s, c, ids, i);
      ReapplyIsIdempotent(c, s.txs[i]);
    }
    assert twice.txs == once.txs;
  }
}
