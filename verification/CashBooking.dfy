/** What the classification stores in a transaction, read off the transaction, the policy and the rules themselves. */
module CashBooking {
  import opened Folds
  import opened Wrappers
  import opened Datev
  import opened SystemPolicies
  import opened RuleEngine
  import opened Selection
  import opened Cash
  import opened CashTheorems
  import opened Text

  // ----- the possible outcomes -----

  /** The account of the transaction's own source. */
  predicate IsPaymentAccount(account: string, source: Source, policy: Policy) {
    match source
    case Bank => account == policy.bank
    case PayPal => account == policy.paypal
  }

  predicate IsOwnSide(side: Option<Side>, amountCents: int) {
    if amountCents < 0 then side == Some(S) else side == Some(H)
  }

  predicate LeftOpen(after: Tx) {
    after.status == Opened && after.ruleIds == [] && after.booking == Booking("", "", "", "", None)
  }

  /** Booked to the clearing account, against the account of the source. */
  predicate Cleared(after: Tx, tx: Tx, policy: Policy) {
    && after.status == Matched && after.ruleIds == []
    && after.booking.konto == policy.clearing && IsPaymentAccount(after.booking.gegenkonto, tx.source, policy)
    && after.booking.buKey == "" && IsOwnSide(after.booking.side, tx.amountCents)
    && after.booking.bookingText == (if policy.clearingText == "" then "Verrechnung Bank \U{2194} PayPal" else policy.clearingText)
  }

  /** The rule's own gegenkonto, unless it has none or asks for the payment account. */
  predicate IsContra(account: string, a: Actions, source: Source, policy: Policy) {
    if a.gegenkonto != "" && !a.useMappedPaymentAccount then account == a.gegenkonto else IsPaymentAccount(account, source, policy)
  }

  predicate Permitted(account: string, policy: Policy) {
    account != "" && (policy.forbidCollectives ==> account !in policy.forbiddenCollectives)
  }

  predicate IsUsable(rule: Rule, source: Source, policy: Policy) {
    && rule.actions.Some? && Permitted(rule.actions.value.konto, policy)
    && forall contra | contra in {rule.actions.value.gegenkonto, policy.bank, policy.paypal} ::
         IsContra(contra, rule.actions.value, source, policy) ==> Permitted(contra, policy)
  }

  /** The template, or the first 60 characters of name and purpose. */
  predicate IsText(text: string, a: Actions, t: TxTexts) {
    if a.template != "" then text == a.template
    else
      var full := if t.counterpartyName == "" then t.purpose
                  else if t.purpose == "" then t.counterpartyName
                  else t.counterpartyName + " \U{2014} " + t.purpose;
      text == full[..if |full| <= 60 then |full| else 60]
  }

  /** Goods from private sellers: always against the account of the source, without a tax key. */
  predicate IsInventory(konto: string, policy: Policy) {
    policy.inventory && konto == policy.privateInventory
  }

  predicate BookedBy(after: Tx, tx: Tx, rule: Rule, policy: Policy)
    requires rule.actions.Some?
  {
    var a, b := rule.actions.value, after.booking;
    && after.status == Matched && after.ruleIds == [rule.id]
    && b.konto == a.konto && IsOwnSide(b.side, tx.amountCents) && IsText(b.bookingText, a, tx.texts)
    && if IsInventory(a.konto, policy) then IsPaymentAccount(b.gegenkonto, tx.source, policy) && b.buKey == ""
       else IsContra(b.gegenkonto, a, tx.source, policy) && b.buKey == a.buKey
  }

  /** A conflict books nothing and names every matching rule. */
  predicate InConflictOver(after: Tx, ruleIds: seq<string>) {
    after.status == InConflict && after.ruleIds == ruleIds && after.booking == Booking("", "", "", "", None)
  }

  /** `date`: the day on which the rules' validity is judged, or none for the present time. */
  predicate Matching(c: Context, tx: Tx, date: Option<int>, rule: Rule) {
    RuleMatches(c.world, TxLike(tx.source, tx.amountCents, tx.texts, date), rule)
  }

  function MatchingIds(c: Context, tx: Tx, date: Option<int>, rules: seq<Rule>): seq<string> {
    if rules == [] then [] else (if Matching(c, tx, date, rules[0]) then [rules[0].id] else []) + MatchingIds(c, tx, date, rules[1..])
  }

  /** Clearing, then the parks, then the rules: none or an unusable one, exactly one, several. */
  predicate Classified(c: Context, tx: Tx, after: Tx, date: Option<int>) {
    var ids := MatchingIds(c, tx, date, c.rules);
    if IsClearing(c.matcher, tx.source, tx.texts, c.policy) then Cleared(after, tx, c.policy)
    else if IsMarketplacePark(c.matcher, tx.texts, c.policy) || IsManualPark(c.matcher, tx.texts, c.policy) then LeftOpen(after)
    else if |ids| == 0 then LeftOpen(after)
    else if |ids| > 1 then InConflictOver(after, ids)
    else
      forall rule :: rule in c.rules && Matching(c, tx, date, rule) ==>
        if IsUsable(rule, tx.source, c.policy) then BookedBy(after, tx, rule, c.policy) else LeftOpen(after)
  }

  // ----- the classifier's decisions mean that -----

  lemma {:induction false} MatchingIdsAre(c: Context, tx: Tx, date: Option<int>, rules: seq<Rule>)
    ensures MatchingIds(c, tx, date, rules) == Map(Filter(rules, MatchesTx(c.world, LikeAt(tx, date))), RuleId())
  {
    if rules != [] {
      MatchingIdsAre(c, tx, date, rules[1..]);
      MapOfFirst(rules, MatchesTx(c.world, LikeAt(tx, date)), RuleId());
    }
  }

  lemma TextIs(like: TxLike, a: Actions)
    ensures IsText(TextOf(like, a), a, like.texts)
  {
    var name, purpose := like.texts.counterpartyName, like.texts.purpose;
    var none: seq<string> := [];
    assert [name] + [purpose] == [name, purpose] && [name, purpose][1..] == [purpose];
    assert Join([name, purpose], " \U{2014} ") == name + " \U{2014} " + Join([purpose], " \U{2014} ");
    assert none + [purpose] == [purpose] && [name] + none == [name];
  }

  lemma UsableIs(like: TxLike, rule: Rule, policy: Policy)
    ensures CanBook(like, rule, policy) <==> IsUsable(rule, like.source, policy)
  {
    if rule.actions.Some? {
      var a := rule.actions.value;
      var contra := GegenkontoOf(like, a, policy);
      assert contra in {a.gegenkonto, policy.bank, policy.paypal} && IsContra(contra, a, like.source, policy);
    }
  }

  lemma OutcomeIs(c: Context, tx: Tx, after: Tx, date: Option<int>)
    requires var o := OutcomeOf(c, tx.source, Classify(c, LikeAt(tx, date)));
      after.status == o.status && after.booking == o.booking && after.ruleIds == o.ruleIds
    ensures Classified(c, tx, after, date)
  {
    var like, p := LikeAt(tx, date), MatchesTx(c.world, LikeAt(tx, date));
    MatchingIdsAre(c, tx, date, c.rules);
    var matched := Filter(c.rules, p);
    if Classify(c, like).ByRules? && |matched| == 1 {
      OnlyMatch(c.rules, p);
      OneRuleStores(c, tx, after, date, matched[0]);
    }
  }

  lemma OneRuleStores(c: Context, tx: Tx, after: Tx, date: Option<int>, rule: Rule)
    requires var o := OutcomeOf(c, tx.source, ByRules(VerdictOfOne(LikeAt(tx, date), rule, c.policy)));
      after.status == o.status && after.booking == o.booking && after.ruleIds == o.ruleIds
    ensures if IsUsable(rule, tx.source, c.policy) then BookedBy(after, tx, rule, c.policy) else LeftOpen(after)
  {
    var like := LikeAt(tx, date);
    UsableIs(like, rule, c.policy);
    if CanBook(like, rule, c.policy) {
      TextIs(like, rule.actions.value);
    }
  }

  // ----- what the three services store -----

  /** Everything but the classification stays. */
  predicate SameOtherwise(after: Tx, tx: Tx) {
    after == tx.(status := after.status, booking := after.booking, ruleIds := after.ruleIds,
                 systemMatched := after.systemMatched, clearing := after.clearing)
  }

  lemma SettleFreshStores(c: Context, tx: Tx)
    ensures var after, cleared := SettleFresh(c, tx), IsClearing(c.matcher, tx.source, tx.texts, c.policy);
      SameOtherwise(after, tx) && Classified(c, tx, after, None) && after.systemMatched == cleared && after.clearing == cleared
  {
    OutcomeIs(c, tx, SettleFresh(c, tx), None);
  }

  /** Finished transactions, and those that the clearing policy has booked, are not touched. */
  predicate IsSettled(tx: Tx) {
    tx.status in {Exported, Reviewed} || tx.bookability == NotBooked || (tx.systemMatched && tx.clearing)
  }

  /** Without any rules, an open transaction keeps what it has. */
  predicate KeptOpen(c: Context, tx: Tx) {
    && c.rules == [] && tx.status == Opened && !IsClearing(c.matcher, tx.source, tx.texts, c.policy)
    && !IsMarketplacePark(c.matcher, tx.texts, c.policy) && !IsManualPark(c.matcher, tx.texts, c.policy)
  }

  predicate ReappliedTo(c: Context, tx: Tx, after: Tx) {
    if IsSettled(tx) || KeptOpen(c, tx) then after == tx
    else SameOtherwise(after, tx) && Classified(c, tx, after, Some(tx.bookingDate))
  }

  lemma ReapplyStores(c: Context, tx: Tx)
    ensures ReappliedTo(c, tx, Reapply(c, tx).tx)
  {
    if !IsSettled(tx) && !KeptOpen(c, tx) {
      ReapplyRefinesClassifier(c, tx);
      OutcomeIs(c, tx, Reapply(c, tx).tx, Some(tx.bookingDate));
    }
  }

  predicate ReprocessedTo(c: Context, tx: Tx, after: Tx) {
    if tx.systemMatched then after == tx else SameOtherwise(after, tx) && Classified(c, tx, after, None)
  }

  lemma ReprocessStores(c: Context, tx: Tx)
    ensures ReprocessedTo(c, tx, Reprocess(c, tx).tx)
  {
    if !tx.systemMatched {
      OutcomeIs(c, tx, Reprocess(c, tx).tx, None);
    }
  }

  /** applyRules: the given transactions, or all that are not finished, are classified on their booking dates. */
  lemma ApplyRulesStores(s: CashBook, c: Context, ids: set<nat>, i: nat)
    requires i < |s.txs|
    ensures var after := ApplyRules(s, c, ids).0;
      && after == s.(txs := after.txs) && |after.txs| == |s.txs|
      && if (if ids != {} then i in ids else s.txs[i].status in {Opened, Imported, InConflict, Matched, Suggested})
         then ReappliedTo(c, s.txs[i], after.txs[i]) else after.txs[i] == s.txs[i]
  {
    ApplyRulesPointwise(s, c, ids);
    ReapplyStores(c, s.txs[i]);
  }

  /** Re-processing: the batch's transactions that are neither exported nor skipped are classified at the present time. */
  lemma ReprocessBatchStores(s: CashBook, c: Context, batch: nat, i: nat)
    requires i < |s.txs|
    ensures var after := ReprocessBatch(s, c, batch).0;
      && after == s.(txs := after.txs) && |after.txs| == |s.txs|
      && if s.txs[i].importBatch == batch && s.txs[i].status !in {Exported, Skipped} && s.txs[i].bookability != NotBooked
         then ReprocessedTo(c, s.txs[i], after.txs[i]) else after.txs[i] == s.txs[i]
  {
    FilterPositions(|s.txs|, OfBatch(s.txs, batch));
    ReprocessEachPointwise(c, Pass(s.txs, NoTally()), BatchIds(s.txs, batch));
    ReprocessStores(c, s.txs[i]);
  }

  // ----- what an import stores -----

  /** The transaction made of a row: its data, and the outcome of the classification unless the row is not booked. */
  predicate MadeOf(c: Context, batch: nat, source: Source, p: Parsed, tx: Tx) {
    && tx.importBatch == batch && tx.source == source && tx.fingerprint == p.fingerprint && tx.bookingDate == p.bookingDate
    && tx.amountCents == p.amountCents && tx.texts == p.texts && tx.reference == p.reference && tx.bookability == p.bookability
    && tx.exportedIn == None && tx.duplicateOf == None
    && var cleared := p.bookability != NotBooked && IsClearing(c.matcher, source, p.texts, c.policy);
       && tx.systemMatched == cleared && tx.clearing == cleared
       && if p.bookability == NotBooked then tx.status == Skipped && tx.ruleIds == [] && tx.booking == Booking("", "", "", "", None)
          else Classified(c, tx, tx, None)
  }

  predicate MadeOfSome(c: Context, batch: nat, source: Source, rows: seq<Parsed>, tx: Tx) {
    exists k :: 0 <= k < |rows| && MadeOf(c, batch, source, rows[k], tx)
  }

  lemma SameClassification(c: Context, tx: Tx, other: Tx, after: Tx, date: Option<int>)
    requires tx.source == other.source && tx.amountCents == other.amountCents && tx.texts == other.texts
    requires Classified(c, tx, after, date)
    ensures Classified(c, other, after, date)
  {
    SameMatchingIds(c, tx, other, date, c.rules);
  }

  lemma {:induction false} SameMatchingIds(c: Context, tx: Tx, other: Tx, date: Option<int>, rules: seq<Rule>)
    requires tx.source == other.source && tx.amountCents == other.amountCents && tx.texts == other.texts
    ensures MatchingIds(c, tx, date, rules) == MatchingIds(c, other, date, rules)
  {
    if rules != [] {
      SameMatchingIds(c, tx, other, date, rules[1..]);
    }
  }

  lemma RowMakes(c: Context, batch: nat, source: Source, st: ImportState, p: Parsed)
    ensures var r := ImportRow(c, batch, source, st, p);
      && st.txs <= r.txs && |r.txs| <= |st.txs| + 1
      && (|r.txs| > |st.txs| ==> MadeOf(c, batch, source, p, r.txs[|st.txs|]))
  {
    var row := FreshTx(batch, source, p);
    SettleFreshStores(c, row);
    SameClassification(c, row, SettleFresh(c, row), SettleFresh(c, row), None);
  }

  lemma {:induction false} RowsMake(c: Context, batch: nat, source: Source, st: ImportState, rows: seq<Parsed>)
    ensures var r := ImportRows(c, batch, source, st, rows);
      && st.txs <= r.txs
      && forall i :: |st.txs| <= i < |r.txs| ==> MadeOfSome(c, batch, source, rows, r.txs[i])
    decreases |rows|
  {
    if rows != [] {
      var next := ImportRow(c, batch, source, st, rows[0]);
      var r := ImportRows(c, batch, source, next, rows[1..]);
      RowMakes(c, batch, source, st, rows[0]);
      RowsMake(c, batch, source, next, rows[1..]);
      forall i | |st.txs| <= i < |r.txs| ensures MadeOfSome(c, batch, source, rows, r.txs[i]) {
        if i < |next.txs| {
          assert MadeOf(c, batch, source, rows[0], r.txs[i]);
        } else {
          var k :| 0 <= k < |rows[1..]| && MadeOf(c, batch, source, rows[1..][k], r.txs[i]);
          assert rows[1..][k] == rows[k + 1];
        }
      }
    }
  }

  /** An import leaves the stored transactions alone, and each new one is made of one of its rows. */
  lemma ImportStores(s: CashBook, c: Context, source: Source, rows: seq<Parsed>)
    ensures var after := Import(s, c, source, rows).0;
      && s.txs <= after.txs
      && forall i :: |s.txs| <= i < |after.txs| ==> MadeOfSome(c, s.imports, source, rows, after.txs[i])
  {
    RowsMake(c, s.imports, source, StartImport(s), rows);
  }

  // ----- manual work -----

  /** A manual assignment books what was given, on the transaction's own side, and counts as reviewed. */
  lemma AssignStores(s: CashBook, id: nat, konto: string, gegenkonto: string, buKey: string, text: string)
    ensures var (after, r) := Assign(s, id, konto, gegenkonto, buKey, text);
      && (r.Ok? <==> id < |s.txs| && s.txs[id].status != Exported)
      && (!r.Ok? ==> after == s)
      && (r.Ok? ==>
            && |after.txs| == |s.txs| && after == s.(txs := s.txs[id := after.txs[id]])
            && var tx := after.txs[id];
               && tx == s.txs[id].(status := Reviewed, booking := tx.booking) && IsOwnSide(tx.booking.side, tx.amountCents)
               && tx.booking.konto == konto && tx.booking.gegenkonto == gegenkonto
               && tx.booking.buKey == buKey && tx.booking.bookingText == text)
  {
  }
}
