/** The human rules: no match leaves a transaction open, one match books it, several matches are a conflict. */
module RuleEngine {
  import opened Folds
  import opened Wrappers
  import opened Text
  import opened SystemPolicies

  datatype Condition = Condition(field: string, operator: string, value: seq<string>, caseSensitive: bool)

  datatype Actions = Actions(konto: string, gegenkonto: string, useMappedPaymentAccount: bool, buKey: string, template: string)

  datatype Rule = Rule(id: string, enabled: bool, priority: int, anyCondition: bool, conditions: seq<Condition>,
                       actions: Option<Actions>, validFrom: Option<int>, validTo: Option<int>)

  datatype TxLike = TxLike(source: Source, amountCents: int, texts: TxTexts, bookingDate: Option<int>)

  /** What the engine asks its surroundings: a condition's value for a transaction, the end of a day, the present time. */
  datatype World = World(holds: (TxLike, Condition) -> bool, endOfDay: int -> int, now: int)

  predicate ActiveOn(w: World, rule: Rule, date: int) {
    && (rule.validFrom.Some? ==> rule.validFrom.value <= date)
    && (rule.validTo.Some? ==> date <= w.endOfDay(rule.validTo.value))
  }

  predicate ValidityActive(w: World, rule: Rule, onDate: Option<int>) {
    ActiveOn(w, rule, onDate.GetOr(w.now))
  }

  /** Validity is judged on the booking date when the caller passes one, and today otherwise. */
  predicate RuleMatches(w: World, tx: TxLike, rule: Rule) {
    && rule.enabled
    && ValidityActive(w, rule, tx.bookingDate)
    && rule.conditions != []
    && if rule.anyCondition then exists c :: c in rule.conditions && w.holds(tx, c)
       else forall c :: c in rule.conditions ==> w.holds(tx, c)
  }

  datatype Verdict =
    | Open
    | Booked(ruleId: string, booking: Booking)
    | Conflict(ruleIds: seq<string>)

  function MatchesTx(w: World, tx: TxLike): Rule -> bool {
    (r: Rule) => RuleMatches(w, tx, r)
  }

  function RuleId(): Rule -> string {
    (r: Rule) => r.id
  }

  function GegenkontoOf(tx: TxLike, a: Actions, policy: Policy): string {
    if a.useMappedPaymentAccount || a.gegenkonto == "" then DefaultGegenkonto(tx.source, policy) else a.gegenkonto
  }

  function TextOf(tx: TxLike, a: Actions): string {
    if a.template != "" then a.template
    else
      var parts := (if tx.texts.counterpartyName != "" then [tx.texts.counterpartyName] else []) +
                   (if tx.texts.purpose != "" then [tx.texts.purpose] else []);
      FirstSixty(Join(parts, " \U{2014} "))
  }

  predicate CanBook(tx: TxLike, rule: Rule, policy: Policy) {
    && rule.actions.Some? && rule.actions.value.konto != ""
    && GegenkontoOf(tx, rule.actions.value, policy) != ""
    && !IsForbidden(rule.actions.value.konto, policy)
    && !IsForbidden(GegenkontoOf(tx, rule.actions.value, policy), policy)
  }

  function VerdictOfOne(tx: TxLike, rule: Rule, policy: Policy): Verdict {
    if !CanBook(tx, rule, policy) then Open
    else
      var a := rule.actions.value;
      Booked(rule.id, Booking(a.konto, GegenkontoOf(tx, a, policy), a.buKey, TextOf(tx, a), Some(SideOf(tx.amountCents))))
  }

  function ApplyHumanRules(w: World, tx: TxLike, rules: seq<Rule>, policy: Policy): Verdict {
    var matched := Filter(rules, MatchesTx(w, tx));
    if |matched| == 0 then Open
    else if |matched| >= 2 then Conflict(Map(matched, RuleId()))
    else VerdictOfOne(tx, matched[0], policy)
  }

  // ----- the verdict depends on nothing but the collection of matching rules -----

  function WithoutPriority(): Rule -> Rule {
    (r: Rule) => r.(priority := 0)
  }

  lemma TakeOut<T>(s: seq<T>, i: nat)
    requires i < |s|
    ensures s == s[..i] + ([s[i]] + s[i + 1..])
  {
  }

  function OneIf<T>(x: T, keep: bool): multiset<T> {
    if keep then multiset{x} else multiset{}
  }

  lemma FilterCons<T>(x: T, s: seq<T>, p: T -> bool)
    ensures Filter([x] + s, p) == (if p(x) then [x] else []) + Filter(s, p)
  {
    assert ([x] + s)[1..] == s;
  }

  lemma FilterAround<T>(s: seq<T>, i: nat, p: T -> bool)
    requires i < |s|
    ensures multiset(Filter(s, p)) == OneIf(s[i], p(s[i])) + multiset(Filter(s[..i] + s[i + 1..], p))
  {
    var front, x, back := s[..i], s[i], s[i + 1..];
    TakeOut(s, i);
    FilterAppend(front, [x] + back, p);
    FilterCons(x, back, p);
    FilterAppend(front, back, p);
  }

  lemma {:induction false} FilterPermuted<T>(a: seq<T>, b: seq<T>, p: T -> bool)
    requires multiset(a) == multiset(b)
    ensures multiset(Filter(a, p)) == multiset(Filter(b, p))
  {
    if a == [] {
      assert |multiset(b)| == 0;
    } else {
      var i := FindIn(a[0], a, b);
      RemoveFromMultiset(a, 0);
      assert a[..0] + a[1..] == a[1..];
      RemoveFromMultiset(b, i);
      FilterPermuted(a[1..], b[..i] + b[i + 1..], p);
      FilterAround(b, i, p);
      FilterAround(a, 0, p);
    }
  }

  lemma {:induction false} MapMultiset<A, B>(a: seq<A>, b: seq<A>, f: A -> B)
    requires multiset(a) == multiset(b)
    ensures multiset(Map(a, f)) == multiset(Map(b, f))
  {
    if a == [] {
      assert |multiset(b)| == 0;
    } else {
      var i := FindIn(a[0], a, b);
      var rest := b[..i] + b[i + 1..];
      RemoveFromMultiset(a, 0);
      assert a[..0] + a[1..] == a[1..];
      RemoveFromMultiset(b, i);
      MapMultiset(a[1..], rest, f);
      MapAround(b, i, f);
    }
  }

  lemma MapAround<A, B>(s: seq<A>, i: nat, f: A -> B)
    requires i < |s|
    ensures multiset(Map(s, f)) == multiset{f(s[i])} + multiset(Map(s[..i] + s[i + 1..], f))
  {
    var front, x, back := s[..i], s[i], s[i + 1..];
    TakeOut(s, i);
    MapAppend(front, [x] + back, f);
    MapAppend([x], back, f);
    MapAppend(front, back, f);
    assert Map([x], f) == [f(x)];
  }

  lemma SizeOfMultiset<T>(a: seq<T>, b: seq<T>)
    requires multiset(a) == multiset(b)
    ensures |a| == |b|
    ensures |a| == 1 ==> a == b
  {
    assert |multiset(a)| == |a| && |multiset(b)| == |b|;
    if |a| == 1 {
      assert a[0] in multiset(a);
      assert a[0] in multiset(b);
    }
  }

  /** Equal except for the order in which the ids of a conflict are listed. */
  predicate SameVerdict(a: Verdict, b: Verdict) {
    a == b || (a.Conflict? && b.Conflict? && multiset(a.ruleIds) == multiset(b.ruleIds))
  }

  lemma OrderIsIrrelevant(w: World, tx: TxLike, rules: seq<Rule>, others: seq<Rule>, policy: Policy)
    requires multiset(rules) == multiset(others)
    ensures SameVerdict(ApplyHumanRules(w, tx, rules, policy), ApplyHumanRules(w, tx, others, policy))
  {
    var a, b := Filter(rules, MatchesTx(w, tx)), Filter(others, MatchesTx(w, tx));
    FilterPermuted(rules, others, MatchesTx(w, tx));
    SizeOfMultiset(a, b);
    MapMultiset(a, b, RuleId());
  }

  lemma {:induction false} FilterMapCommute<T>(s: seq<T>, p: T -> bool, f: T -> T)
    requires forall x :: p(f(x)) == p(x)
    ensures Filter(Map(s, f), p) == Map(Filter(s, p), f)
  {
    if s != [] {
      FilterMapCommute(s[1..], p, f);
      assert Map(s, f)[1..] == Map(s[1..], f);
      MapOfFirst(s, p, f);
    }
  }

  lemma FilterWithoutPriority(w: World, tx: TxLike, rules: seq<Rule>)
    ensures Filter(Map(rules, WithoutPriority()), MatchesTx(w, tx)) == Map(Filter(rules, MatchesTx(w, tx)), WithoutPriority())
  {
    FilterMapCommute(rules, MatchesTx(w, tx), WithoutPriority());
  }

  lemma MapOfFirst<A, B>(s: seq<A>, p: A -> bool, f: A -> B)
    requires s != []
    ensures Map(Filter(s, p), f) == (if p(s[0]) then [f(s[0])] else []) + Map(Filter(s[1..], p), f)
  {
    var rest := Filter(s[1..], p);
    if p(s[0]) {
      MapAppend([s[0]], rest, f);
      assert Map([s[0]], f) == [f(s[0])];
    } else {
      assert Filter(s, p) == rest;
    }
  }

  lemma PriorityIsIrrelevant(w: World, tx: TxLike, rules: seq<Rule>, policy: Policy)
    ensures ApplyHumanRules(w, tx, Map(rules, WithoutPriority()), policy) == ApplyHumanRules(w, tx, rules, policy)
  {
    var matched := Filter(rules, MatchesTx(w, tx));
    FilterWithoutPriority(w, tx, rules);
    assert Map(Map(matched, WithoutPriority()), RuleId()) == Map(matched, RuleId());
  }

  /** No reordering of the rules and no change of priorities ever changes the outcome: the engine never picks. */
  lemma NeverPicksByOrderOrPriority(w: World, tx: TxLike, rules: seq<Rule>, others: seq<Rule>, policy: Policy)
    requires multiset(Map(rules, WithoutPriority())) == multiset(Map(others, WithoutPriority()))
    ensures SameVerdict(ApplyHumanRules(w, tx, rules, policy), ApplyHumanRules(w, tx, others, policy))
  {
    PriorityIsIrrelevant(w, tx, rules, policy);
    PriorityIsIrrelevant(w, tx, others, policy);
    OrderIsIrrelevant(w, tx, Map(rules, WithoutPriority()), Map(others, WithoutPriority()), policy);
  }

  lemma {:induction false} CountIsFilter<T>(s: seq<T>, p: T -> bool)
    ensures |Filter(s, p)| == Count(s, p)
  {
    if s != [] {
      CountIsFilter(s[1..], p);
    }
  }

  /** A conflict stays a conflict when rules are added anywhere. */
  lemma ConflictIsPreserved(w: World, tx: TxLike, rules: seq<Rule>, more: seq<Rule>, policy: Policy)
    requires multiset(rules) <= multiset(more)
    ensures ApplyHumanRules(w, tx, rules, policy).Conflict? ==> ApplyHumanRules(w, tx, more, policy).Conflict?
  {
    CountIsFilter(rules, MatchesTx(w, tx));
    CountIsFilter(more, MatchesTx(w, tx));
    CountOfPart(rules, more, MatchesTx(w, tx));
  }

  lemma {:induction false} FilterNothing<T>(s: seq<T>, p: T -> bool)
    requires forall x :: x in s ==> !p(x)
    ensures Filter(s, p) == []
  {
    if s != [] {
      FilterNothing(s[1..], p);
    }
  }

  /** Rules that do not match make no difference, wherever they stand. */
  lemma NonMatchingRulesAddNothing(w: World, tx: TxLike, before: seq<Rule>, extra: seq<Rule>, after: seq<Rule>, policy: Policy)
    requires forall r :: r in extra ==> !RuleMatches(w, tx, r)
    ensures ApplyHumanRules(w, tx, before + extra + after, policy) == ApplyHumanRules(w, tx, before + after, policy)
  {
    var p := MatchesTx(w, tx);
    FilterAppend(before + extra, after, p);
    FilterAppend(before, extra, p);
    FilterAppend(before, after, p);
    FilterNothing(extra, p);
    assert Filter(before, p) + [] == Filter(before, p);
  }

  lemma OnlyMatch(rules: seq<Rule>, p: Rule -> bool)
    requires |Filter(rules, p)| == 1
    ensures forall r :: r in rules && p(r) <==> r == Filter(rules, p)[0]
  {
    var matched := Filter(rules, p);
    assert matched[0] in matched;
    forall r | r in rules && p(r) ensures r == matched[0] {
      assert r in matched;
    }
  }

  /**
   * A transaction is booked exactly when one single rule matches it and that rule can book it; the booking then comes
   * from that rule, and neither account is a forbidden collective.
   */
  lemma BookedIffOneUsableRule(w: World, tx: TxLike, rules: seq<Rule>, policy: Policy)
    ensures ApplyHumanRules(w, tx, rules, policy).Booked? <==>
      Count(rules, MatchesTx(w, tx)) == 1 && exists r :: r in rules && RuleMatches(w, tx, r) && CanBook(tx, r, policy)
    ensures ApplyHumanRules(w, tx, rules, policy).Conflict? <==> Count(rules, MatchesTx(w, tx)) >= 2
    ensures ApplyHumanRules(w, tx, rules, policy).Booked? ==>
      var booking := ApplyHumanRules(w, tx, rules, policy).booking;
      booking.konto != "" && booking.gegenkonto != "" && !IsForbidden(booking.konto, policy) && !IsForbidden(booking.gegenkonto, policy)
  {
    CountIsFilter(rules, MatchesTx(w, tx));
    if |Filter(rules, MatchesTx(w, tx))| == 1 {
      OnlyMatch(rules, MatchesTx(w, tx));
    }
  }

  // ----- the inventory adjustment that follows -----

  /** S15: goods from private sellers are paid from the account of the import's source. */
  function AdjustInventory(b: Booking, source: Source, policy: Policy): Booking {
    if policy.inventory && b.konto == policy.privateInventory then b.(gegenkonto := DefaultGegenkonto(source, policy), buKey := "")
    else b
  }

  /**
   * The adjustment comes after the check for forbidden collectives. It brings a forbidden gegenkonto in exactly when
   * it applies and the policy's own payment account is on the forbidden list.
   */
  lemma AdjustedBookingForbiddenIff(w: World, tx: TxLike, rules: seq<Rule>, policy: Policy)
    requires ApplyHumanRules(w, tx, rules, policy).Booked?
    ensures var booking := ApplyHumanRules(w, tx, rules, policy).booking;
      var adjusted := AdjustInventory(booking, tx.source, policy);
      (IsForbidden(adjusted.konto, policy) || IsForbidden(adjusted.gegenkonto, policy)) <==>
        (policy.inventory && booking.konto == policy.privateInventory && IsForbidden(DefaultGegenkonto(tx.source, policy), policy))
  {
    BookedIffOneUsableRule(w, tx, rules, policy);
  }

  // ----- what a rule asks for -----

  /** Enabled, and valid on the day asked about (today if none is given), the end day included. */
  predicate IsInForce(w: World, rule: Rule, onDate: Option<int>) {
    var day := if onDate.Some? then onDate.value else w.now;
    && rule.enabled
    && (rule.validFrom == None || rule.validFrom.value <= day)
    && (rule.validTo == None || day <= w.endOfDay(rule.validTo.value))
  }

  /**
   * One more condition: a rule that asks for all its conditions matches if it matched before and the condition holds, a
   * rule that asks for any of them if it matched before or the condition holds. Without conditions no rule matches.
   */
  lemma OneMoreCondition(w: World, tx: TxLike, rule: Rule, c: Condition)
    ensures rule.conditions == [] ==> !RuleMatches(w, tx, rule)
    ensures var more := rule.(conditions := rule.conditions + [c]);
      RuleMatches(w, tx, more) <==>
        && IsInForce(w, rule, tx.bookingDate)
        && if rule.conditions == [] then w.holds(tx, c)
           else if rule.anyCondition then RuleMatches(w, tx, rule) || w.holds(tx, c)
           else RuleMatches(w, tx, rule) && w.holds(tx, c)
  {
    var more := rule.(conditions := rule.conditions + [c]);
    assert forall x :: x in more.conditions <==> x in rule.conditions || x == c;
    assert c in more.conditions;
    if rule.conditions != [] {
      assert rule.conditions[0] in rule.conditions && rule.conditions[0] in more.conditions;
    }
  }
}
