/** The system policies that are tried before any human rule: clearing, marketplace park, manual park. */
module SystemPolicies {
  import opened Wrappers
  import opened Text
  import opened Datev

  datatype Source = Bank | PayPal

  /** The texts of a transaction; an empty string is "not set". They never change after the import. */
  datatype TxTexts = TxTexts(counterpartyName: string, counterpartyIban: string, counterpartyEmail: string, purpose: string,
                             article: string, rawDescription: string, paypalType: string, paypalSubject: string,
                             paypalNote: string)

  datatype Policy = Policy(
    bank: string, paypal: string, clearing: string, privateInventory: string, forbiddenCollectives: set<string>,
    bankPaypalClearing: bool, marketplacePark: bool, commercialVatPark: bool, ownerRelatedPark: bool,
    forbidCollectives: bool, inventory: bool,
    marketplacePatterns: seq<string>, counterpartyPatterns: seq<string>, purposePatterns: seq<string>,
    transferTypePatterns: seq<string>, ownerPatterns: seq<string>, commercialPatterns: seq<string>,
    clearingText: string)

  /** How the JavaScript runtime evaluates patterns: with flag i, without it, and lower-casing. Invalid patterns match nothing. */
  datatype Matcher = Matcher(ignoreCase: (string, string) -> bool, exactCase: (string, string) -> bool, lower: string -> string)

  /** Blank patterns are skipped, the others are trimmed. */
  predicate AnyMatches(m: Matcher, patterns: seq<string>, text: string) {
    exists p :: p in patterns && Trim(p) != "" && m.ignoreCase(Trim(p), text)
  }

  datatype Booking = Booking(konto: string, gegenkonto: string, buKey: string, bookingText: string, side: Option<Side>)

  /** The empty booking object. */
  function NoBooking(): Booking {
    Booking("", "", "", "", None)
  }

  function SideOf(amountCents: int): Side {
    if amountCents < 0 then S else H
  }

  function DefaultGegenkonto(source: Source, policy: Policy): string {
    if source == PayPal then policy.paypal else policy.bank
  }

  predicate IsForbidden(account: string, policy: Policy) {
    policy.forbidCollectives && account in policy.forbiddenCollectives
  }

  function Spaced(parts: seq<string>): string {
    Join(parts, " ")
  }

  predicate IsClearing(m: Matcher, source: Source, t: TxTexts, policy: Policy) {
    var paypalType := if source == PayPal then t.paypalType else "";
    var hay := Spaced([t.counterpartyName, t.purpose, t.rawDescription, paypalType]);
    && policy.bankPaypalClearing
    && match source
       case Bank => AnyMatches(m, policy.counterpartyPatterns, t.counterpartyName) || AnyMatches(m, policy.purposePatterns, hay)
       case PayPal =>
         || AnyMatches(m, policy.transferTypePatterns, m.lower(paypalType))
         || (m.exactCase("paypal", hay) && m.exactCase("bank", hay) && (m.exactCase("gutschrift", hay) || m.exactCase("abbuchung", hay)))
         || AnyMatches(m, policy.purposePatterns, hay)
  }

  /** S5/S6: transfers between bank and PayPal are booked to the clearing account. */
  function ClearingBooking(source: Source, amountCents: int, policy: Policy): Booking {
    Booking(policy.clearing, DefaultGegenkonto(source, policy), "",
            if policy.clearingText != "" then policy.clearingText else "Verrechnung Bank \U{2194} PayPal", Some(SideOf(amountCents)))
  }

  /** S9. PayPal subject and note are not passed to this detector. */
  predicate IsMarketplacePark(m: Matcher, t: TxTexts, policy: Policy) {
    var hay := Spaced([t.counterpartyName, t.purpose, t.rawDescription, t.article, "", ""]);
    policy.marketplacePark && AnyMatches(m, policy.marketplacePatterns, hay)
  }

  const REFUND_PATTERN := "(r\U{00FC}ckzahlung|rueckzahlung|erstattung|refund|chargeback|r\U{00FC}ckbuchung|rueckbuchung)"

  /** Refunds, S11 owner-related and S10 commercial suppliers are left to a human. */
  predicate IsManualPark(m: Matcher, t: TxTexts, policy: Policy) {
    var hay := Spaced([t.counterpartyName, t.purpose, t.rawDescription, t.article, "", "", "", t.paypalType]);
    || m.ignoreCase(REFUND_PATTERN, hay) || m.ignoreCase("refund", t.paypalType)
    || (policy.ownerRelatedPark && AnyMatches(m, policy.ownerPatterns, hay))
    || (policy.commercialVatPark && AnyMatches(m, policy.commercialPatterns, hay))
  }

  // ----- which texts the detectors search, and for what -----

  predicate Finds(m: Matcher, pattern: string, text: string) {
    Trim(pattern) != "" && m.ignoreCase(Trim(pattern), text)
  }

  lemma FourParts(a: string, b: string, c: string, d: string)
    ensures Spaced([a, b, c, d]) == a + " " + (b + " " + (c + " " + d))
  {
    assert [a, b, c, d][1..] == [b, c, d] && [b, c, d][1..] == [c, d] && [c, d][1..] == [d];
    assert Spaced([d]) == d;
    assert Spaced([c, d]) == c + " " + d;
    assert Spaced([b, c, d]) == b + " " + (c + " " + d);
  }

  /** A bank transaction is clearing by counterparty or by the purpose patterns, in name, purpose and description. */
  lemma BankClearingIff(m: Matcher, t: TxTexts, policy: Policy)
    ensures var hay := t.counterpartyName + " " + (t.purpose + " " + (t.rawDescription + " " + ""));
      IsClearing(m, Bank, t, policy) <==>
        && policy.bankPaypalClearing
        && ((exists p :: p in policy.counterpartyPatterns && Finds(m, p, t.counterpartyName))
            || (exists p :: p in policy.purposePatterns && Finds(m, p, hay)))
  {
    FourParts(t.counterpartyName, t.purpose, t.rawDescription, "");
  }

  /** A PayPal transaction is clearing by its type, by the words of a transfer, or by the purpose patterns. */
  lemma PayPalClearingIff(m: Matcher, t: TxTexts, policy: Policy)
    ensures var hay := t.counterpartyName + " " + (t.purpose + " " + (t.rawDescription + " " + t.paypalType));
      IsClearing(m, PayPal, t, policy) <==>
        && policy.bankPaypalClearing
        && ((exists p :: p in policy.transferTypePatterns && Finds(m, p, m.lower(t.paypalType)))
            || (m.exactCase("paypal", hay) && m.exactCase("bank", hay)
                && (m.exactCase("gutschrift", hay) || m.exactCase("abbuchung", hay)))
            || (exists p :: p in policy.purposePatterns && Finds(m, p, hay)))
  {
    FourParts(t.counterpartyName, t.purpose, t.rawDescription, t.paypalType);
  }

  lemma SpacedCons(a: string, rest: seq<string>)
    requires rest != []
    ensures Spaced([a] + rest) == a + " " + Spaced(rest)
  {
    assert ([a] + rest)[1..] == rest;
  }

  lemma FiveParts(a: string, b: string, c: string, d: string, rest: seq<string>)
    requires rest != []
    ensures Spaced([a, b, c, d] + rest) == a + " " + (b + " " + (c + " " + (d + " " + Spaced(rest))))
  {
    var three, two, one := [b, c, d] + rest, [c, d] + rest, [d] + rest;
    assert [a, b, c, d] + rest == [a] + three && three == [b] + two && two == [c] + one;
    SpacedCons(a, three);
    SpacedCons(b, two);
    SpacedCons(c, one);
    SpacedCons(d, rest);
  }

  /** The marketplace park searches name, purpose, description and article. */
  lemma MarketplaceParkIff(m: Matcher, t: TxTexts, policy: Policy)
    ensures var hay := t.counterpartyName + " " + (t.purpose + " " + (t.rawDescription + " " + (t.article + " " + ("" + " " + ""))));
      IsMarketplacePark(m, t, policy) <==>
        policy.marketplacePark && exists p :: p in policy.marketplacePatterns && Finds(m, p, hay)
  {
    SpacedCons("", [""]);
    assert Spaced([""]) == "" && [""] + [""] == ["", ""];
    FiveParts(t.counterpartyName, t.purpose, t.rawDescription, t.article, ["", ""]);
    assert [t.counterpartyName, t.purpose, t.rawDescription, t.article] + ["", ""] ==
      [t.counterpartyName, t.purpose, t.rawDescription, t.article, "", ""];
  }

  /** The manual park searches the PayPal type too; refunds are parked whatever the policy says. */
  lemma ManualParkIff(m: Matcher, t: TxTexts, policy: Policy)
    ensures var hay := t.counterpartyName + " " + (t.purpose + " " + (t.rawDescription + " " + (t.article + " " +
                         ("" + " " + ("" + " " + ("" + " " + t.paypalType))))));
      IsManualPark(m, t, policy) <==>
        || m.ignoreCase(REFUND_PATTERN, hay) || m.ignoreCase("refund", t.paypalType)
        || (policy.ownerRelatedPark && exists p :: p in policy.ownerPatterns && Finds(m, p, hay))
        || (policy.commercialVatPark && exists p :: p in policy.commercialPatterns && Finds(m, p, hay))
  {
    var k := t.paypalType;
    SpacedCons("", [k]);
    SpacedCons("", ["", k]);
    SpacedCons("", ["", "", k]);
    assert Spaced([k]) == k && [""] + [k] == ["", k] && [""] + ["", k] == ["", "", k] && [""] + ["", "", k] == ["", "", "", k];
    FiveParts(t.counterpartyName, t.purpose, t.rawDescription, t.article, ["", "", "", k]);
    assert [t.counterpartyName, t.purpose, t.rawDescription, t.article] + ["", "", "", k] ==
      [t.counterpartyName, t.purpose, t.rawDescription, t.article, "", "", "", k];
  }
}
