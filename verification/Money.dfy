/** German money text: formatEuroDE prints cents, parseAmountToCents reads them back. */
module Money {
  import opened Folds
  import opened Text
  import opened Wrappers

  const EURO := '\U{20AC}'

  // ----- digits -----

  predicate IsDigit(ch: char) {
    '0' <= ch <= '9'
  }

  predicate AllDigits(s: string) {
    forall i :: 0 <= i < |s| ==> IsDigit(s[i])
  }

  function DigitChar(d: nat): char
    requires d < 10
  {
    (48 + d) as char
  }

  function NatText(n: nat): (s: string)
    ensures s != "" && AllDigits(s)
  {
    if n < 10 then [DigitChar(n)] else NatText(n / 10) + [DigitChar(n % 10)]
  }

  function DigitsValue(s: string): nat
    requires AllDigits(s)
  {
    if s == "" then 0 else DigitsValue(s[..|s| - 1]) * 10 + (s[|s| - 1] as int - 48)
  }

  lemma DigitsValueSnoc(s: string, d: nat)
    requires AllDigits(s) && d < 10
    ensures AllDigits(s + [DigitChar(d)]) && DigitsValue(s + [DigitChar(d)]) == DigitsValue(s) * 10 + d
  {
    assert (s + [DigitChar(d)])[..|s|] == s;
  }

  lemma {:induction false} NatTextValue(n: nat)
    ensures DigitsValue(NatText(n)) == n
  {
    if n < 10 {
      DigitsValueSnoc("", n);
      assert "" + [DigitChar(n)] == [DigitChar(n)];
    } else {
      NatTextValue(n / 10);
      DigitsValueSnoc(NatText(n / 10), n % 10);
    }
  }

  function Pow10(e: nat): (p: nat)
    ensures p >= 1
  {
    if e == 0 then 1 else 10 * Pow10(e - 1)
  }

  // ----- printing -----

  function PadTwo(n: nat): string {
    if n < 10 then ['0'] + NatText(n) else NatText(n)
  }

  /** The two digits after the comma. */
  function CentDigits(abs: nat): (s: string)
    ensures |s| == 2 && AllDigits(s)
  {
    [DigitChar(abs % 100 / 10), DigitChar(abs % 10)]
  }

  function Body(abs: nat): string {
    NatText(abs / 100) + "," + CentDigits(abs)
  }

  function FormatEuroDE(cents: int): string {
    if cents < 0 then "-" + Body(-cents) else Body(cents)
  }

  // ----- reading -----

  function Without(s: string, drop: set<char>): string {
    if s == [] then [] else (if s[0] in drop then [] else [s[0]]) + Without(s[1..], drop)
  }

  function WithoutSpaces(s: string): string {
    if s == [] then [] else (if IsSpace(s[0]) then [] else [s[0]]) + WithoutSpaces(s[1..])
  }

  predicate StartsWithMinus(s: string) {
    s != "" && s[0] == '-'
  }

  function DropMinus(s: string): string {
    if StartsWithMinus(s) then s[1..] else s
  }

  /** The amount is written in parentheses, on one line. */
  predicate InParentheses(s: string) {
    |s| >= 2 && s[0] == '(' && s[|s| - 1] == ')' &&
    forall i :: 0 < i < |s| - 1 ==> s[i] !in {'\n', '\r', '\U{2028}', '\U{2029}'}
  }

  function FirstCommaToDot(s: string): string {
    if s == [] then [] else if s[0] == ',' then ['.'] + s[1..] else [s[0]] + FirstCommaToDot(s[1..])
  }

  function TakeDigits(s: string): (d: string)
    ensures AllDigits(d) && |d| <= |s| && d == s[..|d|]
    ensures |d| < |s| ==> !IsDigit(s[|d|])
  {
    if s == [] || !IsDigit(s[0]) then [] else [s[0]] + TakeDigits(s[1..])
  }

  /** mantissa * 10^exponent; the sign is dropped by the caller. */
  datatype Decimal = Decimal(mantissa: nat, exponent: int)

  function ExponentPart(s: string): int {
    if s == "" || s[0] !in {'e', 'E'} then 0
    else
      var signed := |s| > 1 && s[1] in {'+', '-'};
      var digits := TakeDigits(if signed then s[2..] else s[1..]);
      var n: int := DigitsValue(digits);
      if signed && s[1] == '-' then -n else n
  }

  function MakeDecimal(whole: string, fraction: string, tail: string): Option<Decimal>
    requires AllDigits(whole) && AllDigits(fraction)
  {
    if whole == "" && fraction == "" then None
    else Some(Decimal(DigitsValue(whole + fraction), ExponentPart(tail) - |fraction|))
  }

  function ParseFraction(whole: string, after: string): Option<Decimal>
    requires AllDigits(whole)
  {
    if after != "" && after[0] == '.' then
      var fraction := TakeDigits(after[1..]);
      MakeDecimal(whole, fraction, after[1..][|fraction|..])
    else MakeDecimal(whole, "", after)
  }

  /** parseFloat: the longest prefix that is a decimal literal; None where it yields NaN or Infinity. */
  function ParseFloat(s: string): Option<Decimal> {
    var unsigned := if s != "" && s[0] in {'+', '-'} then s[1..] else s;
    var whole := TakeDigits(unsigned);
    ParseFraction(whole, unsigned[|whole|..])
  }

  /** n / d to the nearest integer, halves up: Math.round for what is not negative. */
  function RoundQuotient(n: nat, d: nat): nat
    requires d >= 1
  {
    (2 * n + d) / (2 * d)
  }

  /** Math.round(value * 100). */
  function RoundToCents(d: Decimal): nat {
    if d.exponent + 2 >= 0 then d.mantissa * Pow10(d.exponent + 2)
    else RoundQuotient(d.mantissa, Pow10(-2 - d.exponent))
  }

  function Compact(trimmed: string): string {
    Without(WithoutSpaces(trimmed), {EURO})
  }

  predicate IsNegative(trimmed: string) {
    StartsWithMinus(Compact(trimmed)) || InParentheses(trimmed) || StartsWithMinus(trimmed)
  }

  /** With a comma present the dots are thousands separators and the comma is the decimal point. */
  function DecimalPoint(bare: string): string {
    if ',' in bare && '.' in bare then FirstCommaToDot(Without(bare, {'.'}))
    else if ',' in bare then FirstCommaToDot(bare)
    else bare
  }

  function Unsigned(trimmed: string): string {
    DropMinus(Without(Compact(trimmed), {'(', ')'}))
  }

  function SignedCents(negative: bool, value: Option<Decimal>): Option<int> {
    match value
    case None => None
    case Some(d) =>
      var cents: int := RoundToCents(d);
      Some(if negative then -cents else cents)
  }

  function ParseTrimmed(trimmed: string): Option<int> {
    SignedCents(IsNegative(trimmed), ParseFloat(DecimalPoint(Unsigned(trimmed))))
  }

  function ParseAmountToCents(raw: string): Option<int> {
    if Trim(raw) == "" then None else ParseTrimmed(Trim(raw))
  }

  // ----- round trip -----

  /** The characters of a printed amount, thousands dots included. */
  predicate AmountChars(s: string) {
    forall i :: 0 <= i < |s| ==> IsDigit(s[i]) || s[i] in {'-', ',', '.'}
  }

  lemma {:induction false} WithoutNothing(s: string, drop: set<char>)
    requires forall i :: 0 <= i < |s| ==> s[i] !in drop
    ensures Without(s, drop) == s
  {
    if s != [] {
      WithoutNothing(s[1..], drop);
    }
  }

  lemma {:induction false} NoSpaces(s: string)
    requires AmountChars(s)
    ensures WithoutSpaces(s) == s
  {
    if s != [] {
      NoSpaces(s[1..]);
    }
  }

  lemma NothingToTrim(s: string)
    requires AmountChars(s)
    ensures Trim(s) == s
  {
  }

  lemma {:induction false} CommaToDot(whole: string, rest: string)
    requires AllDigits(whole)
    ensures FirstCommaToDot(whole + "," + rest) == whole + "." + rest
  {
    var s := whole + "," + rest;
    if whole == "" {
      assert s == "," + rest;
    } else {
      assert s[1..] == whole[1..] + "," + rest;
      CommaToDot(whole[1..], rest);
    }
  }

  lemma {:induction false} WithoutKeepsChars(s: string, drop: set<char>)
    ensures forall i :: 0 <= i < |s| ==> s[i] in drop || s[i] in Without(s, drop)
    ensures forall ch :: ch in Without(s, drop) ==> ch !in drop
  {
    if s != [] {
      WithoutKeepsChars(s[1..], drop);
      assert forall i :: 0 < i < |s| ==> s[i] == s[1..][i - 1];
    }
  }

  lemma {:induction false} TakeExactly(digits: string, rest: string)
    requires AllDigits(digits) && (rest == "" || !IsDigit(rest[0]))
    ensures TakeDigits(digits + rest) == digits
  {
    if digits == "" {
      assert digits + rest == rest;
    } else {
      assert (digits + rest)[1..] == digits[1..] + rest;
      TakeExactly(digits[1..], rest);
    }
  }

  lemma ParseWhole(whole: string, after: string)
    requires whole != "" && AllDigits(whole) && (after == "" || !IsDigit(after[0]))
    ensures ParseFloat(whole + after) == ParseFraction(whole, after)
  {
    var s := whole + after;
    assert s[0] == whole[0];
    TakeExactly(whole, after);
    assert s[|whole|..] == after;
  }

  lemma ParsePoint(whole: string, fraction: string)
    requires AllDigits(whole) && AllDigits(fraction)
    ensures ParseFraction(whole, "." + fraction) == MakeDecimal(whole, fraction, "")
  {
    var after := "." + fraction;
    assert after[1..] == fraction;
    TakeExactly(fraction, "");
    assert fraction + "" == fraction;
    assert fraction[|fraction|..] == "";
  }

  lemma ParsePointed(whole: string, fraction: string)
    requires whole != "" && AllDigits(whole) && AllDigits(fraction)
    ensures AllDigits(whole + fraction)
    ensures ParseFloat(whole + "." + fraction) == Some(Decimal(DigitsValue(whole + fraction), -|fraction|))
  {
    Associate(whole, ".", fraction);
    ParseWhole(whole, "." + fraction);
    ParsePoint(whole, fraction);
  }

  lemma BodyValue(abs: nat)
    ensures DigitsValue(NatText(abs / 100) + CentDigits(abs)) == abs
  {
    var whole, x, y := NatText(abs / 100), abs % 100 / 10, abs % 10;
    NatTextValue(abs / 100);
    DigitsValueSnoc(whole, x);
    DigitsValueSnoc(whole + [DigitChar(x)], y);
    assert whole + CentDigits(abs) == whole + [DigitChar(x)] + [DigitChar(y)];
    assert (abs / 100 * 10 + x) * 10 + y == abs;
  }

  lemma {:induction false} WithoutDotsSplit(s: string)
    requires s != "" && s[0] != '.'
    ensures Without(s, {'.'}) == [s[0]] + Without(s[1..], {'.'})
  {
  }

  /** Nothing in an amount is trimmed, compacted or taken for parentheses. */
  lemma AmountStaysAsItIs(text: string)
    requires text != "" && AmountChars(text)
    ensures Trim(text) == text
    ensures Unsigned(text) == DropMinus(text)
    ensures IsNegative(text) == StartsWithMinus(text)
  {
    NothingToTrim(text);
    NoSpaces(text);
    WithoutNothing(text, {EURO});
    WithoutNothing(text, {'(', ')'});
  }

  /** The unsigned part, with any dots in it. */
  lemma BodyReadsBack(bare: string, abs: nat)
    requires Without(bare, {'.'}) == Body(abs)
    ensures ParseFloat(DecimalPoint(bare)) == Some(Decimal(abs, -2))
  {
    var whole, fraction := NatText(abs / 100), CentDigits(abs);
    CommaToPoint(bare, abs);
    CommaToDot(whole, fraction);
    ParsePointed(whole, fraction);
    BodyValue(abs);
  }

  lemma CommaToPoint(bare: string, abs: nat)
    requires Without(bare, {'.'}) == Body(abs)
    ensures DecimalPoint(bare) == FirstCommaToDot(Body(abs))
  {
    CommaIn(bare, Body(abs), |NatText(abs / 100)|);
    if '.' !in bare {
      WithoutNothing(bare, {'.'});
    }
  }

  lemma RoundTwoDecimals(abs: nat)
    ensures RoundToCents(Decimal(abs, -2)) == abs
  {
  }

  lemma PrintedChars(cents: int)
    ensures AmountChars(FormatEuroDE(cents))
    ensures forall i :: 0 <= i < |FormatEuroDE(cents)| ==> FormatEuroDE(cents)[i] != '.'
    ensures FormatEuroDE(cents)[0] == '-' <==> cents < 0
  {
  }

  lemma PrintedWithDots(cents: int, text: string)
    requires text != "" && text[0] != '.' && Without(text, {'.'}) == FormatEuroDE(cents)
    ensures AmountChars(text)
    ensures StartsWithMinus(text) <==> cents < 0
    ensures Without(DropMinus(text), {'.'}) == Body(if cents < 0 then -cents else cents)
  {
    var printed := FormatEuroDE(cents);
    PrintedChars(cents);
    WithoutKeepsChars(text, {'.'});
    forall i | 0 <= i < |text| ensures IsDigit(text[i]) || text[i] in {'-', ',', '.'} {
      if text[i] != '.' {
        assert text[i] in printed;
      }
    }
    WithoutDotsSplit(text);
    assert text[0] == printed[0];
    if cents < 0 {
      assert Without(text[1..], {'.'}) == printed[1..];
      assert printed[1..] == Body(-cents);
    }
  }

  /**
   * Round trip: reading a printed amount gives the cents back, also with thousands dots inserted anywhere but at the
   * very start. Holds for negative amounts and for amounts below one euro.
   */
  lemma MoneyRoundTrip(cents: int, text: string)
    requires text != "" && text[0] != '.' && Without(text, {'.'}) == FormatEuroDE(cents)
    ensures ParseAmountToCents(text) == Some(cents)
  {
    PrintedWithDots(cents, text);
    AmountStaysAsItIs(text);
    var abs: nat := if cents < 0 then -cents else cents;
    BodyReadsBack(DropMinus(text), abs);
    RoundTwoDecimals(abs);
  }

  lemma CommaIn(bare: string, body: string, i: nat)
    requires Without(bare, {'.'}) == body && i < |body| && body[i] == ','
    ensures ',' in bare
  {
    WithoutSubset(bare, {'.'});
    assert body[i] in body;
  }

  lemma {:induction false} WithoutSubset(s: string, drop: set<char>)
    ensures forall ch :: ch in Without(s, drop) ==> ch in s
  {
    if s != [] {
      WithoutSubset(s[1..], drop);
    }
  }

  /** The plain case, and the one that the DATEV file uses: the printed text itself. */
  lemma PrintedAmountReadsBack(cents: int)
    ensures ParseAmountToCents(FormatEuroDE(cents)) == Some(cents)
  {
    var printed := FormatEuroDE(cents);
    PrintedChars(cents);
    WithoutNothing(printed, {'.'});
    MoneyRoundTrip(cents, printed);
  }

  // ----- other ways to write an amount -----

  lemma {:induction false} WithoutSplit(a: string, b: string, drop: set<char>)
    ensures Without(a + b, drop) == Without(a, drop) + Without(b, drop)
  {
    if a == "" {
      assert a + b == b;
    } else {
      assert (a + b)[1..] == a[1..] + b;
      WithoutSplit(a[1..], b, drop);
    }
  }

  /** An amount with a decimal point in place of the comma. */
  function WithPoint(cents: int): string {
    var abs: nat := if cents < 0 then -cents else cents;
    (if cents < 0 then "-" else "") + NatText(abs / 100) + "." + CentDigits(abs)
  }

  lemma PointChars(cents: int)
    ensures AmountChars(WithPoint(cents)) && WithPoint(cents) != ""
    ensures StartsWithMinus(WithPoint(cents)) <==> cents < 0
    ensures var abs: nat := if cents < 0 then -cents else cents;
      DropMinus(WithPoint(cents)) == NatText(abs / 100) + "." + CentDigits(abs)
  {
    var abs: nat := if cents < 0 then -cents else cents;
    var body := NatText(abs / 100) + "." + CentDigits(abs);
    if cents < 0 {
      assert WithPoint(cents) == "-" + body;
      assert ("-" + body)[1..] == body;
    } else {
      assert WithPoint(cents) == body;
      assert body[0] == NatText(abs / 100)[0];
    }
  }

  /** Without a comma the point is the decimal point: "12.50" is twelve and a half. */
  lemma PointReadsBack(cents: int)
    ensures ParseAmountToCents(WithPoint(cents)) == Some(cents)
  {
    var text := WithPoint(cents);
    var abs: nat := if cents < 0 then -cents else cents;
    PointChars(cents);
    AmountStaysAsItIs(text);
    var bare := NatText(abs / 100) + "." + CentDigits(abs);
    assert ',' !in bare;
    ParsePointed(NatText(abs / 100), CentDigits(abs));
    BodyValue(abs);
    RoundTwoDecimals(abs);
  }

  /** Digits alone are whole euros. */
  lemma WholeReadsBack(euros: nat)
    ensures ParseAmountToCents(NatText(euros)) == Some(100 * euros)
  {
    var text := NatText(euros);
    AmountStaysAsItIs(text);
    assert text + "" == text;
    ParseWhole(text, "");
    NatTextValue(euros);
    assert Pow10(2) == 100 by {
      assert Pow10(1) == 10 * Pow10(0);
    }
  }

  lemma {:induction false} SpacesSplit(a: string, b: string)
    ensures WithoutSpaces(a + b) == WithoutSpaces(a) + WithoutSpaces(b)
  {
    if a == "" {
      assert a + b == b;
    } else {
      assert (a + b)[1..] == a[1..] + b;
      SpacesSplit(a[1..], b);
    }
  }

  /** No character of the text is white space or the euro sign. */
  lemma {:induction false} NothingToCompact(s: string)
    requires forall i :: 0 <= i < |s| ==> IsDigit(s[i]) || s[i] in {'-', ',', '.', '(', ')'}
    ensures Compact(s) == s
  {
    WithoutNothing(s, {EURO});
    NoSpacesIn(s);
  }

  lemma {:induction false} NoSpacesIn(s: string)
    requires forall i :: 0 <= i < |s| ==> !IsSpace(s[i])
    ensures WithoutSpaces(s) == s
  {
    if s != [] {
      NoSpacesIn(s[1..]);
    }
  }

  lemma Bracketed(bare: string)
    requires bare != "" && AmountChars(bare) && bare[0] != '-'
    ensures Trim("(" + bare + ")") == "(" + bare + ")"
    ensures Unsigned("(" + bare + ")") == bare && IsNegative("(" + bare + ")")
  {
    var text := "(" + bare + ")";
    assert forall i :: 0 < i < |text| - 1 ==> text[i] == bare[i - 1];
    NothingToCompact(text);
    WithoutSplit("(" + bare, ")", {'(', ')'});
    WithoutSplit("(", bare, {'(', ')'});
    WithoutNothing(bare, {'(', ')'});
    assert Without("(", {'(', ')'}) == "" && Without(")", {'(', ')'}) == "";
  }

  lemma WithSign(bare: string)
    requires bare != "" && AmountChars(bare) && bare[0] != '-'
    ensures Trim(bare + " \U{20AC}") == bare + " \U{20AC}"
    ensures Unsigned(bare + " \U{20AC}") == bare && !IsNegative(bare + " \U{20AC}")
  {
    var text, sign := bare + " \U{20AC}", " \U{20AC}";
    NoSpaces(bare);
    SpacesSplit(bare, sign);
    assert sign[1..] == [EURO] && WithoutSpaces([EURO]) == [EURO];
    assert WithoutSpaces(sign) == [EURO];
    WithoutSplit(bare, [EURO], {EURO});
    WithoutNothing(bare, {EURO});
    assert Without([EURO], {EURO}) == "" && bare + "" == bare;
    assert WithoutSpaces(text) == bare + [EURO];
    assert Compact(text) == bare;
    WithoutNothing(bare, {'(', ')'});
    assert text[0] == bare[0];
  }

  lemma PrintedValue(cents: int)
    requires cents >= 0
    ensures AmountChars(FormatEuroDE(cents)) && FormatEuroDE(cents) != "" && FormatEuroDE(cents)[0] != '-'
    ensures ParseFloat(DecimalPoint(FormatEuroDE(cents))) == Some(Decimal(cents, -2))
  {
    PrintedChars(cents);
    WithoutNothing(FormatEuroDE(cents), {'.'});
    BodyReadsBack(FormatEuroDE(cents), cents);
  }

  lemma SignedValue(negative: bool, cents: int)
    requires cents >= 0
    ensures SignedCents(negative, Some(Decimal(cents, -2))) == Some(if negative then -cents else cents)
  {
    RoundTwoDecimals(cents);
  }

  lemma TrimmedAlready(text: string)
    requires text != "" && Trim(text) == text
    ensures ParseAmountToCents(text) == SignedCents(IsNegative(text), ParseFloat(DecimalPoint(Unsigned(text))))
  {
  }

  lemma ReadsAs(text: string, cents: int)
    requires cents >= 0 && text != "" && Trim(text) == text
    requires ParseFloat(DecimalPoint(Unsigned(text))) == Some(Decimal(cents, -2))
    ensures ParseAmountToCents(text) == Some(if IsNegative(text) then -cents else cents)
  {
    TrimmedAlready(text);
    SignedValue(IsNegative(text), cents);
  }

  /** Parentheses make an amount negative. */
  lemma BracketsReadBack(cents: int)
    requires cents >= 0
    ensures ParseAmountToCents("(" + FormatEuroDE(cents) + ")") == Some(-cents)
  {
    PrintedValue(cents);
    Bracketed(FormatEuroDE(cents));
    ReadsAs("(" + FormatEuroDE(cents) + ")", cents);
  }

  /** A euro sign after the amount changes nothing. */
  lemma SignReadsBack(cents: int)
    requires cents >= 0
    ensures ParseAmountToCents(FormatEuroDE(cents) + " \U{20AC}") == Some(cents)
  {
    PrintedValue(cents);
    WithSign(FormatEuroDE(cents));
    ReadsAs(FormatEuroDE(cents) + " \U{20AC}", cents);
  }

  /** More than two decimals are rounded to the nearest cent, halves up. */
  lemma RoundedToNearest(d: Decimal)
    requires d.exponent + 2 < 0
    ensures var unit := Pow10(-2 - d.exponent);
      2 * RoundToCents(d) * unit <= 2 * d.mantissa + unit < 2 * (RoundToCents(d) + 1) * unit
  {
    QuotientBounds(d.mantissa, Pow10(-2 - d.exponent));
  }

  lemma QuotientBounds(n: nat, d: nat)
    requires d >= 1
    ensures 2 * RoundQuotient(n, d) * d <= 2 * n + d < 2 * (RoundQuotient(n, d) + 1) * d
  {
    var q := RoundQuotient(n, d);
    DivisionBounds(2 * n + d, 2 * d);
    assert q * (2 * d) == 2 * q * d && (q + 1) * (2 * d) == 2 * (q + 1) * d;
  }

  lemma DivisionBounds(n: nat, d: nat)
    requires d > 0
    ensures n / d * d <= n < (n / d + 1) * d
  {
  }

  // ----- texts that are no amount -----

  predicate NoDigits(s: string) {
    forall i :: 0 <= i < |s| ==> !IsDigit(s[i])
  }

  lemma {:induction false} WithoutNoDigits(s: string, drop: set<char>)
    requires NoDigits(s)
    ensures NoDigits(Without(s, drop)) && NoDigits(WithoutSpaces(s))
  {
    if s != [] {
      WithoutNoDigits(s[1..], drop);
    }
  }

  lemma {:induction false} CommaNoDigits(s: string)
    requires NoDigits(s)
    ensures NoDigits(FirstCommaToDot(s))
  {
    if s != [] {
      CommaNoDigits(s[1..]);
    }
  }

  lemma {:induction false} TrimNoDigits(s: string)
    requires NoDigits(s)
    ensures NoDigits(Trim(s))
  {
    TrimStartNoDigits(s);
    TrimEndNoDigits(TrimStart(s));
  }

  lemma {:induction false} TrimStartNoDigits(s: string)
    requires NoDigits(s)
    ensures NoDigits(TrimStart(s))
  {
    if s != [] && IsSpace(s[0]) {
      TrimStartNoDigits(s[1..]);
    }
  }

  lemma {:induction false} TrimEndNoDigits(s: string)
    requires NoDigits(s)
    ensures NoDigits(TrimEnd(s))
  {
    if s != [] && IsSpace(s[|s| - 1]) {
      TrimEndNoDigits(s[..|s| - 1]);
    }
  }

  lemma NoDigitsNoFloat(s: string)
    requires NoDigits(s)
    ensures ParseFloat(s) == None
  {
    var unsigned := if s != "" && s[0] in {'+', '-'} then s[1..] else s;
    assert TakeDigits(unsigned) == "";
    assert unsigned[0..] == unsigned;
    if unsigned != "" && unsigned[0] == '.' {
      assert TakeDigits(unsigned[1..]) == "";
    }
  }

  /** A text without a digit is no amount, and neither is an empty one. */
  lemma NoDigitsNoAmount(raw: string)
    requires NoDigits(raw)
    ensures ParseAmountToCents(raw) == None
  {
    var trimmed := Trim(raw);
    TrimNoDigits(raw);
    WithoutNoDigits(trimmed, {EURO});
    WithoutNoDigits(WithoutSpaces(trimmed), {EURO});
    WithoutNoDigits(Compact(trimmed), {'(', ')'});
    var bare := Unsigned(trimmed);
    WithoutNoDigits(bare, {'.'});
    CommaNoDigits(bare);
    CommaNoDigits(Without(bare, {'.'}));
    NoDigitsNoFloat(DecimalPoint(bare));
  }
}
