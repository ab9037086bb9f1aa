/** DATEV booking rows and their validation before an export. */
module Datev {
  import opened Folds

  /** Soll (debit) and Haben (credit). */
  datatype Side = S | H

  function Opposite(side: Side): Side {
    if side == S then H else S
  }

  function Abs(x: int): nat {
    if x < 0 then -x else x
  }

  /** One booking row: konto on `side`, gegenkonto on the opposite side. An empty string is "not set". */
  datatype Row = Row(amountCents: int, side: Side, konto: string, gegenkonto: string,
                     buKey: string, belegdatum: int, belegfeld1: string, buchungstext: string)

  // ----- what a row does to the ledger -----

  /** The amount a row posts to one side of one account. */
  function Posted(account: string, side: Side): Row -> int {
    (r: Row) =>
      (if r.konto == account && r.side == side then Abs(r.amountCents) else 0) +
      (if r.gegenkonto != "" && r.gegenkonto == account && Opposite(r.side) == side then Abs(r.amountCents) else 0)
  }

  function RowAmount(): Row -> int {
    (r: Row) => Abs(r.amountCents)
  }

  /** A row touches one account, or two when it has a gegenkonto. */
  function RowVolume(): Row -> int {
    (r: Row) => if r.gegenkonto != "" then 2 * Abs(r.amountCents) else Abs(r.amountCents)
  }

  function AmountAt(m: map<string, int>, account: string): int {
    if account in m then m[account] else 0
  }

  function Bump(m: map<string, int>, account: string, amount: int): map<string, int> {
    m[account := AmountAt(m, account) + amount]
  }

  lemma BumpAmounts(m: map<string, int>, account: string, amount: int, a: string)
    ensures AmountAt(Bump(m, account, amount), a) == AmountAt(m, a) + if a == account then amount else 0
    ensures MapSum(Bump(m, account, amount)) == MapSum(m) + amount
  {
    MapSumPut(m, account, AmountAt(m, account) + amount);
  }

  function BumpRow(m: map<string, int>, r: Row): map<string, int> {
    var m1 := Bump(m, r.konto, Abs(r.amountCents));
    if r.gegenkonto != "" then Bump(m1, r.gegenkonto, Abs(r.amountCents)) else m1
  }

  /** Both accounts of a row are raised by the row's amount. */
  lemma BumpRowAmounts(m: map<string, int>, r: Row, a: string)
    ensures AmountAt(BumpRow(m, r), a) == AmountAt(m, a) + Posted(a, S)(r) + Posted(a, H)(r)
    ensures MapSum(BumpRow(m, r)) == MapSum(m) + RowVolume()(r)
  {
    BumpAmounts(m, r.konto, Abs(r.amountCents), a);
    if r.gegenkonto != "" {
      BumpAmounts(Bump(m, r.konto, Abs(r.amountCents)), r.gegenkonto, Abs(r.amountCents), a);
    }
  }

  lemma SumSnoc(rows: seq<Row>, i: nat, f: Row -> int)
    requires i < |rows|
    ensures Sum(rows[..i + 1], f) == Sum(rows[..i], f) + f(rows[i])
  {
    assert rows[..i + 1] == rows[..i] + [rows[i]];
    SumAppend(rows[..i], [rows[i]], f);
  }

  /** What the rows post to an account on both sides together. */
  function Turnover(rows: seq<Row>, account: string): int {
    Sum(rows, Posted(account, S)) + Sum(rows, Posted(account, H))
  }

  /** The control totals stored with an export: every account's turnover over both sides. */
  method TotalsByAccount(rows: seq<Row>) returns (totals: map<string, int>)
    ensures forall a :: AmountAt(totals, a) == Turnover(rows, a)
    ensures MapSum(totals) == Sum(rows, RowVolume())
  {
    totals := map[];
    for i := 0 to |rows|
      invariant forall a :: AmountAt(totals, a) == Turnover(rows[..i], a)
      invariant MapSum(totals) == Sum(rows[..i], RowVolume())
    {
      ghost var before := totals;
      var r := rows[i];
      totals := Bump(totals, r.konto, Abs(r.amountCents));
      if r.gegenkonto != "" {
        totals := Bump(totals, r.gegenkonto, Abs(r.amountCents));
      }
      assert totals == BumpRow(before, r);
      BumpRowAmounts(before, r, "");
      SumSnoc(rows, i, RowVolume());
      forall a ensures AmountAt(totals, a) == Turnover(rows[..i + 1], a) {
        BumpRowAmounts(before, r, a);
        SumSnoc(rows, i, Posted(a, S));
        SumSnoc(rows, i, Posted(a, H));
      }
    }
    assert rows[..|rows|] == rows;
  }

  lemma {:induction false} VolumeIsTwiceTheAmount(rows: seq<Row>)
    requires forall r :: r in rows ==> r.gegenkonto != ""
    ensures Sum(rows, RowVolume()) == 2 * Sum(rows, RowAmount())
  {
    if rows != [] {
      VolumeIsTwiceTheAmount(rows[1..]);
    }
  }

  // ----- validation -----

  datatype RowError =
    | NoRows
    | KontoMissing(line: nat)
    | GegenkontoMissing(line: nat)
    | AmountMissing(line: nat)
    | CollectiveForbidden(line: nat)

  function ErrorsOfRow(line: nat, r: Row, forbidden: set<string>): seq<RowError> {
    (if r.konto == "" then [KontoMissing(line)] else []) +
    (if r.gegenkonto == "" then [GegenkontoMissing(line)] else []) +
    (if r.amountCents == 0 then [AmountMissing(line)] else []) +
    (if r.konto in forbidden || r.gegenkonto in forbidden then [CollectiveForbidden(line)] else [])
  }

  predicate Exportable(r: Row, forbidden: set<string>) {
    r.konto != "" && r.gegenkonto != "" && r.amountCents != 0 && r.konto !in forbidden && r.gegenkonto !in forbidden
  }

  /** All errors of the first n rows; line numbers start at 1. */
  function ErrorsUpTo(rows: seq<Row>, n: nat, forbidden: set<string>): seq<RowError>
    requires n <= |rows|
  {
    if n == 0 then (if rows == [] then [NoRows] else [])
    else ErrorsUpTo(rows, n - 1, forbidden) + ErrorsOfRow(n, rows[n - 1], forbidden)
  }

  lemma ErrorsNext(rows: seq<Row>, i: nat, forbidden: set<string>, rowErrors: seq<RowError>)
    requires i < |rows| && rowErrors == ErrorsOfRow(i + 1, rows[i], forbidden)
    ensures ErrorsUpTo(rows, i + 1, forbidden) == ErrorsUpTo(rows, i, forbidden) + rowErrors
  {
  }

  method ValidateRow(line: nat, r: Row, forbidden: set<string>) returns (errors: seq<RowError>)
    ensures errors == ErrorsOfRow(line, r, forbidden)
  {
    errors := [];
    if r.konto == "" {
      errors := errors + [KontoMissing(line)];
    }
    if r.gegenkonto == "" {
      errors := errors + [GegenkontoMissing(line)];
    }
    if r.amountCents == 0 {
      errors := errors + [AmountMissing(line)];
    }
    if r.konto in forbidden || r.gegenkonto in forbidden {
      errors := errors + [CollectiveForbidden(line)];
    }
  }

  method ValidateDatevRows(rows: seq<Row>, forbidden: set<string>) returns (errors: seq<RowError>)
    ensures errors == ErrorsUpTo(rows, |rows|, forbidden)
  {
    errors := if rows == [] then [NoRows] else [];
    for i := 0 to |rows|
      invariant errors == ErrorsUpTo(rows, i, forbidden)
    {
      var rowErrors := ValidateRow(i + 1, rows[i], forbidden);
      ErrorsNext(rows, i, forbidden, rowErrors);
      errors := errors + rowErrors;
    }
  }

  lemma {:induction false} NoErrorsUpTo(rows: seq<Row>, n: nat, forbidden: set<string>)
    requires n <= |rows|
    ensures ErrorsUpTo(rows, n, forbidden) == [] <==> rows != [] && forall k :: 0 <= k < n ==> Exportable(rows[k], forbidden)
  {
    if n > 0 {
      NoErrorsUpTo(rows, n - 1, forbidden);
    }
  }

  /** Validation passes exactly for a non-empty file of complete rows without forbidden collective accounts. */
  lemma ValidIffExportable(rows: seq<Row>, forbidden: set<string>)
    ensures ErrorsUpTo(rows, |rows|, forbidden) == [] <==> rows != [] && forall r :: r in rows ==> Exportable(r, forbidden)
  {
    NoErrorsUpTo(rows, |rows|, forbidden);
  }
}
