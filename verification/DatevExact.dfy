/** A DATEV file gives back all its rows if and only if no unescaped field has a special character. */
module DatevExact {
  import opened Folds
  import opened Text
  import opened Datev
  import opened DatevFile
  import opened CsvFields
  import Csv

  type State = Csv.State

  // ----- the text, cut at one line and one cell -----

  function LinesText(lines: seq<string>): string {
    if lines == [] then "" else lines[0] + "\n" + LinesText(lines[1..])
  }

  lemma {:induction false} CutAtLine(before: seq<string>, line: string, after: seq<string>) returns (rest: string)
    ensures Csv.FileText(before + [line] + after, true) == LinesText(before) + (line + "\n" + rest)
  {
    if before == [] {
      rest := if after == [] then "" else Csv.FileText(after, true);
      assert before + [line] + after == [line] + after;
      Csv.FileTextCons(line, after, true);
      assert "" + (line + "\n" + rest) == line + "\n" + rest;
    } else {
      rest := CutAtLine(before[1..], line, after);
      var others := before[1..] + [line] + after;
      assert before + [line] + after == [before[0]] + others;
      Csv.FileTextCons(before[0], others, true);
      Associate(before[0] + "\n", LinesText(before[1..]), line + "\n" + rest);
    }
  }

  lemma {:induction false} CutAtCell(texts: seq<string>, j: nat)
    requires 0 < j < |texts| - 1
    ensures Csv.RowText(texts) == Csv.RowText(texts[..j]) + ";" + (texts[j] + ";" + Csv.RowText(texts[j + 1..]))
    decreases j
  {
    assert texts == [texts[0]] + texts[1..];
    RowTextCons(texts[0], texts[1..]);
    if j == 1 {
      assert texts[1..] == [texts[1]] + texts[2..];
      RowTextCons(texts[1], texts[2..]);
      assert texts[..1] == [texts[0]];
    } else {
      CutAtCell(texts[1..], j - 1);
      assert texts[1..][..j - 1] == texts[1..j] && texts[1..][j..] == texts[j + 1..];
      assert texts[..j] == [texts[0]] + texts[1..j];
      RowTextCons(texts[0], texts[1..j]);
      var tail := texts[j] + ";" + Csv.RowText(texts[j + 1..]);
      assert texts[0] + ";" + (Csv.RowText(texts[1..j]) + ";" + tail) == texts[0] + ";" + Csv.RowText(texts[1..j]) + ";" + tail;
    }
  }

  // ----- reading up to the cell -----

  /** Safe records with text, read as whole lines, are so many rows. */
  lemma {:induction false} ReadLines(st: State, records: seq<seq<Field>>)
    requires Csv.AtRowStart(st)
    requires forall k :: 0 <= k < |records| ==> AllSafe(records[k]) && Csv.HasText(Values(records[k]))
    ensures var next := Csv.Run(st, LinesText(Map(records, Line)), ';');
      Csv.AtRowStart(next) && |Csv.NonBlank(next.rows)| == |Csv.NonBlank(st.rows)| + |records|
    decreases |records|
  {
    if records != [] {
      var fields := records[0];
      SafeFieldsEncode(fields);
      Csv.RunLine(st, Map(fields, Written()), Values(fields));
      Csv.NonBlankAppend([], Values(fields));
      var next := Csv.Run(st, Line(fields) + "\n", ';');
      ReadLines(next, records[1..]);
      Csv.RunAppend(st, Line(fields) + "\n", LinesText(Map(records[1..], Line)), ';');
      assert Map(records, Line)[1..] == Map(records[1..], Line);
    }
  }

  /** The cells before cell j, read from the start of a line. */
  lemma ReadCells(st: State, texts: seq<string>, values: seq<string>)
    requires Csv.AtRowStart(st) && values != [] && Csv.EncodesRow(texts, values)
    ensures Csv.Run(st, Csv.RowText(texts) + ";", ';') == st.(row := values)
  {
    var mode := Csv.RunRow(st, texts, values);
    Csv.RunAppend(st, Csv.RowText(texts), ";", ';');
    var last := |values| - 1;
    var filled := st.(mode := mode, cell := values[last], row := [] + values[..last]);
    Csv.RunOne(filled, ';', ';');
    assert values[..last] + [values[last]] == values;
  }

  lemma EncodesPrefix(texts: seq<string>, values: seq<string>, j: nat)
    requires j <= |texts| == |values| && forall x :: 0 <= x < j ==> Csv.Encodes(texts[x], values[x])
    ensures Csv.EncodesRow(texts[..j], values[..j])
  {
  }

  /** From the start of a line: its cell j ends up as something else, in a row that begins with the cells before it. */
  lemma SpoiledLine(st: State, texts: seq<string>, values: seq<string>, j: nat, rest: string)
    requires Csv.AtRowStart(st) && 0 < j < |texts| - 1 && |values| == |texts|
    requires forall x :: 0 <= x < j ==> Csv.Encodes(texts[x], values[x])
    requires !Csv.Plain(texts[j])
    ensures var rows := AllRows(st, Csv.RowText(texts) + "\n" + rest);
      && |rows| > |st.rows| && st.rows <= rows
      && |rows[|st.rows|]| > j && rows[|st.rows|][..j] == values[..j] && rows[|st.rows|][j] != texts[j]
  {
    EncodesPrefix(texts, values, j);
    CutAtCell(texts, j);
    ReadCells(st, texts[..j], values[..j]);
    var cell := st.(row := values[..j]);
    var tail := Csv.RowText(texts[j + 1..]) + "\n" + rest;
    assert Csv.RowText(texts) + "\n" + rest == Csv.RowText(texts[..j]) + ";" + (texts[j] + (";" + tail));
    ReadOn(st, Csv.RowText(texts[..j]) + ";", texts[j] + (";" + tail));
    FieldReadsBackIff(cell, texts[j], tail);
    RowsGrow(cell, texts[j] + (";" + tail));
  }

  // ----- the record of a row with a special character -----

  /** In front of which unescaped field of the row the first special character is. */
  function FirstBad(r: Row): nat {
    if !Csv.Plain(r.konto) then 6 else if !Csv.Plain(r.gegenkonto) then 7 else 8
  }

  lemma FieldsBeforeAreSafe(r: Row, cal: Calendar)
    requires !PlainAccounts(r)
    ensures var fields := DataFields(cal)(r);
      && |fields| == 14 && AllSafe(fields[..FirstBad(r)])
      && fields[FirstBad(r)].Raw? && !Csv.Plain(fields[FirstBad(r)].value)
  {
    AmountIsPlain(Abs(r.amountCents));
    SideTextIsPlain(r.side);
  }

  lemma CellsBeforeAreSafe(r: Row, cal: Calendar)
    requires !PlainAccounts(r)
    ensures var texts, values := Map(DataFields(cal)(r), Written()), DataValues(cal)(r);
      && |texts| == |values| == 14
      && (forall x :: 0 <= x < FirstBad(r) ==> Csv.Encodes(texts[x], values[x]))
      && texts[FirstBad(r)] == values[FirstBad(r)] && !Csv.Plain(texts[FirstBad(r)])
  {
    FieldsBeforeAreSafe(r, cal);
    var fields, j := DataFields(cal)(r), FirstBad(r);
    SafeFieldsEncode(fields[..j]);
    forall x | 0 <= x < j ensures Csv.Encodes(Map(fields, Written())[x], Values(fields)[x]) {
      assert fields[..j][x] == fields[x];
      assert Csv.Encodes(Map(fields[..j], Written())[x], Values(fields[..j])[x]);
    }
  }

  lemma AmountCell(r: Row, cal: Calendar)
    ensures DataValues(cal)(r) != [] && !IsBlank(DataValues(cal)(r)[0])
  {
    DataCells(r, cal);
    AmountIsPlain(Abs(r.amountCents));
  }

  lemma RowAfterOthers(before: Csv.Table, rows: Csv.Table)
    requires |before| < |rows| && before <= rows && Csv.HasText(rows[|before|])
    ensures var n := |Csv.NonBlank(before)|; n < |Csv.NonBlank(rows)| && Csv.NonBlank(rows)[n] == rows[|before|]
  {
    var r, tail := rows[|before|], rows[|before| + 1..];
    assert rows == before + [r] + tail;
    FilterAppend(before + [r], tail, Csv.HasText);
    Csv.NonBlankAppend(before, r);
  }

  /** The record of the first row with a special character does not give its fields back. */
  lemma SpoiledRecord(st: State, r: Row, cal: Calendar, rest: string)
    requires Csv.AtRowStart(st) && !PlainAccounts(r)
    ensures var table, n := Csv.NonBlank(AllRows(st, DataLine(cal)(r) + "\n" + rest)), |Csv.NonBlank(st.rows)|;
      |table| > n && !RecoversTexts(table[n], r, cal)
  {
    var texts, values, j := Map(DataFields(cal)(r), Written()), DataValues(cal)(r), FirstBad(r);
    CellsBeforeAreSafe(r, cal);
    SpoiledLine(st, texts, values, j, rest);
    var rows := AllRows(st, Csv.RowText(texts) + "\n" + rest);
    var record := rows[|st.rows|];
    AmountCell(r, cal);
    assert record[0] == record[..j][0] && record[0] in record;
    RowAfterOthers(st.rows, rows);
    DataCells(r, cal);
  }

  // ----- the whole file -----

  /** Two records more than rows, and every row is recovered from its own record. */
  ghost predicate FileRecovers(rows: seq<Row>, h: Header, cal: Calendar) {
    var table := Csv.Parse(BuildDatevExtf(rows, h, cal), ';');
    && |table| == |rows| + 2
    && forall k :: 0 <= k < |rows| ==> RecoversAmount(table[k + 2], rows[k]) && RecoversTexts(table[k + 2], rows[k], cal)
  }

  lemma {:induction false} FirstUnplain(rows: seq<Row>, from: nat) returns (m: nat)
    requires from <= |rows| && forall k :: 0 <= k < from ==> PlainAccounts(rows[k])
    requires exists r :: r in rows && !PlainAccounts(r)
    ensures m < |rows| && !PlainAccounts(rows[m]) && forall k :: 0 <= k < m ==> PlainAccounts(rows[k])
    decreases |rows| - from
  {
    var r :| r in rows && !PlainAccounts(r);
    var x :| 0 <= x < |rows| && rows[x] == r;
    assert from <= x;
    if !PlainAccounts(rows[from]) {
      m := from;
    } else {
      m := FirstUnplain(rows, from + 1);
    }
  }

  function Head(h: Header, cal: Calendar): seq<seq<Field>> {
    [MarkedHeader(h, cal), ColumnTitles()]
  }

  lemma FileIsRecords(rows: seq<Row>, h: Header, cal: Calendar)
    requires rows != []
    ensures BuildDatevExtf(rows, h, cal) == Csv.FileText(Map(Head(h, cal) + Map(rows, DataFields(cal)), Line), true)
  {
    var rest, data := HeaderFields(h, cal)[1..], Map(rows, DataFields(cal));
    FileIsAssembled(rows, h, cal);
    AssembledIsFile("EXTF", rest, ColumnTitles(), data);
    MapTwo(MarkedHeader(h, cal), ColumnTitles(), data, Line);
  }

  predicate Readable(records: seq<seq<Field>>) {
    forall k :: 0 <= k < |records| ==> AllSafe(records[k]) && Csv.HasText(Values(records[k]))
  }

  lemma ReadableTwo(a: seq<Field>, b: seq<Field>)
    requires AllSafe(a) && AllSafe(b) && Csv.HasText(Values(a)) && Csv.HasText(Values(b))
    ensures Readable([a, b])
  {
  }

  lemma HeadIsReadable(h: Header, cal: Calendar)
    ensures Readable(Head(h, cal))
  {
    HeaderSafe(h, cal);
    TitlesSafe();
    NoHeadIsBlank(h, cal);
    ReadableTwo(MarkedHeader(h, cal), ColumnTitles());
  }

  lemma DataIsReadable(rows: seq<Row>, cal: Calendar)
    requires forall k :: 0 <= k < |rows| ==> PlainAccounts(rows[k])
    ensures Readable(Map(rows, DataFields(cal)))
  {
    forall k | 0 <= k < |rows| ensures AllSafe(DataFields(cal)(rows[k])) && Csv.HasText(Values(DataFields(cal)(rows[k]))) {
      DataSafe(rows[k], cal);
      DataHasText(rows[k], cal);
    }
  }

  lemma ReadableAppend(a: seq<seq<Field>>, b: seq<seq<Field>>)
    requires Readable(a) && Readable(b)
    ensures Readable(a + b)
  {
  }

  /** The records in front of row m. */
  function Before(rows: seq<Row>, h: Header, cal: Calendar, m: nat): (r: seq<seq<Field>>)
    requires m <= |rows|
    ensures |r| == m + 2
  {
    Head(h, cal) + Map(rows[..m], DataFields(cal))
  }

  lemma MapAround<A, B>(front: seq<A>, s: seq<A>, m: nat, f: A -> B)
    requires m < |s|
    ensures Map(front + s, f) == Map(front + s[..m], f) + [f(s[m])] + Map(s[m + 1..], f)
  {
    assert front + s == front + s[..m] + ([s[m]] + s[m + 1..]);
    MapAppend(front + s[..m], [s[m]] + s[m + 1..], f);
    MapAppend([s[m]], s[m + 1..], f);
    assert Map([s[m]], f) == [f(s[m])];
    Associate(Map(front + s[..m], f), [f(s[m])], Map(s[m + 1..], f));
  }

  lemma MapPrefix<A, B>(s: seq<A>, m: nat, f: A -> B)
    requires m < |s|
    ensures Map(s, f)[..m] == Map(s[..m], f) && Map(s, f)[m] == f(s[m])
  {
  }

  lemma CutAtRow(rows: seq<Row>, h: Header, cal: Calendar, m: nat) returns (rest: string)
    requires m < |rows|
    ensures BuildDatevExtf(rows, h, cal) == LinesText(Map(Before(rows, h, cal, m), Line)) + (DataLine(cal)(rows[m]) + "\n" + rest)
  {
    var data := Map(rows, DataFields(cal));
    FileIsRecords(rows, h, cal);
    MapAround(Head(h, cal), data, m, Line);
    MapPrefix(rows, m, DataFields(cal));
    rest := CutAtLine(Map(Before(rows, h, cal, m), Line), DataLine(cal)(rows[m]), Map(data[m + 1..], Line));
  }

  lemma UnplainIsLost(rows: seq<Row>, h: Header, cal: Calendar, m: nat)
    requires m < |rows| && !PlainAccounts(rows[m]) && forall k :: 0 <= k < m ==> PlainAccounts(rows[k])
    ensures !FileRecovers(rows, h, cal)
  {
    var records := Before(rows, h, cal, m);
    var text := LinesText(Map(records, Line));
    var rest := CutAtRow(rows, h, cal, m);
    HeadIsReadable(h, cal);
    DataIsReadable(rows[..m], cal);
    ReadableAppend(Head(h, cal), Map(rows[..m], DataFields(cal)));
    ReadLines(Csv.Start(), records);
    assert Csv.NonBlank(Csv.Start().rows) == [];
    ReadOn(Csv.Start(), text, DataLine(cal)(rows[m]) + "\n" + rest);
    SpoiledRecord(Csv.Run(Csv.Start(), text, ';'), rows[m], cal, rest);
  }

  lemma PlainIsRecovered(rows: seq<Row>, h: Header, cal: Calendar)
    requires forall r :: r in rows ==> PlainAccounts(r)
    ensures FileRecovers(rows, h, cal)
  {
    DatevFileReadsBack(rows, h, cal);
    forall k | 0 <= k < |rows|
      ensures var table := Csv.Parse(BuildDatevExtf(rows, h, cal), ';');
        |table| == |rows| + 2 && RecoversAmount(table[k + 2], rows[k]) && RecoversTexts(table[k + 2], rows[k], cal)
    {
      DatevFileRoundTrip(rows, h, cal, k);
    }
  }

  /**
   * The file gives every row back if and only if konto, gegenkonto and BU key of all rows have no delimiter, quote, CR
   * or LF. Not even the following fields and rows can make up for one such character.
   */
  lemma FileRecoversIff(rows: seq<Row>, h: Header, cal: Calendar)
    ensures FileRecovers(rows, h, cal) <==> forall r :: r in rows ==> PlainAccounts(r)
  {
    if forall r :: r in rows ==> PlainAccounts(r) {
      PlainIsRecovered(rows, h, cal);
    } else {
      var m := FirstUnplain(rows, 0);
      UnplainIsLost(rows, h, cal, m);
    }
  }
}
