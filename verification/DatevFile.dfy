/** The EXTF Buchungsstapel file: header line, column titles and one line for each booking row. */
module DatevFile {
  import opened Folds
  import opened Wrappers
  import opened Text
  import opened Datev
  import Csv
  import CsvFields
  import Money

  /** Day, month and year of a time stamp in UTC. */
  datatype Calendar = Calendar(day: int -> nat, month: int -> nat, year: int -> nat)

  datatype Header = Header(advisorNumber: string, clientNumber: string, periodStart: int, periodEnd: int,
                           createdAt: int, description: string)

  const BOM := "\U{FEFF}"

  function PadDate(cal: Calendar, d: int): string {
    Money.PadTwo(cal.day(d)) + Money.PadTwo(cal.month(d)) + Money.NatText(cal.year(d))
  }

  function BelegdatumShort(cal: Calendar, d: int): string {
    Money.PadTwo(cal.day(d)) + Money.PadTwo(cal.month(d))
  }

  function Description(h: Header): string {
    if h.description != "" then h.description else "Buchungsstapel"
  }

  // ----- fields, as they are written and as they read back -----

  /** A field is written as it is, through csvEscape, or always in quotes. */
  datatype Field = Raw(value: string) | Escaped(value: string) | InQuotes(value: string)

  function Written(): Field -> string {
    (f: Field) =>
      match f
      case Raw(v) => v
      case Escaped(v) => Csv.CsvEscape(v)
      case InQuotes(v) => Csv.Quote(v)
  }

  function Value(): Field -> string {
    (f: Field) => f.value
  }

  function Line(fields: seq<Field>): string {
    Csv.RowText(Map(fields, Written()))
  }

  function HeaderStart(h: Header, cal: Calendar): seq<Field> {
    [Raw("EXTF"), Raw("700"), Raw("21"), Raw("Buchungsstapel"), Raw("9"), Raw(PadDate(cal, h.createdAt)), Raw("")]
  }

  function HeaderPeriod(h: Header, cal: Calendar): seq<Field> {
    [Raw(""), Raw(""), Raw(""), Escaped(h.advisorNumber), Escaped(h.clientNumber),
     Raw(PadDate(cal, h.periodStart)), Raw(PadDate(cal, h.periodEnd))]
  }

  function HeaderEnd(h: Header): seq<Field> {
    [InQuotes(""), InQuotes("03"), Raw(""), Raw(""), Raw(""), Raw(""), Raw("")] +
    [Raw(""), Raw(""), InQuotes("EUR"), Raw(""), Escaped(Description(h))]
  }

  function HeaderFields(h: Header, cal: Calendar): seq<Field> {
    HeaderStart(h, cal) + HeaderPeriod(h, cal) + HeaderEnd(h)
  }

  function AmountTitles(): seq<Field> {
    [Raw("Umsatz (ohne Soll/Haben-Kz)"), Raw("Soll/Haben-Kennzeichen"), Raw("WKZ Umsatz"), Raw("Kurs"),
     Raw("Basis-Umsatz"), Raw("WKZ Basis-Umsatz")]
  }

  function AccountTitles(): seq<Field> {
    [Raw("Konto"), Raw("Gegenkonto (ohne BU-Schl\U{00FC}ssel)"), Raw("BU-Schl\U{00FC}ssel"), Raw("Belegdatum")]
  }

  function TextTitles(): seq<Field> {
    [Raw("Belegfeld 1"), Raw("Belegfeld 2"), Raw("Skonto"), Raw("Buchungstext")]
  }

  function ColumnTitles(): seq<Field> {
    AmountTitles() + AccountTitles() + TextTitles()
  }

  function SideText(side: Side): string {
    if side == S then "S" else "H"
  }

  /** Konto, gegenkonto and BU key are written as they are. */
  function DataFields(cal: Calendar): Row -> seq<Field> {
    (r: Row) =>
      [Raw(Money.FormatEuroDE(Abs(r.amountCents))), Raw(SideText(r.side)), Raw(""), Raw(""), Raw(""), Raw(""),
       Raw(r.konto), Raw(r.gegenkonto), Raw(r.buKey), Raw(BelegdatumShort(cal, r.belegdatum)), Escaped(r.belegfeld1),
       Raw(""), Raw(""), Escaped(FirstSixty(r.buchungstext))]
  }

  function DataLine(cal: Calendar): Row -> string {
    (r: Row) => Line(DataFields(cal)(r))
  }

  /** The lines are joined by newlines, and the file ends with one. */
  function Assemble(headerLine: string, titleLine: string, dataLines: seq<string>): string {
    BOM + headerLine + "\n" + titleLine + "\n" + Join(dataLines, "\n") + "\n"
  }

  function BuildDatevExtf(rows: seq<Row>, h: Header, cal: Calendar): string {
    Assemble(Line(HeaderFields(h, cal)), Line(ColumnTitles()), Map(rows, DataLine(cal)))
  }

  /** The byte order mark reads back as part of the first header cell. */
  function MarkedHeader(h: Header, cal: Calendar): seq<Field> {
    [Raw(BOM + "EXTF")] + HeaderFields(h, cal)[1..]
  }

  function Values(fields: seq<Field>): seq<string> {
    Map(fields, Value())
  }

  function DataValues(cal: Calendar): Row -> seq<string> {
    (r: Row) => Values(DataFields(cal)(r))
  }

  // ----- fields that read back unchanged -----

  predicate Safe(f: Field) {
    f.Raw? ==> Csv.Plain(f.value)
  }

  predicate AllSafe(fields: seq<Field>) {
    forall j :: 0 <= j < |fields| ==> Safe(fields[j])
  }

  lemma AllSafeAppend(a: seq<Field>, b: seq<Field>)
    requires AllSafe(a) && AllSafe(b)
    ensures AllSafe(a + b)
  {
  }

  lemma SafeFieldsEncode(fields: seq<Field>)
    requires AllSafe(fields)
    ensures Csv.EncodesRow(Map(fields, Written()), Values(fields))
  {
    forall j | 0 <= j < |fields| ensures Csv.Encodes(Map(fields, Written())[j], Values(fields)[j]) {
      assert Safe(fields[j]);
    }
  }

  lemma DigitsArePlain(s: string)
    requires Money.AllDigits(s)
    ensures Csv.Plain(s)
  {
  }

  lemma DatesArePlain(cal: Calendar, d: int)
    ensures Csv.Plain(PadDate(cal, d)) && Csv.Plain(BelegdatumShort(cal, d))
  {
    DigitsArePlain(Money.PadTwo(cal.day(d)));
    DigitsArePlain(Money.PadTwo(cal.month(d)));
    DigitsArePlain(Money.NatText(cal.year(d)));
  }

  lemma AmountIsPlain(cents: int)
    ensures Csv.Plain(Money.FormatEuroDE(cents)) && !IsBlank(Money.FormatEuroDE(cents))
  {
    Money.PrintedChars(cents);
    assert !IsSpace(Money.FormatEuroDE(cents)[0]);
  }

  lemma PlainHeaderTexts()
    ensures Csv.Plain("700") && Csv.Plain("21") && Csv.Plain("Buchungsstapel") && Csv.Plain("9") && Csv.Plain("")
    ensures Csv.Plain(BOM + "EXTF")
  {
  }

  lemma HeaderStartSafe(h: Header, cal: Calendar)
    ensures AllSafe(HeaderStart(h, cal)[1..]) && AllSafe([Raw(BOM + "EXTF")])
  {
    PlainHeaderTexts();
    DatesArePlain(cal, h.createdAt);
  }

  lemma HeaderPeriodSafe(h: Header, cal: Calendar)
    ensures AllSafe(HeaderPeriod(h, cal))
  {
    PlainHeaderTexts();
    DatesArePlain(cal, h.periodStart);
    DatesArePlain(cal, h.periodEnd);
  }

  lemma HeaderEndSafe(h: Header)
    ensures AllSafe(HeaderEnd(h))
  {
    PlainHeaderTexts();
    AllSafeAppend(HeaderEnd(h)[..7], HeaderEnd(h)[7..]);
    assert HeaderEnd(h) == HeaderEnd(h)[..7] + HeaderEnd(h)[7..];
  }

  lemma HeaderParts(h: Header, cal: Calendar)
    ensures HeaderFields(h, cal) == [Raw("EXTF")] + (HeaderStart(h, cal)[1..] + HeaderPeriod(h, cal) + HeaderEnd(h))
    ensures MarkedHeader(h, cal) == [Raw(BOM + "EXTF")] + (HeaderStart(h, cal)[1..] + HeaderPeriod(h, cal) + HeaderEnd(h))
  {
    var a, b, c := HeaderStart(h, cal), HeaderPeriod(h, cal), HeaderEnd(h);
    TailOfSum(a, b, c);
    assert a[0] == Raw("EXTF");
  }

  lemma TailOfSum<T>(a: seq<T>, b: seq<T>, c: seq<T>)
    requires a != []
    ensures (a + b + c)[1..] == a[1..] + b + c
    ensures a + b + c == [a[0]] + (a[1..] + b + c)
  {
  }

  lemma HeaderSafe(h: Header, cal: Calendar)
    ensures AllSafe(MarkedHeader(h, cal))
  {
    HeaderStartSafe(h, cal);
    HeaderPeriodSafe(h, cal);
    HeaderEndSafe(h);
    HeaderParts(h, cal);
    var a, b, c := HeaderStart(h, cal)[1..], HeaderPeriod(h, cal), HeaderEnd(h);
    AllSafeAppend(a, b);
    AllSafeAppend(a + b, c);
    AllSafeAppend([Raw(BOM + "EXTF")], a + b + c);
  }

  lemma PlainAmountTitles()
    ensures Csv.Plain("Umsatz (ohne Soll/Haben-Kz)") && Csv.Plain("Soll/Haben-Kennzeichen")
  {
  }

  lemma PlainCurrencyTitles()
    ensures Csv.Plain("WKZ Umsatz") && Csv.Plain("Kurs") && Csv.Plain("Basis-Umsatz") && Csv.Plain("WKZ Basis-Umsatz")
  {
  }

  lemma PlainAccountTitles()
    ensures Csv.Plain("Konto") && Csv.Plain("Gegenkonto (ohne BU-Schl\U{00FC}ssel)")
    ensures Csv.Plain("BU-Schl\U{00FC}ssel") && Csv.Plain("Belegdatum")
  {
  }

  lemma PlainTextTitles()
    ensures Csv.Plain("Belegfeld 1") && Csv.Plain("Belegfeld 2") && Csv.Plain("Skonto") && Csv.Plain("Buchungstext")
  {
  }

  lemma AmountTitlesSafe()
    ensures AllSafe(AmountTitles())
  {
    PlainAmountTitles();
    PlainCurrencyTitles();
  }

  lemma AccountTitlesSafe()
    ensures AllSafe(AccountTitles())
  {
    PlainAccountTitles();
  }

  lemma TextTitlesSafe()
    ensures AllSafe(TextTitles())
  {
    PlainTextTitles();
  }

  lemma TitlesSafe()
    ensures AllSafe(ColumnTitles())
  {
    AmountTitlesSafe();
    AccountTitlesSafe();
    TextTitlesSafe();
    AllSafeAppend(AmountTitles(), AccountTitles());
    AllSafeAppend(AmountTitles() + AccountTitles(), TextTitles());
  }

  /** The unescaped fields of a row are safe to write. */
  predicate PlainAccounts(r: Row) {
    Csv.Plain(r.konto) && Csv.Plain(r.gegenkonto) && Csv.Plain(r.buKey)
  }

  lemma SideTextIsPlain(side: Side)
    ensures Csv.Plain(SideText(side)) && Csv.Plain("")
  {
  }

  lemma DataSafe(r: Row, cal: Calendar)
    requires PlainAccounts(r)
    ensures AllSafe(DataFields(cal)(r))
  {
    AmountIsPlain(Abs(r.amountCents));
    SideTextIsPlain(r.side);
    DatesArePlain(cal, r.belegdatum);
  }

  lemma DataHasText(r: Row, cal: Calendar)
    ensures Csv.HasText(DataValues(cal)(r))
  {
    AmountIsPlain(Abs(r.amountCents));
    FieldHasText(DataFields(cal)(r), 0);
  }

  /** A record with text in any cell is not dropped by the reader. */
  lemma FieldHasText(fields: seq<Field>, i: nat)
    requires i < |fields| && !IsBlank(fields[i].value)
    ensures Csv.HasText(Values(fields))
  {
    assert Values(fields)[i] in Values(fields);
  }

  lemma NoHeadIsBlank(h: Header, cal: Calendar)
    ensures Csv.HasText(Values(MarkedHeader(h, cal)))
    ensures Csv.HasText(Values(ColumnTitles()))
  {
    assert !IsBlank("700") by {
      assert !IsSpace("700"[0]);
    }
    assert !IsBlank("Kurs") by {
      assert !IsSpace("Kurs"[0]);
    }
    HeadFields(h, cal);
    FieldHasText(MarkedHeader(h, cal), 1);
    FieldHasText(ColumnTitles(), 3);
  }

  lemma HeadFields(h: Header, cal: Calendar)
    ensures |MarkedHeader(h, cal)| > 1 && MarkedHeader(h, cal)[1] == Raw("700")
    ensures |ColumnTitles()| > 3 && ColumnTitles()[3] == Raw("Kurs")
  {
  }

  // ----- the file as a written table -----

  lemma MarkFirstCell(mark: string, first: string, rest: seq<string>)
    ensures mark + Csv.RowText([first] + rest) == Csv.RowText([mark + first] + rest)
  {
    if rest == [] {
      assert [first] + rest == [first];
      assert [mark + first] + rest == [mark + first];
    } else {
      assert ([first] + rest)[1..] == rest;
      assert ([mark + first] + rest)[1..] == rest;
      assert mark + (first + ";" + Csv.RowText(rest)) == mark + first + ";" + Csv.RowText(rest);
    }
  }

  lemma MarkedLine(first: string, rest: seq<Field>)
    ensures BOM + Line([Raw(first)] + rest) == Line([Raw(BOM + first)] + rest)
  {
    MapAppend([Raw(first)], rest, Written());
    MapAppend([Raw(BOM + first)], rest, Written());
    MarkFirstCell(BOM, first, Map(rest, Written()));
    assert Map([Raw(first)], Written()) == [first];
    assert Map([Raw(BOM + first)], Written()) == [BOM + first];
  }

  lemma JoinTwo(a: string, b: string, lines: seq<string>)
    requires lines != []
    ensures Join([a, b] + lines, "\n") == a + "\n" + (b + "\n" + Join(lines, "\n"))
  {
    assert ([a, b] + lines)[1..] == [b] + lines;
    assert ([b] + lines)[1..] == lines;
  }

  lemma Regroup(a: string, b: string, c: string, n: string)
    ensures a + n + b + n + c + n == a + n + (b + n + c) + n
  {
  }

  /** A file without data lines has one empty line in their place. */
  lemma AssembledLines(headerLine: string, titleLine: string, dataLines: seq<string>)
    ensures Assemble(headerLine, titleLine, dataLines) ==
      Csv.FileText([BOM + headerLine, titleLine] + (if dataLines == [] then [""] else dataLines), true)
  {
    var lines := if dataLines == [] then [""] else dataLines;
    assert Join(lines, "\n") == Join(dataLines, "\n");
    JoinTwo(BOM + headerLine, titleLine, lines);
    Regroup(BOM + headerLine, titleLine, Join(lines, "\n"), "\n");
  }

  function WrittenRecord(): seq<Field> -> seq<string> {
    (fields: seq<Field>) => Map(fields, Written())
  }

  function RecordValues(): seq<Field> -> seq<string> {
    (fields: seq<Field>) => Values(fields)
  }

  lemma LinesAreRowTexts(records: seq<seq<Field>>)
    ensures Map(Map(records, WrittenRecord()), Csv.RowText) == Map(records, Line)
  {
  }

  /** Any list of safe records reads back, without its blank records. */
  lemma RecordsReadBack(records: seq<seq<Field>>)
    requires forall k :: 0 <= k < |records| ==> AllSafe(records[k])
    ensures Csv.Parse(Csv.FileText(Map(records, Line), true), ';') == Csv.NonBlank(Map(records, RecordValues()))
  {
    var texts, values := Map(records, WrittenRecord()), Map(records, RecordValues());
    forall k | 0 <= k < |records| ensures Csv.EncodesRow(texts[k], values[k]) {
      SafeFieldsEncode(records[k]);
    }
    LinesAreRowTexts(records);
    Csv.WrittenTableReadsBack(texts, values, true);
  }

  lemma {:induction false} AllHaveText(values: Csv.Table)
    requires forall k :: 0 <= k < |values| ==> Csv.HasText(values[k])
    ensures Csv.NonBlank(values) == values
  {
    if values != [] {
      AllHaveText(values[1..]);
    }
  }

  lemma MapTwo<A, B>(a: A, b: A, rest: seq<A>, f: A -> B)
    ensures Map([a, b] + rest, f) == [f(a), f(b)] + Map(rest, f)
  {
    MapAppend([a, b], rest, f);
    assert Map([a, b], f) == [f(a), f(b)];
  }

  lemma AllRecordsSafe(head: seq<Field>, titles: seq<Field>, data: seq<seq<Field>>)
    requires AllSafe(head) && AllSafe(titles) && forall k :: 0 <= k < |data| ==> AllSafe(data[k])
    ensures forall k :: 0 <= k < |[head, titles] + data| ==> AllSafe(([head, titles] + data)[k])
  {
  }

  lemma TopIsKept(a: seq<string>, b: seq<string>, rest: Csv.Table)
    requires Csv.HasText(a) && Csv.HasText(b)
    ensures Csv.NonBlank([a, b] + rest) == [a, b] + Csv.NonBlank(rest)
  {
    AllHaveText([a, b]);
    FilterAppend([a, b], rest, Csv.HasText);
  }

  /** A header and a title record are read back in front of whatever follows them. */
  lemma HeadReadsBack(head: seq<Field>, titles: seq<Field>, data: seq<seq<Field>>)
    requires AllSafe(head) && AllSafe(titles) && Csv.HasText(Values(head)) && Csv.HasText(Values(titles))
    requires forall k :: 0 <= k < |data| ==> AllSafe(data[k])
    ensures Csv.Parse(Csv.FileText([Line(head), Line(titles)] + Map(data, Line), true), ';') ==
      [Values(head), Values(titles)] + Csv.NonBlank(Map(data, RecordValues()))
  {
    MapTwo(head, titles, data, Line);
    MapTwo(head, titles, data, RecordValues());
    AllRecordsSafe(head, titles, data);
    RecordsReadBack([head, titles] + data);
    TopIsKept(Values(head), Values(titles), Map(data, RecordValues()));
  }

  /** The record that stands for "no rows" is one empty line, and it is dropped. */
  lemma EmptyRecord()
    ensures AllSafe([Raw("")])
    ensures Map([[Raw("")]], Line) == [""]
    ensures Csv.NonBlank(Map([[Raw("")]], RecordValues())) == []
  {
    assert Map([Raw("")], Written()) == [""];
    assert Map([[Raw("")]], RecordValues()) == [[""]];
    Csv.NonBlankAppend([], [""]);
    assert !Csv.HasText([""]);
  }

  /** The records that are really in the file. */
  function OrEmptyRecord(data: seq<seq<Field>>): seq<seq<Field>> {
    if data == [] then [[Raw("")]] else data
  }

  lemma AssembledIsFile(first: string, rest: seq<Field>, titles: seq<Field>, data: seq<seq<Field>>)
    ensures Assemble(Line([Raw(first)] + rest), Line(titles), Map(data, Line)) ==
      Csv.FileText([Line([Raw(BOM + first)] + rest), Line(titles)] + Map(OrEmptyRecord(data), Line), true)
  {
    MarkedLine(first, rest);
    AssembledLines(Line([Raw(first)] + rest), Line(titles), Map(data, Line));
    EmptyRecord();
  }

  lemma RecordsKept(data: seq<seq<Field>>)
    requires forall k :: 0 <= k < |data| ==> AllSafe(data[k]) && Csv.HasText(Values(data[k]))
    ensures Csv.NonBlank(Map(OrEmptyRecord(data), RecordValues())) == Map(data, RecordValues())
    ensures forall k :: 0 <= k < |OrEmptyRecord(data)| ==> AllSafe(OrEmptyRecord(data)[k])
  {
    if data == [] {
      EmptyRecord();
    } else {
      AllHaveText(Map(data, RecordValues()));
    }
  }

  /** A file put together from safe records that all have text reads back as those records. */
  lemma AssembledFileReadsBack(first: string, rest: seq<Field>, titles: seq<Field>, data: seq<seq<Field>>)
    requires var head := [Raw(BOM + first)] + rest;
      AllSafe(head) && AllSafe(titles) && Csv.HasText(Values(head)) && Csv.HasText(Values(titles))
    requires forall k :: 0 <= k < |data| ==> AllSafe(data[k]) && Csv.HasText(Values(data[k]))
    ensures Csv.Parse(Assemble(Line([Raw(first)] + rest), Line(titles), Map(data, Line)), ';') ==
      [Values([Raw(BOM + first)] + rest), Values(titles)] + Map(data, RecordValues())
  {
    AssembledIsFile(first, rest, titles, data);
    RecordsKept(data);
    HeadReadsBack([Raw(BOM + first)] + rest, titles, OrEmptyRecord(data));
  }

  /**
   * The file reads back as its header, its column titles and one record for each row, provided that the fields that
   * are written unescaped contain no special character.
   */
  lemma DatevFileReadsBack(rows: seq<Row>, h: Header, cal: Calendar)
    requires forall r :: r in rows ==> PlainAccounts(r)
    ensures Csv.Parse(BuildDatevExtf(rows, h, cal), ';') ==
      [Values(MarkedHeader(h, cal)), Values(ColumnTitles())] + Map(rows, DataValues(cal))
  {
    var rest, titles, data := HeaderFields(h, cal)[1..], ColumnTitles(), Map(rows, DataFields(cal));
    HeaderSafe(h, cal);
    TitlesSafe();
    NoHeadIsBlank(h, cal);
    forall k | 0 <= k < |data| ensures AllSafe(data[k]) && Csv.HasText(Values(data[k])) {
      DataSafe(rows[k], cal);
      DataHasText(rows[k], cal);
    }
    AssembledFileReadsBack("EXTF", rest, titles, data);
    FileIsAssembled(rows, h, cal);
  }

  lemma FileIsAssembled(rows: seq<Row>, h: Header, cal: Calendar)
    ensures BuildDatevExtf(rows, h, cal) == Assemble(
      Line([Raw("EXTF")] + HeaderFields(h, cal)[1..]), Line(ColumnTitles()), Map(Map(rows, DataFields(cal)), Line))
    ensures Map(Map(rows, DataFields(cal)), RecordValues()) == Map(rows, DataValues(cal))
  {
    var data := Map(rows, DataFields(cal));
    assert HeaderFields(h, cal) == [Raw("EXTF")] + HeaderFields(h, cal)[1..];
    assert Map(data, Line) == Map(rows, DataLine(cal));
    assert Map(data, RecordValues()) == Map(rows, DataValues(cal));
  }

  /** What a reader of the record needs to recover the amount and the side. */
  ghost predicate RecoversAmount(cells: seq<string>, r: Row) {
    && |cells| == 14
    && Money.ParseAmountToCents(cells[0]) == Some(Abs(r.amountCents))
    && (cells[1] == "S" <==> r.side == S) && (cells[1] == "H" <==> r.side == H)
  }

  /** The accounts, the BU key, the date and the texts. */
  ghost predicate RecoversTexts(cells: seq<string>, r: Row, cal: Calendar) {
    && |cells| == 14
    && cells[6] == r.konto && cells[7] == r.gegenkonto && cells[8] == r.buKey
    && cells[9] == BelegdatumShort(cal, r.belegdatum)
    && cells[10] == r.belegfeld1
    && cells[13] == FirstSixty(r.buchungstext)
    && cells[2] == cells[3] == cells[4] == cells[5] == cells[11] == cells[12] == ""
  }

  lemma RecordRecovers(r: Row, cal: Calendar)
    ensures RecoversAmount(DataValues(cal)(r), r)
    ensures RecoversTexts(DataValues(cal)(r), r, cal)
  {
    DataCells(r, cal);
    Money.PrintedAmountReadsBack(Abs(r.amountCents));
    SideTextRecovers(DataValues(cal)(r)[1], r.side);
  }

  lemma DataCells(r: Row, cal: Calendar)
    ensures var cells := DataValues(cal)(r);
      && |cells| == 14
      && cells[0] == Money.FormatEuroDE(Abs(r.amountCents)) && cells[1] == SideText(r.side)
      && cells[6] == r.konto && cells[7] == r.gegenkonto && cells[8] == r.buKey
      && cells[9] == BelegdatumShort(cal, r.belegdatum) && cells[10] == r.belegfeld1
      && cells[13] == FirstSixty(r.buchungstext)
      && cells[2] == cells[3] == cells[4] == cells[5] == cells[11] == cells[12] == ""
  {
    assert DataValues(cal)(r) == Map(DataFields(cal)(r), Value());
  }

  lemma SideTextRecovers(text: string, side: Side)
    requires text == SideText(side)
    ensures (text == "S" <==> side == S) && (text == "H" <==> side == H)
  {
    assert "S"[0] != "H"[0];
  }

  lemma ThirdRowOn<T>(a: T, b: T, rest: seq<T>, k: nat)
    requires k < |rest|
    ensures ([a, b] + rest)[k + 2] == rest[k] && |[a, b] + rest| == |rest| + 2
  {
  }

  /** The file has two records more than rows, and every booking row can be recovered from its own. */
  lemma DatevFileRoundTrip(rows: seq<Row>, h: Header, cal: Calendar, k: nat)
    requires k < |rows| && forall r :: r in rows ==> PlainAccounts(r)
    ensures var table := Csv.Parse(BuildDatevExtf(rows, h, cal), ';');
      |table| == |rows| + 2 && RecoversAmount(table[k + 2], rows[k]) && RecoversTexts(table[k + 2], rows[k], cal)
  {
    DatevFileReadsBack(rows, h, cal);
    ThirdRowOn(Values(MarkedHeader(h, cal)), Values(ColumnTitles()), Map(rows, DataValues(cal)), k);
    RecordRecovers(rows[k], cal);
  }

  /**
   * The condition cannot be dropped: with a delimiter in the account, the line is the same as that of a record with
   * one more cell, so every later cell is read from the wrong column.
   */
  lemma DelimiterInAccountAddsACell(before: seq<string>, a: string, b: string, after: seq<string>)
    ensures Csv.RowText(before + [a + ";" + b] + after) == Csv.RowText(before + [a, b] + after)
    ensures forall st: Csv.State, rest: string :: CsvFields.AtCell(st) ==>
      !CsvFields.ReadsAs(st, a + ";" + b + (";" + rest), a + ";" + b)
  {
    SplitCell(before, a, b, after);
    assert (a + ";" + b)[|a|] == ';';
    forall st: Csv.State, rest: string | CsvFields.AtCell(st)
      ensures !CsvFields.ReadsAs(st, a + ";" + b + (";" + rest), a + ";" + b)
    {
      CsvFields.FieldReadsBackIff(st, a + ";" + b, rest);
    }
  }

  lemma {:induction false} SplitCell(before: seq<string>, a: string, b: string, after: seq<string>)
    ensures Csv.RowText(before + [a + ";" + b] + after) == Csv.RowText(before + [a, b] + after)
  {
    if before == [] {
      if after == [] {
        RowTextCons(a, [b]);
        assert [a] + [b] == [] + [a, b] + [] && [] + [a + ";" + b] + [] == [a + ";" + b];
      } else {
        RowTextCons(a + ";" + b, after);
        RowTextCons(b, after);
        RowTextCons(a, [b] + after);
        assert [] + [a, b] + after == [a] + ([b] + after) && [] + [a + ";" + b] + after == [a + ";" + b] + after;
        assert a + ";" + (b + ";" + Csv.RowText(after)) == a + ";" + b + ";" + Csv.RowText(after);
      }
    } else {
      var one, two := before[1..] + [a + ";" + b] + after, before[1..] + [a, b] + after;
      SplitCell(before[1..], a, b, after);
      RowTextCons(before[0], one);
      RowTextCons(before[0], two);
      assert before + [a + ";" + b] + after == [before[0]] + one;
      assert before + [a, b] + after == [before[0]] + two;
    }
  }

  lemma RowTextCons(first: string, rest: seq<string>)
    requires rest != []
    ensures Csv.RowText([first] + rest) == first + ";" + Csv.RowText(rest)
  {
    assert ([first] + rest)[1..] == rest;
  }

  // ----- header, titles and dates, cell by cell -----

  lemma StartCells(h: Header, cal: Calendar)
    ensures var start := HeaderStart(h, cal);
      Values([Raw(BOM + "EXTF")] + start[1..]) ==
        [BOM + "EXTF", "700", "21", "Buchungsstapel", "9", PadDate(cal, h.createdAt), ""]
  {
  }

  lemma PeriodCells(h: Header, cal: Calendar)
    ensures Values(HeaderPeriod(h, cal)) ==
      ["", "", "", h.advisorNumber, h.clientNumber, PadDate(cal, h.periodStart), PadDate(cal, h.periodEnd)]
  {
  }

  lemma EndCells(h: Header)
    ensures Values(HeaderEnd(h)) ==
      ["", "03", "", "", "", "", ""] + ["", "", "EUR", "", if h.description == "" then "Buchungsstapel" else h.description]
  {
    var first, second := [InQuotes(""), InQuotes("03"), Raw(""), Raw(""), Raw(""), Raw(""), Raw("")],
      [Raw(""), Raw(""), InQuotes("EUR"), Raw(""), Escaped(Description(h))];
    MapAppend(first, second, Value());
    assert Map(first, Value()) == ["", "03", "", "", "", "", ""];
    assert Map(second, Value()) == ["", "", "EUR", "", Description(h)];
  }

  /** The cells of the first record. */
  function HeaderRecord(h: Header, cal: Calendar): seq<string> {
    [BOM + "EXTF", "700", "21", "Buchungsstapel", "9", PadDate(cal, h.createdAt), ""] +
    ["", "", "", h.advisorNumber, h.clientNumber, PadDate(cal, h.periodStart), PadDate(cal, h.periodEnd)] +
    (["", "03", "", "", "", "", ""] + ["", "", "EUR", "", if h.description == "" then "Buchungsstapel" else h.description])
  }

  /** The cells of the second record. */
  function TitleRecord(): seq<string> {
    ["Umsatz (ohne Soll/Haben-Kz)", "Soll/Haben-Kennzeichen", "WKZ Umsatz", "Kurs", "Basis-Umsatz", "WKZ Basis-Umsatz"] +
    ["Konto", "Gegenkonto (ohne BU-Schl\U{00FC}ssel)", "BU-Schl\U{00FC}ssel", "Belegdatum"] +
    ["Belegfeld 1", "Belegfeld 2", "Skonto", "Buchungstext"]
  }

  lemma HeaderCells(h: Header, cal: Calendar)
    ensures Values(MarkedHeader(h, cal)) == HeaderRecord(h, cal)
  {
    var start, period, end := HeaderStart(h, cal), HeaderPeriod(h, cal), HeaderEnd(h);
    var marked := [Raw(BOM + "EXTF")] + start[1..];
    assert MarkedHeader(h, cal) == marked + period + end;
    MapAppend(marked + period, end, Value());
    MapAppend(marked, period, Value());
    StartCells(h, cal);
    PeriodCells(h, cal);
    EndCells(h);
  }

  lemma AmountTitleCells()
    ensures Values(AmountTitles()) ==
      ["Umsatz (ohne Soll/Haben-Kz)", "Soll/Haben-Kennzeichen", "WKZ Umsatz", "Kurs", "Basis-Umsatz", "WKZ Basis-Umsatz"]
  {
  }

  lemma AccountTitleCells()
    ensures Values(AccountTitles()) ==
      ["Konto", "Gegenkonto (ohne BU-Schl\U{00FC}ssel)", "BU-Schl\U{00FC}ssel", "Belegdatum"]
  {
  }

  lemma TextTitleCells()
    ensures Values(TextTitles()) == ["Belegfeld 1", "Belegfeld 2", "Skonto", "Buchungstext"]
  {
  }

  lemma TitleCells()
    ensures Values(ColumnTitles()) == TitleRecord()
  {
    MapAppend(AmountTitles() + AccountTitles(), TextTitles(), Value());
    MapAppend(AmountTitles(), AccountTitles(), Value());
    AmountTitleCells();
    AccountTitleCells();
    TextTitleCells();
  }

  /** The first two records of the file: every header field and every column title in its place. */
  lemma HeaderReadsBack(rows: seq<Row>, h: Header, cal: Calendar)
    requires forall r :: r in rows ==> PlainAccounts(r)
    ensures var table := Csv.Parse(BuildDatevExtf(rows, h, cal), ';');
      |table| >= 2 && table[0] == HeaderRecord(h, cal) && table[1] == TitleRecord()
  {
    DatevFileReadsBack(rows, h, cal);
    HeaderCells(h, cal);
    TitleCells();
    FirstTwo(Values(MarkedHeader(h, cal)), Values(ColumnTitles()), Map(rows, DataValues(cal)));
  }

  lemma FirstTwo<T>(a: T, b: T, rest: seq<T>)
    ensures |[a, b] + rest| >= 2 && ([a, b] + rest)[0] == a && ([a, b] + rest)[1] == b
  {
  }

  lemma TwoDigits(n: nat)
    requires n < 100
    ensures |Money.PadTwo(n)| == 2 && Money.AllDigits(Money.PadTwo(n)) && Money.DigitsValue(Money.PadTwo(n)) == n
  {
    Money.NatTextValue(n);
    if n < 10 {
      Money.DigitsValueSnoc("", 0);
      assert "" + [Money.DigitChar(0)] == "0";
      Money.DigitsValueSnoc("0", n);
      assert Money.PadTwo(n) == "0" + [Money.DigitChar(n)];
    } else {
      assert Money.NatText(n) == Money.NatText(n / 10) + [Money.DigitChar(n % 10)];
    }
  }

  /** A written date gives day, month and year back: two digits, two digits, the rest. */
  lemma DateReadsBack(cal: Calendar, d: int)
    requires cal.day(d) < 100 && cal.month(d) < 100
    ensures var text := PadDate(cal, d);
      && |text| > 4 && Money.AllDigits(text)
      && Money.DigitsValue(text[..2]) == cal.day(d) && Money.DigitsValue(text[2..4]) == cal.month(d)
      && Money.DigitsValue(text[4..]) == cal.year(d)
      && BelegdatumShort(cal, d) == text[..4]
  {
    TwoDigits(cal.day(d));
    TwoDigits(cal.month(d));
    Money.NatTextValue(cal.year(d));
    var day, month, year := Money.PadTwo(cal.day(d)), Money.PadTwo(cal.month(d)), Money.NatText(cal.year(d));
    assert PadDate(cal, d)[..2] == day && PadDate(cal, d)[2..4] == month && PadDate(cal, d)[4..] == year;
    assert BelegdatumShort(cal, d) == PadDate(cal, d)[..4];
  }
}
