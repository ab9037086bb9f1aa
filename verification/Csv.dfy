/** The cell writer csvEscape and the character automaton parseCsv. */
module Csv {
  import opened Folds
  import opened Text

  type Table = seq<seq<string>>

  // ----- writing -----

  predicate Special(ch: char) {
    ch == ';' || ch == '"' || ch == '\n' || ch == '\r'
  }

  predicate Plain(s: string) {
    forall i :: 0 <= i < |s| ==> !Special(s[i])
  }

  function DoubleQuotes(s: string): string {
    if s == [] then [] else (if s[0] == '"' then "\"\"" else [s[0]]) + DoubleQuotes(s[1..])
  }

  function Quote(s: string): string {
    "\"" + DoubleQuotes(s) + "\""
  }

  function CsvEscape(value: string): string {
    if Plain(value) then value else Quote(value)
  }

  function RowText(cells: seq<string>): string {
    Join(cells, ";")
  }

  function FileText(lines: seq<string>, finalNewline: bool): string {
    Join(lines, "\n") + if finalNewline then "\n" else ""
  }

  // ----- reading: a fold over the characters -----

  /** QuoteSeen: a quote inside a quoted cell, which closes the cell unless another quote follows. */
  datatype Mode = Outside | Quoted | QuoteSeen

  datatype State = State(mode: Mode, cell: string, row: seq<string>, rows: Table)

  function Start(): State {
    State(Outside, "", [], [])
  }

  function PushCell(st: State): State {
    st.(cell := "", row := st.row + [st.cell])
  }

  function PushRow(st: State): State {
    if st.row == [""] && st.rows == [] then st.(row := [])
    else st.(rows := st.rows + [st.row], row := [])
  }

  function StepOutside(st: State, ch: char, delim: char): State {
    if ch == '"' then st.(mode := Quoted)
    else if ch == delim then PushCell(st)
    else if ch == '\n' then PushRow(PushCell(st))
    else if ch == '\r' then st
    else st.(cell := st.cell + [ch])
  }

  function Step(st: State, ch: char, delim: char): State {
    match st.mode
    case Quoted => if ch == '"' then st.(mode := QuoteSeen) else st.(cell := st.cell + [ch])
    case QuoteSeen =>
      if ch == '"' then st.(mode := Quoted, cell := st.cell + ['"'])
      else StepOutside(st.(mode := Outside), ch, delim)
    case Outside => StepOutside(st, ch, delim)
  }

  function Run(st: State, text: string, delim: char): State
    decreases |text|
  {
    if text == [] then st else Run(Step(st, text[0], delim), text[1..], delim)
  }

  function HasText(row: seq<string>): bool {
    exists c :: c in row && !IsBlank(c)
  }

  function NonBlank(rows: Table): Table {
    Filter(rows, HasText)
  }

  function LastRow(st: State): State {
    if st.cell != "" || st.row != [] then PushRow(PushCell(st)) else st
  }

  function Parse(content: string, delim: char): Table {
    NonBlank(LastRow(Run(Start(), content, delim)).rows)
  }

  // ----- the loop with one character of lookahead computes the fold -----

  lemma {:induction false} RunAppend(st: State, a: string, b: string, delim: char)
    ensures Run(st, a + b, delim) == Run(Run(st, a, delim), b, delim)
    decreases |a|
  {
    if a == [] {
      assert a + b == b;
    } else {
      assert (a + b)[1..] == a[1..] + b;
      RunAppend(Step(st, a[0], delim), a[1..], b, delim);
    }
  }

  lemma RunOne(st: State, ch: char, delim: char)
    ensures Run(st, [ch], delim) == Step(st, ch, delim)
  {
    assert [ch][1..] == [];
  }

  lemma RunNext(st: State, text: string, i: nat, delim: char)
    requires i < |text|
    ensures Run(st, text[..i + 1], delim) == Step(Run(st, text[..i], delim), text[i], delim)
  {
    assert text[..i + 1] == text[..i] + [text[i]];
    RunAppend(st, text[..i], [text[i]], delim);
    RunOne(Run(st, text[..i], delim), text[i], delim);
  }

  /** The loop's variables after i characters, in the fold's terms. */
  ghost predicate InStep(content: string, i: nat, delim: char, inQuotes: bool, cell: string, row: seq<string>, rows: Table)
    requires i <= |content|
  {
    var st := Run(Start(), content[..i], delim);
    && st.cell == cell && st.row == row && st.rows == rows
    && (inQuotes <==> st.mode == Quoted)
    && (st.mode == QuoteSeen ==> i == |content| || content[i] != '"')
  }

  /** The filter at the end of the loop, in its own terms. */
  predicate SomeTextAfterTrim(row: seq<string>) {
    exists c :: c in row && Trim(c) != ""
  }

  /** Trimming leaves nothing of exactly the blank cells, so the filter drops exactly the blank rows. */
  lemma {:induction false} TrimmedFilter(rows: Table)
    ensures Filter(rows, SomeTextAfterTrim) == NonBlank(rows)
  {
    if rows != [] {
      TrimmedFilter(rows[1..]);
      forall c | c in rows[0] ensures Trim(c) != "" <==> !IsBlank(c) {
        TrimBlank(c);
      }
    }
  }

  method ParseCsv(content: string, delim: char) returns (table: Table)
    requires delim in {';', ',', '\t'}
    ensures table == Parse(content, delim)
  {
    var rows: Table := [];
    var row: seq<string> := [];
    var cell := "";
    var inQuotes := false;
    var i := 0;
    while i < |content|
      invariant 0 <= i <= |content|
      invariant InStep(content, i, delim, inQuotes, cell, row, rows)
    {
      var ch := content[i];
      RunNext(Start(), content, i, delim);
      if inQuotes {
        if ch == '"' && i + 1 < |content| && content[i + 1] == '"' {
          RunNext(Start(), content, i + 1, delim);
          cell := cell + ['"'];
          i := i + 1;
        } else if ch == '"' {
          inQuotes := false;
        } else {
          cell := cell + [ch];
        }
      } else if ch == '"' {
        inQuotes := true;
      } else if ch == delim {
        row := row + [cell];
        cell := "";
      } else if ch == '\n' {
        row := row + [cell];
        cell := "";
        if !(row == [""] && rows == []) {
          rows := rows + [row];
        }
        row := [];
      } else if ch != '\r' {
        cell := cell + [ch];
      }
      i := i + 1;
    }
    assert content[..|content|] == content;
    if cell != "" || row != [] {
      row := row + [cell];
      if !(row == [""] && rows == []) {
        rows := rows + [row];
      }
    }
    table := Filter(rows, SomeTextAfterTrim);
    TrimmedFilter(rows);
  }

  // ----- round trip -----

  /** Two ways to write a cell that both read back as `value`. */
  predicate Encodes(text: string, value: string) {
    (text == value && Plain(value)) || text == Quote(value)
  }

  predicate EncodesRow(texts: seq<string>, values: seq<string>) {
    |texts| == |values| && forall j :: 0 <= j < |values| ==> Encodes(texts[j], values[j])
  }

  predicate EncodesTable(texts: Table, values: Table) {
    |texts| == |values| && forall k :: 0 <= k < |values| ==> EncodesRow(texts[k], values[k])
  }

  lemma {:induction false} RunPlain(st: State, value: string)
    requires st.mode == Outside && Plain(value)
    ensures Run(st, value, ';') == st.(cell := st.cell + value)
    decreases |value|
  {
    if value != [] {
      RunPlain(Step(st, value[0], ';'), value[1..]);
      assert st.cell + [value[0]] + value[1..] == st.cell + value;
    } else {
      assert st.cell + value == st.cell;
    }
  }

  lemma {:induction false} RunInsideQuotes(st: State, value: string)
    requires st.mode == Quoted
    ensures Run(st, DoubleQuotes(value), ';') == st.(cell := st.cell + value)
    decreases |value|
  {
    if value == [] {
      assert st.cell + value == st.cell;
    } else {
      var first := if value[0] == '"' then "\"\"" else [value[0]];
      var after := st.(cell := st.cell + [value[0]]);
      RunAppend(st, first, DoubleQuotes(value[1..]), ';');
      if value[0] == '"' {
        RunAppend(st, "\"", "\"", ';');
        RunOne(st, '"', ';');
        RunOne(st.(mode := QuoteSeen), '"', ';');
        assert first == "\"" + "\"";
      } else {
        RunOne(st, value[0], ';');
      }
      RunInsideQuotes(after, value[1..]);
      assert after.cell + value[1..] == st.cell + value;
    }
  }

  /** Reading one written cell puts its value into the cell buffer. */
  lemma RunCell(st: State, text: string, value: string) returns (mode: Mode)
    requires st.mode == Outside && st.cell == "" && Encodes(text, value)
    ensures mode != Quoted && Run(st, text, ';') == st.(mode := mode, cell := value)
  {
    if text == value && Plain(value) {
      RunPlain(st, value);
      assert "" + value == value;
      mode := Outside;
    } else {
      var body := DoubleQuotes(value);
      var open := st.(mode := Quoted);
      RunAppend(st, "\"", body + "\"", ';');
      RunAppend(open, body, "\"", ';');
      RunOne(st, '"', ';');
      RunInsideQuotes(open, value);
      RunOne(open.(cell := value), '"', ';');
      assert text == "\"" + (body + "\"");
      assert "" + value == value;
      mode := QuoteSeen;
    }
  }

  /** Reading one written row leaves its last cell in the buffer and the others in the row. */
  lemma {:induction false} RunRow(st: State, texts: seq<string>, values: seq<string>) returns (mode: Mode)
    requires st.mode == Outside && st.cell == "" && values != [] && EncodesRow(texts, values)
    ensures mode != Quoted
    ensures var last := |values| - 1;
      Run(st, RowText(texts), ';') == st.(mode := mode, cell := values[last], row := st.row + values[..last])
    decreases |values|
  {
    mode := RunCell(st, texts[0], values[0]);
    if |values| == 1 {
      assert st.row + values[..0] == st.row;
    } else {
      var filled := st.(mode := mode, cell := values[0]);
      var next := st.(row := st.row + [values[0]]);
      var rest := RowText(texts[1..]);
      RunAppend(st, texts[0], ";" + rest, ';');
      RunAppend(filled, ";", rest, ';');
      RunOne(filled, ';', ';');
      assert texts[0] + ";" + rest == texts[0] + (";" + rest);
      mode := RunRow(next, texts[1..], values[1..]);
      var last := |values| - 1;
      assert next.row + values[1..][..last - 1] == st.row + values[..last];
    }
  }

  lemma NonBlankAppend(a: Table, row: seq<string>)
    ensures NonBlank(a + [row]) == NonBlank(a) + NonBlank([row])
    ensures NonBlank([row]) == if HasText(row) then [row] else []
  {
    FilterAppend(a, [row], HasText);
    assert [row][1..] == [];
  }

  /** Ending a row adds it to the table, up to blank rows. */
  lemma EndRow(st: State, row: seq<string>)
    requires st.row + [st.cell] == row
    ensures var done := PushRow(PushCell(st));
      done == st.(cell := "", row := [], rows := done.rows) && NonBlank(done.rows) == NonBlank(st.rows) + NonBlank([row])
  {
    NonBlankAppend(st.rows, row);
    if row == [""] && st.rows == [] {
      assert !HasText(row);
    }
  }

  /** A row with no cells at all is written like a row with one empty cell; both are blank. */
  lemma AtLeastOneCell(texts: seq<string>, values: seq<string>) returns (texts': seq<string>, values': seq<string>)
    requires EncodesRow(texts, values)
    ensures EncodesRow(texts', values') && values' != []
    ensures RowText(texts') == RowText(texts) && NonBlank([values']) == NonBlank([values])
  {
    if values == [] {
      texts', values' := [""], [""];
      NonBlankAppend([], [""]);
      NonBlankAppend([], values);
      assert !HasText([""]);
    } else {
      texts', values' := texts, values;
    }
  }

  lemma SplitLast(row: seq<string>, values: seq<string>)
    requires values != []
    ensures row + values[..|values| - 1] + [values[|values| - 1]] == row + values
  {
  }

  predicate AtRowStart(st: State) {
    st.mode == Outside && st.cell == "" && st.row == []
  }

  /** A whole line: ended by a newline or by the end of the file, it adds its row. */
  lemma RunLine(st: State, texts: seq<string>, values: seq<string>)
    requires AtRowStart(st) && EncodesRow(texts, values)
    ensures var next := Run(st, RowText(texts) + "\n", ';');
      AtRowStart(next) && NonBlank(next.rows) == NonBlank(st.rows) + NonBlank([values])
    ensures NonBlank(LastRow(Run(st, RowText(texts), ';')).rows) == NonBlank(st.rows) + NonBlank([values])
  {
    var cells, row := AtLeastOneCell(texts, values);
    var line := RowText(texts);
    var mode := RunRow(st, cells, row);
    var filled := Run(st, line, ';');
    SplitLast([], row);
    assert filled.row + [filled.cell] == row;
    EndRow(filled, row);
    EndRow(filled.(mode := Outside), row);
    RunAppend(st, line, "\n", ';');
    RunOne(filled, '\n', ';');
    if filled.cell == "" && filled.row == [] {
      assert row == [""];
      NonBlankAppend([], row);
      assert !HasText(row);
      assert NonBlank(st.rows) + [] == NonBlank(st.rows);
    }
  }

  lemma RunEmptyFile(st: State, finalNewline: bool)
    requires AtRowStart(st)
    ensures NonBlank(LastRow(Run(st, FileText([], finalNewline), ';')).rows) == NonBlank(st.rows)
  {
    if finalNewline {
      RunLine(st, [""], [""]);
      assert RowText([""]) + "\n" == FileText([], finalNewline);
      NonBlankAppend([], [""]);
      assert !HasText([""]);
      assert NonBlank(st.rows) + [] == NonBlank(st.rows);
    }
  }

  lemma FileTextCons(line: string, lines: seq<string>, finalNewline: bool)
    ensures lines != [] || finalNewline ==>
      FileText([line] + lines, finalNewline) == line + "\n" + (if lines == [] then "" else FileText(lines, finalNewline))
    ensures FileText([line], false) == line
  {
    assert ([line] + lines)[1..] == lines;
    if lines == [] {
      assert [line] + lines == [line];
    }
  }

  /** What the reader makes of the rest of the file, from a state at the start of a row. */
  function Rest(st: State, lines: seq<string>, finalNewline: bool): Table {
    NonBlank(LastRow(Run(st, FileText(lines, finalNewline), ';')).rows)
  }

  lemma RunLastLine(st: State, texts: seq<string>, values: seq<string>, finalNewline: bool)
    requires AtRowStart(st) && EncodesRow(texts, values)
    ensures Rest(st, [RowText(texts)], finalNewline) == NonBlank(st.rows) + NonBlank([values])
  {
    RunLine(st, texts, values);
    FileTextCons(RowText(texts), [], finalNewline);
    assert [RowText(texts)] + [] == [RowText(texts)];
    assert RowText(texts) + "\n" + "" == RowText(texts) + "\n";
  }

  lemma RunFirstLine(st: State, line: string, lines: seq<string>, finalNewline: bool)
    requires lines != []
    ensures Rest(st, [line] + lines, finalNewline) == Rest(Run(st, line + "\n", ';'), lines, finalNewline)
  {
    FileTextCons(line, lines, finalNewline);
    RunAppend(st, line + "\n", FileText(lines, finalNewline), ';');
  }

  lemma {:induction false} RunTable(st: State, texts: Table, values: Table, finalNewline: bool)
    requires AtRowStart(st) && EncodesTable(texts, values)
    ensures Rest(st, Map(texts, RowText), finalNewline) == NonBlank(st.rows) + NonBlank(values)
    decreases |values|
  {
    if values == [] {
      RunEmptyFile(st, finalNewline);
      assert NonBlank(st.rows) + NonBlank(values) == NonBlank(st.rows);
    } else if |values| == 1 {
      RunLastLine(st, texts[0], values[0], finalNewline);
      assert Map(texts, RowText) == [RowText(texts[0])];
      assert values == [values[0]];
    } else {
      var later := values[1..];
      RunFirstLine(st, RowText(texts[0]), Map(texts[1..], RowText), finalNewline);
      RunLine(st, texts[0], values[0]);
      RunTable(Run(st, RowText(texts[0]) + "\n", ';'), texts[1..], later, finalNewline);
      AddFirst(NonBlank(st.rows), values);
    }
  }

  lemma AddFirst(before: Table, values: Table)
    requires values != []
    ensures before + NonBlank(values) == before + NonBlank([values[0]]) + NonBlank(values[1..])
  {
    FilterAppend([values[0]], values[1..], HasText);
    assert values == [values[0]] + values[1..];
  }

  /** Whatever mixture of plain and quoted cells a table is written with, it reads back without its blank rows. */
  lemma WrittenTableReadsBack(texts: Table, values: Table, finalNewline: bool)
    requires EncodesTable(texts, values)
    ensures Parse(FileText(Map(texts, RowText), finalNewline), ';') == NonBlank(values)
  {
    RunTable(Start(), texts, values, finalNewline);
    assert NonBlank(Start().rows) == [];
    assert [] + NonBlank(values) == NonBlank(values);
  }

  function EscapeRow(row: seq<string>): seq<string> {
    Map(row, CsvEscape)
  }

  function WriteTable(table: Table, finalNewline: bool): string {
    FileText(Map(Map(table, EscapeRow), RowText), finalNewline)
  }

  /**
   * Round trip for arbitrary cell contents (quotes, delimiters, CR, LF), with or without a final newline: the table
   * comes back without its blank rows.
   */
  lemma CsvRoundTrip(table: Table, finalNewline: bool)
    ensures Parse(WriteTable(table, finalNewline), ';') == NonBlank(table)
  {
    var texts := Map(table, EscapeRow);
    forall k | 0 <= k < |table| ensures EncodesRow(texts[k], table[k]) {
      assert texts[k] == Map(table[k], CsvEscape);
    }
    WrittenTableReadsBack(texts, table, finalNewline);
  }
}
