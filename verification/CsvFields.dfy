/** Which fields of a record read back when they are written without csvEscape. */
module CsvFields {
  import opened Csv

  /** The rows of the whole text, read on from a state, before blank rows are dropped. */
  function AllRows(st: State, text: string): Table {
    LastRow(Run(st, text, ';')).rows
  }

  /** The row that is being read cannot be dropped as an empty row at the start of the file. */
  predicate Counts(st: State) {
    st.rows != [] || st.row != []
  }

  /** Whatever follows, finished rows and the finished cells of the present row stay. */
  lemma {:induction false} RowsGrow(st: State, text: string)
    requires Counts(st)
    ensures st.rows <= AllRows(st, text)
    ensures st.row != [] ==> |AllRows(st, text)| > |st.rows| && st.row <= AllRows(st, text)[|st.rows|]
    decreases |text|
  {
    if text != [] {
      RowsGrow(Step(st, text[0], ';'), text[1..]);
    }
  }

  /** In the end, the cell that is being read has some value v. */
  predicate ReadsAs(st: State, text: string, v: string) {
    var rows := AllRows(st, text);
    |rows| > |st.rows| && |rows[|st.rows|]| > |st.row| && rows[|st.rows|][|st.row|] == v
  }

  predicate ReadsOtherwise(st: State, text: string, v: string) {
    var rows := AllRows(st, text);
    |rows| > |st.rows| && |rows[|st.rows|]| > |st.row| && rows[|st.rows|][|st.row|] != v
  }

  /** A delimiter or a newline outside quotes finishes the cell. */
  lemma FinishedCell(st: State, ch: char, text: string)
    requires Counts(st) && st.mode != Quoted && (ch == ';' || ch == '\n')
    ensures ReadsAs(st, [ch] + text, st.cell)
  {
    assert ([ch] + text)[1..] == text;
    RowsGrow(Step(st, ch, ';'), text);
  }

  lemma NextChar(st: State, ch: char, text: string)
    ensures AllRows(st, [ch] + text) == AllRows(Step(st, ch, ';'), text)
  {
    assert ([ch] + text)[1..] == text;
  }

  /** A cell that has left the path to f never becomes f. */
  lemma {:induction false} NeverAgain(st: State, text: string, f: string)
    requires Counts(st) && !(st.cell <= f)
    ensures ReadsOtherwise(st, text, f)
    decreases |text|
  {
    if text == [] {
      assert st.cell != "";
    } else {
      var ch, next := text[0], Step(st, text[0], ';');
      assert text == [ch] + text[1..];
      if st.mode != Quoted && (ch == ';' || ch == '\n') {
        FinishedCell(st, ch, text[1..]);
      } else {
        assert next.row == st.row && next.rows == st.rows && st.cell <= next.cell;
        NextChar(st, ch, text[1..]);
        NeverAgain(next, text[1..], f);
      }
    }
  }

  predicate QuoteOrReturn(ch: char) {
    ch == '"' || ch == '\r'
  }

  /**
   * On the path to f after k of its characters: the cell is a prefix of f. From its first special character, at a, on,
   * f has shown quotes and carriage returns only, and the cell is behind.
   */
  predicate OnPath(st: State, f: string, a: nat, k: nat) {
    && a <= k <= |f| && a < |f| && Special(f[a])
    && a <= |st.cell| && st.cell <= f
    && (k == a ==> st.mode == Outside && |st.cell| == a)
    && (k > a ==> |st.cell| < k)
    && forall x :: a <= x < k ==> QuoteOrReturn(f[x])
  }

  /** The next character of f finishes the cell too early, leaves the path, or leads on along it. */
  lemma OneStep(st: State, f: string, a: nat, k: nat)
    requires OnPath(st, f, a, k) && k < |f|
    ensures var next := Step(st, f[k], ';');
      || (st.mode != Quoted && (f[k] == ';' || f[k] == '\n') && |st.cell| < |f|)
      || (next.row == st.row && next.rows == st.rows && (!(next.cell <= f) || OnPath(next, f, a, k + 1)))
  {
    if k > a {
      assert QuoteOrReturn(f[|st.cell|]);
    }
  }

  /** The delimiter after f finishes a cell that is too short, or spoils it. */
  lemma AfterField(st: State, f: string, a: nat)
    requires OnPath(st, f, a, |f|)
    ensures |st.cell| < |f|
    ensures st.mode == Quoted ==> var next := Step(st, ';', ';'); next.row == st.row && next.rows == st.rows && !(next.cell <= f)
  {
    assert QuoteOrReturn(f[|st.cell|]);
  }

  lemma {:induction false} SpoiledField(st: State, f: string, a: nat, k: nat, rest: string)
    requires Counts(st) && OnPath(st, f, a, k)
    ensures ReadsOtherwise(st, f[k..] + (";" + rest), f)
    decreases |f| - k
  {
    if k == |f| {
      AfterField(st, f, a);
      assert f[k..] + (";" + rest) == [';'] + rest;
      if st.mode == Quoted {
        NextChar(st, ';', rest);
        NeverAgain(Step(st, ';', ';'), rest, f);
      } else {
        FinishedCell(st, ';', rest);
      }
    } else {
      var tail, next := f[k + 1..] + (";" + rest), Step(st, f[k], ';');
      assert f[k..] + (";" + rest) == [f[k]] + tail;
      OneStep(st, f, a, k);
      if st.mode != Quoted && (f[k] == ';' || f[k] == '\n') {
        FinishedCell(st, f[k], tail);
      } else {
        NextChar(st, f[k], tail);
        if next.cell <= f {
          SpoiledField(next, f, a, k + 1, rest);
        } else {
          NeverAgain(next, tail, f);
        }
      }
    }
  }

  lemma {:induction false} FirstSpecial(f: string, from: nat) returns (a: nat)
    requires from <= |f| && !Plain(f) && Plain(f[..from])
    ensures a < |f| && Special(f[a]) && Plain(f[..a])
    decreases |f| - from
  {
    assert f[..|f|] == f;
    if Special(f[from]) {
      a := from;
    } else {
      assert f[..from + 1] == f[..from] + [f[from]];
      a := FirstSpecial(f, from + 1);
    }
  }

  lemma ReadOn(st: State, a: string, b: string)
    ensures AllRows(st, a + b) == AllRows(Run(st, a, ';'), b)
  {
    RunAppend(st, a, b, ';');
  }

  predicate AtCell(st: State) {
    st.mode == Outside && st.cell == "" && Counts(st)
  }

  /**
   * A field written without escaping, anywhere but in the first cell of the file and before a delimiter, reads back as
   * itself if and only if it has no delimiter, quote, CR or LF; what follows in the file can never repair it.
   */
  lemma FieldReadsBackIff(st: State, f: string, rest: string)
    requires AtCell(st)
    ensures ReadsAs(st, f + (";" + rest), f) <==> Plain(f)
    ensures !Plain(f) ==> ReadsOtherwise(st, f + (";" + rest), f)
  {
    if Plain(f) {
      RunPlain(st, f);
      assert "" + f == f;
      ReadOn(st, f, ";" + rest);
      assert ";" + rest == [';'] + rest;
      FinishedCell(st.(cell := f), ';', rest);
    } else {
      var a := FirstSpecial(f, 0);
      RunPlain(st, f[..a]);
      assert "" + f[..a] == f[..a];
      var there := st.(cell := f[..a]);
      ReadOn(st, f[..a], f[a..] + (";" + rest));
      assert f + (";" + rest) == f[..a] + (f[a..] + (";" + rest));
      SpoiledField(there, f, a, a, rest);
    }
  }
}
