/** The JavaScript string operations that the parsers and printers rely on. */
module Text {
  /** What String.prototype.trim and the regular expression \s treat as white space. */
  predicate IsSpace(ch: char) {
    ch in {'\t', '\n', '\U{000B}', '\U{000C}', '\r', ' ', '\U{00A0}', '\U{1680}', '\U{2028}', '\U{2029}',
           '\U{202F}', '\U{205F}', '\U{3000}', '\U{FEFF}'}
    || '\U{2000}' <= ch <= '\U{200A}'
  }

  predicate IsBlank(s: string) {
    forall i :: 0 <= i < |s| ==> IsSpace(s[i])
  }

  function TrimStart(s: string): string {
    if s != [] && IsSpace(s[0]) then TrimStart(s[1..]) else s
  }

  function TrimEnd(s: string): string {
    if s != [] && IsSpace(s[|s| - 1]) then TrimEnd(s[..|s| - 1]) else s
  }

  function Trim(s: string): string {
    TrimEnd(TrimStart(s))
  }

  lemma {:induction false} TrimEndBlank(s: string)
    ensures TrimEnd(s) == "" <==> IsBlank(s)
  {
    if s != [] && IsSpace(s[|s| - 1]) {
      TrimEndBlank(s[..|s| - 1]);
      assert forall i :: 0 <= i < |s| - 1 ==> s[..|s| - 1][i] == s[i];
    }
  }

  /** A cell is blank exactly when trimming leaves nothing. */
  lemma {:induction false} TrimBlank(s: string)
    ensures Trim(s) == "" <==> IsBlank(s)
  {
    if s != [] && IsSpace(s[0]) {
      TrimBlank(s[1..]);
      assert forall i :: 0 < i < |s| ==> s[i] == s[1..][i - 1];
    } else {
      TrimEndBlank(s);
    }
  }

  function Join(parts: seq<string>, separator: string): string {
    if parts == [] then ""
    else if |parts| == 1 then parts[0]
    else parts[0] + separator + Join(parts[1..], separator)
  }

  /** a || b for strings, where the empty string counts as not set. */
  function FirstSet(a: string, b: string): string {
    if a != "" then a else b
  }

  /** slice(0, 60). */
  function FirstSixty(text: string): string {
    if |text| <= 60 then text else text[..60]
  }
}
