/** Python's `repr` of a string, which the source uses (`{tag!r}`) to quote an
    unknown tag in its warning.  Python picks single quotes unless the text
    holds a single quote and no double quote, and escapes the backslash, the
    chosen quote, tab, newline, carriage return and the other ASCII control
    characters (as `\xhh`). */
module PyText {

  function HexDigit(n: nat): (c: char)
    requires n < 16
    ensures c in "0123456789abcdef"
  {
    "0123456789abcdef"[n]
  }

  /** The quote character `repr` surrounds the text with. */
  function QuoteFor(s: string): (q: char)
    ensures q == '\'' || q == '"'
    ensures q == '"' <==> ('\'' in s && '"' !in s)
  {
    if '\'' in s && '"' !in s then '"' else '\''
  }

  /** How `repr` writes one character inside quotes `q`. */
  function EscapeChar(c: char, q: char): (r: string)
    ensures |r| >= 1
    ensures r == [c] <==> c != q && c != '\\' && 32 <= c as int && c as int != 127
  {
    if c == q || c == '\\' then ['\\', c]
    else if c == '\t' then "\\t"
    else if c == '\n' then "\\n"
    else if c == '\r' then "\\r"
    else if c as int < 32 || c as int == 127 then
      ['\\', 'x', HexDigit(c as int / 16), HexDigit(c as int % 16)]
    else [c]
  }

  function Escape(s: string, q: char): string
  {
    if s == [] then "" else EscapeChar(s[0], q) + Escape(s[1..], q)
  }

  function PyRepr(s: string): (r: string)
    ensures |r| >= 2 && r[0] == r[|r| - 1] == QuoteFor(s)
  {
    var q := QuoteFor(s);
    [q] + Escape(s, q) + [q]
  }

  /** A character `repr` copies unchanged under single quotes. */
  predicate Plain(c: char)
  {
    c != '\'' && c != '"' && c != '\\' && 32 <= c as int && c as int != 127
  }

  /** Text made of plain characters (every XML name is) is quoted verbatim
      between single quotes. */
  lemma PlainRepr(s: string)
    requires forall i :: 0 <= i < |s| ==> Plain(s[i])
    ensures PyRepr(s) == "'" + s + "'"
  {
    EscapePlain(s, '\'');
  }

  lemma {:induction false} EscapePlain(s: string, q: char)
    requires q == '\''
    requires forall i :: 0 <= i < |s| ==> Plain(s[i])
    ensures Escape(s, q) == s
  {
    if s != [] {
      assert Plain(s[0]);
      EscapePlain(s[1..], q);
      assert [s[0]] + s[1..] == s;
    }
  }
}
