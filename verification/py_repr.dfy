/** Python's `repr` of the values that appear in a domain error:
    integers, booleans, strings and lists of strings. */
module PyRepr {

  function DecimalDigit(d: nat): char
    requires d < 10
  {
    "0123456789"[d]
  }

  predicate IsDigit(c: char) {
    '0' <= c <= '9'
  }

  /** `str(n)` for a natural number: decimal digits, no leading zero. */
  function NatToDecimal(n: nat): (r: string)
    ensures |r| > 0
    ensures forall i | 0 <= i < |r| :: IsDigit(r[i])
    ensures |r| == 1 || r[0] != '0'
    decreases n
  {
    if n < 10 then [DecimalDigit(n)] else NatToDecimal(n / 10) + [DecimalDigit(n % 10)]
  }

  /** The number a string of decimal digits denotes. */
  function DecimalValue(s: string): nat
    requires forall i | 0 <= i < |s| :: IsDigit(s[i])
  {
    if |s| == 0 then 0
    else
      assert IsDigit(s[|s| - 1]);
      DecimalValue(s[..|s| - 1]) * 10 + (s[|s| - 1] as int - '0' as int)
  }

  /** Printing a natural number in decimal loses nothing. */
  lemma {:induction false} DecimalRoundTrip(n: nat)
    ensures DecimalValue(NatToDecimal(n)) == n
    decreases n
  {
    if n >= 10 {
      DecimalRoundTrip(n / 10);
      var s := NatToDecimal(n);
      assert s[..|s| - 1] == NatToDecimal(n / 10);
    }
  }

  /** `repr(i)` for an int. */
  function IntRepr(i: int): string {
    if i < 0 then "-" + NatToDecimal(-i) else NatToDecimal(i)
  }

  /** `repr(b)` for a bool. */
  function BoolRepr(b: bool): string {
    if b then "True" else "False"
  }

  function HexDigit(d: nat): char
    requires d < 16
  {
    "0123456789abcdef"[d]
  }

  /** The quote Python's `repr` puts around a string: a double quote only
      when the string holds a single quote and no double quote. */
  function QuoteFor(s: string): char {
    if '\'' in s && '"' !in s then '"' else '\''
  }

  /** How `repr` writes one character inside quote `q`. */
  function EscapeChar(c: char, q: char): string {
    if c == q || c == '\\' then ['\\', c]
    else if c == '\t' then "\\t"
    else if c == '\n' then "\\n"
    else if c == '\r' then "\\r"
    else if c < ' ' || c == '\U{7f}' then ['\\', 'x', HexDigit(c as int / 16), HexDigit(c as int % 16)]
    else [c]
  }

  function Escape(s: string, q: char): string {
    if |s| == 0 then "" else Escape(s[..|s| - 1], q) + EscapeChar(s[|s| - 1], q)
  }

  /** `repr(s)` for a string. */
  function StrRepr(s: string): string {
    var q := QuoteFor(s);
    [q] + Escape(s, q) + [q]
  }

  /** A character `repr` copies unchanged inside single quotes. */
  predicate IsPlain(c: char) {
    c != '\'' && c != '\\' && ' ' <= c && c != '\U{7f}'
  }

  /** A string of plain characters is printed as itself between single quotes. */
  lemma {:induction false} PlainStrRepr(s: string)
    requires forall i | 0 <= i < |s| :: IsPlain(s[i])
    ensures StrRepr(s) == "'" + s + "'"
  {
    assert QuoteFor(s) == '\'';
    PlainEscape(s);
  }

  lemma {:induction false} PlainEscape(s: string)
    requires forall i | 0 <= i < |s| :: IsPlain(s[i])
    ensures Escape(s, '\'') == s
  {
    if |s| > 0 {
      PlainEscape(s[..|s| - 1]);
      assert s == s[..|s| - 1] + [s[|s| - 1]];
    }
  }

  /** `", ".join(parts)`. */
  function CommaJoin(parts: seq<string>): string {
    if |parts| == 0 then ""
    else if |parts| == 1 then parts[0]
    else parts[0] + ", " + CommaJoin(parts[1..])
  }

  /** `repr(xs)` for a list of strings. */
  function StrListRepr(xs: seq<string>): string {
    "[" + CommaJoin(seq(|xs|, i requires 0 <= i < |xs| => StrRepr(xs[i]))) + "]"
  }
}
