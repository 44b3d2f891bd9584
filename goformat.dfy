/**
 * The two formatting verbs the handler's error messages use: `%q` on a string
 * (a double-quoted, escaped literal) and `%d` on an integer (decimal digits).
 * Each comes with its inverse, so that a message is shown to determine the
 * values it names.
 */
module GoFormat {
  import opened Wrappers
  import opened Text

  // ---------------------------------------------------------------------------
  // %q

  /** Lower-case hexadecimal digit, as in `\x1b`. */
  function HexDigit(d: nat): (c: char)
    requires d < 16
    ensures ('0' <= c <= '9') || ('a' <= c <= 'f')
  {
    if d < 10 then ('0' as int + d) as char else ('a' as int + d - 10) as char
  }

  function HexValue(c: char): Option<nat> {
    if '0' <= c <= '9' then Some(c as int - '0' as int)
    else if 'a' <= c <= 'f' then Some(c as int - 'a' as int + 10)
    else None
  }

  /** The character named by a one-letter escape `\e`, if `e` is one. */
  function SimpleEscape(e: char): Option<char> {
    if e == '"' || e == '\\' then Some(e)
    else if e == 'a' then Some(7 as char)
    else if e == 'b' then Some(8 as char)
    else if e == 'f' then Some(12 as char)
    else if e == 'n' then Some(10 as char)
    else if e == 'r' then Some(13 as char)
    else if e == 't' then Some(9 as char)
    else if e == 'v' then Some(11 as char)
    else None
  }

  /**
   * How one character appears inside a double-quoted literal: the quote and the
   * backslash are escaped, printable ASCII stands for itself, the seven C
   * control escapes are used where they exist, other ASCII controls become
   * `\xHH`, and non-ASCII characters stand for themselves.
   */
  function EscapeRune(c: char): (r: string)
    ensures 1 <= |r| <= 4
  {
    if c == '"' || c == '\\' then ['\\', c]
    else if ' ' <= c <= '~' then [c]
    else if c == 7 as char then "\\a"
    else if c == 8 as char then "\\b"
    else if c == 12 as char then "\\f"
    else if c == 10 as char then "\\n"
    else if c == 13 as char then "\\r"
    else if c == 9 as char then "\\t"
    else if c == 11 as char then "\\v"
    else if c < ' ' || c == 127 as char then
      ['\\', 'x', HexDigit(c as int / 16), HexDigit(c as int % 16)]
    else [c]
  }

  function Escape(s: string): string {
    if s == [] then [] else EscapeRune(s[0]) + Escape(s[1..])
  }

  /** `%q` applied to a string. */
  function Quote(s: string): (q: string)
    ensures |q| >= 2 && q[0] == '"' && q[|q| - 1] == '"'
  {
    ['"'] + Escape(s) + ['"']
  }

  /** Puts `c` in front of the text part of a reading. */
  function Prepend(c: char, o: Option<(string, string)>): Option<(string, string)> {
    match o
    case None => None
    case Some((s, rest)) => Some(([c] + s, rest))
  }

  /**
   * Reads the inside of a quoted literal up to its closing quote: the text the
   * escapes stand for, and what follows the closing quote. `None` when an
   * escape is malformed or the closing quote is missing.
   */
  function ReadQuoted(t: string): Option<(string, string)>
    decreases |t|
  {
    if t == [] then None
    else if t[0] == '"' then Some(([], t[1..]))
    else if t[0] != '\\' then Prepend(t[0], ReadQuoted(t[1..]))
    else if |t| >= 2 && SimpleEscape(t[1]).Some? then
      Prepend(SimpleEscape(t[1]).value, ReadQuoted(t[2..]))
    else if |t| >= 4 && t[1] == 'x' && HexValue(t[2]).Some? && HexValue(t[3]).Some? then
      Prepend((HexValue(t[2]).value * 16 + HexValue(t[3]).value) as char, ReadQuoted(t[4..]))
    else None
  }

  /** Reads back a whole quoted literal; nothing may follow the closing quote. */
  function Unquote(q: string): Option<string> {
    if |q| >= 1 && q[0] == '"' then
      match ReadQuoted(q[1..])
      case Some((s, rest)) => if rest == [] then Some(s) else None
      case None => None
    else None
  }

  lemma ReadPlain(c: char, t: string)
    requires c != '"' && c != '\\'
    ensures ReadQuoted([c] + t) == Prepend(c, ReadQuoted(t))
  {
    assert ([c] + t)[1..] == t;
  }

  lemma ReadSimple(e: char, t: string)
    requires SimpleEscape(e).Some?
    ensures ReadQuoted(['\\', e] + t) == Prepend(SimpleEscape(e).value, ReadQuoted(t))
  {
    assert (['\\', e] + t)[2..] == t;
  }

  lemma ReadHex(hi: nat, lo: nat, t: string)
    requires hi < 16 && lo < 16
    ensures ReadQuoted(['\\', 'x', HexDigit(hi), HexDigit(lo)] + t)
         == Prepend((hi * 16 + lo) as char, ReadQuoted(t))
  {
    assert HexValue(HexDigit(hi)) == Some(hi);
    assert HexValue(HexDigit(lo)) == Some(lo);
    assert (['\\', 'x', HexDigit(hi), HexDigit(lo)] + t)[4..] == t;
  }

  /** Reading one escaped character: the case analysis follows `EscapeRune`. */
  lemma ReadRune(c: char, t: string)
    ensures ReadQuoted(EscapeRune(c) + t) == Prepend(c, ReadQuoted(t))
  {
    if c == '"' || c == '\\' {
      ReadSimple(c, t);
    } else if ' ' <= c <= '~' {
      ReadPlain(c, t);
    } else if c == 7 as char {
      ReadSimple('a', t);
    } else if c == 8 as char {
      ReadSimple('b', t);
    } else if c == 12 as char {
      ReadSimple('f', t);
    } else if c == 10 as char {
      ReadSimple('n', t);
    } else if c == 13 as char {
      ReadSimple('r', t);
    } else if c == 9 as char {
      ReadSimple('t', t);
    } else if c == 11 as char {
      ReadSimple('v', t);
    } else if c < ' ' || c == 127 as char {
      ReadHex(c as int / 16, c as int % 16, t);
      assert (c as int / 16 * 16 + c as int % 16) as char == c;
    } else {
      ReadPlain(c, t);
    }
  }

  /** The escaped text stops at the first unescaped quote, whatever follows it. */
  lemma {:induction false} ReadEscaped(s: string, rest: string)
    ensures ReadQuoted(Escape(s) + ['"'] + rest) == Some((s, rest))
  {
    if s == [] {
      assert Escape(s) + ['"'] + rest == ['"'] + rest;
      assert (['"'] + rest)[1..] == rest;
    } else {
      assert Escape(s) + ['"'] + rest == EscapeRune(s[0]) + (Escape(s[1..]) + ['"'] + rest);
      ReadRune(s[0], Escape(s[1..]) + ['"'] + rest);
      ReadEscaped(s[1..], rest);
      assert [s[0]] + s[1..] == s;
    }
  }

  /** Reading a quoted literal back gives the string that was quoted. */
  lemma QuoteRoundTrip(s: string)
    ensures Unquote(Quote(s)) == Some(s)
  {
    var q := Quote(s);
    assert q[1..] == Escape(s) + ['"'] + [];
    ReadEscaped(s, []);
  }

  /** Different strings quote differently. */
  lemma QuoteInjective(a: string, b: string)
    ensures Quote(a) == Quote(b) ==> a == b
  {
    QuoteRoundTrip(a);
    QuoteRoundTrip(b);
  }

  // ---------------------------------------------------------------------------
  // %d

  predicate IsDigit(c: char) {
    '0' <= c <= '9'
  }

  function DigitChar(d: nat): (c: char)
    requires d < 10
    ensures IsDigit(c)
  {
    ('0' as int + d) as char
  }

  /** The decimal digits of `n`, most significant first, without leading zeros. */
  function NatString(n: nat): (r: string)
    ensures |r| >= 1
    ensures forall i :: 0 <= i < |r| ==> IsDigit(r[i])
    ensures |r| > 1 ==> r[0] != '0'
    decreases n
  {
    if n < 10 then [DigitChar(n)] else NatString(n / 10) + [DigitChar(n % 10)]
  }

  /** `%d` applied to an integer: a minus sign for negative values, then the digits. */
  function Decimal(n: int): (r: string)
    ensures |r| >= 1 && (r[0] == '-' <==> n < 0)
    ensures forall i :: (if n < 0 then 1 else 0) <= i < |r| ==> IsDigit(r[i])
  {
    if n < 0 then "-" + NatString(-n) else NatString(n)
  }

  function ParseNat(s: string): Option<nat>
    decreases |s|
  {
    if s == [] || !IsDigit(s[|s| - 1]) then None
    else
      var d := s[|s| - 1] as int - '0' as int;
      if |s| == 1 then Some(d)
      else match ParseNat(s[..|s| - 1])
        case None => None
        case Some(v) => Some(v * 10 + d)
  }

  function ParseDecimal(s: string): Option<int> {
    if |s| > 0 && s[0] == '-' then
      match ParseNat(s[1..])
      case None => None
      case Some(v) => Some(-(v as int))
    else match ParseNat(s)
      case None => None
      case Some(v) => Some(v as int)
  }

  lemma {:induction false} ParseNatString(n: nat)
    ensures ParseNat(NatString(n)) == Some(n)
    decreases n
  {
    if n >= 10 {
      ParseNatString(n / 10);
      var s := NatString(n);
      assert s[..|s| - 1] == NatString(n / 10);
    }
  }

  /** Reading the decimal text back gives the integer that was printed. */
  lemma DecimalRoundTrip(n: int)
    ensures ParseDecimal(Decimal(n)) == Some(n)
  {
    if n < 0 {
      ParseNatString(-n);
      assert Decimal(n)[1..] == NatString(-n);
    } else {
      ParseNatString(n);
    }
  }

  /** The decimal text ends at the first colon after it: both sides are determined. */
  lemma DecimalBeforeColon(n1: int, x1: string, n2: int, x2: string)
    requires Decimal(n1) + [':'] + x1 == Decimal(n2) + [':'] + x2
    ensures n1 == n2 && x1 == x2
  {
    assert ':' !in Decimal(n1) && ':' !in Decimal(n2);
    CutAtFirst(':', Decimal(n1), x1, Decimal(n2), x2);
    DecimalRoundTrip(n1);
    DecimalRoundTrip(n2);
  }
}
