/**
 * Python's `repr()` of a string, which `str()` of a list, tuple or dict uses
 * for every string inside it. The text is put in single quotes unless it
 * holds a single quote and no double quote, in which case double quotes are
 * used; the chosen quote and the backslash are escaped with a backslash, tab,
 * newline and carriage return become `\t`, `\n` and `\r`, and the other
 * characters Python does not print become `\xhh`.
 */
module PyStringRepr {
  import opened Wrappers
  import Digits

  predicate IsQuote(q: char) {
    q == '\'' || q == '"'
  }

  /** The quote `repr` puts around `s`. */
  function QuoteFor(s: string): (q: char)
    ensures IsQuote(q)
    ensures q == '"' <==> '\'' in s && '"' !in s
  {
    if '\'' in s && '"' !in s then '"' else '\''
  }

  /**
   * The characters below U+0100 that Python does not print and writes as
   * `\xhh`: the C0 controls other than tab, newline and carriage return,
   * DEL, the C1 controls, the no-break space and the soft hyphen.
   */
  predicate HexEscaped(c: char) {
    var n := c as int;
    (n < 0x20 && c != '\t' && c != '\n' && c != '\r') || (0x7f <= n <= 0xa0) || n == 0xad
  }

  /** How one character of the text is written between the quotes `q`. */
  function EscapeChar(c: char, q: char): (e: string)
    ensures 1 <= |e| <= 4
    ensures |e| == 1 <==> e == [c]
  {
    if c == q || c == '\\' then ['\\', c]
    else if c == '\t' then "\\t"
    else if c == '\n' then "\\n"
    else if c == '\r' then "\\r"
    else if HexEscaped(c) then "\\x" + HexByte(c as int)
    else [c]
  }

  function Escape(s: string, q: char): (e: string)
    ensures |e| >= |s|
  {
    if s == [] then [] else EscapeChar(s[0], q) + Escape(s[1..], q)
  }

  /** Python's `repr(s)` for a string `s`. */
  function StringRepr(s: string): (r: string)
    ensures |r| >= |s| + 2
    ensures r[0] == r[|r| - 1] == QuoteFor(s)
  {
    var q := QuoteFor(s);
    [q] + Escape(s, q) + [q]
  }

  /** The character an escape sequence at the head of `t` stands for, and the length of the sequence. */
  function DecodeEscape(t: string): (r: Option<(char, nat)>)
    requires |t| >= 1 && t[0] == '\\'
    ensures r.Some? ==> 2 <= r.value.1 <= |t|
  {
    if |t| < 2 then None
    else if t[1] == '\\' || IsQuote(t[1]) then Some((t[1], 2))
    else if t[1] == 't' then Some(('\t', 2))
    else if t[1] == 'n' then Some(('\n', 2))
    else if t[1] == 'r' then Some(('\r', 2))
    else if t[1] == 'x' && |t| >= 4 && Digits.DigitValue(t[2]) < 16 && Digits.DigitValue(t[3]) < 16 then
      Some(((Digits.DigitValue(t[2]) * 16 + Digits.DigitValue(t[3])) as char, 4))
    else None
  }

  /**
   * Reads the body of a string literal quoted with `q` back to its text; a
   * bare quote or an unknown escape is not a literal body.
   */
  function Unescape(t: string, q: char): Option<string>
    decreases |t|
  {
    if t == [] then Some([])
    else if t[0] == '\\' then
      match DecodeEscape(t)
      case None => None
      case Some((c, n)) =>
        match Unescape(t[n..], q)
        case None => None
        case Some(rest) => Some([c] + rest)
    else if t[0] == q then None
    else
      match Unescape(t[1..], q)
      case None => None
      case Some(rest) => Some([t[0]] + rest)
  }

  /** Reads a quoted string literal, as Python's parser reads what `repr` wrote. */
  function ParseRepr(r: string): Option<string> {
    if |r| >= 2 && IsQuote(r[0]) && r[|r| - 1] == r[0] then Unescape(r[1..|r| - 1], r[0])
    else None
  }

  /** Prepends `c` to a successful read. */
  function Cons(c: char, u: Option<string>): Option<string> {
    match u
    case None => None
    case Some(rest) => Some([c] + rest)
  }

  /** The two lowercase hexadecimal digits of a code below 256, as `%02x` writes them. */
  function HexByte(n: nat): (h: string)
    requires n < 256
    ensures |h| == 2 && Digits.DigitValue(h[0]) == n / 16 && Digits.DigitValue(h[1]) == n % 16
  {
    Digits.DigitRoundTrip(n / 16);
    Digits.DigitRoundTrip(n % 16);
    [Digits.DigitChar(n / 16), Digits.DigitChar(n % 16)]
  }

  /** Each written character reads back as itself, whatever follows it. */
  lemma EscapeCharDecodes(c: char, q: char, rest: string)
    requires IsQuote(q)
    ensures Unescape(EscapeChar(c, q) + rest, q) == Cons(c, Unescape(rest, q))
  {
    var t := EscapeChar(c, q) + rest;
    if c == q || c == '\\' || c == '\t' || c == '\n' || c == '\r' {
      ShortEscapeDecodes(c, q, rest);
    } else if HexEscaped(c) {
      HexEscapeDecodes(c, q, rest);
    } else {
      assert t[1..] == rest;
      UnescapeStep(t, q);
    }
  }

  /** A backslash pair reads back as the quote, backslash or control character it was written for. */
  lemma ShortEscapeDecodes(c: char, q: char, rest: string)
    requires IsQuote(q)
    requires c == q || c == '\\' || c == '\t' || c == '\n' || c == '\r'
    ensures Unescape(EscapeChar(c, q) + rest, q) == Cons(c, Unescape(rest, q))
  {
    var t := EscapeChar(c, q) + rest;
    assert |EscapeChar(c, q)| == 2;
    assert t[2..] == rest;
    assert DecodeEscape(t) == Some((c, 2));
    UnescapeStep(t, q);
  }

  /** A `\xhh` escape reads back as the character it was written for. */
  lemma HexEscapeDecodes(c: char, q: char, rest: string)
    requires IsQuote(q)
    requires c != q && c != '\\' && c != '\t' && c != '\n' && c != '\r' && HexEscaped(c)
    ensures Unescape(EscapeChar(c, q) + rest, q) == Cons(c, Unescape(rest, q))
  {
    assert EscapeChar(c, q) == "\\x" + HexByte(c as int);
    HexDecodes(c as int, q, rest);
  }

  /** `\x` and two hexadecimal digits read back as the character of that code. */
  lemma HexDecodes(n: nat, q: char, rest: string)
    requires n < 256
    ensures Unescape("\\x" + HexByte(n) + rest, q) == Cons(n as char, Unescape(rest, q))
  {
    var h := HexByte(n);
    var t := "\\x" + h + rest;
    assert t[0] == '\\' && t[1] == 'x' && t[2] == h[0] && t[3] == h[1] && t[4..] == rest;
    assert Digits.DigitValue(h[0]) * 16 + Digits.DigitValue(h[1]) == n by {
      Digits.DivMod(n, 16);
    }
    assert DecodeEscape(t) == Some((n as char, 4));
    UnescapeStep(t, q);
  }

  /** One step of reading: an escape sequence or a single character other than the quote. */
  lemma UnescapeStep(t: string, q: char)
    requires |t| >= 1
    ensures t[0] == '\\' && DecodeEscape(t).Some? ==>
              Unescape(t, q) == Cons(DecodeEscape(t).value.0, Unescape(t[DecodeEscape(t).value.1..], q))
    ensures t[0] != '\\' && t[0] != q ==> Unescape(t, q) == Cons(t[0], Unescape(t[1..], q))
  {
  }

  lemma {:induction false} EscapeRoundTrip(s: string, q: char)
    requires IsQuote(q)
    ensures Unescape(Escape(s, q), q) == Some(s)
    decreases |s|
  {
    if s != [] {
      EscapeRoundTrip(s[1..], q);
      EscapeCharDecodes(s[0], q, Escape(s[1..], q));
      assert [s[0]] + s[1..] == s;
    }
  }

  /** Reading back what `repr` wrote gives the string: nothing is lost by the quoting. */
  lemma StringReprRoundTrip(s: string)
    ensures ParseRepr(StringRepr(s)) == Some(s)
  {
    var q := QuoteFor(s);
    var r := StringRepr(s);
    assert r[1..|r| - 1] == Escape(s, q);
    EscapeRoundTrip(s, q);
  }

  /** Distinct strings have distinct reprs. */
  lemma StringReprInjective(a: string, b: string)
    ensures StringRepr(a) == StringRepr(b) <==> a == b
  {
    if StringRepr(a) == StringRepr(b) {
      StringReprRoundTrip(a);
      StringReprRoundTrip(b);
    }
  }

  /** A printable ASCII character other than the backslash and the quote `q`. */
  predicate PlainAscii(c: char, q: char) {
    ' ' <= c <= '~' && c != '\\' && c != q
  }

  lemma {:induction false} EscapePlain(s: string, q: char)
    requires forall i :: 0 <= i < |s| ==> PlainAscii(s[i], q)
    ensures Escape(s, q) == s
    decreases |s|
  {
    if s != [] {
      EscapePlain(s[1..], q);
      assert [s[0]] + s[1..] == s;
    }
  }

  /**
   * Printable ASCII text with no backslash is written as it is between the
   * quotes: single quotes when it has no single quote, double quotes when it
   * has one and no double quote.
   */
  lemma PlainStringRepr(s: string)
    requires forall i :: 0 <= i < |s| ==> ' ' <= s[i] <= '~' && s[i] != '\\'
    ensures '\'' !in s ==> StringRepr(s) == "'" + s + "'"
    ensures '\'' in s && '"' !in s ==> StringRepr(s) == "\"" + s + "\""
  {
    var q := QuoteFor(s);
    if '\'' !in s || '"' !in s {
      assert forall i :: 0 <= i < |s| ==> PlainAscii(s[i], q);
      EscapePlain(s, q);
    }
  }

  /** Escaping works character by character, so it distributes over concatenation. */
  lemma {:induction false} EscapeConcat(a: string, b: string, q: char)
    ensures Escape(a + b, q) == Escape(a, q) + Escape(b, q)
    decreases |a|
  {
    if a != [] {
      assert (a + b)[1..] == a[1..] + b;
      EscapeConcat(a[1..], b, q);
    } else {
      assert a + b == b;
    }
  }

  /** A newline anywhere in the text is written as the two characters backslash and `n`. */
  lemma NewlineEscaped(a: string, b: string, q: char)
    requires IsQuote(q)
    ensures Escape(a + "\n" + b, q) == Escape(a, q) + "\\n" + Escape(b, q)
  {
    EscapeConcat(a + "\n", b, q);
    EscapeConcat(a, "\n", q);
    assert Escape("\n", q) == "\\n";
  }

  /** A newline in a string is shown escaped in its repr, between the quotes `repr` chooses. */
  lemma NewlineRepr(a: string, b: string)
    ensures var q := QuoteFor(a + "\n" + b);
            StringRepr(a + "\n" + b) == [q] + Escape(a, q) + "\\n" + Escape(b, q) + [q]
  {
    var s := a + "\n" + b;
    var q := QuoteFor(s);
    var ea, eb := Escape(a, q), Escape(b, q);
    assert StringRepr(s) == [q] + Escape(s, q) + [q];
    assert Escape(s, q) == ea + "\\n" + eb by {
      NewlineEscaped(a, b, q);
    }
    assert [q] + (ea + "\\n" + eb) + [q] == [q] + ea + "\\n" + eb + [q];
  }
}
