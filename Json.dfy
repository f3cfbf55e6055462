/**
 * JSON string literals as `JSON.stringify` writes them (the QuoteJSONString
 * operation of ECMA-262, which follows section 7 of RFC 8259), and a decoder
 * for them that serves as their inverse.
 */
module Json {
  import opened Wrappers

  /** The lower-case hexadecimal digit of `n`. */
  function HexDigit(n: int): (c: char)
    requires 0 <= n < 16
    ensures HexValue(c) == Some(n)
  {
    if n < 10 then ('0' as int + n) as char else ('a' as int + n - 10) as char
  }

  /** The value of a hexadecimal digit, either case, or None for any other character. */
  function HexValue(c: char): (r: Option<int>)
    ensures r.Some? ==> 0 <= r.value < 16
  {
    if '0' <= c <= '9' then Some(c as int - '0' as int)
    else if 'a' <= c <= 'f' then Some(c as int - 'a' as int + 10)
    else if 'A' <= c <= 'F' then Some(c as int - 'A' as int + 10)
    else None
  }

  /** A character that may stand unescaped in a JSON string: anything but a quote, a backslash or a control character. */
  predicate IsPlain(c: char)
  {
    c != '"' && c != '\\' && c as int >= 0x20
  }

  /**
   * One character as QuoteJSONString writes it: the two-character escapes
   * for quote, backslash, backspace, tab, line feed, form feed and carriage
   * return; `\u00xx` with lower-case hex for the other control characters;
   * the character itself otherwise.
   */
  function EscapeChar(c: char): (r: string)
    ensures 1 <= |r| <= 6
    ensures forall k :: 0 <= k < |r| ==> r[k] as int >= 0x20
    ensures r[0] == '\\' || (r == [c] && IsPlain(c))
  {
    var n := c as int;
    if c == '"' then ['\\', '"']
    else if c == '\\' then ['\\', '\\']
    else if n == 0x08 then ['\\', 'b']
    else if n == 0x09 then ['\\', 't']
    else if n == 0x0A then ['\\', 'n']
    else if n == 0x0C then ['\\', 'f']
    else if n == 0x0D then ['\\', 'r']
    else if n < 0x20 then ['\\', 'u', '0', '0', HexDigit(n / 16), HexDigit(n % 16)]
    else [c]
  }

  /** The body of a JSON string literal for `s`: never holds a control character, so never a line break. */
  function Escape(s: string): (r: string)
    ensures forall k :: 0 <= k < |r| ==> r[k] as int >= 0x20
    ensures |s| <= |r| <= 6 * |s|
  {
    if |s| == 0 then "" else EscapeChar(s[0]) + Escape(s[1..])
  }

  /** `JSON.stringify(s)` for a string `s`. */
  function Quote(s: string): (r: string)
    ensures |r| >= 2 && r[0] == '"' && r[|r| - 1] == '"'
    ensures forall k :: 0 <= k < |r| ==> r[k] as int >= 0x20
  {
    ['"'] + Escape(s) + ['"']
  }

  /** The value of four hexadecimal digits. */
  function Hex4(s: string): (r: Option<int>)
    requires |s| == 4
    ensures r.Some? ==> 0 <= r.value < 0x10000
  {
    match (HexValue(s[0]), HexValue(s[1]), HexValue(s[2]), HexValue(s[3]))
    case (Some(a), Some(b), Some(c), Some(d)) => Some(((a * 16 + b) * 16 + c) * 16 + d)
    case _ => None
  }

  /** The character a two-character escape `\\x` stands for. */
  function ShortEscape(x: char): Option<char>
  {
    if x == '"' || x == '\\' || x == '/' then Some(x)
    else if x == 'b' then Some(0x08 as char)
    else if x == 't' then Some(0x09 as char)
    else if x == 'n' then Some(0x0A as char)
    else if x == 'f' then Some(0x0C as char)
    else if x == 'r' then Some(0x0D as char)
    else None
  }

  /**
   * Reads one character of a JSON string body (plain or escaped) from the
   * front of `s`; None for a malformed escape, a raw control character, or
   * a `\u` escape of a surrogate code unit (not a character on its own).
   */
  function ParseChar(s: string): (r: Option<(char, string)>)
    ensures r.Some? ==> |r.value.1| < |s|
  {
    if |s| == 0 then None
    else if s[0] != '\\' then
      if s[0] as int < 0x20 then None else Some((s[0], s[1..]))
    else if |s| < 2 then None
    else if s[1] == 'u' then
      if |s| < 6 then None
      else match Hex4(s[2..6])
        case None => None
        case Some(v) => if 0xD800 <= v < 0xE000 then None else Some((v as char, s[6..]))
    else match ShortEscape(s[1])
      case None => None
      case Some(c) => Some((c, s[2..]))
  }

  /**
   * Reads a JSON string body up to and including its closing quote; gives
   * the decoded text and what follows the quote.
   */
  function ParseString(s: string): (r: Option<(string, string)>)
    ensures r.Some? ==> |r.value.1| < |s|
  {
    if |s| == 0 then None
    else if s[0] == '"' then Some(("", s[1..]))
    else match ParseChar(s)
      case None => None
      case Some((c, t)) =>
        match ParseString(t)
        case None => None
        case Some((v, u)) => Some(([c] + v, u))
  }

  /** Every escaped character reads back as itself. */
  lemma ParseEscapedChar(c: char, t: string)
    ensures ParseChar(EscapeChar(c) + t) == Some((c, t))
  {
    var e := EscapeChar(c);
    var s := e + t;
    var n := c as int;
    if e[0] != '\\' {
      assert s[1..] == t;
    } else if |e| == 2 {
      assert s[2..] == t;
      if n == 0x08 { assert 0x08 as char == c; }
      else if n == 0x09 { assert 0x09 as char == c; }
      else if n == 0x0A { assert 0x0A as char == c; }
      else if n == 0x0C { assert 0x0C as char == c; }
      else if n == 0x0D { assert 0x0D as char == c; }
    } else {
      assert n < 0x20;
      assert s[2..6] == ['0', '0', HexDigit(n / 16), HexDigit(n % 16)];
      assert Hex4(s[2..6]) == Some(n);
      assert s[6..] == t;
    }
  }

  /** Decoding inverts escaping: the body of `Quote(v)` reads back as `v`, and what follows is left untouched. */
  lemma {:induction false} ParseEscaped(v: string, t: string)
    ensures ParseString(Escape(v) + ['"'] + t) == Some((v, t))
  {
    if |v| == 0 {
      assert Escape(v) + ['"'] + t == ['"'] + t;
      assert (['"'] + t)[1..] == t;
    } else {
      var e := EscapeChar(v[0]);
      var rest := Escape(v[1..]) + ['"'] + t;
      assert Escape(v) + ['"'] + t == e + rest by {
        assert Escape(v) == e + Escape(v[1..]);
      }
      assert (e + rest)[0] == e[0] != '"';
      assert ParseChar(e + rest) == Some((v[0], rest)) by {
        ParseEscapedChar(v[0], rest);
      }
      assert ParseString(rest) == Some((v[1..], t)) by {
        ParseEscaped(v[1..], t);
      }
      assert [v[0]] + v[1..] == v;
    }
  }
}
