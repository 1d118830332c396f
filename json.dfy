/**
 * `JSON.stringify` applied to a string (the QuoteJSONString operation of
 * section 25.5.2 of ECMAScript 2024), and the decoding a JSON parser applies
 * to such a literal. Dafny characters are Unicode scalar values, so the
 * escaping of lone UTF-16 surrogates does not arise.
 */
module Json {
  import opened Common

  /** The lowercase hexadecimal digit of `n`. */
  function HexDigit(n: nat): (c: char)
    requires n < 16
    ensures HexValue(c) == Some(n)
  {
    if n < 10 then (n + 48) as char else (n - 10 + 97) as char
  }

  /** The value of a hexadecimal digit of either case. */
  function HexValue(c: char): (v: Option<nat>)
    ensures v.Some? ==> v.value < 16
  {
    if '0' <= c <= '9' then Some(c as int - 48)
    else if 'a' <= c <= 'f' then Some(c as int - 87)
    else if 'A' <= c <= 'F' then Some(c as int - 55)
    else None
  }

  /** The escape QuoteJSONString writes for one character. */
  function EscapeChar(c: char): string {
    if c == '\U{8}' then "\\b"
    else if c == '\t' then "\\t"
    else if c == '\n' then "\\n"
    else if c == '\U{C}' then "\\f"
    else if c == '\r' then "\\r"
    else if c == '"' then "\\\""
    else if c == '\\' then "\\\\"
    else if c < ' ' then ['\\', 'u', '0', '0', HexDigit(c as int / 16), HexDigit(c as int % 16)]
    else [c]
  }

  function Escaped(s: string): string
    decreases |s|
  {
    if s == [] then [] else EscapeChar(s[0]) + Escaped(s[1..])
  }

  /** `JSON.stringify(s)` for a string `s`. */
  function Quote(s: string): (q: string)
    ensures |q| >= 2 && q[0] == '"' && q[|q| - 1] == '"'
  {
    "\"" + Escaped(s) + "\""
  }

  /** The value of four hexadecimal digits. */
  function Hex4(t: string): (v: Option<nat>)
    requires |t| == 4
    ensures v.Some? ==> v.value < 0x1_0000
  {
    match (HexValue(t[0]), HexValue(t[1]), HexValue(t[2]), HexValue(t[3]))
    case (Some(a), Some(b), Some(c), Some(d)) => Some(((a * 16 + b) * 16 + c) * 16 + d)
    case _ => None
  }

  /** The short escapes of JSON: the character after the backslash, and what it stands for. */
  function ShortEscape(c: char): Option<char> {
    if c == '"' then Some('"')
    else if c == '\\' then Some('\\')
    else if c == '/' then Some('/')
    else if c == 'b' then Some('\U{8}')
    else if c == 'f' then Some('\U{C}')
    else if c == 'n' then Some('\n')
    else if c == 'r' then Some('\r')
    else if c == 't' then Some('\t')
    else None
  }

  /**
   * Decodes the body of a JSON string literal; `None` where the literal is
   * malformed. A `\u` escape of a UTF-16 surrogate is refused, since the
   * model's strings hold scalar values only.
   */
  function Unescaped(t: string): Option<string>
    decreases |t|
  {
    if t == [] then Some([])
    else if t[0] == '\\' then
      if |t| < 2 then None
      else if t[1] == 'u' then
        if |t| < 6 then None
        else match Hex4(t[2..6])
          case Some(v) =>
            if v < 0xD800 || 0xE000 <= v then
              (match Unescaped(t[6..])
               case Some(rest) => Some([v as char] + rest)
               case None => None)
            else None
          case None => None
      else match ShortEscape(t[1])
        case Some(c) =>
          (match Unescaped(t[2..])
           case Some(rest) => Some([c] + rest)
           case None => None)
        case None => None
    else if t[0] == '"' || t[0] < ' ' then None
    else
      match Unescaped(t[1..])
      case Some(rest) => Some([t[0]] + rest)
      case None => None
  }

  /** `JSON.parse` of a string literal. */
  function Unquote(q: string): Option<string> {
    if |q| >= 2 && q[0] == '"' && q[|q| - 1] == '"' then Unescaped(q[1..|q| - 1]) else None
  }

  lemma {:induction false} HexPair(c: char)
    requires c < ' '
    ensures Hex4(['0', '0', HexDigit(c as int / 16), HexDigit(c as int % 16)]) == Some(c as int)
  {
    var t := ['0', '0', HexDigit(c as int / 16), HexDigit(c as int % 16)];
    assert HexValue(t[0]) == Some(0) && HexValue(t[1]) == Some(0);
  }

  /** Decoding undoes the escape of one character, whatever follows it. */
  lemma {:induction false} UnescapeCons(c: char, rest: string)
    ensures Unescaped(EscapeChar(c) + rest) ==
      match Unescaped(rest) case Some(r) => Some([c] + r) case None => None
  {
    var t := EscapeChar(c) + rest;
    if c == '\U{8}' || c == '\t' || c == '\n' || c == '\U{C}' || c == '\r' || c == '"' || c == '\\' {
      assert t[2..] == rest;
    } else if c < ' ' {
      HexPair(c);
      assert t[2..6] == ['0', '0', HexDigit(c as int / 16), HexDigit(c as int % 16)];
      assert t[6..] == rest;
    } else {
      assert t[1..] == rest;
    }
  }

  lemma {:induction false} UnescapeEscaped(s: string)
    ensures Unescaped(Escaped(s)) == Some(s)
    decreases |s|
  {
    if s != [] {
      UnescapeEscaped(s[1..]);
      UnescapeCons(s[0], Escaped(s[1..]));
      assert [s[0]] + s[1..] == s;
    }
  }

  /** Parsing what `JSON.stringify` wrote gives back the string. */
  lemma QuoteRoundTrip(s: string)
    ensures Unquote(Quote(s)) == Some(s)
  {
    var q := Quote(s);
    assert q[1..|q| - 1] == Escaped(s);
    UnescapeEscaped(s);
  }

  lemma {:induction false} EscapedHasNoNewline(s: string)
    ensures '\n' !in Escaped(s)
    decreases |s|
  {
    if s != [] {
      EscapedHasNoNewline(s[1..]);
      var e := EscapeChar(s[0]);
      assert '\n' !in e;
    }
  }

  /** A quoted string is a single line: every line break in the value is escaped. */
  lemma QuoteHasNoNewline(s: string)
    ensures '\n' !in Quote(s)
  {
    EscapedHasNoNewline(s);
  }
}
