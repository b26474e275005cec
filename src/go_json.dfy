/**
 * The string escaping of Go's `encoding/json` encoder (HTML escaping on, as
 * `json.Marshal` and `json.NewEncoder` leave it), over the bytes of a Go
 * string, and the decoding of a JSON string body back to bytes.
 */
module GoJson {
  import opened Wrappers
  import opened Strings

  const HexDigits: GoString := "0123456789abcdef"

  /** The value of a hexadecimal digit, either case. */
  function HexValue(h: char): (v: Option<nat>)
    ensures v.Some? ==> v.value < 16
  {
    if '0' <= h <= '9' then Some(h as nat - '0' as nat)
    else if 'a' <= h <= 'f' then Some(h as nat - 'a' as nat + 10)
    else if 'A' <= h <= 'F' then Some(h as nat - 'A' as nat + 10)
    else None
  }

  lemma HexDigitValue(d: nat)
    requires d < 16
    ensures HexValue(HexDigits[d]) == Some(d)
  {
  }

  /** `\u00XX` with lower-case hex digits, for a byte. */
  function UnicodeEscape(c: char): (e: GoString)
    requires c as int < 256
    ensures |e| == 6
  {
    "\\u00" + [HexDigits[c as int / 16], HexDigits[c as int % 16]]
  }

  /**
   * The escape of one byte: backslash and quote with a backslash; the five
   * short control escapes; every other byte below 0x20, and `<`, `>`, `&`,
   * as `\u00XX`; everything else as it is.
   */
  function EscapeByte(c: char): (e: GoString)
    ensures |e| >= 1
    ensures forall x :: x in e ==> x >= ' '
  {
    if c == '\\' then "\\\\"
    else if c == '"' then "\\\""
    else if c == '\U{8}' then "\\b"
    else if c == '\U{C}' then "\\f"
    else if c == '\n' then "\\n"
    else if c == '\r' then "\\r"
    else if c == '\t' then "\\t"
    else if c < ' ' || c == '<' || c == '>' || c == '&' then UnicodeEscape(c)
    else [c]
  }

  /** The body of the JSON string the encoder writes for `s`. */
  function Escape(s: GoString): (e: GoString)
    ensures |e| >= |s|
    decreases |s|
  {
    if s == [] then [] else EscapeByte(s[0]) + Escape(s[1..])
  }

  /** The escaped form holds no control byte, so no line break. */
  lemma {:induction false} EscapeHasNoControl(s: GoString)
    ensures forall x :: x in Escape(s) ==> x >= ' '
    decreases |s|
  {
    if s != [] {
      EscapeHasNoControl(s[1..]);
    }
  }

  /** A JSON string literal as the encoder writes it. */
  function Quote(s: GoString): GoString {
    "\"" + Escape(s) + "\""
  }

  function Prepend(c: char, rest: Option<GoString>): (r: Option<GoString>)
    ensures r.Some? <==> rest.Some?
  {
    if rest.None? then None else Some([c] + rest.value)
  }

  /** The byte a short escape `\x` stands for. */
  function ShortEscape(x: char): Option<char> {
    match x
    case '"' => Some('"')
    case '\\' => Some('\\')
    case '/' => Some('/')
    case 'b' => Some('\U{8}')
    case 'f' => Some('\U{C}')
    case 'n' => Some('\n')
    case 'r' => Some('\r')
    case 't' => Some('\t')
    case _ => None
  }

  /** The byte `\uXXXX` stands for, when its code is below 0x100. */
  function UnicodeByte(t: GoString): Option<char>
    requires |t| >= 6
  {
    var h := [HexValue(t[2]), HexValue(t[3]), HexValue(t[4]), HexValue(t[5])];
    if t[1] == 'u' && h[0] == Some(0) && h[1] == Some(0) && h[2].Some? && h[3].Some? then
      Some((h[2].value * 16 + h[3].value) as char)
    else None
  }

  /**
   * The bytes a JSON string body stands for: `None` for a raw quote or
   * control byte, an unknown escape, or a `\u` escape of a code point above
   * 0xFF (which in Go becomes several UTF-8 bytes).
   */
  function Unescape(t: GoString): (r: Option<GoString>)
    decreases |t|
  {
    if t == [] then Some([])
    else if t[0] == '\\' then
      if |t| >= 2 && ShortEscape(t[1]).Some? then Prepend(ShortEscape(t[1]).value, Unescape(t[2..]))
      else if |t| >= 6 && UnicodeByte(t).Some? then Prepend(UnicodeByte(t).value, Unescape(t[6..]))
      else None
    else if t[0] == '"' || t[0] < ' ' then None
    else Prepend(t[0], Unescape(t[1..]))
  }

  lemma ShortEscapeStep(c: char, x: char, rest: GoString)
    requires ShortEscape(x) == Some(c)
    ensures Unescape(['\\', x] + rest) == Prepend(c, Unescape(rest))
  {
    var t := ['\\', x] + rest;
    assert t[0] == '\\' && t[1] == x;
    assert t[2..] == rest;
  }

  lemma UnicodeEscapeStep(c: char, rest: GoString)
    requires c as int < 256
    ensures Unescape(UnicodeEscape(c) + rest) == Prepend(c, Unescape(rest))
  {
    var t := UnicodeEscape(c) + rest;
    HexDigitValue(c as int / 16);
    HexDigitValue(c as int % 16);
    assert t[..6] == UnicodeEscape(c);
    assert t[1] == 'u';
    assert UnicodeByte(t) == Some(c);
    assert ShortEscape(t[1]).None?;
    assert t[6..] == rest;
  }

  lemma LiteralStep(c: char, rest: GoString)
    requires c != '\\' && c != '"' && c >= ' '
    ensures Unescape([c] + rest) == Prepend(c, Unescape(rest))
  {
    assert ([c] + rest)[1..] == rest;
  }

  lemma UnescapeStep(c: char, rest: GoString)
    ensures Unescape(EscapeByte(c) + rest) == Prepend(c, Unescape(rest))
  {
    if c == '\\' {
      ShortEscapeStep(c, '\\', rest);
    } else if c == '"' {
      ShortEscapeStep(c, '"', rest);
    } else if c == '\U{8}' {
      ShortEscapeStep(c, 'b', rest);
    } else if c == '\U{C}' {
      ShortEscapeStep(c, 'f', rest);
    } else if c == '\n' {
      ShortEscapeStep(c, 'n', rest);
    } else if c == '\r' {
      ShortEscapeStep(c, 'r', rest);
    } else if c == '\t' {
      ShortEscapeStep(c, 't', rest);
    } else if c < ' ' || c == '<' || c == '>' || c == '&' {
      UnicodeEscapeStep(c, rest);
    } else {
      LiteralStep(c, rest);
    }
  }

  /** Decoding the escaped body gives back every byte. */
  lemma {:induction false} UnescapeEscape(s: GoString)
    ensures Unescape(Escape(s)) == Some(s)
    decreases |s|
  {
    if s != [] {
      UnescapeEscape(s[1..]);
      UnescapeStep(s[0], Escape(s[1..]));
      assert [s[0]] + s[1..] == s;
    }
  }
}
