/** Python's `int(text)` for a `str` argument in base 10. */
module PyNumbers {
  import opened Wrappers
  import opened Strings
  import opened Decimal

  /**
   * The white space `int()` ignores around the number. Among ASCII characters
   * only tab, line feed, vertical tab, form feed, carriage return and space
   * count (the separators U+001C to U+001F, white space to `str.isspace`, do
   * not); a non-ASCII white-space character becomes a space first, so every
   * other character `str.isspace` accepts counts as well.
   */
  predicate IsIntSpace(c: char) {
    || ('\t' <= c <= '\r')
    || c == ' ' || c == '\U{85}' || c == '\U{A0}' || c == '\U{1680}'
    || ('\U{2000}' <= c <= '\U{200A}')
    || c == '\U{2028}' || c == '\U{2029}' || c == '\U{202F}' || c == '\U{205F}' || c == '\U{3000}'
  }

  /** Largest number of digits `int()` converts (the interpreter's default limit). */
  const MaxStrDigits := 4300

  predicate DigitsOrUnderscores(s: string) {
    forall i :: 0 <= i < |s| ==> IsDigit(s[i]) || s[i] == '_'
  }

  /** Digits with single underscores allowed between two digits. */
  predicate IsDigitGroup(s: string) {
    && |s| > 0 && IsDigit(s[0]) && IsDigit(s[|s| - 1])
    && DigitsOrUnderscores(s)
    && forall i :: 0 <= i < |s| - 1 && s[i] == '_' ==> IsDigit(s[i + 1])
  }

  function RemoveUnderscores(s: string): (r: string)
    ensures DigitsOrUnderscores(s) ==> AllDigits(r)
    ensures '_' !in s ==> r == s
    decreases |s|
  {
    if s == [] then []
    else
      assert DigitsOrUnderscores(s) ==> DigitsOrUnderscores(s[1..]);
      if s[0] == '_' then RemoveUnderscores(s[1..])
      else [s[0]] + RemoveUnderscores(s[1..])
  }

  /** The text after an optional leading sign. */
  function AfterSign(t: string): string {
    if |t| > 0 && (t[0] == '+' || t[0] == '-') then t[1..] else t
  }

  /**
   * `int(s)`: surrounding white space is ignored, then an optional sign and a
   * group of digits (single underscores between digits allowed) of at most
   * `MaxStrDigits` digits. Anything else raises `ValueError` (`None` here).
   */
  function PyInt(s: string): (r: Option<int>)
    ensures r.Some? ==> Trim(s, IsIntSpace) != []
  {
    var t := Trim(s, IsIntSpace);
    var neg := |t| > 0 && t[0] == '-';
    var body := AfterSign(t);
    if !IsDigitGroup(body) then None
    else
      var digits := RemoveUnderscores(body);
      if |digits| > MaxStrDigits then None
      else Some(if neg then -(DigitsValue(digits) as int) else DigitsValue(digits))
  }

  /** `int()` reads back every integer from its decimal rendering (up to the digit limit). */
  lemma PyIntOfDecimal(x: int)
    requires |NatToString(if x < 0 then -x else x)| <= MaxStrDigits
    ensures PyInt(IntToString(x)) == Some(x)
  {
    var s := IntToString(x);
    var digits := NatToString(if x < 0 then -x else x);
    DecimalHasNoSpace(x);
    assert Trim(s, IsIntSpace) == s;
    assert AfterSign(s) == digits;
    assert IsDigitGroup(digits) by {
      forall k | 0 <= k < |digits| ensures IsDigit(digits[k]) {
      }
    }
    assert '_' !in digits by {
      forall k | 0 <= k < |digits| ensures digits[k] != '_' {
        assert IsDigit(digits[k]);
      }
    }
  }

  lemma DecimalHasNoSpace(x: int)
    ensures forall k :: 0 <= k < |IntToString(x)| ==> !IsIntSpace(IntToString(x)[k])
  {
    var s := IntToString(x);
    var digits := NatToString(if x < 0 then -x else x);
    forall k | 0 <= k < |s| ensures !IsIntSpace(s[k]) {
      if x < 0 && k == 0 {
        assert s[k] == '-';
      } else {
        assert s[k] == digits[if x < 0 then k - 1 else k];
        assert IsDigit(s[k]);
      }
    }
  }

  /**
   * `int()` raises on text holding a character that is neither white space,
   * a sign, an underscore nor a digit.
   */
  lemma PyIntRejects(s: string, i: nat)
    requires i < |s|
    requires !IsIntSpace(s[i]) && !IsDigit(s[i]) && s[i] != '+' && s[i] != '-' && s[i] != '_'
    ensures PyInt(s) == None
  {
    var t := Trim(s, IsIntSpace);
    var j := TrimKeeps(s, IsIntSpace, i);
    var body := AfterSign(t);
    var m := if body == t then j else j - 1;
    assert 0 <= m < |body| && body[m] == s[i] by {
      if body != t {
        assert j != 0;
      }
    }
    assert !DigitsOrUnderscores(body);
  }

  /** The file separator U+001C is not ignored: `int("\x1c1")` raises. */
  lemma FileSeparatorRejected()
    ensures PyInt("\U{1C}1") == None
  {
    PyIntRejects("\U{1C}1", 0);
  }

  /** A non-space character survives trimming; `j` is its position in the result. */
  lemma TrimKeeps<T>(s: seq<T>, space: T -> bool, i: nat) returns (j: nat)
    requires i < |s| && !space(s[i])
    ensures j < |Trim(s, space)| && Trim(s, space)[j] == s[i]
  {
    var a := LeadingCount(s, space);
    j := i - a;
  }
}
