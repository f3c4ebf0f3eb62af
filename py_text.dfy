/**
 * Python's text conversions of JSON values, as the server relies on them:
 * `str(n)` of an integer (the tool results), `str.upper()` (the uppercase
 * tool), and `str()`/`repr()` of decoded values (f-strings in the error
 * messages and in the debug prints, `str(result)` of a list result).
 *
 * Case mapping is ASCII-only, and non-ASCII characters above U+00A0 are
 * treated as printable by `repr`.
 */
module PyText {
  import opened JsonValues

  predicate IsDigit(c: char) {
    '0' <= c <= '9'
  }

  function DigitChar(d: nat): (c: char)
    requires d < 10
    ensures IsDigit(c) && c as int - '0' as int == d
  {
    ('0' as int + d) as char
  }

  /** The decimal digits of `n`, most significant first, without leading zeros. */
  function Digits(n: nat): (s: string)
    ensures |s| >= 1
    ensures forall k :: 0 <= k < |s| ==> IsDigit(s[k])
    ensures s[0] == '0' <==> n == 0
    ensures n == 0 ==> s == "0"
    decreases n
  {
    if n < 10 then [DigitChar(n)] else Digits(n / 10) + [DigitChar(n % 10)]
  }

  /** `str(n)` for a Python int: an optional minus sign followed by the digits of |n|. */
  function DecimalString(n: int): (s: string)
    ensures |s| >= 1 && (s[0] == '-' <==> n < 0)
    ensures forall k :: 0 <= k < |s| ==> IsDigit(s[k]) || (k == 0 && n < 0)
  {
    if n < 0 then "-" + Digits(-n) else Digits(n)
  }

  predicate AllDigits(s: string) {
    forall k :: 0 <= k < |s| ==> IsDigit(s[k])
  }

  /** Digits with no leading zero: "0", or a run of digits starting with 1-9. */
  predicate IsCanonicalDigits(s: string) {
    |s| >= 1 && AllDigits(s) && (s[0] == '0' ==> s == "0")
  }

  /** The form `str(n)` gives: canonical digits, optionally after a '-' (never "-0"). */
  predicate IsDecimal(s: string) {
    || IsCanonicalDigits(s)
    || (|s| >= 2 && s[0] == '-' && IsCanonicalDigits(s[1..]) && s[1..] != "0")
  }

  /** The value of a string of decimal digits. */
  function DigitsValue(s: string): nat
    requires AllDigits(s)
  {
    if s == [] then 0
    else
      assert IsDigit(s[|s| - 1]);
      DigitsValue(s[..|s| - 1]) * 10 + (s[|s| - 1] as int - '0' as int)
  }

  /** `int(s)` for a string in canonical decimal form. */
  function DecimalValue(s: string): int
    requires IsDecimal(s)
  {
    if IsCanonicalDigits(s) then DigitsValue(s) else -(DigitsValue(s[1..]) as int)
  }

  lemma {:induction false} DigitsValueOfDigits(n: nat)
    ensures DigitsValue(Digits(n)) == n
    decreases n
  {
    if n >= 10 {
      var s := Digits(n);
      assert s[..|s| - 1] == Digits(n / 10);
      DigitsValueOfDigits(n / 10);
    }
  }

  /** `int(str(n)) == n`: the text of a numeric tool result reads back as the number. */
  lemma DecimalRoundTrip(n: int)
    ensures IsDecimal(DecimalString(n))
    ensures DecimalValue(DecimalString(n)) == n
  {
    var s := DecimalString(n);
    if n < 0 {
      assert s[1..] == Digits(-n);
      DigitsValueOfDigits(-n);
    } else {
      DigitsValueOfDigits(n);
    }
  }

  /** Two integers with the same decimal text are equal. */
  lemma DecimalStringInjective(m: int, n: int)
    requires DecimalString(m) == DecimalString(n)
    ensures m == n
  {
    DecimalRoundTrip(m);
    DecimalRoundTrip(n);
  }

  predicate IsAsciiLower(c: char) {
    'a' <= c <= 'z'
  }

  function UpperChar(c: char): char {
    if IsAsciiLower(c) then (c as int - 32) as char else c
  }

  /** `s.upper()`, restricted to the ASCII letters a-z. */
  function Upper(s: string): (r: string)
    ensures |r| == |s|
    ensures forall k :: 0 <= k < |r| ==> !IsAsciiLower(r[k])
    ensures forall k :: 0 <= k < |s| ==> (r[k] == s[k] <==> !IsAsciiLower(s[k]))
    ensures forall k :: 0 <= k < |s| && IsAsciiLower(s[k]) ==> r[k] as int == s[k] as int - 32
  {
    if s == [] then [] else [UpperChar(s[0])] + Upper(s[1..])
  }

  /** Upper-casing twice is upper-casing once. */
  lemma UpperIdempotent(s: string)
    ensures Upper(Upper(s)) == Upper(s)
  {
    var u := Upper(s);
    assert forall k :: 0 <= k < |u| ==> Upper(u)[k] == u[k];
  }

  function HexDigit(d: nat): char
    requires d < 16
  {
    "0123456789abcdef"[d]
  }

  /** Characters that `repr` writes as a `\xhh` escape: C0 controls, DEL, C1 controls, NBSP, soft hyphen. */
  predicate IsHexEscaped(c: char) {
    c as int < 0x20 || (0x7f <= c as int <= 0xa0) || c as int == 0xad
  }

  /** How `repr` writes one character of a string delimited by `quote`. */
  function EscapeChar(c: char, quote: char): (r: string)
    requires quote == '\'' || quote == '"'
    ensures '\n' !in r
  {
    if c == quote || c == '\\' then ['\\', c]
    else if c == '\t' then "\\t"
    else if c == '\n' then "\\n"
    else if c == '\r' then "\\r"
    else if IsHexEscaped(c) then ['\\', 'x', HexDigit(c as int / 16), HexDigit(c as int % 16)]
    else [c]
  }

  function EscapeAll(s: string, quote: char): (r: string)
    requires quote == '\'' || quote == '"'
    ensures '\n' !in r
  {
    if s == [] then [] else EscapeChar(s[0], quote) + EscapeAll(s[1..], quote)
  }

  /** `repr` of a string: single quotes, unless the text holds a single quote and no double quote. */
  function QuoteFor(s: string): char {
    if '\'' in s && '"' !in s then '"' else '\''
  }

  /** `repr(s)`: the text between the quotes reads back as `s`. */
  function StrRepr(s: string): (r: string)
    ensures |r| >= 2 && r[0] == r[|r| - 1] == QuoteFor(s)
    ensures '\n' !in r
    ensures Unescape(r[1..|r| - 1]) == s
  {
    var q := QuoteFor(s);
    EscapeAllReadsBack(s, q);
    var r := [q] + EscapeAll(s, q) + [q];
    assert r[1..|r| - 1] == EscapeAll(s, q);
    r
  }

  /** The value of a lower-case hex digit. */
  function HexValue(c: char): (v: nat)
    ensures v < 16
  {
    if '0' <= c <= '9' then c as int - '0' as int
    else if 'a' <= c <= 'f' then c as int - 'a' as int + 10
    else 0
  }

  /**
   * Reading the text between the quotes of a str literal back: the escapes
   * `\t`, `\n`, `\r`, `\xhh`, and a backslash before any other character
   * standing for that character.
   */
  function Unescape(t: string): string
    decreases |t|
  {
    if t == [] then []
    else if t[0] != '\\' || |t| == 1 then [t[0]] + Unescape(t[1..])
    else if t[1] == 't' then ['\t'] + Unescape(t[2..])
    else if t[1] == 'n' then ['\n'] + Unescape(t[2..])
    else if t[1] == 'r' then ['\r'] + Unescape(t[2..])
    else if t[1] == 'x' && |t| >= 4 then [(HexValue(t[2]) * 16 + HexValue(t[3])) as char] + Unescape(t[4..])
    else [t[1]] + Unescape(t[2..])
  }

  lemma HexDigitValue(d: nat)
    requires d < 16
    ensures HexValue(HexDigit(d)) == d
  {
    assert HexDigit(d) == "0123456789abcdef"[d];
  }

  /** Each escaped character reads back as itself, whatever follows it. */
  lemma EscapeCharReadsBack(c: char, quote: char, rest: string)
    requires quote == '\'' || quote == '"'
    ensures Unescape(EscapeChar(c, quote) + rest) == [c] + Unescape(rest)
  {
    var t := EscapeChar(c, quote) + rest;
    if c == quote || c == '\\' || c == '\t' || c == '\n' || c == '\r' {
      assert t[0] == '\\' && t[2..] == rest;
    } else if IsHexEscaped(c) {
      var hi, lo := c as int / 16, c as int % 16;
      HexDigitValue(hi);
      HexDigitValue(lo);
      assert t[0] == '\\' && t[1] == 'x' && t[2] == HexDigit(hi) && t[3] == HexDigit(lo) && t[4..] == rest;
      assert (hi * 16 + lo) as char == c;
    } else {
      assert t[0] == c && t[1..] == rest;
    }
  }

  /** The escaped text of a string reads back as the string. */
  lemma {:induction false} EscapeAllReadsBack(s: string, quote: char)
    requires quote == '\'' || quote == '"'
    ensures Unescape(EscapeAll(s, quote)) == s
    decreases |s|
  {
    if s != [] {
      EscapeCharReadsBack(s[0], quote, EscapeAll(s[1..], quote));
      EscapeAllReadsBack(s[1..], quote);
    }
  }

  /** `repr(v)` of the Python value json.loads builds for `j`. */
  function Repr(j: Json): (r: string)
    ensures '\n' !in r
    decreases j, 1
  {
    match j
    case JNull => "None"
    case JBool(b) => if b then "True" else "False"
    case JInt(i) => DecimalString(i)
    case JStr(s) => StrRepr(s)
    case JArray(_) => "[" + ReprItems(j, 0) + "]"
    case JObject(_) => "{" + ReprMembers(j, 0) + "}"
  }

  /** The items of the list `arr` from index `from` on, separated by ", ". */
  function ReprItems(arr: Json, from: nat): (r: string)
    requires arr.JArray? && from <= |arr.items|
    ensures '\n' !in r
    decreases arr, 0, |arr.items| - from
  {
    if from == |arr.items| then ""
    else if from == |arr.items| - 1 then Repr(arr.items[from])
    else Repr(arr.items[from]) + ", " + ReprItems(arr, from + 1)
  }

  /** The `key: value` entries of the dict `obj` from index `from` on, separated by ", ". */
  function ReprMembers(obj: Json, from: nat): (r: string)
    requires obj.JObject? && from <= |obj.members|
    ensures '\n' !in r
    decreases obj, 0, |obj.members| - from
  {
    if from == |obj.members| then ""
    else
      var entry := StrRepr(obj.members[from].0) + ": " + Repr(obj.members[from].1);
      if from == |obj.members| - 1 then entry else entry + ", " + ReprMembers(obj, from + 1)
  }

  /**
   * `str(v)` (and an f-string's `{v}`): the text itself for a str, `repr(v)`
   * otherwise. Only a str can bring a line break into the text.
   */
  function Str(j: Json): (r: string)
    ensures j.JStr? ==> r == j.s
    ensures !j.JStr? ==> '\n' !in r
  {
    if j.JStr? then j.s else Repr(j)
  }
}
