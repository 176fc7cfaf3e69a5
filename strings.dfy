/** String helpers shared by the model: decimal rendering and parsing of
    integers, padding, joining and affix tests, written the way Python's
    `str()`, `int()`, `%`-formatting, `str.join` and `str.endswith` behave
    on the inputs the bot handles. */
module Strings {
  import opened Wrappers

  predicate IsDigit(c: char) { '0' <= c <= '9' }

  predicate AllDigits(s: string) { forall i :: 0 <= i < |s| ==> IsDigit(s[i]) }

  function DigitChar(d: nat): (c: char)
    requires d < 10
    ensures IsDigit(c) && (c as int) - ('0' as int) == d
  {
    ('0' as int + d) as char
  }

  /** The value of a string of decimal digits, read left to right. */
  function DigitsValue(s: string): nat
    requires AllDigits(s)
    decreases |s|
  {
    if s == [] then 0 else DigitsValue(s[..|s| - 1]) * 10 + ((s[|s| - 1] as int) - ('0' as int))
  }

  /** `str(n)` for a non-negative integer: its shortest decimal form. */
  function NatToString(n: nat): (s: string)
    ensures s != [] && AllDigits(s)
    ensures DigitsValue(s) == n
    ensures n < 10 <==> |s| == 1
    decreases n
  {
    if n < 10 then [DigitChar(n)]
    else
      var prefix := NatToString(n / 10);
      var s := prefix + [DigitChar(n % 10)];
      assert s[..|s| - 1] == prefix;
      s
  }

  /** `str(i)` for any integer. */
  function IntToString(i: int): string
  {
    if i < 0 then "-" + NatToString(-i) else NatToString(i)
  }

  /** Python's `int(s)` restricted to an optional sign followed by decimal
      digits; anything else (which `int()` rejects with "invalid literal
      for int()") is `None`. */
  function ParseInt(s: string): Option<int>
  {
    if |s| > 0 && (s[0] == '+' || s[0] == '-') then
      if |s| > 1 && AllDigits(s[1..]) then
        Some(if s[0] == '-' then -(DigitsValue(s[1..]) as int) else DigitsValue(s[1..]))
      else None
    else if s != [] && AllDigits(s) then Some(DigitsValue(s))
    else None
  }

  /** Rendering an integer and parsing it back gives the integer itself. */
  lemma ParseIntOfIntToString(i: int)
    ensures ParseInt(IntToString(i)) == Some(i)
  {
    if i < 0 {
      var body := NatToString(-i);
      assert ("-" + body)[1..] == body;
    }
  }

  /** CPython's default cap on the number of decimal digits `int()`
      converts (`sys.get_int_max_str_digits()`). */
  const MAX_STR_DIGITS: nat := 4300

  /** How `int(s)` ends: the value, the ValueError "invalid literal for
      int()", or the ValueError for a literal with more than
      MAX_STR_DIGITS digits, which carries the digit count. */
  datatype IntResult = IntOk(value: int) | IntInvalid | IntTooLong(digits: nat)

  /** The digits of a signed decimal literal: its length without the
      sign. */
  function DigitCount(s: string): nat
  {
    if |s| > 0 && (s[0] == '+' || s[0] == '-') then |s| - 1 else |s|
  }

  /** Python's `int(s)` on the grammar of `ParseInt`, with the digit
      limit that refuses longer literals. */
  function PyInt(s: string): (r: IntResult)
    ensures r.IntInvalid? <==> ParseInt(s).None?
    ensures r.IntOk? <==> ParseInt(s).Some? && DigitCount(s) <= MAX_STR_DIGITS
    ensures r.IntOk? ==> r.value == ParseInt(s).value
    ensures r.IntTooLong? ==> r.digits == DigitCount(s) && r.digits > MAX_STR_DIGITS
  {
    match ParseInt(s)
    case None => IntInvalid
    case Some(v) => if DigitCount(s) <= MAX_STR_DIGITS then IntOk(v) else IntTooLong(DigitCount(s))
  }

  /** The text of the ValueError for a literal that is too long. */
  function TooLongMessage(digits: nat): string
  {
    "Exceeds the limit (4300 digits) for integer string conversion: value has " + NatToString(digits) +
    " digits; use sys.set_int_max_str_digits() to increase the limit"
  }

  /** `int(str(i))` gives `i` back exactly when `str(i)` has at most
      MAX_STR_DIGITS digits, and is the too-long error otherwise. */
  lemma PyIntOfIntToString(i: int)
    ensures var digits := |NatToString(if i < 0 then -i else i)|;
            PyInt(IntToString(i)) == if digits <= MAX_STR_DIGITS then IntOk(i) else IntTooLong(digits)
  {
    ParseIntOfIntToString(i);
    var body := NatToString(if i < 0 then -i else i);
    if i < 0 {
      assert IntToString(i) == "-" + body;
    } else {
      assert body[0] != '+' && body[0] != '-';
    }
  }

  /** `"%02d" % n` (and strftime's two-digit fields) for `n < 100`. */
  function Pad2(n: nat): (s: string)
    requires n < 100
    ensures |s| == 2 && AllDigits(s) && DigitsValue(s) == n
  {
    var d := NatToString(n);
    if n < 10 then
      var s := "0" + d;
      assert s[..1] == "0";
      s
    else d
  }

  function Repeat(c: char, n: nat): (s: string)
    ensures |s| == n && forall i :: 0 <= i < n ==> s[i] == c
  {
    seq(n, _ => c)
  }

  /** `s * n`. */
  function RepeatString(s: string, n: nat): (r: string)
    ensures |r| == n * |s|
    ensures n > 0 ==> r[|r| - |s|..] == s
    decreases n
  {
    if n == 0 then ""
    else
      var r := RepeatString(s, n - 1) + s;
      assert (n - 1) * |s| + |s| == n * |s|;
      r
  }

  /** `"%*s"`-style right alignment: spaces in front up to width `w`. */
  function PadLeft(s: string, w: nat): (r: string)
    ensures |r| == if |s| >= w then |s| else w
    ensures r[|r| - |s|..] == s
  {
    if |s| >= w then s else Repeat(' ', w - |s|) + s
  }

  /** `"%-*s"`-style left alignment: spaces after up to width `w`. */
  function PadRight(s: string, w: nat): (r: string)
    ensures |r| == if |s| >= w then |s| else w
    ensures r[..|s|] == s
  {
    if |s| >= w then s else s + Repeat(' ', w - |s|)
  }

  /** `sep.join(parts)`. */
  function Join(parts: seq<string>, sep: string): string
    decreases |parts|
  {
    if |parts| == 0 then ""
    else if |parts| == 1 then parts[0]
    else parts[0] + sep + Join(parts[1..], sep)
  }

  predicate StartsWith(s: string, prefix: string)
  {
    |prefix| <= |s| && s[..|prefix|] == prefix
  }

  /** A join begins with its first part. */
  lemma JoinStartsWithFirst(first: string, rest: seq<string>, sep: string)
    ensures StartsWith(Join([first] + rest, sep), first)
    ensures rest == [] ==> Join([first] + rest, sep) == first
  {
    if rest != [] {
      assert ([first] + rest)[1..] == rest;
      var j := Join([first] + rest, sep);
      assert j == first + sep + Join(rest, sep);
      assert j[..|first|] == first;
    }
  }

  predicate EndsWith(s: string, suffix: string)
  {
    |suffix| <= |s| && s[|s| - |suffix|..] == suffix
  }

  /** The middle of `prefix + middle + suffix`, once the two ends are cut off, is `middle`. */
  lemma Framed(prefix: string, middle: string, suffix: string)
    ensures var s := prefix + middle + suffix;
            StartsWith(s, prefix) && EndsWith(s, suffix) &&
            |s| == |prefix| + |middle| + |suffix| && s[|prefix|..|s| - |suffix|] == middle
  {
    var s := prefix + middle + suffix;
    assert s[..|prefix|] == prefix;
    assert s[|s| - |suffix|..] == suffix;
    assert s[|prefix|..|s| - |suffix|] == middle;
  }

  /** `str.upper()` on ASCII letters; other characters are kept. */
  function AsciiUpper(s: string): (r: string)
    ensures |r| == |s|
  {
    seq(|s|, i requires 0 <= i < |s| =>
      if 'a' <= s[i] <= 'z' then (s[i] as int - 32) as char else s[i])
  }
}
