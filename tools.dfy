/** The helpers of tools.py, which tg-bot/tools.py repeats with the same
    algorithms: HTML escaping, parsing three command arguments into a time
    of day, the `singleton` memo table and the chat-id guard. */
module Tools {
  import opened Wrappers
  import opened Strings
  import opened Clock

  // ---------------------------------------------------------------------
  // protect_for_html

  /** `s.replace(c, rep)` for a one-character pattern. */
  function ReplaceChar(s: string, c: char, rep: string): string
    decreases |s|
  {
    if s == [] then [] else (if s[0] == c then rep else [s[0]]) + ReplaceChar(s[1..], c, rep)
  }

  /** The three replacements in the order the source applies them:
      `&` first, then `<`, then `>`. */
  function ProtectForHtml(s: string): string
  {
    ReplaceChar(ReplaceChar(ReplaceChar(s, '&', "&amp;"), '<', "&lt;"), '>', "&gt;")
  }

  /** Reference definition: every character escaped on its own. */
  function EscapeChar(c: char): string
  {
    if c == '&' then "&amp;" else if c == '<' then "&lt;" else if c == '>' then "&gt;" else [c]
  }

  function EscapeEach(s: string): string
    decreases |s|
  {
    if s == [] then [] else EscapeChar(s[0]) + EscapeEach(s[1..])
  }

  /** Decoding the three entities from left to right. */
  function Unescape(s: string): string
    decreases |s|
  {
    if |s| >= 5 && s[..5] == "&amp;" then "&" + Unescape(s[5..])
    else if |s| >= 4 && s[..4] == "&lt;" then "<" + Unescape(s[4..])
    else if |s| >= 4 && s[..4] == "&gt;" then ">" + Unescape(s[4..])
    else if s == [] then []
    else [s[0]] + Unescape(s[1..])
  }

  lemma {:induction false} ReplaceCharAppend(a: string, b: string, c: char, rep: string)
    ensures ReplaceChar(a + b, c, rep) == ReplaceChar(a, c, rep) + ReplaceChar(b, c, rep)
    decreases |a|
  {
    if a == [] {
      assert a + b == b;
    } else {
      assert (a + b)[1..] == a[1..] + b;
      ReplaceCharAppend(a[1..], b, c, rep);
    }
  }

  lemma {:induction false} ReplaceCharAbsent(s: string, c: char, rep: string)
    requires c !in s
    ensures ReplaceChar(s, c, rep) == s
    decreases |s|
  {
    if s != [] {
      ReplaceCharAbsent(s[1..], c, rep);
    }
  }

  lemma ReplaceCharSingle(x: char, c: char, rep: string)
    ensures ReplaceChar([x], c, rep) == if x == c then rep else [x]
  {
    assert [x][1..] == [];
  }

  lemma ProtectForHtmlAppend(a: string, b: string)
    ensures ProtectForHtml(a + b) == ProtectForHtml(a) + ProtectForHtml(b)
  {
    var a1, b1 := ReplaceChar(a, '&', "&amp;"), ReplaceChar(b, '&', "&amp;");
    ReplaceCharAppend(a, b, '&', "&amp;");
    var a2, b2 := ReplaceChar(a1, '<', "&lt;"), ReplaceChar(b1, '<', "&lt;");
    ReplaceCharAppend(a1, b1, '<', "&lt;");
    ReplaceCharAppend(a2, b2, '>', "&gt;");
  }

  lemma ProtectForHtmlChar(x: char)
    ensures ProtectForHtml([x]) == EscapeChar(x)
  {
    ReplaceCharSingle(x, '&', "&amp;");
    if x == '&' {
      ReplaceCharAbsent("&amp;", '<', "&lt;");
      ReplaceCharAbsent("&amp;", '>', "&gt;");
    } else {
      ReplaceCharSingle(x, '<', "&lt;");
      if x == '<' {
        ReplaceCharAbsent("&lt;", '>', "&gt;");
      } else {
        ReplaceCharSingle(x, '>', "&gt;");
      }
    }
  }

  /** The three ordered replacements agree with escaping every character
      on its own. */
  lemma {:induction false} ProtectForHtmlIsEscapeEach(s: string)
    ensures ProtectForHtml(s) == EscapeEach(s)
    decreases |s|
  {
    if s == [] {
      assert ProtectForHtml(s) == [];
    } else {
      assert s == [s[0]] + s[1..];
      ProtectForHtmlAppend([s[0]], s[1..]);
      ProtectForHtmlChar(s[0]);
      ProtectForHtmlIsEscapeEach(s[1..]);
    }
  }

  /** Decoding consumes exactly the escape of one leading character. */
  lemma UnescapeEscapeChar(c: char, rest: string)
    ensures Unescape(EscapeChar(c) + rest) == [c] + Unescape(rest)
  {
    var e := EscapeChar(c) + rest;
    if c == '&' {
      assert e[..5] == "&amp;" && e[5..] == rest;
    } else if c == '<' {
      assert e[..4] == "&lt;" && e[4..] == rest;
      assert |e| >= 5 ==> e[..5] != "&amp;" by { assert e[1] == 'l'; }
    } else if c == '>' {
      assert e[..4] == "&gt;" && e[4..] == rest;
      assert |e| >= 5 ==> e[..5] != "&amp;" by { assert e[1] == 'g'; }
      assert e[..4] != "&lt;" by { assert e[1] == 'g'; }
    } else {
      assert e[0] == c && e[1..] == rest;
      assert |e| >= 5 ==> e[..5] != "&amp;" by { assert e[0] != '&'; }
      assert |e| >= 4 ==> e[..4] != "&lt;" && e[..4] != "&gt;" by { assert e[0] != '&'; }
    }
  }

  lemma {:induction false} UnescapeEscapeEach(s: string)
    ensures Unescape(EscapeEach(s)) == s
    decreases |s|
  {
    if s != [] {
      UnescapeEscapeEach(s[1..]);
      UnescapeEscapeChar(s[0], EscapeEach(s[1..]));
    }
  }

  /** Escaping round-trips: decoding the output gives back the input. */
  lemma ProtectForHtmlRoundTrip(s: string)
    ensures Unescape(ProtectForHtml(s)) == s
  {
    ProtectForHtmlIsEscapeEach(s);
    UnescapeEscapeEach(s);
  }

  lemma {:induction false} EscapeEachNoAngles(s: string)
    ensures '<' !in EscapeEach(s) && '>' !in EscapeEach(s)
    decreases |s|
  {
    if s != [] {
      EscapeEachNoAngles(s[1..]);
    }
  }

  /** The escaped text contains no `<` and no `>`. */
  lemma ProtectForHtmlNoAngles(s: string)
    ensures '<' !in ProtectForHtml(s) && '>' !in ProtectForHtml(s)
  {
    ProtectForHtmlIsEscapeEach(s);
    EscapeEachNoAngles(s);
  }

  /** A string with none of `&`, `<`, `>` is returned unchanged. */
  lemma ProtectForHtmlUnchanged(s: string)
    requires '&' !in s && '<' !in s && '>' !in s
    ensures ProtectForHtml(s) == s
  {
    ReplaceCharAbsent(s, '&', "&amp;");
    ReplaceCharAbsent(s, '<', "&lt;");
    ReplaceCharAbsent(s, '>', "&gt;");
  }

  predicate HasSpecial(s: string)
  {
    '&' in s || '<' in s || '>' in s
  }

  /** Escaping never shortens, lengthens any text with a special character,
      and the escape of such a text contains `&`. */
  lemma {:induction false} EscapeEachGrows(s: string)
    ensures |EscapeEach(s)| >= |s|
    ensures HasSpecial(s) ==> |EscapeEach(s)| > |s| && '&' in EscapeEach(s)
    decreases |s|
  {
    if s != [] {
      EscapeEachGrows(s[1..]);
      var e := EscapeEach(s);
      assert e == EscapeChar(s[0]) + EscapeEach(s[1..]);
      if s[0] == '&' || s[0] == '<' || s[0] == '>' {
        assert e[0] == '&';
      } else {
        assert s[0] !in "&<>";
        if HasSpecial(s) {
          assert HasSpecial(s[1..]) by { assert s == [s[0]] + s[1..]; }
          assert '&' in e by {
            var k :| 0 <= k < |EscapeEach(s[1..])| && EscapeEach(s[1..])[k] == '&';
            assert e[k + 1] == '&';
          }
        }
      }
    }
  }

  /** A text is returned unchanged iff it has none of `&`, `<`, `>`. */
  lemma ProtectForHtmlFixedPoint(s: string)
    ensures ProtectForHtml(s) == s <==> !HasSpecial(s)
  {
    ProtectForHtmlIsEscapeEach(s);
    EscapeEachGrows(s);
    if !HasSpecial(s) {
      ProtectForHtmlUnchanged(s);
    }
  }

  /** Escaping is not idempotent: escaping any text with a special
      character twice escapes the `&` of its entities again. */
  lemma ProtectForHtmlNotIdempotent(s: string)
    requires HasSpecial(s)
    ensures ProtectForHtml(ProtectForHtml(s)) != ProtectForHtml(s)
  {
    ProtectForHtmlIsEscapeEach(s);
    EscapeEachGrows(s);
    ProtectForHtmlFixedPoint(ProtectForHtml(s));
  }

  // ---------------------------------------------------------------------
  // time_from_args

  const TIMESET_HELP_MSG: string :=
    "You should provide your command with hours minutes ands seconds in this fashon:\n /your_command HH MM SS "

  /** How `time_from_args` ends: a time, a returned error text, or the
      OverflowError of `time()`, which it does not catch. */
  datatype TimeOrError = TimeOk(time: TimeOfDay) | TimeError(message: string) | TimeOverflow

  /** The range of a C `int`, to which `datetime.time(h, m, s)` converts
      each argument before it checks the field ranges. */
  const INT_MIN: int := -0x8000_0000
  const INT_MAX: int := 0x7fff_ffff

  predicate FitsCInt(i: int)
  {
    INT_MIN <= i <= INT_MAX
  }

  /** The message `datetime.time(h, m, s)` raises for the first field that
      is out of range. */
  function TimeRangeError(h: int, m: int, s: int): (e: string)
    ensures e != ""
  {
    if !(0 <= h <= 23) then "hour must be in 0..23"
    else if !(0 <= m <= 59) then "minute must be in 0..59"
    else "second must be in 0..59"
  }

  /** `int(args[k])` is the first of the three conversions that does not
      give a value: `args[k]` is missing, or `int()` raises on it. */
  predicate FirstBad(args: seq<string>, k: nat)
  {
    k < 3 && k <= |args| && (forall j :: 0 <= j < k ==> PyInt(args[j]).IntOk?) &&
    (k == |args| || !PyInt(args[k]).IntOk?)
  }

  /** All three conversions give values. */
  predicate AllInts(args: seq<string>)
  {
    |args| >= 3 && PyInt(args[0]).IntOk? && PyInt(args[1]).IntOk? && PyInt(args[2]).IntOk?
  }

  /** `datetime.time(h, m, s)` on three integers: OverflowError when one
      does not fit a C `int`, else the range message or the time. */
  function TimeOfInts(h: int, m: int, s: int): (r: TimeOrError)
    ensures r.TimeOverflow? <==> !(FitsCInt(h) && FitsCInt(m) && FitsCInt(s))
    ensures r.TimeOk? <==> FitsCInt(h) && FitsCInt(m) && FitsCInt(s) && ValidTime(TimeOfDay(h, m, s))
    ensures r.TimeOk? ==> r.time == TimeOfDay(h, m, s)
    ensures r.TimeError? ==> r.message == TimeRangeError(h, m, s)
  {
    if !(FitsCInt(h) && FitsCInt(m) && FitsCInt(s)) then TimeOverflow
    else if ValidTime(TimeOfDay(h, m, s)) then TimeOk(TimeOfDay(h, m, s))
    else TimeError(TimeRangeError(h, m, s))
  }

  /** The error `time_from_args` returns for a failed `int()`: the help
      text for an invalid literal, the ValueError's own text otherwise,
      since that text does not mention "invalid literal for int()". */
  function ConversionError(p: IntResult): (e: string)
    requires !p.IntOk?
    ensures e != ""
  {
    if p.IntInvalid? then TIMESET_HELP_MSG else TooLongMessage(p.digits)
  }

  /** `time_from_args`: the arguments are converted in order, and the
      first that is missing or whose `int()` raises ends it
      (`TimeFromArgsFirstBad`); three integers go to `time()`
      (`TimeFromArgsAllInts`), whose OverflowError is not caught. */
  function TimeFromArgs(args: seq<string>): (r: TimeOrError)
    ensures r.TimeError? ==> r.message != ""
    ensures r.TimeOk? ==> ValidTime(r.time)
  {
    if |args| < 1 then TimeError(TIMESET_HELP_MSG)
    else
      var h := PyInt(args[0]);
      if !h.IntOk? then TimeError(ConversionError(h))
      else if |args| < 2 then TimeError(TIMESET_HELP_MSG)
      else
        var m := PyInt(args[1]);
        if !m.IntOk? then TimeError(ConversionError(m))
        else if |args| < 3 then TimeError(TIMESET_HELP_MSG)
        else
          var sec := PyInt(args[2]);
          if !sec.IntOk? then TimeError(ConversionError(sec))
          else TimeOfInts(h.value, m.value, sec.value)
  }

  /** The first argument that is missing gives the help text; the first
      whose `int()` raises gives the help text for an invalid literal and
      the too-long text for a literal with too many digits. */
  lemma TimeFromArgsFirstBad(args: seq<string>, k: nat)
    requires FirstBad(args, k)
    ensures TimeFromArgs(args) ==
              TimeError(if k == |args| then TIMESET_HELP_MSG else ConversionError(PyInt(args[k])))
  {
    if k == 1 {
      assert PyInt(args[0]).IntOk?;
    } else if k == 2 {
      assert PyInt(args[0]).IntOk? && PyInt(args[1]).IntOk?;
    }
  }

  /** Three integers are passed to `time()`: OverflowError when one does
      not fit a C `int`, even if another field is out of its own range;
      otherwise the range message of the first bad field, or the time. */
  lemma TimeFromArgsAllInts(args: seq<string>)
    requires AllInts(args)
    ensures var h, m, s := PyInt(args[0]).value, PyInt(args[1]).value, PyInt(args[2]).value;
            TimeFromArgs(args) == TimeOfInts(h, m, s) &&
            (TimeFromArgs(args).TimeOverflow? <==> !(FitsCInt(h) && FitsCInt(m) && FitsCInt(s))) &&
            (TimeFromArgs(args).TimeOk? <==> FitsCInt(h) && FitsCInt(m) && FitsCInt(s) && ValidTime(TimeOfDay(h, m, s)))
  {
  }

  /** Every argument list is covered: either all three conversions give
      values, or exactly one of them is the first that does not. */
  lemma FirstBadOrAllInts(args: seq<string>)
    ensures AllInts(args) <==> forall k: nat :: !FirstBad(args, k)
    ensures forall k: nat, l: nat :: FirstBad(args, k) && FirstBad(args, l) ==> k == l
  {
    if !AllInts(args) {
      if |args| < 1 || !PyInt(args[0]).IntOk? {
        assert FirstBad(args, 0);
      } else if |args| < 2 || !PyInt(args[1]).IntOk? {
        assert FirstBad(args, 1);
      } else {
        assert FirstBad(args, 2);
      }
    }
  }

  /** Fewer than three arguments never give a time; they give the help
      text unless a present argument is too long. */
  lemma TimeFromArgsTooFew(args: seq<string>)
    requires |args| < 3
    requires forall j :: 0 <= j < |args| ==> !PyInt(args[j]).IntTooLong?
    ensures TimeFromArgs(args) == TimeError(TIMESET_HELP_MSG)
  {
    FirstBadOrAllInts(args);
    var k: nat :| FirstBad(args, k);
  }

  /** An hour, minute or second outside the C `int` range raises even
      when another field is out of its own range first. */
  lemma TimeFromArgsOverflow(h: int, m: int, s: int, extra: seq<string>)
    requires |NatToString(if h < 0 then -h else h)| <= MAX_STR_DIGITS
    requires |NatToString(if m < 0 then -m else m)| <= MAX_STR_DIGITS
    requires |NatToString(if s < 0 then -s else s)| <= MAX_STR_DIGITS
    requires !(FitsCInt(h) && FitsCInt(m) && FitsCInt(s))
    ensures TimeFromArgs([IntToString(h), IntToString(m), IntToString(s)] + extra) == TimeOverflow
  {
    PyIntOfIntToString(h);
    PyIntOfIntToString(m);
    PyIntOfIntToString(s);
    var args := [IntToString(h), IntToString(m), IntToString(s)] + extra;
    assert AllInts(args);
  }

  /** Any valid time written as three decimal arguments parses back to
      itself, whatever arguments follow. */
  lemma TimeFromArgsRoundTrip(t: TimeOfDay, extra: seq<string>)
    requires ValidTime(t)
    ensures TimeFromArgs([IntToString(t.hour), IntToString(t.minute), IntToString(t.second)] + extra) == TimeOk(t)
  {
    PyIntOfIntToString(t.hour);
    PyIntOfIntToString(t.minute);
    PyIntOfIntToString(t.second);
    var args := [IntToString(t.hour), IntToString(t.minute), IntToString(t.second)] + extra;
    assert AllInts(args);
  }

  // ---------------------------------------------------------------------
  // singleton

  /** The closure `singleton(cls)` returns, with its `instances` dict. */
  class Singleton<K(==), T> {
    const cls: K
    var instances: map<K, T>
    /** How many times `cls(...)` has been called. */
    ghost var builds: nat

    ghost predicate Valid()
      reads this
    {
      instances.Keys <= {cls} && builds <= 1 && (cls in instances <==> builds == 1)
    }

    constructor (cls: K)
      ensures Valid() && this.cls == cls && instances == map[] && builds == 0
    {
      this.cls := cls;
      instances := map[];
      builds := 0;
    }

    /** One call `_singleton(*args)`; `built` is what `cls(*args)` would
        return, and is only stored when no instance exists yet. */
    method Call(built: T) returns (r: T)
      requires Valid()
      modifies this
      ensures Valid()
      ensures cls in old(instances) ==> r == old(instances[cls]) && instances == old(instances) && builds == old(builds)
      ensures cls !in old(instances) ==> r == built && instances == map[cls := built] && builds == 1
    {
      if cls !in instances {
        instances := instances[cls := built];
        builds := builds + 1;
      }
      r := instances[cls];
    }
  }

  /** Two calls of one singleton share the first call's instance; the
      second call's arguments are ignored. */
  method SingletonSharesInstance<K(==), T>(cls: K, first: T, second: T) returns (r1: T, r2: T)
    ensures r1 == first && r2 == first
  {
    var s := new Singleton<K, T>(cls);
    r1 := s.Call(first);
    r2 := s.Call(second);
  }

  // ---------------------------------------------------------------------
  // validate_user

  /** `validate_user(func)`: the handler's result when the chat is the
      configured one (TG_CHAT_ID), and `None` otherwise. */
  function ValidateUser<R>(chatId: int, allowedChat: int, handler: () -> R): (r: Option<R>)
    ensures r.Some? <==> chatId == allowedChat
    ensures r.Some? ==> r.value == handler()
  {
    if chatId == allowedChat then Some(handler()) else None
  }
}
