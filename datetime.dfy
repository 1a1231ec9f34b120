/** The duration codec of `src/utils/datetime.ts`: reading the `PT[nH][nM][nS]` designator form
    of an ISO 8601 duration (ISO 8601:2004, section 4.4.3.2) into seconds, and rendering seconds
    as `"<H>h <M>m"` or `"<M>m <S>s"`. */
module Datetime {
  import opened Remote
  import opened Text

  // ----- reading: the regular expression /PT(?:(\d+)H)?(?:(\d+)M)?(?:(\d+(?:\.\d+)?)S)?/ -----

  /** The two characters `PT` start at position `i` of `s`. */
  predicate PTAt(s: string, i: nat)
  {
    i + 1 < |s| && s[i] == 'P' && s[i + 1] == 'T'
  }

  /** The leftmost position at or after `from` where `PT` starts: where the unanchored regular
      expression matches, since every group after `PT` is optional. */
  function FindPT(s: string, from: nat): (r: Option<nat>)
    ensures r.Some? ==> from <= r.value && PTAt(s, r.value)
    ensures r.Some? ==> forall j: nat :: from <= j < r.value ==> !PTAt(s, j)
    ensures r.None? <==> forall j: nat :: from <= j ==> !PTAt(s, j)
    decreases |s| - from
  {
    if from + 1 >= |s| then None
    else if PTAt(s, from) then Some(from)
    else FindPT(s, from + 1)
  }

  /** Length of the longest prefix of `s` made of decimal digits (what a greedy `\d+` takes). */
  function DigitRun(s: string): (n: nat)
    ensures n <= |s| && AllDigits(s[..n])
    ensures n < |s| ==> !IsDigit(s[n])
  {
    if s == [] || !IsDigit(s[0]) then 0
    else
      var n := 1 + DigitRun(s[1..]);
      assert s[..n] == [s[0]] + s[1..][..n - 1];
      n
  }

  /** The optional group `(?:(\d+)X)?` for designator `X` at the start of `s`: the value of its
      digits (0 when the group does not match) and the text after it. */
  function Designated(s: string, designator: char): (nat, string)
  {
    var n := DigitRun(s);
    if 0 < n < |s| && s[n] == designator then (DigitsValue(s[..n]), s[n + 1..]) else (0, s)
  }

  /** The optional seconds group `(?:(\d+(?:\.\d+)?)S)?` at the start of `s`, in whole seconds:
      a fraction is recognised as part of the group and then dropped. */
  function SecondsGroup(s: string): nat
  {
    var n := DigitRun(s);
    if n == 0 then 0
    else if n < |s| && s[n] == 'S' then DigitsValue(s[..n])
    else if n < |s| && s[n] == '.' then
      var f := DigitRun(s[n + 1..]);
      if 0 < f && n + 1 + f < |s| && s[n + 1 + f] == 'S' then DigitsValue(s[..n]) else 0
    else 0
  }

  /** `parseISODuration`: empty input and input without `PT` give 0; otherwise the hours,
      minutes and seconds groups after the leftmost `PT`, absent ones counting 0. */
  function ParseIsoDuration(duration: string): (seconds: nat)
    ensures duration == "" ==> seconds == 0
    ensures (forall i: nat :: !PTAt(duration, i)) ==> seconds == 0
  {
    if duration == "" then 0
    else match FindPT(duration, 0)
      case None => 0
      case Some(i) => AfterPT(duration[i + 2..])
  }

  /** The three optional groups read from the text after `PT`:
      `hours * 3600 + minutes * 60 + seconds`, an absent group counting 0. */
  function AfterPT(t: string): nat
  {
    var (hours, afterHours) := Designated(t, 'H');
    var (minutes, afterMinutes) := Designated(afterHours, 'M');
    hours * 3600 + minutes * 60 + SecondsGroup(afterMinutes)
  }

  /** One designator group as written in a duration: the digits followed by the designator,
      or nothing at all when the component is absent (empty). */
  function Group(digits: string, designator: char): string
  {
    if digits == "" then "" else digits + [designator]
  }

  /** The text `PT<h>H<m>M<s>S`, each group left out when its digit string is empty. */
  function DurationText(h: string, m: string, s: string): string
  {
    "PT" + Group(h, 'H') + Group(m, 'M') + Group(s, 'S')
  }

  /** A text that is empty or starts with something other than a digit. */
  predicate StartsWithNonDigit(t: string)
  {
    t == "" || !IsDigit(t[0])
  }

  lemma {:induction false} DigitRunPrefix(d: string, t: string)
    requires AllDigits(d)
    requires StartsWithNonDigit(t)
    ensures DigitRun(d + t) == |d|
  {
    if d == [] {
      assert d + t == t;
    } else {
      assert (d + t)[1..] == d[1..] + t;
      DigitRunPrefix(d[1..], t);
    }
  }

  /** A group for another designator, or the end of the text, is left for the next group. */
  lemma GroupSkipped(d: string, other: char, rest: string, c: char)
    requires AllDigits(d)
    requires !IsDigit(other) && other != c
    requires d == "" ==> rest == ""
    ensures Designated(Group(d, other) + rest, c) == (0, Group(d, other) + rest)
  {
    if d != "" {
      var t := Group(d, other) + rest;
      assert t == d + ([other] + rest);
      DigitRunPrefix(d, [other] + rest);
    }
  }

  /** A present group is read with its value and consumed. */
  lemma GroupTaken(d: string, c: char, rest: string)
    requires AllDigits(d) && d != ""
    requires !IsDigit(c)
    ensures Designated(Group(d, c) + rest, c) == (DigitsValue(d), rest)
  {
    var t := Group(d, c) + rest;
    assert t == d + ([c] + rest);
    DigitRunPrefix(d, [c] + rest);
    assert t[..|d|] == d;
    assert t[|d| + 1..] == rest;
  }

  /** The hours group of `<h>H<m>M<s>S`. */
  lemma HoursGroup(h: string, m: string, s: string)
    requires AllDigits(h) && AllDigits(m) && AllDigits(s)
    ensures Designated(Group(h, 'H') + Group(m, 'M') + Group(s, 'S'), 'H')
            == (DigitsValue(h), Group(m, 'M') + Group(s, 'S'))
  {
    var tail := Group(m, 'M') + Group(s, 'S');
    assert Group(h, 'H') + Group(m, 'M') + Group(s, 'S') == Group(h, 'H') + tail;
    if h != "" {
      GroupTaken(h, 'H', tail);
    } else {
      assert Group(h, 'H') + tail == tail;
      if m != "" {
        GroupSkipped(m, 'M', Group(s, 'S'), 'H');
      } else if s != "" {
        assert tail == Group(s, 'S') + "";
        GroupSkipped(s, 'S', "", 'H');
      }
    }
  }

  /** The minutes group of `<m>M<s>S`. */
  lemma MinutesGroup(m: string, s: string)
    requires AllDigits(m) && AllDigits(s)
    ensures Designated(Group(m, 'M') + Group(s, 'S'), 'M') == (DigitsValue(m), Group(s, 'S'))
  {
    if m != "" {
      GroupTaken(m, 'M', Group(s, 'S'));
    } else {
      assert Group(m, 'M') + Group(s, 'S') == Group(s, 'S');
      if s != "" {
        assert Group(s, 'S') == Group(s, 'S') + "";
        GroupSkipped(s, 'S', "", 'M');
      }
    }
  }

  /** The seconds group of `<s>S`. */
  lemma SecondsGroupRead(s: string)
    requires AllDigits(s)
    ensures SecondsGroup(Group(s, 'S')) == DigitsValue(s)
  {
    if s != "" {
      DigitRunPrefix(s, "S");
      assert (s + "S")[..|s|] == s;
    }
  }

  /** Reading `PT<h>H<m>M<s>S` (any group may be absent) gives h·3600 + m·60 + s. */
  lemma ParseDurationText(h: string, m: string, s: string)
    requires AllDigits(h) && AllDigits(m) && AllDigits(s)
    ensures ParseIsoDuration(DurationText(h, m, s))
            == DigitsValue(h) * 3600 + DigitsValue(m) * 60 + DigitsValue(s)
  {
    var text := DurationText(h, m, s);
    var t := Group(h, 'H') + Group(m, 'M') + Group(s, 'S');
    assert text == "PT" + t;
    assert PTAt(text, 0);
    assert FindPT(text, 0) == Some(0);
    assert text[2..] == t;
    ReadGroups(h, m, s);
  }

  /** The groups after `PT` in `<h>H<m>M<s>S`. */
  lemma ReadGroups(h: string, m: string, s: string)
    requires AllDigits(h) && AllDigits(m) && AllDigits(s)
    ensures AfterPT(Group(h, 'H') + Group(m, 'M') + Group(s, 'S'))
            == DigitsValue(h) * 3600 + DigitsValue(m) * 60 + DigitsValue(s)
  {
    HoursGroup(h, m, s);
    MinutesGroup(m, s);
    SecondsGroupRead(s);
  }

  /** The examples in the doc comment of `parseISODuration`: `PT2H` ... */
  lemma ParseExampleHours()
    ensures ParseIsoDuration("PT2H") == 7200
  {
    assert DurationText("2", "", "") == "PT2H";
    assert DigitsValue("2") == 2;
    ParseDurationText("2", "", "");
  }

  /** ... and `PT3H21M8S`. */
  lemma ParseExampleFull()
    ensures ParseIsoDuration("PT3H21M8S") == 12068
  {
    assert DurationText("3", "21", "8") == "PT3H21M8S";
    assert DigitsValue("3") == 3 && DigitsValue("8") == 8;
    assert DigitsValue("21") == 21 by { assert "21"[..1] == "2"; }
    ParseDurationText("3", "21", "8");
  }

  /** Inputs without `PT` read as 0: a day designator (`P1DT2H`) is not understood. */
  lemma ParseWithoutPT()
    ensures ParseIsoDuration("") == 0
    ensures ParseIsoDuration("garbage") == 0
    ensures ParseIsoDuration("P1DT2H") == 0
  {
    assert forall i: nat :: !PTAt("garbage", i);
    assert forall i: nat :: !PTAt("P1DT2H", i);
  }

  // ----- rendering: formatDuration -----

  /** Whole hours, remaining whole minutes and remaining seconds of a duration. */
  function Clock(seconds: nat): (c: (nat, nat, nat))
    ensures c.0 * 3600 + c.1 * 60 + c.2 == seconds
    ensures c.1 < 60 && c.2 < 60
  {
    (seconds / 3600, (seconds % 3600) / 60, seconds % 60)
  }

  /** The decomposition into hours, minutes below 60 and seconds below 60 is unique. */
  lemma ClockUnique(seconds: nat, h: nat, m: nat, s: nat)
    requires h * 3600 + m * 60 + s == seconds
    requires m < 60 && s < 60
    ensures Clock(seconds) == (h, m, s)
  {
    DivUnique(seconds, 3600, h, m * 60 + s);
    DivUnique(m * 60 + s, 60, m, s);
    DivUnique(seconds, 60, h * 60 + m, s);
  }

  /** `formatDuration`: `"<H>h <M>m"` from one hour on, `"<M>m <S>s"` below it. */
  function FormatDuration(seconds: nat): (r: string)
    ensures |r| >= 4
    ensures 'h' in r <==> seconds >= 3600
    ensures r[|r| - 1] == (if seconds >= 3600 then 'm' else 's')
    ensures seconds >= 3600 ==>
              Clock(seconds).0 > 0
              && r == NatToString(Clock(seconds).0) + "h " + NatToString(Clock(seconds).1) + "m"
    ensures seconds < 3600 ==>
              r == NatToString(Clock(seconds).1) + "m " + NatToString(Clock(seconds).2) + "s"
  {
    var (hours, minutes, secs) := Clock(seconds);
    if hours > 0 then
      var r := NatToString(hours) + "h " + NatToString(minutes) + "m";
      assert r[|NatToString(hours)|] == 'h';
      r
    else
      var a, b := NatToString(minutes), NatToString(secs);
      var r := a + "m " + b + "s";
      DigitsExclude(a, 'h');
      DigitsExclude(b, 'h');
      assert forall k :: 0 <= k < |r| ==> r[k] != 'h' by {
        forall k | 0 <= k < |r| ensures r[k] != 'h' {
          if k < |a| { assert r[k] == a[k]; }
          else if k < |a| + 2 { }
          else if k < |r| - 1 { assert r[k] == b[k - |a| - 2]; }
        }
      }
      r
  }

  /** Two numerals each followed by the same non-digit character: the split is determined. */
  lemma NumeralSplit(a: string, b: string, c: char, x: string, y: string)
    requires AllDigits(a) && AllDigits(b) && !IsDigit(c)
    requires a + [c] + x == b + [c] + y
    ensures a == b && x == y
  {
    var u := a + [c] + x;
    assert forall k :: 0 <= k < |a| ==> u[k] == a[k] && u[k] != c;
    assert forall k :: 0 <= k < |b| ==> u[k] == b[k] && u[k] != c;
    assert u[|a|] == c && u[|b|] == c;
    assert |a| == |b|;
    assert a == u[..|a|] == b;
    assert x == u[|a| + 1..] == y;
  }

  /** Below one hour the rendering is lossless: equal renderings come from equal durations. */
  lemma FormatDurationInjectiveBelowHour(a: nat, b: nat)
    requires a < 3600 && b < 3600
    requires FormatDuration(a) == FormatDuration(b)
    ensures a == b
  {
    var (_, minA, secA) := Clock(a);
    var (_, minB, secB) := Clock(b);
    var ma, mb := NatToString(minA), NatToString(minB);
    var sa, sb := NatToString(secA), NatToString(secB);
    assert FormatDuration(a) == ma + ['m'] + (" " + sa + "s");
    assert FormatDuration(b) == mb + ['m'] + (" " + sb + "s");
    NumeralSplit(ma, mb, 'm', " " + sa + "s", " " + sb + "s");
    NatToStringInjective(minA, minB);
    assert (" " + sa + "s")[1..|sa| + 1] == sa;
    assert (" " + sb + "s")[1..|sb| + 1] == sb;
    NatToStringInjective(secA, secB);
  }

  /** The from-hour rendering, regrouped around its `h` for `NumeralSplit`. */
  lemma HourText(a: nat)
    requires a >= 3600
    ensures FormatDuration(a)
            == NatToString(Clock(a).0) + ['h'] + (" " + NatToString(Clock(a).1) + "m")
  {
    var n, m := NatToString(Clock(a).0), NatToString(Clock(a).1);
    assert n + "h " + m + "m" == n + ['h'] + (" " + m + "m");
  }

  /** The whole minutes of a duration determine its hours and remaining minutes. */
  lemma ClockOfMinutes(a: nat)
    ensures Clock(a).0 == (a / 60) / 60 && Clock(a).1 == (a / 60) % 60
  {
    var (h, m, sec) := Clock(a);
    DivUnique(a, 60, h * 60 + m, sec);
    DivUnique(a / 60, 60, h, m);
  }

  /** From one hour on, the rendering keeps whole minutes: two durations render the same exactly
      when they have the same number of whole minutes, so the seconds below a minute are dropped. */
  lemma FormatDurationMinutesFromHour(a: nat, b: nat)
    requires a >= 3600 && b >= 3600
    ensures FormatDuration(a) == FormatDuration(b) <==> a / 60 == b / 60
  {
    ClockOfMinutes(a);
    ClockOfMinutes(b);
    HourText(a);
    HourText(b);
    if FormatDuration(a) == FormatDuration(b) {
      var na, nb := NatToString(Clock(a).0), NatToString(Clock(b).0);
      var ma, mb := NatToString(Clock(a).1), NatToString(Clock(b).1);
      NumeralSplit(na, nb, 'h', " " + ma + "m", " " + mb + "m");
      NatToStringInjective(Clock(a).0, Clock(b).0);
      assert (" " + ma + "m")[1..|ma| + 1] == ma;
      assert (" " + mb + "m")[1..|mb| + 1] == mb;
      NatToStringInjective(Clock(a).1, Clock(b).1);
      DivUnique(a / 60, 60, Clock(a).0, Clock(a).1);
      DivUnique(b / 60, 60, Clock(b).0, Clock(b).1);
    }
  }

  /** The examples of the rendering: 0, 59 and 3661 seconds. */
  lemma FormatExamples()
    ensures FormatDuration(0) == "0m 0s"
    ensures FormatDuration(59) == "0m 59s"
    ensures FormatDuration(3661) == "1h 1m"
  {
    assert NatToString(59) == "59";
  }
}
