/** The dashboard's `formatTime` helper (src/pages/CustomerDashboard.tsx:68-72),
    with JavaScript's number-to-string conversion and `%` written out. */
module TimeFormat {
  import opened Wrappers

  predicate IsDigit(c: char) {
    '0' <= c <= '9'
  }

  predicate AllDigits(s: string) {
    forall i :: 0 <= i < |s| ==> IsDigit(s[i])
  }

  function DigitChar(d: nat): (c: char)
    requires d < 10
    ensures IsDigit(c) && c as int - '0' as int == d
  {
    ('0' as int + d) as char
  }

  function DigitValue(c: char): nat
    requires IsDigit(c)
  {
    c as int - '0' as int
  }

  /** The decimal numeral JavaScript prints for a non-negative integer: no sign, no
      leading zeros. */
  function NatToString(n: nat): (s: string)
    ensures |s| > 0 && AllDigits(s)
    ensures n < 10 <==> |s| == 1
    ensures n >= 10 ==> s[0] != '0'
    decreases n
  {
    if n < 10 then [DigitChar(n)] else NatToString(n / 10) + [DigitChar(n % 10)]
  }

  /** The value of a string of decimal digits, most significant first. */
  function DigitsValue(s: string): nat
    requires AllDigits(s)
  {
    if s == [] then 0 else DigitsValue(s[..|s| - 1]) * 10 + DigitValue(s[|s| - 1])
  }

  lemma {:induction false} NatToStringRoundTrip(n: nat)
    ensures DigitsValue(NatToString(n)) == n
  {
    if n >= 10 {
      var s := NatToString(n / 10) + [DigitChar(n % 10)];
      assert s[..|s| - 1] == NatToString(n / 10);
      NatToStringRoundTrip(n / 10);
    }
  }

  /** The string JavaScript prints for an integer-valued number. */
  function IntToString(i: int): (r: string)
    ensures |r| > 0 && (r[0] == '-' <==> i < 0)
    ensures i >= 0 ==> r == NatToString(i)
    ensures i < 0 ==> r == "-" + NatToString(-i)
  {
    if i < 0 then "-" + NatToString(-i) else NatToString(i)
  }

  /** JavaScript's `seconds % 60`: the remainder takes the sign of `seconds`
      (truncating division), unlike Dafny's Euclidean `%`. A result of -0 prints
      as "0". */
  function JsRem60(seconds: int): (r: int)
    ensures seconds >= 0 ==> 0 <= r < 60
    ensures seconds < 0 ==> -60 < r <= 0
    ensures (seconds - r) % 60 == 0
  {
    if seconds >= 0 then seconds % 60 else -((-seconds) % 60)
  }

  /** `formatTime(seconds)`: `Math.floor(seconds / 60)` minutes and `seconds % 60`
      seconds, as "{mins}m {secs}s". For b > 0 Dafny's `/` is floor division. */
  function FormatTime(seconds: int): (r: string)
    ensures seconds >= 0 ==>
              r == NatToString(seconds / 60) + "m " + NatToString(seconds % 60) + "s"
    ensures seconds < 0 ==> |r| > 0 && r[0] == '-'
  {
    IntToString(seconds / 60) + "m " + IntToString(JsRem60(seconds)) + "s"
  }

  /** The first position of `c` in `s`, or |s| when `c` does not occur. */
  function IndexOf(s: string, c: char): (k: nat)
    ensures k <= |s|
    ensures k < |s| ==> s[k] == c
    ensures forall i :: 0 <= i < k ==> s[i] != c
  {
    if s == [] then 0 else if s[0] == c then 0 else 1 + IndexOf(s[1..], c)
  }

  function ParseNumeral(s: string): Option<nat> {
    if s != [] && AllDigits(s) then Some(DigitsValue(s)) else None
  }

  /** Reads back a duration written as "{mins}m {secs}s" with secs < 60: the
      independent reference the formatter is checked against. */
  function ParseTime(t: string): Option<nat> {
    var k := IndexOf(t, 'm');
    if k + 3 <= |t| && t[k + 1] == ' ' && t[|t| - 1] == 's' then
      match (ParseNumeral(t[..k]), ParseNumeral(t[k + 2..|t| - 1]))
      case (Some(m), Some(s)) => if s < 60 then Some(m * 60 + s) else None
      case _ => None
    else
      None
  }

  lemma {:induction false} IndexOfAfterPrefix(a: string, rest: string, c: char)
    requires forall i :: 0 <= i < |a| ==> a[i] != c
    requires |rest| > 0 && rest[0] == c
    ensures IndexOf(a + rest, c) == |a|
  {
    if a != [] {
      assert (a + rest)[1..] == a[1..] + rest;
      IndexOfAfterPrefix(a[1..], rest, c);
    }
  }

  lemma {:induction false} ParseTimeOfNumerals(a: string, b: string)
    requires a != [] && AllDigits(a) && b != [] && AllDigits(b)
    requires DigitsValue(b) < 60
    ensures ParseTime(a + "m " + b + "s") == Some(DigitsValue(a) * 60 + DigitsValue(b))
  {
    var t := a + "m " + b + "s";
    assert forall i :: 0 <= i < |a| ==> a[i] != 'm' by {
      forall i | 0 <= i < |a| ensures a[i] != 'm' { assert IsDigit(a[i]); }
    }
    assert t == a + ("m " + b + "s");
    IndexOfAfterPrefix(a, "m " + b + "s", 'm');
    var k := IndexOf(t, 'm');
    assert k == |a|;
    assert t[..k] == a;
    assert t[k + 2..|t| - 1] == b;
    assert t[k + 1] == ' ' && t[|t| - 1] == 's';
  }

  /** Reading "{m}m {s}s" back gives m * 60 + s whenever s < 60. */
  lemma {:induction false} ParseTimeOfParts(m: nat, sec: nat)
    requires sec < 60
    ensures ParseTime(NatToString(m) + "m " + NatToString(sec) + "s") == Some(m * 60 + sec)
  {
    var a, b := NatToString(m), NatToString(sec);
    NatToStringRoundTrip(m);
    NatToStringRoundTrip(sec);
    ParseTimeOfNumerals(a, b);
  }

  /** For a non-negative count of seconds the text is "{s/60}m {s%60}s" with both
      numbers plain decimals, and reading it back gives the same count. */
  lemma {:induction false} FormatTimeRoundTrip(seconds: nat)
    ensures FormatTime(seconds) == NatToString(seconds / 60) + "m " + NatToString(seconds % 60) + "s"
    ensures ParseTime(FormatTime(seconds)) == Some(seconds)
  {
    ParseTimeOfParts(seconds / 60, seconds % 60);
  }

  /** Two non-negative durations print the same only when they are equal. */
  lemma {:induction false} FormatTimeInjective(x: nat, y: nat)
    requires FormatTime(x) == FormatTime(y)
    ensures x == y
  {
    FormatTimeRoundTrip(x);
    FormatTimeRoundTrip(y);
  }

  lemma FormatTimeExamples()
    ensures FormatTime(0) == "0m 0s"
    ensures FormatTime(65) == "1m 5s"
    ensures FormatTime(3600) == "60m 0s"
  {
    assert NatToString(60) == NatToString(6) + "0";
  }

  /** A negative duration, as when the job's start lies ahead of the client clock,
      prints a negative minute count and a non-positive second count. */
  lemma FormatTimeNegativeExamples()
    ensures FormatTime(-5) == "-1m -5s"
    ensures FormatTime(-60) == "-1m 0s"
  {
    assert JsRem60(-5) == -5 && JsRem60(-60) == 0;
  }
}
