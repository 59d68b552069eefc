/** The mini app's round countdown: the once-a-second tick that counts `timeLeft` down
    to zero, and `formatTime`, which renders a number of seconds as minutes, a colon and
    the seconds. The numbers are JavaScript numbers holding whole seconds, so they are
    modelled as integers, with `Math.floor` and JavaScript's `%` written out. */
module Countdown {
  import opened Models

  /** `Math.floor(a / b)` for a positive divisor: Dafny's division already rounds down then. */
  function FloorDiv(a: int, b: int): (q: int)
    requires b > 0
    ensures q * b <= a < q * b + b
  {
    a / b
  }

  /** JavaScript's `a % b` for a positive divisor: the remainder takes the sign of `a`,
      and agrees with the mathematical remainder on non-negative `a`. */
  function JsRem(a: int, b: int): (r: int)
    requires b > 0
    ensures a >= 0 ==> 0 <= r < b && r == a % b
    ensures a < 0 ==> -b < r <= 0 && -r == (-a) % b
  {
    if a >= 0 then a % b else -((-a) % b)
  }

  function Digit(d: int): char
    requires 0 <= d < 10
  {
    ('0' as int + d) as char
  }

  predicate IsDigit(c: char) {
    '0' <= c <= '9'
  }

  predicate AllDigits(s: string) {
    forall i :: 0 <= i < |s| ==> IsDigit(s[i])
  }

  /** A non-negative integer in decimal, without leading zeros. */
  function NatToString(n: nat): (s: string)
    ensures |s| >= 1 && AllDigits(s)
    ensures n < 10 <==> |s| == 1
    decreases n
  {
    if n < 10 then [Digit(n)] else NatToString(n / 10) + [Digit(n % 10)]
  }

  /** An integer as JavaScript prints it in a template literal. */
  function IntToString(i: int): string {
    if i < 0 then "-" + NatToString(-i) else NatToString(i)
  }

  /** The value of a string of decimal digits. */
  function DigitsValue(s: string): nat
    requires AllDigits(s)
  {
    if s == [] then 0 else DigitsValue(s[..|s| - 1]) * 10 + (s[|s| - 1] - '0') as nat
  }

  /** Reading back a printed number gives the number. */
  lemma {:induction false} NatToStringRoundTrip(n: nat)
    ensures DigitsValue(NatToString(n)) == n
    decreases n
  {
    var s := NatToString(n);
    if n < 10 {
      assert s[..|s| - 1] == [];
    } else {
      assert s[..|s| - 1] == NatToString(n / 10);
      NatToStringRoundTrip(n / 10);
    }
  }

  /** The seconds field: a remainder below 10 is prefixed by a `'0'` string. */
  function SecondsField(secs: int): string {
    if secs < 10 then "0" + IntToString(secs) else IntToString(secs)
  }

  /** `formatTime(seconds)`: a non-negative count shows a colon with two characters of
      seconds after it; a negative one starts with a minus sign. */
  function FormatTime(seconds: int): (t: string)
    ensures seconds >= 0 ==> |t| >= 4 && t[|t| - 3] == ':'
    ensures seconds < 0 ==> |t| >= 4 && t[0] == '-'
  {
    IntToString(FloorDiv(seconds, 60)) + ":" + SecondsField(JsRem(seconds, 60))
  }

  /** For a non-negative count the display is the unpadded number of whole minutes, a
      colon and exactly two digits of seconds below 60, and those two numbers make up
      the count again. */
  lemma FormatTimeFields(seconds: nat)
    ensures var mins := FloorDiv(seconds, 60);
      var secs := JsRem(seconds, 60);
      && 0 <= mins && 0 <= secs < 60 && mins * 60 + secs == seconds
      && FormatTime(seconds) == NatToString(mins) + ":" + [Digit(secs / 10), Digit(secs % 10)]
  {
    var secs := JsRem(seconds, 60);
    if secs < 10 {
      assert SecondsField(secs) == "0" + [Digit(secs)];
    } else {
      assert NatToString(secs) == NatToString(secs / 10) + [Digit(secs % 10)];
    }
  }

  /** Reading a display back: the digits before the colon are minutes, the two after it
      seconds below 60. */
  function ParseTime(t: string): (r: Option<nat>)
    ensures r.Some? ==> |t| >= 4 && t[|t| - 3] == ':'
  {
    if |t| >= 4 && t[|t| - 3] == ':' && AllDigits(t[..|t| - 3]) && AllDigits(t[|t| - 2..])
       && t[|t| - 2] <= '5'
    then Some(DigitsValue(t[..|t| - 3]) * 60 + DigitsValue(t[|t| - 2..]))
    else None
  }

  /** The display of a non-negative count determines the count. */
  lemma FormatTimeRoundTrip(seconds: nat)
    ensures ParseTime(FormatTime(seconds)) == Some(seconds)
  {
    FormatTimeFields(seconds);
    var mins := FloorDiv(seconds, 60);
    var secs := JsRem(seconds, 60);
    var m := NatToString(mins);
    var field: string := [Digit(secs / 10), Digit(secs % 10)];
    var t := m + ":" + field;
    assert FormatTime(seconds) == t;
    assert t[..|t| - 3] == m;
    assert t[|t| - 2..] == field;
    NatToStringRoundTrip(mins);
    TwoDigitsValue(secs);
  }

  /** A two-digit field reads back as its number. */
  lemma TwoDigitsValue(x: nat)
    requires x < 100
    ensures DigitsValue([Digit(x / 10), Digit(x % 10)]) == x
  {
    var field: string := [Digit(x / 10), Digit(x % 10)];
    assert field[..1] == [Digit(x / 10)];
    assert field[..1][..0] == [];
    assert DigitsValue(field[..1]) == x / 10;
  }

  /** So two different non-negative counts never show the same text. */
  lemma FormatTimeInjective(a: nat, b: nat)
    requires FormatTime(a) == FormatTime(b)
    ensures a == b
  {
    FormatTimeRoundTrip(a);
    FormatTimeRoundTrip(b);
  }

  /** A negative count that is not a whole number of minutes is shown with a garbled
      seconds field: `Math.floor` rounds the minutes down while `%` truncates, so the
      remainder is negative and the padding puts `"0"` before its minus sign. */
  lemma NegativeCountGarbles(seconds: int)
    requires seconds < 0 && seconds % 60 != 0
    ensures var m := IntToString(FloorDiv(seconds, 60));
      FormatTime(seconds) == m + ":0-" + NatToString(-JsRem(seconds, 60))
      && 0 < -JsRem(seconds, 60) < 60
  {
    var r := JsRem(seconds, 60);
    assert r != 0;
    assert SecondsField(r) == "0" + "-" + NatToString(-r);
  }

  /** A negative whole number of minutes shows cleanly, as the minutes and `:00`. */
  lemma NegativeMinutesShowClean(seconds: int)
    requires seconds < 0 && seconds % 60 == 0
    ensures FormatTime(seconds) == IntToString(seconds / 60) + ":00"
  {
    assert JsRem(seconds, 60) == 0;
  }

  /** For example -5 is shown as `-1:0-5`, and -60 as `-1:00`. */
  lemma NegativeCountExamples()
    ensures FormatTime(-5) == "-1:0-5"
    ensures FormatTime(-60) == "-1:00"
  {
    NegativeCountGarbles(-5);
    NegativeMinutesShowClean(-60);
    assert NatToString(1) == "1" && NatToString(5) == "5" && NatToString(0) == "0";
  }

  /** One tick of the countdown interval. */
  function Tick(timeLeft: int): (t: int)
    ensures t >= 0
    ensures timeLeft > 0 ==> t == timeLeft - 1
    ensures timeLeft <= 0 ==> t == 0
  {
    if timeLeft > 0 then timeLeft - 1 else 0
  }

  /** `n` ticks in a row. */
  function Ticks(timeLeft: int, n: nat): int
    decreases n
  {
    if n == 0 then timeLeft else Ticks(Tick(timeLeft), n - 1)
  }

  /** After `n` ticks from a non-negative count the countdown shows `timeLeft - n`, held
      at zero once it gets there; in particular it never goes negative, so
      `FormatTimeFields` applies to every value it shows. */
  lemma {:induction false} TicksCountDown(timeLeft: nat, n: nat)
    ensures Ticks(timeLeft, n) == if timeLeft >= n then timeLeft - n else 0
    decreases n
  {
    if n > 0 {
      TicksCountDown(Tick(timeLeft), n - 1);
    }
  }
}
