/** The elapsed/total time text of the player: formatTime (script.js:271-275).
    The source receives a floating-point number of seconds; for non-negative
    input floor(s / 60) and floor(s % 60) depend only on floor(s), so the model
    takes that whole number of seconds. */
module TimeFormat {

  datatype Option<T> = None | Some(value: T)

  predicate IsDigit(c: char) {
    '0' <= c <= '9'
  }

  predicate AllDigits(s: string) {
    forall i :: 0 <= i < |s| ==> IsDigit(s[i])
  }

  function DigitChar(d: nat): (c: char)
    requires d < 10
    ensures IsDigit(c) && DigitValue(c) == d
  {
    ('0' as int + d) as char
  }

  function DigitValue(c: char): (d: nat)
    requires IsDigit(c)
    ensures d < 10
  {
    c as int - '0' as int
  }

  /** The positional decimal numeral of a non-negative integer: at least one
      digit, no leading zero. A JavaScript template literal writes a whole
      number this way below 10^21; from 10^21 on it uses exponent form
      ("1e+21"), which this function does not model. */
  function Decimal(n: nat): (s: string)
    ensures |s| >= 1 && AllDigits(s)
    ensures |s| == 1 <==> n < 10
    ensures s[0] == '0' ==> n == 0
    decreases n
  {
    if n < 10 then [DigitChar(n)] else Decimal(n / 10) + [DigitChar(n % 10)]
  }

  /** The value of a string of decimal digits (the empty string reads as 0). */
  function ParseDecimal(s: string): nat
    requires AllDigits(s)
  {
    if s == [] then 0 else ParseDecimal(s[..|s| - 1]) * 10 + DigitValue(s[|s| - 1])
  }

  lemma {:induction false} ParseDecimalOfDecimal(n: nat)
    ensures ParseDecimal(Decimal(n)) == n
    decreases n
  {
    var s := Decimal(n);
    if n >= 10 {
      ParseDecimalOfDecimal(n / 10);
      assert s[..|s| - 1] == Decimal(n / 10);
    }
  }

  /** formatTime: minutes (unbounded), a colon, and the seconds part padded
      with a leading "0" when it is below 10. The result ends in a colon and
      exactly two digits, after the minutes numeral; FormatTimeShape gives
      the value of those two digits. */
  function FormatTime(seconds: nat): (t: string)
    ensures |t| >= 4 && t[|t| - 3] == ':'
    ensures t[..|t| - 3] == Decimal(seconds / 60)
    ensures AllDigits(t[|t| - 2..])
  {
    var minutes := seconds / 60;
    var secondsPart := seconds % 60;
    Decimal(minutes) + ":" + (if secondsPart < 10 then "0" else "") + Decimal(secondsPart)
  }

  /** Reads a "M:SS" text back: minutes are the digits before the colon, the
      seconds field is exactly the two digits after it and must be below 60. */
  function ParseTime(t: string): Option<nat>
  {
    if |t| < 4 || t[|t| - 3] != ':' then None
    else
      var m, f := t[..|t| - 3], t[|t| - 2..];
      if !AllDigits(m) || !AllDigits(f) then None
      else if ParseDecimal(f) >= 60 then None
      else Some(ParseDecimal(m) * 60 + ParseDecimal(f))
  }

  /** The seconds field is always two digits whose value is seconds mod 60, and
      it follows a colon that follows the minutes numeral. */
  lemma FormatTimeShape(seconds: nat)
    ensures var t := FormatTime(seconds);
      |t| >= 4 && t[|t| - 3] == ':'
      && t[..|t| - 3] == Decimal(seconds / 60)
      && AllDigits(t[|t| - 2..])
      && ParseDecimal(t[|t| - 2..]) == seconds % 60
  {
    var sec := seconds % 60;
    var field := (if sec < 10 then "0" else "") + Decimal(sec);
    var t := FormatTime(seconds);
    assert t == Decimal(seconds / 60) + ":" + field;
    ParseDecimalOfDecimal(sec);
    assert |field| == 2;
    if sec < 10 {
      assert field[..1] == "0" && field[1..] == Decimal(sec);
      assert ParseDecimal(field[..1]) == 0;
    }
    assert t[|t| - 2..] == field;
  }

  /** Parsing the minutes and the seconds field recovers the input. */
  lemma FormatTimeRoundTrip(seconds: nat)
    ensures ParseTime(FormatTime(seconds)) == Some(seconds)
  {
    FormatTimeShape(seconds);
    ParseDecimalOfDecimal(seconds / 60);
  }

  /** Distinct whole-second values are displayed differently. */
  lemma FormatTimeInjective(a: nat, b: nat)
    requires FormatTime(a) == FormatTime(b)
    ensures a == b
  {
    FormatTimeRoundTrip(a);
    FormatTimeRoundTrip(b);
  }

  lemma FormatTimeExamples()
    ensures FormatTime(0) == "0:00"
    ensures FormatTime(65) == "1:05"
    ensures FormatTime(3599) == "59:59"
  {
  }
}
