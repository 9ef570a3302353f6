/** format_time of main.py: a count of seconds shown as minutes and seconds,
    each zero-padded to at least two digits (Python's `{n:02}`), separated by ':'. */
module TimeFormat {

  import opened Wrappers

  predicate IsDigit(c: char)
  {
    '0' <= c <= '9'
  }

  predicate AllDigits(s: string)
  {
    forall i :: 0 <= i < |s| ==> IsDigit(s[i])
  }

  function DigitChar(d: nat): (c: char)
    requires d < 10
  {
    ('0' as int + d) as char
  }

  function DigitValue(c: char): nat
    requires IsDigit(c)
  {
    c as int - '0' as int
  }

  /** The number a string of decimal digits denotes (leading zeros allowed). */
  function Value(s: string): nat
    requires AllDigits(s)
  {
    if s == [] then 0 else Value(s[..|s| - 1]) * 10 + DigitValue(s[|s| - 1])
  }

  /** Python's str(n) for a non-negative int: decimal digits, no leading zero. */
  function Decimal(n: nat): (r: string)
    ensures AllDigits(r) && |r| >= 1
    ensures n < 10 <==> |r| == 1
    ensures n < 100 ==> |r| <= 2
    ensures |r| > 1 ==> r[0] != '0'
    ensures Value(r) == n
    decreases n
  {
    if n < 10 then [DigitChar(n)]
    else
      var prefix := Decimal(n / 10);
      var r := prefix + [DigitChar(n % 10)];
      assert r[..|r| - 1] == prefix;
      r
  }

  /** `{n:02}`: at least two digits, padded on the left with '0'. */
  function Pad2(n: nat): (r: string)
    ensures AllDigits(r) && Value(r) == n
    ensures |r| >= 2
    ensures n < 100 ==> |r| == 2
    ensures |r| > 2 ==> r[0] != '0'
  {
    if n < 10 then
      var r := ['0'] + Decimal(n);
      assert r[..|r| - 1] == ['0'];
      r
    else Decimal(n)
  }

  /** f"{mins:02}:{secs:02}" with mins, secs = divmod(seconds, 60). */
  function FormatTime(seconds: nat): (r: string)
    ensures |r| >= 5 && r[|r| - 3] == ':'
    ensures AllDigits(r[..|r| - 3]) && AllDigits(r[|r| - 2..])
    ensures Value(r[|r| - 2..]) < 60
    ensures Value(r[..|r| - 3]) * 60 + Value(r[|r| - 2..]) == seconds
    ensures |r| > 5 ==> r[0] != '0'
  {
    var mins := Pad2(seconds / 60);
    var secs := Pad2(seconds % 60);
    var r := mins + ":" + secs;
    assert r[..|r| - 3] == mins;
    assert r[|r| - 2..] == secs;
    r
  }

  /** Reads "MM:SS" text back: the minutes before the last ':' and the two
      seconds digits after it. */
  function ParseTime(text: string): (result: Option<nat>)
  {
    if |text| >= 5 && text[|text| - 3] == ':' && AllDigits(text[..|text| - 3]) && AllDigits(text[|text| - 2..])
    then Some(Value(text[..|text| - 3]) * 60 + Value(text[|text| - 2..]))
    else None
  }

  /** Well-formed text reads back as its minutes field times 60 plus its seconds field. */
  lemma ParseFields(text: string)
    requires |text| >= 5 && text[|text| - 3] == ':'
    requires AllDigits(text[..|text| - 3]) && AllDigits(text[|text| - 2..])
    ensures ParseTime(text) == Some(Value(text[..|text| - 3]) * 60 + Value(text[|text| - 2..]))
  {
  }

  /** Reading the text back gives the seconds that were formatted. */
  lemma ParseFormatRoundTrip(seconds: nat)
    ensures ParseTime(FormatTime(seconds)) == Some(seconds)
  {
    var text := FormatTime(seconds);
    ParseFields(text);
  }

  /** The text shown for a 50-second step. */
  lemma FormatFiftySeconds()
    ensures FormatTime(50) == "00:50"
  {
    assert Decimal(0) == "0" && Decimal(5) == "5";
    assert Pad2(0) == "00";
    assert Decimal(50) == "50";
    assert Pad2(50) == "50";
    assert 50 / 60 == 0 && 50 % 60 == 50;
  }

  /** The text shown one second after the default work time starts. */
  lemma FormatJustStarted()
    ensures FormatTime(1499) == "24:59"
  {
    assert Decimal(2) == "2" && Decimal(5) == "5";
    assert Decimal(24) == "24" && Decimal(59) == "59";
    assert Pad2(24) == "24" && Pad2(59) == "59";
    assert 1499 / 60 == 24 && 1499 % 60 == 59;
  }

  /** Minutes are not capped at two digits. */
  lemma FormatHundredMinutes()
    ensures FormatTime(6000) == "100:00"
  {
    assert Decimal(0) == "0" && Decimal(1) == "1";
    assert Decimal(10) == "10";
    assert Decimal(100) == "100";
    assert Pad2(100) == "100" && Pad2(0) == "00";
    assert 6000 / 60 == 100 && 6000 % 60 == 0;
  }
}
