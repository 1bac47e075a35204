/**
 * `calculateTime` (src/utils/AudioPlayer.jsx, and the identical copy in src/MusicPlayer.jsx)
 * over whole non-negative seconds, its inverse, and MusicPlayer's duration label.
 */
module TimeFormat {
  import opened Wrappers

  predicate IsDigit(c: char)
  {
    '0' <= c <= '9'
  }

  predicate AllDigits(s: string)
  {
    forall k :: 0 <= k < |s| ==> IsDigit(s[k])
  }

  function DigitChar(d: nat): (c: char)
    requires d < 10
    ensures IsDigit(c)
  {
    (d + '0' as int) as char
  }

  function DigitValue(c: char): (d: nat)
    requires IsDigit(c)
    ensures d < 10
  {
    (c as int - '0' as int)
  }

  /** How a JavaScript template literal renders a non-negative integer: decimal, no leading zero. */
  function Decimal(n: nat): (s: string)
    ensures 1 <= |s| && AllDigits(s)
    ensures |s| == 1 <==> n < 10
    ensures n < 100 ==> |s| <= 2
    ensures n >= 10 ==> s[0] != '0'
  {
    if n < 10 then [DigitChar(n)] else Decimal(n / 10) + [DigitChar(n % 10)]
  }

  /** Reads a string of decimal digits. */
  function ParseDecimal(s: string): nat
    requires AllDigits(s)
  {
    if s == [] then 0 else ParseDecimal(s[..|s| - 1]) * 10 + DigitValue(s[|s| - 1])
  }

  lemma {:induction false} ParseDecimalOfDecimal(n: nat)
    ensures ParseDecimal(Decimal(n)) == n
  {
    if n >= 10 {
      var s := Decimal(n);
      assert s[..|s| - 1] == Decimal(n / 10);
      ParseDecimalOfDecimal(n / 10);
    }
  }

  /** A leading zero does not change the value read. */
  lemma {:induction false} ParseDecimalLeadingZero(s: string)
    requires AllDigits(s)
    ensures ParseDecimal("0" + s) == ParseDecimal(s)
  {
    if s != [] {
      var t := "0" + s;
      assert t[..|t| - 1] == "0" + s[..|s| - 1];
      ParseDecimalLeadingZero(s[..|s| - 1]);
    }
  }

  /** `n < 10 ? "0" + n : "" + n`. */
  function Pad2(n: nat): (r: string)
    ensures AllDigits(r) && |r| >= 2
    ensures n < 100 ==> |r| == 2
    ensures n >= 10 ==> r == Decimal(n)
  {
    if n < 10 then "0" + Decimal(n) else Decimal(n)
  }

  /** The padded field reads back as `n`. */
  lemma Pad2Reads(n: nat)
    ensures ParseDecimal(Pad2(n)) == n
  {
    ParseDecimalOfDecimal(n);
    if n < 10 {
      ParseDecimalLeadingZero(Decimal(n));
    }
  }

  /** `calculateTime(secs)`: minutes, then seconds, each padded to two digits. */
  function CalculateTime(secs: nat): (t: string)
    ensures |t| >= 5 && t[|t| - 3] == ':'
    ensures forall k :: 0 <= k < |t| && k != |t| - 3 ==> IsDigit(t[k])
    ensures secs < 6000 ==> |t| == 5
  {
    Pad2(secs / 60) + ":" + Pad2(secs % 60)
  }

  /** Reads an `MM:SS` label: at least two digits of minutes, a colon, two digits of seconds
   *  below 60. */
  function ParseTime(t: string): Option<nat>
  {
    if |t| >= 5 && t[|t| - 3] == ':' && AllDigits(t[..|t| - 3]) && AllDigits(t[|t| - 2..]) then
      var ss := ParseDecimal(t[|t| - 2..]);
      if ss < 60 then Some(ParseDecimal(t[..|t| - 3]) * 60 + ss) else None
    else
      None
  }

  /** The fields of a label: the text before the colon is the padded minutes `secs / 60`, the
   *  last two characters the padded seconds `secs % 60`. */
  lemma CalculateTimeShape(secs: nat)
    ensures var t := CalculateTime(secs);
      && t[..|t| - 3] == Pad2(secs / 60)
      && t[|t| - 2..] == Pad2(secs % 60)
  {
  }

  /** Reading the label back gives the seconds it was made from. */
  lemma CalculateTimeRoundTrip(secs: nat)
    ensures ParseTime(CalculateTime(secs)) == Some(secs)
  {
    CalculateTimeShape(secs);
    Pad2Reads(secs / 60);
    Pad2Reads(secs % 60);
  }

  /** Distinct second counts give distinct labels. */
  lemma CalculateTimeInjective(a: nat, b: nat)
    requires CalculateTime(a) == CalculateTime(b)
    ensures a == b
  {
    CalculateTimeRoundTrip(a);
    CalculateTimeRoundTrip(b);
  }

  /** `Math.floor(audio.duration)`: NaN before the metadata has loaded. */
  datatype Duration = NotANumber | Whole(secs: nat)

  /** `duration && !isNaN(duration) ? calculateTime(duration) : "..."`. */
  function DurationLabel(d: Duration): (shown: string)
    ensures shown == "..." <==> d.NotANumber? || d.secs == 0
    ensures shown != "..." ==> ParseTime(shown) == Some(d.secs)
  {
    if d.Whole? && d.secs != 0 then
      CalculateTimeRoundTrip(d.secs);
      CalculateTime(d.secs)
    else
      "..."
  }
}
