/** The `formattedTimer` getter: a count of seconds rendered as
    `minutes.toString().padStart(2, '0') + ":" + seconds.toString().padStart(2, '0')`. */
module TimerFormat {

  predicate IsDigit(c: char)
  {
    '0' <= c <= '9'
  }

  function DigitChar(d: nat): (c: char)
    requires d < 10
    ensures IsDigit(c)
  {
    ('0' as int + d) as char
  }

  function DigitValue(c: char): nat
  {
    if IsDigit(c) then c as int - '0' as int else 0
  }

  /** `Number.prototype.toString()` on a natural number: its decimal digits, no leading zero. */
  function Decimal(n: nat): (s: string)
    ensures 1 <= |s|
    ensures forall i :: 0 <= i < |s| ==> IsDigit(s[i])
    ensures s[0] == '0' <==> n == 0
    ensures |s| == 1 || s[0] != '0'
  {
    if n < 10 then [DigitChar(n)] else Decimal(n / 10) + [DigitChar(n % 10)]
  }

  /** The value a string of decimal digits denotes, most significant digit first. */
  function ParseDecimal(s: string): nat
  {
    if s == [] then 0 else ParseDecimal(s[..|s| - 1]) * 10 + DigitValue(s[|s| - 1])
  }

  /** `padStart(2, '0')`. */
  function PadStart2(s: string): string
  {
    if |s| == 0 then "00" else if |s| == 1 then "0" + s else s
  }

  /** `formattedTimer` applied to the timer's `count`. */
  function Format(count: nat): string
  {
    PadStart2(Decimal(count / 60)) + ":" + PadStart2(Decimal(count % 60))
  }

  lemma {:induction false} DecimalRoundTrip(n: nat)
    ensures ParseDecimal(Decimal(n)) == n
  {
    if n >= 10 {
      DecimalRoundTrip(n / 10);
      var s := Decimal(n);
      assert s[..|s| - 1] == Decimal(n / 10);
    }
  }

  /** A leading zero does not change the value. */
  lemma {:induction false} LeadingZero(s: string)
    ensures ParseDecimal("0" + s) == ParseDecimal(s)
  {
    if s != [] {
      LeadingZero(s[..|s| - 1]);
      assert ("0" + s)[..|"0" + s| - 1] == "0" + s[..|s| - 1];
    }
  }

  lemma PadStart2Meaning(s: string)
    ensures ParseDecimal(PadStart2(s)) == ParseDecimal(s)
    ensures |PadStart2(s)| == if |s| < 2 then 2 else |s|
    ensures (forall i :: 0 <= i < |s| ==> IsDigit(s[i])) ==>
              forall i :: 0 <= i < |PadStart2(s)| ==> IsDigit(PadStart2(s)[i])
  {
    if |s| == 0 {
      LeadingZero("0");
    } else if |s| == 1 {
      LeadingZero(s);
    }
  }

  /** Below 100 the decimal rendering has at most two digits, and below 60 it starts with 0..5 once padded. */
  lemma SecondsDigits(n: nat)
    requires n < 60
    ensures |PadStart2(Decimal(n))| == 2
    ensures '0' <= PadStart2(Decimal(n))[0] <= '5'
  {
    if n >= 10 {
      assert Decimal(n) == [DigitChar(n / 10)] + [DigitChar(n % 10)];
    }
  }

  /** The rendering splits at its third-last character, a colon, into a minutes part
      that denotes `count / 60` (never capped) and a two-digit seconds part in 00..59
      that denotes `count % 60`; every other character is a digit. */
  lemma FormatParts(count: nat)
    ensures var f := Format(count);
      && 5 <= |f|
      && f[|f| - 3] == ':'
      && ParseDecimal(f[..|f| - 3]) == count / 60
      && ParseDecimal(f[|f| - 2..]) == count % 60
      && '0' <= f[|f| - 2] <= '5'
      && (forall i :: 0 <= i < |f| && i != |f| - 3 ==> IsDigit(f[i]))
  {
    var m := PadStart2(Decimal(count / 60));
    var s := PadStart2(Decimal(count % 60));
    PadStart2Meaning(Decimal(count / 60));
    PadStart2Meaning(Decimal(count % 60));
    SecondsDigits(count % 60);
    DecimalRoundTrip(count / 60);
    DecimalRoundTrip(count % 60);
    var f := Format(count);
    assert f == m + ":" + s;
    assert f[..|f| - 3] == m;
    assert f[|f| - 2..] == s;
  }

  /** Reads a rendering back: minutes before the colon, seconds in the last two characters. */
  function Unformat(f: string): nat
    requires 3 <= |f|
  {
    60 * ParseDecimal(f[..|f| - 3]) + ParseDecimal(f[|f| - 2..])
  }

  /** Reading the rendering back gives the count. */
  lemma FormatRoundTrip(count: nat)
    ensures 3 <= |Format(count)| && Unformat(Format(count)) == count
  {
    FormatParts(count);
    MinutesSeconds(count);
  }

  /** A count is its minutes times 60 plus its seconds. */
  lemma MinutesSeconds(n: nat)
    ensures n == 60 * (n / 60) + n % 60
  {
  }

  /** Distinct counts render differently. */
  lemma FormatInjective(a: nat, b: nat)
    requires Format(a) == Format(b)
    ensures a == b
  {
    FormatRoundTrip(a);
    FormatRoundTrip(b);
  }

  lemma FormatExample()
    ensures Format(125) == "02:05"
  {
    assert Decimal(2) == "2";
    assert Decimal(5) == "5";
  }
}
