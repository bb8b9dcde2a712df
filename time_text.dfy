/**
 * The clock text the watch face draws: `%d:%02d` (hour and minute) in
 * ambient mode and `%d:%02d:%02d` (hour, minute and second) in interactive
 * mode, the hour unpadded and the minute and second zero-padded to two digits.
 * A parser for that text is the formatter's partner: it reads back exactly
 * the fields that were formatted.
 */
module TimeText {
  import opened Wrappers

  /** The decimal digit character for `d`. */
  function DigitChar(d: nat): (c: char)
    requires d < 10
    ensures '0' <= c <= '9'
  {
    ('0' as int + d) as char
  }

  predicate IsDigit(c: char) {
    '0' <= c <= '9'
  }

  function DigitValue(c: char): (d: nat)
    requires IsDigit(c)
    ensures d < 10 && DigitChar(d) == c
    ensures forall e :: 0 <= e < 10 && DigitChar(e) == c ==> e == d
  {
    (c as int - '0' as int) as nat
  }

  /**
   * `%d` of a non-negative int in a locale whose digits are `'0'` to `'9'`:
   * its decimal digits, with no leading zero.
   */
  function DecimalString(n: nat): (s: string)
    ensures |s| >= 1
    ensures n < 10 <==> |s| == 1
    ensures 10 <= n < 100 ==> |s| == 2
    ensures forall i :: 0 <= i < |s| ==> IsDigit(s[i])
    ensures s[0] == '0' ==> n == 0
    decreases n
  {
    if n < 10 then [DigitChar(n)] else DecimalString(n / 10) + [DigitChar(n % 10)]
  }

  /**
   * `%02d` of a non-negative int in a locale whose digits are `'0'` to `'9'`:
   * at least two digits, padded with a leading zero.
   */
  function Pad2(n: nat): (s: string)
    ensures forall i :: 0 <= i < |s| ==> IsDigit(s[i])
    ensures n < 100 ==> |s| == 2
    ensures n >= 10 ==> s == DecimalString(n)
  {
    if n < 10 then "0" + DecimalString(n) else DecimalString(n)
  }

  /** The number a non-empty string of digits denotes (leading zeros allowed). */
  function DigitsValue(s: string): nat
    requires forall i :: 0 <= i < |s| ==> IsDigit(s[i])
    decreases |s|
  {
    if s == [] then 0 else DigitsValue(s[..|s| - 1]) * 10 + DigitValue(s[|s| - 1])
  }

  /** Reads back a decimal number, or None when `s` is empty or holds a non-digit. */
  function ParseDecimal(s: string): Option<nat>
  {
    if s != [] && forall i :: 0 <= i < |s| ==> IsDigit(s[i]) then Some(DigitsValue(s)) else None
  }

  lemma {:induction false} DecimalStringRoundTrip(n: nat)
    ensures ParseDecimal(DecimalString(n)) == Some(n)
    decreases n
  {
    var s := DecimalString(n);
    if n < 10 {
      assert s[..0] == [];
      assert DigitValue(DigitChar(n)) == n;
    } else {
      DecimalStringRoundTrip(n / 10);
      assert s[..|s| - 1] == DecimalString(n / 10);
      assert DigitValue(DigitChar(n % 10)) == n % 10;
      assert DigitsValue(s) == (n / 10) * 10 + n % 10;
    }
  }

  lemma Pad2RoundTrip(n: nat)
    ensures ParseDecimal(Pad2(n)) == Some(n)
  {
    DecimalStringRoundTrip(n);
    if n < 10 {
      var s := Pad2(n);
      assert s[..|s| - 1] == "0";
      assert "0"[..0] == [];
      assert DigitsValue("0") == 0;
      assert DigitValue(DigitChar(n)) == n;
    }
  }

  /** The fields of a clock text; `second` is None for the ambient form. */
  datatype ClockFields = ClockFields(hour: nat, minute: nat, second: Option<nat>)

  /** The text drawn for the time of day `hour:minute:second`. */
  function FormatTime(hour: nat, minute: nat, second: nat, ambient: bool): (t: string)
    ensures ambient ==> |t| == |DecimalString(hour)| + 1 + |Pad2(minute)|
    ensures !ambient ==> |t| == |DecimalString(hour)| + 2 + |Pad2(minute)| + |Pad2(second)|
  {
    var hm := DecimalString(hour) + ":" + Pad2(minute);
    if ambient then hm else hm + ":" + Pad2(second)
  }

  /** The index of the first `:` in `t`, or |t| when there is none. */
  function ColonIndex(t: string): (i: nat)
    ensures i <= |t|
    ensures forall j :: 0 <= j < i ==> t[j] != ':'
    ensures i < |t| ==> t[i] == ':'
    decreases |t|
  {
    if t == [] || t[0] == ':' then 0 else 1 + ColonIndex(t[1..])
  }

  /** Reads a clock text back into its fields: two digits after each colon, one or two colons. */
  function ParseTime(t: string): Option<ClockFields>
  {
    var i := ColonIndex(t);
    if i + 3 > |t| then None
    else
      match (ParseDecimal(t[..i]), ParseDecimal(t[i + 1..i + 3]))
      case (Some(h), Some(m)) =>
        if |t| == i + 3 then Some(ClockFields(h, m, None))
        else if |t| == i + 6 && t[i + 3] == ':' then
          match ParseDecimal(t[i + 4..i + 6])
          case Some(sec) => Some(ClockFields(h, m, Some(sec)))
          case None => None
        else None
      case _ => None
  }

  lemma {:induction false} ColonIndexAfterDigits(d: string, rest: string)
    requires forall i :: 0 <= i < |d| ==> IsDigit(d[i])
    requires rest != [] && rest[0] == ':'
    ensures ColonIndex(d + rest) == |d|
    decreases |d|
  {
    if d != [] {
      assert (d + rest)[1..] == d[1..] + rest;
      ColonIndexAfterDigits(d[1..], rest);
    }
  }

  /**
   * Formatting then parsing gives back the hour and minute, and the second
   * exactly in interactive mode.  Minutes and seconds below 100 (a time of
   * day's are below 62) pad to exactly two digits, which is what lets the
   * parser find the field boundaries.
   */
  lemma FormatTimeRoundTrip(hour: nat, minute: nat, second: nat, ambient: bool)
    requires minute < 100 && second < 100
    ensures ParseTime(FormatTime(hour, minute, second, ambient))
         == Some(ClockFields(hour, minute, if ambient then None else Some(second)))
  {
    var h, m, s := DecimalString(hour), Pad2(minute), Pad2(second);
    var t := FormatTime(hour, minute, second, ambient);
    var rest := if ambient then ":" + m else ":" + m + ":" + s;
    assert t == h + rest;
    ColonIndexAfterDigits(h, rest);
    var i := |h|;
    assert t[..i] == h;
    assert t[i + 1..i + 3] == m;
    DecimalStringRoundTrip(hour);
    Pad2RoundTrip(minute);
    if !ambient {
      assert t[i + 4..i + 6] == s;
      Pad2RoundTrip(second);
    }
  }

  /** The interactive text is the ambient text followed by `:` and the padded second. */
  lemma InteractiveExtendsAmbient(hour: nat, minute: nat, second: nat)
    ensures FormatTime(hour, minute, second, false) == FormatTime(hour, minute, second, true) + ":" + Pad2(second)
  {
  }

  /** The example 9:05:03. */
  lemma FormatTimeExample()
    ensures FormatTime(9, 5, 3, false) == "9:05:03"
    ensures FormatTime(9, 5, 3, true) == "9:05"
  {
  }
}
