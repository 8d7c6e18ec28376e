/**
 * The countdown display: `formatTime` renders a number of seconds as
 * minutes and seconds, each zero-padded to two characters, separated by ':'.
 * ParseTime reads such a display back; on the displays it accepts (the
 * canonical ones) it is the inverse of FormatTime in both directions.
 */
module TimeFormat {

  datatype Option<T> = None | Some(value: T)

  predicate IsDigit(c: char) { '0' <= c <= '9' }

  predicate AllDigits(s: string) { forall i :: 0 <= i < |s| ==> IsDigit(s[i]) }

  function DigitChar(d: nat): (c: char)
    requires d < 10
    ensures IsDigit(c) && DigitValue(c) == d
  {
    ('0' as int + d) as char
  }

  function DigitValue(c: char): nat
    requires IsDigit(c)
  {
    c as int - '0' as int
  }

  /** The number a string of decimal digits denotes (leading zeros allowed). */
  function ValueOf(s: string): nat
    requires AllDigits(s)
  {
    if s == [] then 0 else ValueOf(s[..|s| - 1]) * 10 + DigitValue(s[|s| - 1])
  }

  /** `n.toString()` for a non-negative integer: decimal digits, no leading zero. */
  function ToDecimal(n: nat): (r: string)
    ensures |r| >= 1 && AllDigits(r) && ValueOf(r) == n
    ensures |r| > 1 ==> r[0] != '0'
    ensures |r| == 1 <==> n < 10
    ensures n < 100 ==> |r| <= 2
  {
    if n < 10 then [DigitChar(n)]
    else
      var front := ToDecimal(n / 10);
      var r := front + [DigitChar(n % 10)];
      assert r[..|r| - 1] == front;
      r
  }

  /** `k` copies of the character `c`. */
  function Repeat(k: nat, c: char): (r: string)
    ensures |r| == k && forall i :: 0 <= i < k ==> r[i] == c
  {
    if k == 0 then [] else [c] + Repeat(k - 1, c)
  }

  /** `s.padStart(width, c)` with a one-character pad string. */
  function PadStart(s: string, width: nat, c: char): (r: string)
    ensures |r| == if |s| >= width then |s| else width
    ensures r[|r| - |s|..] == s
    ensures forall i :: 0 <= i < |r| - |s| ==> r[i] == c
  {
    if |s| >= width then s else Repeat(width - |s|, c) + s
  }

  /**
   * A field as the display writes it: at least two digits, and a leading
   * zero only as padding of a two-character field.
   */
  predicate IsField(f: string)
  {
    |f| >= 2 && AllDigits(f) && (|f| > 2 ==> f[0] != '0')
  }

  /** One field of the display: `n.toString().padStart(2, '0')`. */
  function Field(n: nat): (r: string)
    ensures IsField(r) && ValueOf(r) == n
    ensures |r| == if n < 10 then 2 else |ToDecimal(n)|
    ensures n < 100 ==> |r| == 2
  {
    var d := ToDecimal(n);
    PadKeepsValue(d, 2);
    PadStart(d, 2, '0')
  }

  /** `formatTime` for a non-negative number of seconds: `mm:ss`. */
  function FormatTime(seconds: nat): (r: string)
    ensures |r| >= 5 && r[|r| - 3] == ':'
    ensures AllDigits(r[..|r| - 3]) && AllDigits(r[|r| - 2..])
    ensures seconds < 6000 ==> |r| == 5 && r[2] == ':'
  {
    var mm, ss := Field(seconds / 60), Field(seconds % 60);
    Split(mm, ss);
    mm + ":" + ss
  }

  /** Where the two fields sit in `mm + ":" + ss`. */
  lemma Split(mm: string, ss: string)
    requires |ss| == 2
    ensures var r := mm + ":" + ss;
      r[..|r| - 3] == mm && r[|r| - 3] == ':' && r[|r| - 2..] == ss
  {
  }

  /**
   * Reads a display back: a minutes field (at least two digits, no leading
   * zero beyond the padding), ':', exactly two second digits denoting less
   * than 60. Anything else is rejected.
   */
  function ParseTime(t: string): (r: Option<nat>)
  {
    if |t| < 5 || t[|t| - 3] != ':' then None
    else
      var mm, ss := t[..|t| - 3], t[|t| - 2..];
      if IsField(mm) && AllDigits(ss) && ValueOf(ss) < 60
      then Some(ValueOf(mm) * 60 + ValueOf(ss))
      else None
  }

  /** Zeros in front of a digit string do not change its value. */
  lemma {:induction false} LeadingZeros(k: nat, s: string)
    requires AllDigits(s)
    ensures AllDigits(Repeat(k, '0') + s)
    ensures ValueOf(Repeat(k, '0') + s) == ValueOf(s)
  {
    if k > 0 {
      var rest := Repeat(k - 1, '0') + s;
      LeadingZeros(k - 1, s);
      LeadingZero(rest);
      assert Repeat(k, '0') + s == ['0'] + rest;
      assert ValueOf(['0'] + rest) == ValueOf(rest) == ValueOf(s);
    } else {
      assert Repeat(k, '0') + s == s;
    }
  }

  lemma {:induction false} LeadingZero(s: string)
    requires AllDigits(s)
    ensures AllDigits(['0'] + s) && ValueOf(['0'] + s) == ValueOf(s)
  {
    var z := ['0'] + s;
    if s != [] {
      assert z[..|z| - 1] == ['0'] + s[..|s| - 1];
      LeadingZero(s[..|s| - 1]);
    } else {
      assert z[..|z| - 1] == [];
    }
  }

  /** Padding with '0' keeps the value of a digit string. */
  lemma PadKeepsValue(s: string, width: nat)
    requires AllDigits(s)
    ensures AllDigits(PadStart(s, width, '0'))
    ensures ValueOf(PadStart(s, width, '0')) == ValueOf(s)
  {
    if |s| < width {
      LeadingZeros(width - |s|, s);
    }
  }

  /** `t` is `mm:ss` with a minutes field of value `mins` and a two-digit seconds field of value `secs`. */
  predicate Shows(t: string, mins: nat, secs: nat)
  {
    |t| >= 5 && t[|t| - 3] == ':' &&
    IsField(t[..|t| - 3]) && AllDigits(t[|t| - 2..]) &&
    ValueOf(t[..|t| - 3]) == mins && ValueOf(t[|t| - 2..]) == secs
  }

  /**
   * The two fields of the display: the minutes field has at least two digits,
   * no leading zero beyond the padding, and shows `seconds / 60`; the seconds
   * field has exactly two digits and shows `seconds % 60`.
   */
  lemma FormatTimeFields(seconds: nat)
    ensures Shows(FormatTime(seconds), seconds / 60, seconds % 60)
  {
    FieldsShown(seconds / 60, seconds % 60);
  }

  /** Two padded fields joined by ':' show their values when the seconds field is below 60. */
  lemma FieldsShown(mins: nat, secs: nat)
    requires secs < 60
    ensures Shows(Field(mins) + ":" + Field(secs), mins, secs)
  {
    Split(Field(mins), Field(secs));
  }

  /** Reading the display back yields the number of seconds it shows. */
  lemma FormatParseRoundTrip(seconds: nat)
    ensures ParseTime(FormatTime(seconds)) == Some(seconds)
  {
    FormatTimeFields(seconds);
    ParseShown(FormatTime(seconds), seconds);
  }

  /** A display of `seconds / 60` minutes and `seconds % 60` seconds reads back as `seconds`. */
  lemma ParseShown(t: string, seconds: nat)
    requires Shows(t, seconds / 60, seconds % 60)
    ensures ParseTime(t) == Some(seconds)
  {
  }

  /** A field as the display writes it is the field of its own value. */
  lemma FieldOfValue(f: string)
    requires IsField(f)
    ensures Field(ValueOf(f)) == f
  {
    if f[0] == '0' {
      assert |f| == 2;
      var d := f[1..];
      assert f == [f[0]] + d;
      LeadingZero(d);
      CanonicalDecimal(d);
      assert Repeat(1, '0') == ['0'];
    } else {
      CanonicalDecimal(f);
    }
  }

  /** A digit string without a leading zero is the decimal text of its value. */
  lemma {:induction false} CanonicalDecimal(d: string)
    requires |d| >= 1 && AllDigits(d) && (|d| > 1 ==> d[0] != '0')
    ensures ToDecimal(ValueOf(d)) == d
    decreases |d|
  {
    var front, c := d[..|d| - 1], d[|d| - 1];
    assert d == front + [c];
    if |d| == 1 {
      assert DigitChar(DigitValue(c)) == c;
    } else {
      CanonicalDecimal(front);
      LeadingDigitPositive(front);
      var n := ValueOf(d);
      assert n == ValueOf(front) * 10 + DigitValue(c);
      assert n / 10 == ValueOf(front) && n % 10 == DigitValue(c);
      assert DigitChar(DigitValue(c)) == c;
    }
  }

  /** A digit string that does not start with '0' denotes a positive number. */
  lemma {:induction false} LeadingDigitPositive(d: string)
    requires |d| >= 1 && AllDigits(d) && d[0] != '0'
    ensures ValueOf(d) >= 1
    decreases |d|
  {
    if |d| > 1 {
      LeadingDigitPositive(d[..|d| - 1]);
    }
  }

  /** Every display that ParseTime accepts is exactly what FormatTime writes for its value. */
  lemma ParseFormatRoundTrip(t: string, seconds: nat)
    requires ParseTime(t) == Some(seconds)
    ensures FormatTime(seconds) == t
  {
    AcceptedShows(t, seconds);
    ShownIsFields(t, seconds / 60, seconds % 60);
  }

  /** A display ParseTime accepts shows the minutes and seconds of its value. */
  lemma AcceptedShows(t: string, seconds: nat)
    requires ParseTime(t) == Some(seconds)
    ensures Shows(t, seconds / 60, seconds % 60)
  {
    var mins, secs := ValueOf(t[..|t| - 3]), ValueOf(t[|t| - 2..]);
    Divide60(seconds, mins, secs);
  }

  lemma Divide60(seconds: nat, mins: nat, secs: nat)
    requires seconds == mins * 60 + secs && secs < 60
    ensures seconds / 60 == mins && seconds % 60 == secs
  {
  }

  /** A display that shows `mins` and `secs` is made of their two fields. */
  lemma ShownIsFields(t: string, mins: nat, secs: nat)
    requires Shows(t, mins, secs)
    ensures t == Field(mins) + ":" + Field(secs)
  {
    var mm, ss := t[..|t| - 3], t[|t| - 2..];
    FieldOfValue(mm);
    FieldOfValue(ss);
    Join(t);
  }

  /** A string with ':' third from the end is its two sides joined by ':'. */
  lemma Join(t: string)
    requires |t| >= 3 && t[|t| - 3] == ':'
    ensures t == t[..|t| - 3] + ":" + t[|t| - 2..]
  {
  }

  /** Different numbers of seconds are never displayed alike. */
  lemma FormatTimeInjective(a: nat, b: nat)
    requires FormatTime(a) == FormatTime(b)
    ensures a == b
  {
    FormatParseRoundTrip(a);
    FormatParseRoundTrip(b);
  }
}
