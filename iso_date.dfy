/**
 * Rendering dates as ISO 8601 calendar dates in the extended form YYYY-MM-DD
 * (section 5.2.1.1 of ISO 8601:2004), the form of the composition's keys, and
 * reading them back.
 */
module IsoDate {
  import opened Calendar
  import opened Wrappers
  import Lex

  function Pow10(n: nat): (p: nat)
    ensures p >= 1
  {
    if n == 0 then 1 else 10 * Pow10(n - 1)
  }

  predicate IsDigit(c: char)
  {
    '0' <= c <= '9'
  }

  predicate AllDigits(s: string)
  {
    forall i :: 0 <= i < |s| ==> IsDigit(s[i])
  }

  function DigitChar(n: int): (c: char)
    requires 0 <= n < 10
    ensures IsDigit(c) && c as int - '0' as int == n
  {
    (n + '0' as int) as char
  }

  /** n written in decimal with exactly `width` digits (leading zeros kept). */
  function Pad(n: nat, width: nat): (s: string)
    ensures |s| == width && AllDigits(s)
  {
    if width == 0 then "" else Pad(n / 10, width - 1) + [DigitChar(n % 10)]
  }

  /** The number a string of decimal digits denotes. */
  function DigitsValue(s: string): (v: nat)
    requires AllDigits(s)
    ensures v < Pow10(|s|)
  {
    if |s| == 0 then 0
    else DigitsValue(s[..|s| - 1]) * 10 + (s[|s| - 1] as int - '0' as int)
  }

  lemma {:induction false} ValueOfPad(n: nat, width: nat)
    requires n < Pow10(width)
    ensures DigitsValue(Pad(n, width)) == n
  {
    if width > 0 {
      var s := Pad(n, width);
      assert s[..|s| - 1] == Pad(n / 10, width - 1);
      ValueOfPad(n / 10, width - 1);
    }
  }

  lemma {:induction false} PadOfValue(s: string)
    requires AllDigits(s)
    ensures Pad(DigitsValue(s), |s|) == s
  {
    if |s| > 0 {
      var init := s[..|s| - 1];
      PadOfValue(init);
      assert DigitsValue(s) / 10 == DigitsValue(init);
      assert s == init + [s[|s| - 1]];
    }
  }

  /** One-digit strings sort as their digits. */
  lemma DigitOrder(x: nat, y: nat)
    requires x < 10 && y < 10
    ensures Lex.Less([DigitChar(x)], [DigitChar(y)]) <==> x < y
  {
    assert [DigitChar(x)][1..] == [] && [DigitChar(y)][1..] == [];
  }

  /** A number is its leading digits and its last digit. */
  lemma Split10(a: nat, b: nat)
    ensures a < b <==> a / 10 < b / 10 || (a / 10 == b / 10 && a % 10 < b % 10)
  {
  }

  /** Fixed-width decimal strings sort as the numbers they denote. */
  lemma {:induction false} PadOrder(a: nat, b: nat, width: nat)
    requires a < Pow10(width) && b < Pow10(width)
    ensures Lex.Less(Pad(a, width), Pad(b, width)) <==> a < b
  {
    if width > 0 {
      var pa, pb := Pad(a / 10, width - 1), Pad(b / 10, width - 1);
      Lex.LessAppend(pa, pb, [DigitChar(a % 10)], [DigitChar(b % 10)]);
      PadOrder(a / 10, b / 10, width - 1);
      ValueOfPad(a / 10, width - 1);
      ValueOfPad(b / 10, width - 1);
      assert pa == pb <==> a / 10 == b / 10;
      DigitOrder(a % 10, b % 10);
      Split10(a, b);
    }
  }

  /** The date as YYYY-MM-DD; defined for four-digit years. */
  function Format(d: Date): (s: string)
    requires 0 <= d.year < 10000
    ensures |s| == 10 && s[4] == '-' && s[7] == '-'
  {
    Pad(d.year, 4) + "-" + Pad(d.month, 2) + "-" + Pad(d.day, 2)
  }

  /** Reads YYYY-MM-DD; anything else, or a day the calendar lacks, is None. */
  function Parse(s: string): (r: Option<Date>)
    ensures r.Some? ==> 0 <= r.value.year < 10000
  {
    if |s| == 10 && s[4] == '-' && s[7] == '-'
       && AllDigits(s[..4]) && AllDigits(s[5..7]) && AllDigits(s[8..])
    then
      var d := Ymd(DigitsValue(s[..4]), DigitsValue(s[5..7]), DigitsValue(s[8..]));
      if ValidYmd(d) then Some(d) else None
    else None
  }

  /** Reading back a rendered date gives the date. */
  lemma ParseFormat(d: Date)
    requires 0 <= d.year < 10000
    ensures Parse(Format(d)) == Some(d)
  {
    var s := Format(d);
    assert s[..4] == Pad(d.year, 4);
    assert s[5..7] == Pad(d.month, 2);
    assert s[8..] == Pad(d.day, 2);
    ValueOfPad(d.year, 4);
    ValueOfPad(d.month, 2);
    ValueOfPad(d.day, 2);
  }

  /** Every string Parse accepts is the rendering of the date it yields. */
  lemma FormatParse(s: string)
    requires Parse(s).Some?
    ensures Format(Parse(s).value) == s
  {
    PadOfValue(s[..4]);
    PadOfValue(s[5..7]);
    PadOfValue(s[8..]);
    assert s == s[..4] + "-" + s[5..7] + "-" + s[8..];
  }

  /** Distinct dates render as distinct keys. */
  lemma FormatInjective(a: Date, b: Date)
    requires 0 <= a.year < 10000 && 0 <= b.year < 10000
    requires Format(a) == Format(b)
    ensures a == b
  {
    ParseFormat(a);
    ParseFormat(b);
  }

  /** The "-MM-DD" tail of a rendering sorts by month, then day. */
  lemma TailOrder(a: Date, b: Date)
    ensures Lex.Less("-" + Pad(a.month, 2) + "-" + Pad(a.day, 2), "-" + Pad(b.month, 2) + "-" + Pad(b.day, 2))
            <==> a.month < b.month || (a.month == b.month && a.day < b.day)
  {
    var ma, mb := Pad(a.month, 2), Pad(b.month, 2);
    var taila, tailb := "-" + Pad(a.day, 2), "-" + Pad(b.day, 2);
    assert "-" + ma + taila == "-" + (ma + taila);
    assert "-" + mb + tailb == "-" + (mb + tailb);
    assert "-" + ma + "-" + Pad(a.day, 2) == "-" + ma + taila;
    assert "-" + mb + "-" + Pad(b.day, 2) == "-" + mb + tailb;
    Lex.Irreflexive("-");
    Lex.LessAppend("-", "-", Pad(a.day, 2), Pad(b.day, 2));
    Lex.LessAppend(ma, mb, taila, tailb);
    Lex.LessAppend("-", "-", ma + taila, mb + tailb);
    PadOrder(a.month, b.month, 2);
    PadOrder(a.day, b.day, 2);
    ValueOfPad(a.month, 2);
    ValueOfPad(b.month, 2);
  }

  /** A rendering sorts by its four-digit year first, then by what follows. */
  lemma YearOrder(a: Date, b: Date, ra: string, rb: string)
    requires 0 <= a.year < 10000 && 0 <= b.year < 10000
    ensures Lex.Less(Pad(a.year, 4) + ra, Pad(b.year, 4) + rb)
            <==> a.year < b.year || (a.year == b.year && Lex.Less(ra, rb))
  {
    Lex.LessAppend(Pad(a.year, 4), Pad(b.year, 4), ra, rb);
    PadOrder(a.year, b.year, 4);
    ValueOfPad(a.year, 4);
    ValueOfPad(b.year, 4);
  }

  /**
   * Sorting rendered keys as strings sorts them chronologically, so the
   * source's `sorted(keys)` orders holding-start dates by date.
   */
  lemma FormatOrder(a: Date, b: Date)
    requires 0 <= a.year < 10000 && 0 <= b.year < 10000
    ensures Lex.Less(Format(a), Format(b)) <==> Before(a, b)
  {
    var resta := "-" + Pad(a.month, 2) + "-" + Pad(a.day, 2);
    var restb := "-" + Pad(b.month, 2) + "-" + Pad(b.day, 2);
    assert Format(a) == Pad(a.year, 4) + resta;
    assert Format(b) == Pad(b.year, 4) + restb;
    YearOrder(a, b, resta, restb);
    TailOrder(a, b);
    BeforeIsChronological(a, b);
  }
}
