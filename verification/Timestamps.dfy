/** Stored times are text. Two parts of the program compare them: queries compare
    the text, the stale-observation guard compares the instants. */
module Timestamps {
  import opened TextOrder
  import opened Strings

  /** A UTC instant with microseconds. */
  datatype Instant = Instant(year: nat, month: nat, day: nat, hour: nat, minute: nat, second: nat, micro: nat)

  predicate Leap(year: nat) {
    year % 4 == 0 && (year % 100 != 0 || year % 400 == 0)
  }

  function DaysIn(year: nat, month: nat): nat {
    if month == 2 then (if Leap(year) then 29 else 28)
    else if month in {4, 6, 9, 11} then 30 else 31
  }

  predicate Valid(t: Instant) {
    && 1 <= t.year <= 9999 && 1 <= t.month <= 12 && 1 <= t.day <= DaysIn(t.year, t.month)
    && t.hour < 24 && t.minute < 60 && t.second < 60 && t.micro < 1_000_000
  }

  // -------------------------------------------------------------- the text

  function Digit(n: nat): char
    requires n < 10
  {
    '0' + n as char
  }

  /** `n` in decimal, `width` digits wide. */
  function Pad(n: nat, width: nat): string
    decreases width
  {
    if width == 0 then "" else Pad(n / 10, width - 1) + [Digit(n % 10)]
  }

  function Fraction(micro: nat): string {
    if micro == 0 then "" else "." + Pad(micro, 6)
  }

  /** The ISO form with the `+00:00` suffix; a zero fraction is left out. */
  function Text(t: Instant): string {
    Pad(t.year, 4) + ("-" + (Pad(t.month, 2) + ("-" + (Pad(t.day, 2) + ("T" +
    (Pad(t.hour, 2) + (":" + (Pad(t.minute, 2) + (":" + (Pad(t.second, 2) +
    (Fraction(t.micro) + "+00:00")))))))))))
  }

  function Pow10(width: nat): nat {
    if width == 0 then 1 else 10 * Pow10(width - 1)
  }

  lemma {:induction false} PadOrder(a: nat, b: nat, width: nat)
    requires a < Pow10(width) && b < Pow10(width)
    ensures |Pad(a, width)| == |Pad(b, width)| == width
    ensures Before(Pad(a, width), Pad(b, width)) <==> a < b
    ensures Pad(a, width) == Pad(b, width) <==> a == b
    decreases width
  {
    if width > 0 {
      PadOrder(a / 10, b / 10, width - 1);
      FieldsFirst(Pad(a / 10, width - 1), Pad(b / 10, width - 1), [Digit(a % 10)], [Digit(b % 10)]);
      assert Pad(a, width)[..width - 1] == Pad(a / 10, width - 1) && Pad(a, width)[width - 1] == Digit(a % 10);
      assert Pad(b, width)[..width - 1] == Pad(b / 10, width - 1) && Pad(b, width)[width - 1] == Digit(b % 10);
      assert a == 10 * (a / 10) + a % 10 && b == 10 * (b / 10) + b % 10;
    }
  }

  /** A padded number reads as itself. */
  lemma {:induction false} PadReads(n: nat, width: nat)
    requires n < Pow10(width)
    ensures Reading(Pad(n, width)) == n && |Pad(n, width)| == width
    decreases width
  {
    if width > 0 {
      PadReads(n / 10, width - 1);
      assert Pad(n, width)[..|Pad(n, width)| - 1] == Pad(n / 10, width - 1);
    }
  }

  /** A decimal field, then a separator, then the rest. */
  lemma FieldOrder(a: nat, b: nat, width: nat, sep: string, x: string, y: string)
    requires a < Pow10(width) && b < Pow10(width)
    ensures Before(Pad(a, width) + (sep + x), Pad(b, width) + (sep + y)) <==> a < b || (a == b && Before(x, y))
  {
    PadOrder(a, b, width);
    FieldsFirst(Pad(a, width), Pad(b, width), sep + x, sep + y);
    FieldsFirst(sep, sep, x, y);
    NotBeforeItself(sep);
  }

  /** No fraction comes before any fraction, since '+' comes before '.'. */
  lemma {:induction false} FractionOrder(a: nat, b: nat)
    requires a < 1_000_000 && b < 1_000_000
    ensures Before(Fraction(a) + "+00:00", Fraction(b) + "+00:00") <==> a < b
  {
    hide Pad;
    assert Pow10(6) == 1_000_000;
    PadOrder(a, b, 6);
    NotBeforeItself("+00:00");
    assert "" + "+00:00" == "+00:00";
    if a > 0 && b > 0 {
      FieldsFirst(".", ".", Pad(a, 6), Pad(b, 6));
      FieldsFirst(Fraction(a), Fraction(b), "+00:00", "+00:00");
      NotBeforeItself(".");
    }
  }

  /** Field by field, from the year down. */
  predicate Sooner(a: Instant, b: Instant) {
    a.year < b.year || (a.year == b.year &&
    (a.month < b.month || (a.month == b.month &&
    (a.day < b.day || (a.day == b.day &&
    (a.hour < b.hour || (a.hour == b.hour &&
    (a.minute < b.minute || (a.minute == b.minute &&
    (a.second < b.second || (a.second == b.second && a.micro < b.micro)))))))))))
  }

  function FromSeconds(t: Instant): string { Pad(t.second, 2) + (Fraction(t.micro) + "+00:00") }

  function FromHours(t: Instant): string {
    Pad(t.hour, 2) + (":" + (Pad(t.minute, 2) + (":" + FromSeconds(t))))
  }

  lemma SecondsOrder(a: Instant, b: Instant)
    requires Valid(a) && Valid(b)
    ensures Before(FromSeconds(a), FromSeconds(b)) <==>
              a.second < b.second || (a.second == b.second && a.micro < b.micro)
  {
    assert Pow10(2) == 100;
    FractionOrder(a.micro, b.micro);
    PadOrder(a.second, b.second, 2);
    FieldsFirst(Pad(a.second, 2), Pad(b.second, 2), Fraction(a.micro) + "+00:00", Fraction(b.micro) + "+00:00");
  }

  lemma HoursOrder(a: Instant, b: Instant)
    requires Valid(a) && Valid(b)
    ensures Before(FromHours(a), FromHours(b)) <==>
              a.hour < b.hour || (a.hour == b.hour && (a.minute < b.minute || (a.minute == b.minute &&
              (a.second < b.second || (a.second == b.second && a.micro < b.micro)))))
  {
    hide FromSeconds;
    assert Pow10(2) == 100;
    SecondsOrder(a, b);
    FieldOrder(a.minute, b.minute, 2, ":", FromSeconds(a), FromSeconds(b));
    FieldOrder(a.hour, b.hour, 2, ":", Pad(a.minute, 2) + (":" + FromSeconds(a)),
               Pad(b.minute, 2) + (":" + FromSeconds(b)));
  }

  lemma TextIsSooner(a: Instant, b: Instant)
    requires Valid(a) && Valid(b)
    ensures Before(Text(a), Text(b)) <==> Sooner(a, b)
  {
    hide Before, Pad;
    assert Pow10(2) == 100 && Pow10(4) == 10_000;
    HoursOrder(a, b);
    var x, y := FromHours(a), FromHours(b);
    assert Text(a) == Pad(a.year, 4) + ("-" + (Pad(a.month, 2) + ("-" + (Pad(a.day, 2) + ("T" + x)))));
    assert Text(b) == Pad(b.year, 4) + ("-" + (Pad(b.month, 2) + ("-" + (Pad(b.day, 2) + ("T" + y)))));
    FieldOrder(a.day, b.day, 2, "T", x, y);
    FieldOrder(a.month, b.month, 2, "-", Pad(a.day, 2) + ("T" + x), Pad(b.day, 2) + ("T" + y));
    FieldOrder(a.year, b.year, 4, "-", Pad(a.month, 2) + ("-" + (Pad(a.day, 2) + ("T" + x))),
               Pad(b.month, 2) + ("-" + (Pad(b.day, 2) + ("T" + y))));
  }

  // --------------------------------------------------------- the time line

  /** The days before a year, from 1 January of year 1. */
  function YearStart(year: nat): int
    requires year >= 1
  {
    365 * (year - 1) + (year - 1) / 4 - (year - 1) / 100 + (year - 1) / 400
  }

  function DaysBefore(year: nat, month: nat): nat
    requires month >= 1
    decreases month
  {
    if month == 1 then 0 else DaysBefore(year, month - 1) + DaysIn(year, month - 1)
  }

  function Day(t: Instant): int
    requires Valid(t)
  {
    YearStart(t.year) + DaysBefore(t.year, t.month) + t.day - 1
  }

  /** Microseconds from the start of year 1: what instants are compared by. */
  function Micros(t: Instant): int
    requires Valid(t)
  {
    (((Day(t) * 24 + t.hour) * 60 + t.minute) * 60 + t.second) * 1_000_000 + t.micro
  }

  lemma QuotientStep(year: nat, n: nat)
    requires year >= 1 && n in {4, 100, 400}
    ensures year / n == (year - 1) / n + if year % n == 0 then 1 else 0
  {
  }

  lemma Multiples(year: nat)
    ensures year % 400 == 0 ==> year % 100 == 0
    ensures year % 100 == 0 ==> year % 4 == 0
  {
    if year % 400 == 0 {
      assert year == 100 * (4 * (year / 400));
    }
    if year % 100 == 0 {
      assert year == 4 * (25 * (year / 100));
    }
  }

  lemma YearLength(year: nat)
    requires year >= 1
    ensures YearStart(year + 1) == YearStart(year) + (if Leap(year) then 366 else 365)
  {
    QuotientStep(year, 4);
    QuotientStep(year, 100);
    QuotientStep(year, 400);
    Multiples(year);
    YearSum(year, year / 4, year / 100, year / 400, (year - 1) / 4, (year - 1) / 100, (year - 1) / 400);
  }

  lemma YearSum(year: nat, a: int, b: int, c: int, a': int, b': int, c': int)
    requires year >= 1
    requires a == year / 4 && b == year / 100 && c == year / 400
    requires a' == (year - 1) / 4 && b' == (year - 1) / 100 && c' == (year - 1) / 400
    ensures YearStart(year + 1) == 365 * year + a - b + c
    ensures YearStart(year) == 365 * (year - 1) + a' - b' + c'
  {
  }

  lemma {:induction false} YearsGrow(a: nat, b: nat)
    requires 1 <= a < b
    ensures YearStart(a) + (if Leap(a) then 366 else 365) <= YearStart(b)
    decreases b - a
  {
    hide YearStart;
    YearLength(a);
    if a + 1 < b { YearsGrow(a + 1, b); }
  }

  lemma {:induction false} MonthsGrow(year: nat, a: nat, b: nat)
    requires 1 <= a < b <= 13
    ensures DaysBefore(year, a) + DaysIn(year, a) <= DaysBefore(year, b)
    decreases b - a
  {
    if a + 1 < b { MonthsGrow(year, a, b - 1); }
  }

  lemma WholeYear(year: nat)
    ensures DaysBefore(year, 13) == if Leap(year) then 366 else 365
  {
    var d3 := DaysBefore(year, 3);
    assert d3 == 31 + DaysIn(year, 2);
    assert DaysBefore(year, 5) == d3 + 61;
    assert DaysBefore(year, 7) == d3 + 122;
    assert DaysBefore(year, 9) == d3 + 184;
    assert DaysBefore(year, 11) == d3 + 245;
  }

  lemma SoonerDay(a: Instant, b: Instant)
    requires Valid(a) && Valid(b)
    requires a.year < b.year || (a.year == b.year && (a.month < b.month || (a.month == b.month && a.day < b.day)))
    ensures Day(a) < Day(b)
  {
    hide YearStart, DaysBefore, DaysIn;
    if a.year < b.year {
      YearsGrow(a.year, b.year);
      MonthsGrow(a.year, a.month, 13);
      WholeYear(a.year);
    } else if a.month < b.month {
      MonthsGrow(a.year, a.month, b.month);
    }
  }

  lemma {:induction false} SoonerMicros(a: Instant, b: Instant)
    requires Valid(a) && Valid(b) && Sooner(a, b)
    ensures Micros(a) < Micros(b)
  {
    hide Day;
    if (a.year, a.month, a.day) != (b.year, b.month, b.day) {
      SoonerDay(a, b);
    } else {
      assert Day(a) == Day(b) by { SameDay(a, b); }
    }
  }

  lemma SameDay(a: Instant, b: Instant)
    requires Valid(a) && Valid(b) && (a.year, a.month, a.day) == (b.year, b.month, b.day)
    ensures Day(a) == Day(b)
  {
  }

  /** Text order is time order: a cutoff or a latest-row query over the stored
      text picks the rows the comparison of instants would pick. */
  lemma {:induction false} TextOrderIsTimeOrder(a: Instant, b: Instant)
    requires Valid(a) && Valid(b)
    ensures Before(Text(a), Text(b)) <==> Micros(a) < Micros(b)
    ensures Text(a) == Text(b) <==> Micros(a) == Micros(b)
  {
    hide Micros, Text, Before;
    TextIsSooner(a, b);
    TextIsSooner(b, a);
    if Sooner(a, b) {
      SoonerMicros(a, b);
      NotBeforeItself(Text(a));
    } else if Sooner(b, a) {
      SoonerMicros(b, a);
      NotBeforeItself(Text(a));
    } else {
      assert a == b;
    }
  }

  /** The day after: the next of the month, or the first of the next month or year,
      with a leap day every fourth year but for centuries not divisible by four. */
  lemma {:induction false} DayAfterDay(t: Instant, next: Instant)
    requires Valid(t) && Valid(next)
    requires (next.hour, next.minute, next.second, next.micro) == (t.hour, t.minute, t.second, t.micro)
    requires
      var last := if t.month in {4, 6, 9, 11} then 30
                  else if t.month != 2 then 31
                  else if t.year % 400 == 0 || (t.year % 4 == 0 && t.year % 100 != 0) then 29 else 28;
      if t.day < last then (next.year, next.month, next.day) == (t.year, t.month, t.day + 1)
      else if t.month < 12 then (next.year, next.month, next.day) == (t.year, t.month + 1, 1)
      else (next.year, next.month, next.day) == (t.year + 1, 1, 1)
    ensures Micros(next) == Micros(t) + 86_400_000_000
  {
    hide YearStart, DaysBefore;
    DayNumbers(t, next);
  }

  lemma DayNumbers(t: Instant, next: Instant)
    requires Valid(t) && Valid(next)
    requires
      var last := DaysIn(t.year, t.month);
      if t.day < last then (next.year, next.month, next.day) == (t.year, t.month, t.day + 1)
      else if t.month < 12 then (next.year, next.month, next.day) == (t.year, t.month + 1, 1)
      else (next.year, next.month, next.day) == (t.year + 1, 1, 1)
    ensures Day(next) == Day(t) + 1
  {
    hide YearStart;
    if t.day == DaysIn(t.year, t.month) && t.month == 12 {
      YearLength(t.year);
      WholeYear(t.year);
      assert DaysBefore(t.year, 13) == DaysBefore(t.year, 12) + DaysIn(t.year, 12);
    }
  }
}
