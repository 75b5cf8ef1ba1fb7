/**
 * The texts `utc_text` writes, and the instants they denote.  The job queue compares the texts;
 * section 5.1 of RFC 3339 promises that this orders them by time.
 */
module Timestamps {
  import TextOrder

  /** A UTC date and time to the second. */
  datatype Stamp = Stamp(year: nat, month: nat, day: nat, hour: nat, minute: nat, second: nat)

  predicate LeapYear(y: nat) { y % 4 == 0 && (y % 100 != 0 || y % 400 == 0) }

  function DaysIn(y: nat, m: nat): nat
    requires 1 <= m <= 12
  {
    if m == 2 then (if LeapYear(y) then 29 else 28)
    else if m in {4, 6, 9, 11} then 30
    else 31
  }

  /** The range of Python's `datetime`. */
  predicate Valid(s: Stamp) {
    && 1 <= s.year <= 9999 && 1 <= s.month <= 12 && 1 <= s.day <= DaysIn(s.year, s.month)
    && s.hour < 24 && s.minute < 60 && s.second < 60
  }

  function DaysBeforeYear(y: nat): nat {
    if y == 0 then 0 else DaysBeforeYear(y - 1) + (if LeapYear(y - 1) then 366 else 365)
  }

  function DaysBeforeMonth(y: nat, m: nat): nat
    requires 1 <= m <= 12
  {
    if m == 1 then 0 else DaysBeforeMonth(y, m - 1) + DaysIn(y, m - 1)
  }

  function Day(s: Stamp): nat
    requires Valid(s)
  {
    DaysBeforeYear(s.year) + DaysBeforeMonth(s.year, s.month) + s.day
  }

  /** Seconds on a common scale. */
  function Instant(s: Stamp): nat
    requires Valid(s)
  {
    ((Day(s) * 24 + s.hour) * 60 + s.minute) * 60 + s.second
  }

  function Digit(n: nat): char
    requires n < 10
  {
    '0' + n as char
  }

  function Two(n: nat): string
    requires n < 100
  {
    [Digit(n / 10), Digit(n % 10)]
  }

  function Four(n: nat): string
    requires n < 10000
  {
    Two(n / 100) + Two(n % 100)
  }

  function Text(s: Stamp): string
    requires Valid(s)
  {
    Four(s.year) + "-" + Two(s.month) + "-" + Two(s.day) + "T" +
    Two(s.hour) + ":" + Two(s.minute) + ":" + Two(s.second) + "Z"
  }

  /** The same text, field by field with its separator. */
  function Fields(s: Stamp): string
    requires Valid(s)
  {
    Four(s.year) + (("-" + Two(s.month)) + (("-" + Two(s.day)) + (("T" + Two(s.hour)) +
    ((":" + Two(s.minute)) + ((":" + Two(s.second)) + "Z")))))
  }

  lemma TextIsFields(s: Stamp)
    requires Valid(s)
    ensures Text(s) == Fields(s)
  {
  }

  lemma TwoOrder(a: nat, b: nat)
    requires a < 100 && b < 100
    ensures TextOrder.Less(Two(a), Two(b)) <==> a < b
    ensures Two(a) == Two(b) <==> a == b
  {
    assert Two(a) == [Digit(a / 10)] + [Digit(a % 10)] && Two(b) == [Digit(b / 10)] + [Digit(b % 10)];
    TextOrder.LessByHalves([Digit(a / 10)], [Digit(b / 10)], [Digit(a % 10)], [Digit(b % 10)]);
    assert a == 10 * (a / 10) + a % 10 && b == 10 * (b / 10) + b % 10;
    assert Two(a) == Two(b) ==> Digit(a / 10) == Two(b)[0] && Digit(a % 10) == Two(b)[1];
  }

  lemma FourOrder(a: nat, b: nat)
    requires a < 10000 && b < 10000
    ensures TextOrder.Less(Four(a), Four(b)) <==> a < b
    ensures Four(a) == Four(b) <==> a == b
  {
    TwoOrder(a / 100, b / 100);
    TwoOrder(a % 100, b % 100);
    TextOrder.LessByHalves(Two(a / 100), Two(b / 100), Two(a % 100), Two(b % 100));
    assert Four(a)[..2] == Two(a / 100) && Four(b)[..2] == Two(b / 100);
    assert Four(a)[2..] == Two(a % 100) && Four(b)[2..] == Two(b % 100);
  }

  /** One separated field, followed by the rest of the text. */
  lemma FieldOrder(mark: string, a: nat, b: nat, x: string, y: string)
    requires a < 100 && b < 100
    ensures TextOrder.Less((mark + Two(a)) + x, (mark + Two(b)) + y) <==> a < b || (a == b && TextOrder.Less(x, y))
  {
    TwoOrder(a, b);
    TextOrder.LessAfterPrefix(mark, Two(a), Two(b));
    TextOrder.LessByHalves(mark + Two(a), mark + Two(b), x, y);
    assert (mark + Two(a))[|mark|..] == Two(a) && (mark + Two(b))[|mark|..] == Two(b);
  }

  predicate Earlier(a: Stamp, b: Stamp) {
    || a.year < b.year
    || (a.year == b.year && (a.month < b.month || (a.month == b.month && (a.day < b.day || (a.day == b.day &&
       (a.hour < b.hour || (a.hour == b.hour && (a.minute < b.minute || (a.minute == b.minute &&
        a.second < b.second)))))))))
  }

  lemma FieldwiseOrder(a: Stamp, b: Stamp)
    requires Valid(a) && Valid(b)
    ensures TextOrder.Less(Fields(a), Fields(b)) <==> Earlier(a, b)
  {
    var s6, t6 := (":" + Two(a.second)) + "Z", (":" + Two(b.second)) + "Z";
    var s5, t5 := (":" + Two(a.minute)) + s6, (":" + Two(b.minute)) + t6;
    var s4, t4 := ("T" + Two(a.hour)) + s5, ("T" + Two(b.hour)) + t5;
    var s3, t3 := ("-" + Two(a.day)) + s4, ("-" + Two(b.day)) + t4;
    var s2, t2 := ("-" + Two(a.month)) + s3, ("-" + Two(b.month)) + t3;
    TextOrder.LessIrreflexive("Z");
    FieldOrder(":", a.second, b.second, "Z", "Z");
    FieldOrder(":", a.minute, b.minute, s6, t6);
    FieldOrder("T", a.hour, b.hour, s5, t5);
    FieldOrder("-", a.day, b.day, s4, t4);
    FieldOrder("-", a.month, b.month, s3, t3);
    FourOrder(a.year, b.year);
    TextOrder.LessByHalves(Four(a.year), Four(b.year), s2, t2);
  }

  lemma {:induction false} YearsApart(y: nat, z: nat)
    requires y < z
    ensures DaysBeforeYear(y) + (if LeapYear(y) then 366 else 365) <= DaysBeforeYear(z)
  {
    if y + 1 < z { YearsApart(y, z - 1); }
  }

  lemma {:induction false} MonthsApart(y: nat, m: nat, n: nat)
    requires 1 <= m < n <= 12
    ensures DaysBeforeMonth(y, m) + DaysIn(y, m) <= DaysBeforeMonth(y, n)
  {
    if m + 1 < n { MonthsApart(y, m, n - 1); }
  }

  lemma MonthInYear(y: nat, m: nat)
    requires 1 <= m <= 12
    ensures DaysBeforeMonth(y, m) + DaysIn(y, m) <= if LeapYear(y) then 366 else 365
  {
    if m < 12 { MonthsApart(y, m, 12); }
    assert DaysBeforeMonth(y, 2) == 31;
    assert DaysBeforeMonth(y, 4) == 62 + DaysIn(y, 2);
    assert DaysBeforeMonth(y, 6) == 123 + DaysIn(y, 2);
    assert DaysBeforeMonth(y, 8) == 184 + DaysIn(y, 2);
    assert DaysBeforeMonth(y, 10) == 245 + DaysIn(y, 2);
    assert DaysBeforeMonth(y, 12) == 306 + DaysIn(y, 2);
  }

  lemma DayOrder(a: Stamp, b: Stamp)
    requires Valid(a) && Valid(b)
    requires a.year < b.year || (a.year == b.year && (a.month < b.month || (a.month == b.month && a.day < b.day)))
    ensures Day(a) < Day(b)
  {
    MonthInYear(a.year, a.month);
    if a.year < b.year { YearsApart(a.year, b.year); }
    else if a.month < b.month { MonthsApart(a.year, a.month, b.month); }
  }

  lemma EarlierIsBefore(a: Stamp, b: Stamp)
    requires Valid(a) && Valid(b) && Earlier(a, b)
    ensures Instant(a) < Instant(b)
  {
    if a.year != b.year || a.month != b.month || a.day != b.day { DayOrder(a, b); }
  }

  /** Comparing the texts is comparing the instants. */
  lemma TextOrderIsTimeOrder(a: Stamp, b: Stamp)
    requires Valid(a) && Valid(b)
    ensures TextOrder.Less(Text(a), Text(b)) <==> Instant(a) < Instant(b)
    ensures TextOrder.AtMost(Text(a), Text(b)) <==> Instant(a) <= Instant(b)
  {
    TextIsFields(a);
    TextIsFields(b);
    FieldwiseOrder(a, b);
    FieldwiseOrder(b, a);
    if Earlier(a, b) {
      EarlierIsBefore(a, b);
      TextOrder.LessAsymmetric(Text(a), Text(b));
    } else if Earlier(b, a) {
      EarlierIsBefore(b, a);
      TextOrder.LessAsymmetric(Text(b), Text(a));
      TextOrder.LessIrreflexive(Text(a));
    } else {
      assert a == b;
    }
  }
}
