/**
 * The timestamps of the log files: a calendar date and time of day, written
 * by `strftime('%Y-%m-%d %H:%M:%S')` and read back by `strptime` with the
 * same format.
 */
module Timestamps {
  import opened Wrappers

  datatype DateTime = DateTime(year: int, month: int, day: int, hour: int, minute: int, second: int)

  predicate IsLeapYear(y: int) {
    y % 4 == 0 && (y % 100 != 0 || y % 400 == 0)
  }

  function DaysInMonth(y: int, m: int): int
    requires 1 <= m <= 12
  {
    if m == 2 then (if IsLeapYear(y) then 29 else 28)
    else if m == 4 || m == 6 || m == 9 || m == 11 then 30
    else 31
  }

  /** The values a `datetime` accepts (to the second). */
  predicate Valid(t: DateTime) {
    && 1 <= t.year <= 9999
    && 1 <= t.month <= 12
    && 1 <= t.day <= DaysInMonth(t.year, t.month)
    && 0 <= t.hour < 24
    && 0 <= t.minute < 60
    && 0 <= t.second < 60
  }

  /** Chronological order of `datetime` values: `a < b`. */
  predicate Earlier(a: DateTime, b: DateTime) {
    || a.year < b.year
    || (a.year == b.year && a.month < b.month)
    || (a.year == b.year && a.month == b.month && a.day < b.day)
    || (a.year == b.year && a.month == b.month && a.day == b.day && a.hour < b.hour)
    || (a.year == b.year && a.month == b.month && a.day == b.day && a.hour == b.hour && a.minute < b.minute)
    || (a.year == b.year && a.month == b.month && a.day == b.day && a.hour == b.hour && a.minute == b.minute
        && a.second < b.second)
  }

  /** `Earlier` is a strict total order: any two distinct times are ordered exactly one way. */
  lemma EarlierIsStrictTotalOrder(a: DateTime, b: DateTime, c: DateTime)
    ensures !Earlier(a, a)
    ensures Earlier(a, b) && Earlier(b, c) ==> Earlier(a, c)
    ensures a != b ==> (Earlier(a, b) <==> !Earlier(b, a))
  {
  }

  predicate IsDigit(c: char) {
    '0' <= c <= '9'
  }

  function Digit(d: int): (c: char)
    requires 0 <= d < 10
    ensures IsDigit(c)
  {
    ('0' as int + d) as char
  }

  function DigitValue(c: char): (d: int)
    requires IsDigit(c)
    ensures 0 <= d < 10
  {
    c as int - '0' as int
  }

  function Pad2(n: int): string
    requires 0 <= n < 100
  {
    [Digit(n / 10), Digit(n % 10)]
  }

  function Pad4(n: int): string
    requires 0 <= n < 10000
  {
    Pad2(n / 100) + Pad2(n % 100)
  }

  /** The positions of `%Y-%m-%d %H:%M:%S` that hold a separator rather than a digit. */
  predicate IsSeparatorPosition(i: int) {
    i == 4 || i == 7 || i == 10 || i == 13 || i == 16
  }

  /** `s` has the shape `DDDD-DD-DD DD:DD:DD`. */
  predicate Shaped(s: string) {
    && |s| == 19
    && s[4] == '-' && s[7] == '-' && s[10] == ' ' && s[13] == ':' && s[16] == ':'
    && forall i :: 0 <= i < 19 && !IsSeparatorPosition(i) ==> IsDigit(s[i])
  }

  /** The decimal value of the digits `s[from..from + len]`. */
  function Decimal(s: string, from: nat, len: nat): int
    requires from + len <= |s|
    requires forall i :: from <= i < from + len ==> IsDigit(s[i])
    decreases len
  {
    if len == 0 then 0 else 10 * Decimal(s, from, len - 1) + DigitValue(s[from + len - 1])
  }

  /** `t.strftime('%Y-%m-%d %H:%M:%S')`. */
  function Format(t: DateTime): (s: string)
    requires Valid(t)
    ensures Shaped(s)
  {
    DatePart(t) + " " + TimePart(t)
  }

  /** `%Y-%m-%d`. */
  function DatePart(t: DateTime): string
    requires Valid(t)
  {
    Pad4(t.year) + "-" + Pad2(t.month) + "-" + Pad2(t.day)
  }

  /** `%H:%M:%S`. */
  function TimePart(t: DateTime): string
    requires Valid(t)
  {
    Pad2(t.hour) + ":" + Pad2(t.minute) + ":" + Pad2(t.second)
  }

  lemma DecimalPad2(s: string, from: nat, n: int)
    requires 0 <= n < 100 && from + 2 <= |s| && s[from..from + 2] == Pad2(n)
    ensures Decimal(s, from, 2) == n
  {
    assert s[from] == Pad2(n)[0] && s[from + 1] == Pad2(n)[1];
  }

  /** Four digits read as two pairs. */
  lemma DecimalSplit4(s: string, from: nat)
    requires from + 4 <= |s| && forall i :: from <= i < from + 4 ==> IsDigit(s[i])
    ensures Decimal(s, from, 4) == 100 * Decimal(s, from, 2) + Decimal(s, from + 2, 2)
  {
    assert Decimal(s, from + 2, 2) == 10 * DigitValue(s[from + 2]) + DigitValue(s[from + 3]);
  }

  lemma DecimalPad4(s: string, from: nat, n: int)
    requires 0 <= n < 10000 && from + 4 <= |s| && s[from..from + 4] == Pad4(n)
    ensures Decimal(s, from, 4) == n
  {
    assert s[from..from + 2] == s[from..from + 4][..2] == Pad2(n / 100);
    assert s[from + 2..from + 4] == s[from..from + 4][2..] == Pad2(n % 100);
    DecimalPad2(s, from, n / 100);
    DecimalPad2(s, from + 2, n % 100);
    DecimalSplit4(s, from);
  }

  lemma Pad2Decimal(s: string, from: nat)
    requires from + 2 <= |s| && IsDigit(s[from]) && IsDigit(s[from + 1])
    ensures 0 <= Decimal(s, from, 2) < 100 && Pad2(Decimal(s, from, 2)) == s[from..from + 2]
  {
  }

  lemma Pad4Decimal(s: string, from: nat)
    requires from + 4 <= |s| && forall i :: from <= i < from + 4 ==> IsDigit(s[i])
    ensures 0 <= Decimal(s, from, 4) < 10000 && Pad4(Decimal(s, from, 4)) == s[from..from + 4]
  {
    var hi, lo := Decimal(s, from, 2), Decimal(s, from + 2, 2);
    Pad2Decimal(s, from);
    Pad2Decimal(s, from + 2);
    DecimalSplit4(s, from);
    assert (100 * hi + lo) / 100 == hi && (100 * hi + lo) % 100 == lo;
    assert s[from..from + 4] == s[from..from + 2] + s[from + 2..from + 4];
  }

  /** The fields of a shaped string, read as decimal numbers. */
  function Fields(s: string): DateTime
    requires Shaped(s)
  {
    DateTime(Decimal(s, 0, 4), Decimal(s, 5, 2), Decimal(s, 8, 2), Decimal(s, 11, 2), Decimal(s, 14, 2), Decimal(s, 17, 2))
  }

  lemma DatePartFields(s: string)
    requires Shaped(s) && Valid(Fields(s))
    ensures DatePart(Fields(s)) == s[..10]
  {
    Pad4Decimal(s, 0);
    Pad2Decimal(s, 5);
    Pad2Decimal(s, 8);
    assert s[..10] == s[0..4] + [s[4]] + s[5..7] + [s[7]] + s[8..10];
  }

  lemma TimePartFields(s: string)
    requires Shaped(s) && Valid(Fields(s))
    ensures TimePart(Fields(s)) == s[11..]
  {
    Pad2Decimal(s, 11);
    Pad2Decimal(s, 14);
    Pad2Decimal(s, 17);
    assert s[11..] == s[11..13] + [s[13]] + s[14..16] + [s[16]] + s[17..19];
  }

  /** Writing the fields of a shaped string back gives the string. */
  lemma FormatFields(s: string)
    requires Shaped(s) && Valid(Fields(s))
    ensures Format(Fields(s)) == s
  {
    DatePartFields(s);
    TimePartFields(s);
    assert s == s[..10] + [s[10]] + s[11..];
  }

  /** `datetime.strptime(s, '%Y-%m-%d %H:%M:%S')`, for the zero-padded form; `None` stands for its ValueError. */
  function Parse(s: string): (r: Option<DateTime>)
    ensures r.Some? ==> Valid(r.value) && Format(r.value) == s
  {
    if !Shaped(s) || !Valid(Fields(s)) then None
    else
      FormatFields(s);
      Some(Fields(s))
  }

  /** Every valid time survives being written and read back. */
  lemma ParseFormat(t: DateTime)
    requires Valid(t)
    ensures Parse(Format(t)) == Some(t)
  {
    var s := Format(t);
    assert s[0..4] == Pad4(t.year);
    assert s[5..7] == Pad2(t.month);
    assert s[8..10] == Pad2(t.day);
    assert s[11..13] == Pad2(t.hour);
    assert s[14..16] == Pad2(t.minute);
    assert s[17..19] == Pad2(t.second);
    DecimalPad4(s, 0, t.year);
    DecimalPad2(s, 5, t.month);
    DecimalPad2(s, 8, t.day);
    DecimalPad2(s, 11, t.hour);
    DecimalPad2(s, 14, t.minute);
    DecimalPad2(s, 17, t.second);
  }
}
