/**
 Snapshot times. A snapshot is named after the minute it was taken, written YYYYMMDDHHMM, and the
 latest snapshot is found by comparing those strings byte by byte. This module says which strings
 are accepted as times, counts the minutes of the (proleptic Gregorian) calendar they denote, and
 shows that for accepted strings the two orders are the same.
 */
module Calendar {
  import opened Api

  // ---------------------------------------------------------------- string order

  /** Go's `a < b` on strings: byte by byte, a proper prefix being smaller. */
  predicate Less(a: string, b: string) {
    if b == "" then false
    else if a == "" then true
    else if a[0] != b[0] then a[0] < b[0]
    else Less(a[1..], b[1..])
  }

  lemma {:induction false} LessTotal(a: string, b: string)
    ensures Less(a, b) || Less(b, a) || a == b
    ensures !(Less(a, b) && Less(b, a))
    ensures a == b ==> !Less(a, b)
  {
    if a != "" && b != "" && a[0] == b[0] {
      LessTotal(a[1..], b[1..]);
      assert a == [a[0]] + a[1..] && b == [b[0]] + b[1..];
    }
  }

  lemma {:induction false} LessTransitive(a: string, b: string, c: string)
    requires Less(a, b) && Less(b, c)
    ensures Less(a, c)
  {
    if a != "" && a[0] == b[0] && b[0] == c[0] {
      LessTransitive(a[1..], b[1..], c[1..]);
    }
  }

  /** The order `findLatestSnapshotTime` maximises: what is not above is at or below. */
  lemma {:induction false} NotAboveTransitive(a: string, b: string, c: string)
    requires !Less(b, a) && !Less(c, b)
    ensures !Less(c, a)
  {
    LessTotal(a, b);
    LessTotal(b, c);
    if a != b && b != c {
      LessTransitive(a, b, c);
      LessTotal(a, c);
    }
  }

  /** The first difference decides, and where there is none, the length. */
  predicate DiffersAt(a: string, b: string, k: nat) {
    k <= |a| && k < |b| && a[..k] == b[..k] && (k == |a| || a[k] < b[k])
  }

  lemma {:induction false} LessIff(a: string, b: string)
    ensures Less(a, b) <==> exists k: nat :: DiffersAt(a, b, k)
  {
    forall k: nat | k > 0 && DiffersAt(a, b, k) ensures a[0] == b[0] { AgreeBefore(a, b, k); }
    if b != "" && a != "" && a[0] == b[0] {
      LessIff(a[1..], b[1..]);
      forall k: nat ensures DiffersAt(a, b, k + 1) <==> DiffersAt(a[1..], b[1..], k) {
        if k + 1 <= |a| && k + 1 < |b| { PrefixesAgree(a, b, k); }
      }
      if k: nat :| DiffersAt(a, b, k) { assert DiffersAt(a[1..], b[1..], k - 1); }
      if k: nat :| DiffersAt(a[1..], b[1..], k) { assert DiffersAt(a, b, k + 1); }
    } else if Less(a, b) {
      assert DiffersAt(a, b, 0);
    }
  }

  lemma AgreeBefore(a: string, b: string, k: nat)
    requires DiffersAt(a, b, k) && k > 0
    ensures a[0] == b[0]
  {
    assert a[0] == a[..k][0] == b[..k][0] == b[0];
  }

  lemma PrefixesAgree(a: string, b: string, k: nat)
    requires k + 1 <= |a| && k + 1 <= |b| && a[0] == b[0]
    ensures a[..k + 1] == b[..k + 1] <==> a[1..][..k] == b[1..][..k]
  {
    assert a[..k + 1] == [a[0]] + a[1..][..k] && b[..k + 1] == [b[0]] + b[1..][..k];
  }

  // ---------------------------------------------------------------- accepted stamps

  predicate IsDigit(c: char) { '0' <= c <= '9' }

  predicate AllDigits(s: string) { forall i :: 0 <= i < |s| ==> IsDigit(s[i]) }

  function Digit(c: char): (d: int)
    requires IsDigit(c)
    ensures 0 <= d <= 9
  {
    c as int - '0' as int
  }

  /** The number two digits of `s` write, starting at `i`. */
  function Two(s: string, i: nat): (n: int)
    requires i + 2 <= |s| && AllDigits(s)
    ensures 0 <= n <= 99
  {
    10 * Digit(s[i]) + Digit(s[i + 1])
  }

  datatype Minute = Minute(year: int, month: int, day: int, hour: int, minute: int)

  function Read(s: string): Minute
    requires |s| == 12 && AllDigits(s)
  {
    Minute(100 * Two(s, 0) + Two(s, 2), Two(s, 4), Two(s, 6), Two(s, 8), Two(s, 10))
  }

  predicate IsLeap(year: int) { year % 4 == 0 && (year % 100 != 0 || year % 400 == 0) }

  function DaysIn(year: int, month: int): (d: int)
    requires 1 <= month <= 12
    ensures 28 <= d <= 31
  {
    if month == 2 then (if IsLeap(year) then 29 else 28)
    else if month == 4 || month == 6 || month == 9 || month == 11 then 30
    else 31
  }

  predicate InCalendar(m: Minute) {
    && 0 <= m.year
    && 1 <= m.month <= 12
    && 1 <= m.day <= DaysIn(m.year, m.month)
    && 0 <= m.hour < 24
    && 0 <= m.minute < 60
  }

  /** Twelve digits that read as a minute of the calendar. */
  predicate ValidStamp(s: string) {
    |s| == 12 && AllDigits(s) && InCalendar(Read(s))
  }

  /** A field of two digits, or of one unless that is `fixed`; what follows comes with it. */
  function GetNum(s: string, fixed: bool): Option<(int, string)> {
    if s == "" || !IsDigit(s[0]) then None
    else if |s| > 1 && IsDigit(s[1]) then Some((10 * Digit(s[0]) + Digit(s[1]), s[2..]))
    else if fixed then None
    else Some((Digit(s[0]), s[1..]))
  }

  /** A field that must be in range. */
  method Field(s: string, fixed: bool, lo: int, hi: int) returns (r: Option<(int, string)>)
    ensures r == if GetNum(s, fixed).Some? && lo <= GetNum(s, fixed).value.0 < hi then GetNum(s, fixed) else None
  {
    r := GetNum(s, fixed);
    if r.Some? && !(lo <= r.value.0 < hi) { return None; }
  }

  /**
   Parsing with the layout 200601021504, field by field: the hour may have one digit only, the others
   may not; nothing may follow; and the day must exist in its month.
   */
  method Parse(s: string) returns (r: Option<Minute>)
    ensures r.Some? <==> ValidStamp(s)
    ensures r.Some? ==> r.value == Read(s)
  {
    if |s| < 4 || !AllDigits(s[..4]) { return None; }
    var year := 100 * Two(s[..4], 0) + Two(s[..4], 2);
    var month := Field(s[4..], true, 1, 13);
    if month.None? { return None; }
    var day := GetNum(month.value.1, true);
    if day.None? { return None; }
    var hour := Field(day.value.1, false, 0, 24);
    if hour.None? { return None; }
    var minute := Field(hour.value.1, true, 0, 60);
    if minute.None? || minute.value.1 != "" { return None; }
    if !(1 <= day.value.0 <= DaysIn(year, month.value.0)) { return None; }
    return Some(Minute(year, month.value.0, day.value.0, hour.value.0, minute.value.0));
  }

  // ---------------------------------------------------------------- counting minutes

  function DaysInYear(year: int): int { if IsLeap(year) then 366 else 365 }

  function DaysBeforeYear(year: nat): nat {
    if year == 0 then 0 else DaysBeforeYear(year - 1) + DaysInYear(year - 1)
  }

  function DaysBeforeMonth(year: int, month: int): nat
    requires 1 <= month <= 13
  {
    if month == 1 then 0 else DaysBeforeMonth(year, month - 1) + DaysIn(year, month - 1)
  }

  /** Days of the calendar before the day of `m`, counted one year and one month at a time. */
  function DayNumber(m: Minute): int
    requires InCalendar(m)
  {
    DaysBeforeYear(m.year) + DaysBeforeMonth(m.year, m.month) + m.day - 1
  }

  /** Minutes of the calendar before `m`. */
  function MinuteNumber(m: Minute): int
    requires InCalendar(m)
  {
    (DayNumber(m) * 24 + m.hour) * 60 + m.minute
  }

  lemma {:induction false} MonthsAdd(year: int, m1: int, m2: int)
    requires 1 <= m1 < m2 <= 13
    ensures DaysBeforeMonth(year, m1) + DaysIn(year, m1) <= DaysBeforeMonth(year, m2)
  {
    if m1 + 1 < m2 { MonthsAdd(year, m1, m2 - 1); }
  }

  /** The months of a year fill it exactly, in leap years too. */
  lemma YearIsItsMonths(year: int)
    ensures DaysBeforeMonth(year, 13) == DaysInYear(year)
  {
    assert DaysBeforeMonth(year, 3) == DaysBeforeMonth(year, 2) + DaysIn(year, 2);
    assert DaysBeforeMonth(year, 5) == DaysBeforeMonth(year, 4) + 30;
    assert DaysBeforeMonth(year, 7) == DaysBeforeMonth(year, 6) + 30;
    assert DaysBeforeMonth(year, 9) == DaysBeforeMonth(year, 8) + 31;
    assert DaysBeforeMonth(year, 11) == DaysBeforeMonth(year, 10) + 31;
    assert DaysBeforeMonth(year, 13) == DaysBeforeMonth(year, 12) + 31;
  }

  lemma {:induction false} YearsAdd(y1: nat, y2: nat)
    requires y1 < y2
    ensures DaysBeforeYear(y1) + DaysInYear(y1) <= DaysBeforeYear(y2)
  {
    if y1 + 1 < y2 { YearsAdd(y1, y2 - 1); }
  }

  function NextDay(m: Minute): Minute
    requires InCalendar(m)
  {
    if m.day < DaysIn(m.year, m.month) then m.(day := m.day + 1)
    else if m.month < 12 then m.(month := m.month + 1, day := 1)
    else m.(year := m.year + 1, month := 1, day := 1)
  }

  /** The minute a clock shows next, carrying into the hour, the day, the month and the year. */
  function NextMinute(m: Minute): Minute
    requires InCalendar(m)
  {
    if m.minute < 59 then m.(minute := m.minute + 1)
    else if m.hour < 23 then m.(hour := m.hour + 1, minute := 0)
    else NextDay(m).(hour := 0, minute := 0)
  }

  /** `MinuteNumber` numbers the minutes of the calendar without gaps: a clock tick adds one. */
  lemma MinutesAreConsecutive(m: Minute)
    requires InCalendar(m)
    ensures InCalendar(NextMinute(m)) && MinuteNumber(NextMinute(m)) == MinuteNumber(m) + 1
  {
    YearIsItsMonths(m.year);
    if m.minute == 59 && m.hour == 23 {
      assert DayNumber(NextDay(m)) == DayNumber(m) + 1;
    }
  }

  // ---------------------------------------------------------------- the closed form of the civil calendar

  /**
   Days by the closed form of the Gregorian calendar: years are counted from March, so that the day a leap
   year adds is their last, and 153 days make five months.
   */
  function CivilDay(year: int, month: int, day: int): int {
    var y := if month <= 2 then year - 1 else year;
    var k := if month <= 2 then month + 9 else month - 3;
    365 * y + y / 4 - y / 100 + y / 400 + (153 * k + 2) / 5 + day
  }

  lemma {:induction false} YearsAreCivil(year: nat)
    ensures DaysBeforeYear(year) == CivilDay(year, 1, 1) + 59
    decreases year
  {
    if year > 0 {
      YearsAreCivil(year - 1);
      OneMoreYear(year - 1);
    }
  }

  lemma OneMoreYear(year: nat)
    ensures CivilDay(year + 1, 1, 1) == CivilDay(year, 1, 1) + DaysInYear(year)
  {
    LeapsAdd(year);
  }

  lemma LeapsAdd(year: nat)
    ensures (year / 4 - year / 100 + year / 400) - ((year - 1) / 4 - (year - 1) / 100 + (year - 1) / 400)
         == DaysInYear(year) - 365
  {
    OneMoreMultiple(year, 4);
    OneMoreMultiple(year, 100);
    OneMoreMultiple(year, 400);
    LeapCounts(year, year / 4 - (year - 1) / 4, year / 100 - (year - 1) / 100, year / 400 - (year - 1) / 400);
  }

  lemma LeapCounts(year: nat, fourth: int, hundredth: int, fourHundredth: int)
    requires fourth == if year % 4 == 0 then 1 else 0
    requires hundredth == if year % 100 == 0 then 1 else 0
    requires fourHundredth == if year % 400 == 0 then 1 else 0
    ensures fourth - hundredth + fourHundredth == DaysInYear(year) - 365
  {
    MultiplesOf4(year / 100);
    MultiplesOf100(year / 400);
  }

  lemma MultiplesOf4(q: int)
    ensures 100 * q % 4 == 0
  {
    assert 100 * q == 4 * (25 * q);
  }

  lemma MultiplesOf100(q: int)
    ensures 400 * q % 100 == 0
  {
    assert 400 * q == 100 * (4 * q);
  }

  lemma OneMoreMultiple(year: nat, n: nat)
    requires n in {4, 100, 400}
    ensures year / n - (year - 1) / n == if year % n == 0 then 1 else 0
  {
  }

  /** The days between the first of March and the first of each month after it. */
  lemma DaysFromMarch(k: int)
    requires 0 <= k <= 11
    ensures (153 * k + 2) / 5 == [0, 31, 61, 92, 122, 153, 184, 214, 245, 275, 306, 337][k]
  {
  }

  /** The days of each month are those from its first day to the first of the next. */
  lemma MonthsAreCivil(year: nat, month: int)
    requires 1 <= month <= 12
    ensures DaysIn(year, month) ==
      (if month < 12 then CivilDay(year, month + 1, 1) else CivilDay(year + 1, 1, 1)) - CivilDay(year, month, 1)
  {
    if month == 2 {
      DaysFromMarch(0);
      DaysFromMarch(11);
      LeapsAdd(year);
    } else {
      var k := if month < 2 then month + 9 else month - 3;
      DaysFromMarch(k);
      DaysFromMarch(k + 1);
    }
  }

  lemma {:induction false} MonthStartsAreCivil(year: nat, month: int)
    requires 1 <= month <= 12
    ensures DaysBeforeYear(year) + DaysBeforeMonth(year, month) == CivilDay(year, month, 1) + 59
    decreases month
  {
    YearsAreCivil(year);
    if month > 1 {
      MonthStartsAreCivil(year, month - 1);
      MonthsAreCivil(year, month - 1);
    }
  }

  /** Counting year by year and month by month gives the day number of the closed form. */
  lemma DaysAreCivil(m: Minute)
    requires InCalendar(m)
    ensures DayNumber(m) == CivilDay(m.year, m.month, m.day) + 59
  {
    MonthStartsAreCivil(m.year, m.month);
  }

  /**
   What is accepted, in terms of the closed form alone: a stamp of twelve digits whose month is one of
   twelve, whose day comes before the first of the next month, and whose hour and minute a clock shows.
   */
  lemma AcceptedIffCivil(s: string)
    requires |s| == 12 && AllDigits(s)
    ensures var year, month, day := 100 * Two(s, 0) + Two(s, 2), Two(s, 4), Two(s, 6);
      ValidStamp(s) <==>
        && 1 <= month <= 12 && 1 <= day && Two(s, 8) <= 23 && Two(s, 10) <= 59
        && CivilDay(year, month, day)
             < if month < 12 then CivilDay(year, month + 1, 1) else CivilDay(year + 1, 1, 1)
  {
    var m := Read(s);
    if 1 <= m.month <= 12 {
      MonthsAreCivil(m.year, m.month);
      CivilDaysAdd(m.year, m.month, m.day);
    }
  }

  lemma CivilDaysAdd(year: int, month: int, day: int)
    ensures CivilDay(year, month, day) == CivilDay(year, month, 1) + day - 1
  {
  }

  // ---------------------------------------------------------------- writing a time

  function DigitChar(d: int): (c: char)
    requires 0 <= d <= 9
    ensures IsDigit(c) && Digit(c) == d
  {
    (d + '0' as int) as char
  }

  /** The layout the times are written in: four digits of the year, two of each other field. */
  function Written(m: Minute): string
    requires InCalendar(m) && m.year <= 9999
  {
    [DigitChar(m.year / 1000), DigitChar(m.year / 100 % 10), DigitChar(m.year / 10 % 10), DigitChar(m.year % 10),
     DigitChar(m.month / 10), DigitChar(m.month % 10), DigitChar(m.day / 10), DigitChar(m.day % 10),
     DigitChar(m.hour / 10), DigitChar(m.hour % 10), DigitChar(m.minute / 10), DigitChar(m.minute % 10)]
  }

  /** What is written is accepted and read back, and what is accepted is what is written for the minute read. */
  lemma WrittenIsRead(m: Minute)
    requires InCalendar(m) && m.year <= 9999
    ensures ValidStamp(Written(m)) && Read(Written(m)) == m
  {
    var s := Written(m);
    assert AllDigits(s);
    YearOfDigits(m.year);
    TwoOfDigits(m.month);
    TwoOfDigits(m.day);
    TwoOfDigits(m.hour);
    TwoOfDigits(m.minute);
    assert Read(s) == m;
  }

  lemma TwoOfDigits(n: int)
    requires 0 <= n <= 99
    ensures 10 * (n / 10) + n % 10 == n
  {
  }

  lemma YearOfDigits(y: int)
    requires 0 <= y <= 9999
    ensures 100 * (10 * (y / 1000) + y / 100 % 10) + (10 * (y / 10 % 10) + y % 10) == y
  {
    var hundreds, tens := y / 100, y / 10;
    assert tens / 10 == hundreds && hundreds / 10 == y / 1000;
    TwoOfDigits(hundreds);
  }

  lemma ReadIsWritten(s: string)
    requires ValidStamp(s)
    ensures Read(s).year <= 9999 && Written(Read(s)) == s
  {
    var m := Read(s);
    DigitsOfYear(Two(s, 0), Two(s, 2));
    DigitsOfTwo(s, 0);
    DigitsOfTwo(s, 2);
    DigitsOfTwo(s, 4);
    DigitsOfTwo(s, 6);
    DigitsOfTwo(s, 8);
    DigitsOfTwo(s, 10);
    assert Written(m) == s;
  }

  lemma DigitsOfYear(h: int, l: int)
    requires 0 <= h <= 99 && 0 <= l <= 99
    ensures var y := 100 * h + l;
      y <= 9999 && y / 1000 == h / 10 && y / 100 % 10 == h % 10 && y / 10 % 10 == l / 10 && y % 10 == l % 10
  {
  }

  lemma DigitsOfTwo(s: string, i: nat)
    requires i + 2 <= |s| && AllDigits(s)
    ensures s[i] == DigitChar(Two(s, i) / 10) && s[i + 1] == DigitChar(Two(s, i) % 10)
  {
  }

  // ---------------------------------------------------------------- earlier and later

  predicate EarlierDay(a: Minute, b: Minute) {
    a.year < b.year || (a.year == b.year && (a.month < b.month || (a.month == b.month && a.day < b.day)))
  }

  predicate Earlier(a: Minute, b: Minute) {
    EarlierDay(a, b)
    || (a.year == b.year && a.month == b.month && a.day == b.day
        && (a.hour < b.hour || (a.hour == b.hour && a.minute < b.minute)))
  }

  lemma EarlierDayCounts(a: Minute, b: Minute)
    requires InCalendar(a) && InCalendar(b) && EarlierDay(a, b)
    ensures DayNumber(a) < DayNumber(b)
  {
    if a.year < b.year {
      YearsAdd(a.year, b.year);
      YearIsItsMonths(a.year);
      MonthsAdd(a.year, a.month, 13);
    } else if a.month < b.month {
      MonthsAdd(a.year, a.month, b.month);
    }
  }

  lemma EarlierCounts(a: Minute, b: Minute)
    requires InCalendar(a) && InCalendar(b) && Earlier(a, b)
    ensures MinuteNumber(a) < MinuteNumber(b)
  {
    if EarlierDay(a, b) { EarlierDayCounts(a, b); }
  }

  // ---------------------------------------------------------------- the two orders agree

  /** Two strings that agree on their first `n` characters compare as what follows does. */
  lemma {:induction false} LessAfter(a: string, b: string, n: nat)
    requires n <= |a| && n <= |b| && a[..n] == b[..n]
    ensures Less(a, b) == Less(a[n..], b[n..])
  {
    if n > 0 {
      assert a[0] == a[..n][0] == b[..n][0] == b[0];
      assert a[1..][..n - 1] == a[..n][1..] && b[1..][..n - 1] == b[..n][1..];
      LessAfter(a[1..], b[1..], n - 1);
      assert a[1..][n - 1..] == a[n..] && b[1..][n - 1..] == b[n..];
    }
  }

  function FirstDifference(a: string, b: string): (k: nat)
    requires |a| == |b| && a != b
    ensures k < |a| && a[..k] == b[..k] && a[k] != b[k]
  {
    if a[0] != b[0] then 0
    else
      assert a == [a[0]] + a[1..] && b == [b[0]] + b[1..];
      var k := FirstDifference(a[1..], b[1..]);
      assert a[..k + 1] == [a[0]] + a[1..][..k] && b[..k + 1] == [b[0]] + b[1..][..k];
      k + 1
  }

  lemma LessAtFirstDifference(a: string, b: string, k: nat)
    requires k < |a| && k < |b| && a[..k] == b[..k] && a[k] < b[k]
    ensures Less(a, b)
  {
    LessAfter(a, b, k);
  }

  lemma SmallerDigitIsEarlier(a: string, b: string, k: nat)
    requires |a| == |b| == 12 && AllDigits(a) && AllDigits(b)
    requires k < 12 && a[..k] == b[..k] && a[k] < b[k]
    ensures Earlier(Read(a), Read(b))
  {
    forall i | 0 <= i < k ensures a[i] == b[i] {
      assert a[i] == a[..k][i] == b[..k][i] == b[i];
    }
  }

  /**
   For accepted stamps, comparing the strings compares the minutes they denote, in every year
   from 0000 to 9999 and through leap days.
   */
  lemma StampOrderIsTimeOrder(a: string, b: string)
    requires ValidStamp(a) && ValidStamp(b)
    ensures Less(a, b) <==> MinuteNumber(Read(a)) < MinuteNumber(Read(b))
    ensures a == b <==> MinuteNumber(Read(a)) == MinuteNumber(Read(b))
  {
    LessTotal(a, b);
    if a != b {
      var k := FirstDifference(a, b);
      if a[k] < b[k] {
        SmallerDigitIsEarlier(a, b, k);
        LessAtFirstDifference(a, b, k);
        EarlierCounts(Read(a), Read(b));
      } else {
        SmallerDigitIsEarlier(b, a, k);
        LessAtFirstDifference(b, a, k);
        EarlierCounts(Read(b), Read(a));
      }
    }
  }
}
