/** Dates as the message store writes them, and why sorting their text sorts the days. */
module Calendar {
  import opened Lex
  import opened Decimal

  datatype Date = Date(year: nat, month: nat, day: nat)

  const SECONDS_PER_DAY: nat := 86400

  predicate IsLeap(y: nat)
  {
    y % 4 == 0 && (y % 100 != 0 || y % 400 == 0)
  }

  function DaysIn(y: nat, m: nat): (d: nat)
    requires 1 <= m <= 12
    ensures 28 <= d <= 31
  {
    if m == 2 then if IsLeap(y) then 29 else 28
    else if m == 4 || m == 6 || m == 9 || m == 11 then 30
    else 31
  }

  predicate Valid(d: Date)
  {
    1 <= d.year && 1 <= d.month <= 12 && 1 <= d.day <= DaysIn(d.year, d.month)
  }

  function NextDay(d: Date): (e: Date)
    requires Valid(d)
    ensures Valid(e) && Before(d, e)
  {
    if d.day < DaysIn(d.year, d.month) then d.(day := d.day + 1)
    else if d.month < 12 then Date(d.year, d.month + 1, 1)
    else Date(d.year + 1, 1, 1)
  }

  predicate Before(a: Date, b: Date)
  {
    a.year < b.year
    || (a.year == b.year && (a.month < b.month || (a.month == b.month && a.day < b.day)))
  }

  /** The date `n` days after 1 January 1970. */
  function Civil(n: nat): (d: Date)
    ensures Valid(d)
  {
    if n == 0 then Date(1970, 1, 1) else NextDay(Civil(n - 1))
  }

  lemma {:induction false} CivilMonotone(m: nat, n: nat)
    requires m < n
    ensures Before(Civil(m), Civil(n))
  {
    if m < n - 1 {
      CivilMonotone(m, n - 1);
    }
  }

  function DaysBeforeMonth(y: nat, m: nat): nat
    requires 1 <= m <= 12
  {
    if m == 1 then 0 else DaysBeforeMonth(y, m - 1) + DaysIn(y, m - 1)
  }

  /** Closed form of the Gregorian day count: whole years, leap days, whole months, days. */
  function DayNumber(d: Date): nat
    requires Valid(d)
  {
    DaysBeforeYear(d.year) + DaysBeforeMonth(d.year, d.month) + d.day
  }

  function DaysBeforeYear(y: nat): nat
    requires 1 <= y
  {
    365 * (y - 1) + (y - 1) / 4 - (y - 1) / 100 + (y - 1) / 400
  }

  lemma NextDayCounts(d: Date)
    requires Valid(d)
    ensures DayNumber(NextDay(d)) == DayNumber(d) + 1
  {
    if d.day == DaysIn(d.year, d.month) && d.month == 12 {
      YearLength(d.year);
      NextYear(d.year);
      assert DaysBeforeMonth(d.year + 1, 1) == 0;
    }
  }

  lemma NextYear(y: nat)
    requires 1 <= y
    ensures DaysBeforeYear(y + 1) == DaysBeforeYear(y) + (if IsLeap(y) then 366 else 365)
  {
    QuotientSteps(y);
    Divisors(y);
  }

  lemma Divisors(y: nat)
    ensures y % 400 == 0 ==> y % 100 == 0
    ensures y % 100 == 0 ==> y % 4 == 0
  {
    MultipleOfFour(25 * (y / 100));
    MultipleOfHundred(4 * (y / 400));
  }

  lemma MultipleOfFour(m: nat)
    ensures 4 * m % 4 == 0
  {
  }

  lemma MultipleOfHundred(m: nat)
    ensures 100 * m % 100 == 0
  {
  }

  lemma QuotientSteps(y: nat)
    requires 1 <= y
    ensures y / 4 == (y - 1) / 4 + (if y % 4 == 0 then 1 else 0)
    ensures y / 100 == (y - 1) / 100 + (if y % 100 == 0 then 1 else 0)
    ensures y / 400 == (y - 1) / 400 + (if y % 400 == 0 then 1 else 0)
  {
  }

  lemma YearLength(y: nat)
    ensures DaysBeforeMonth(y, 12) == if IsLeap(y) then 335 else 334
  {
    assert DaysBeforeMonth(y, 4) == DaysBeforeMonth(y, 2) + DaysIn(y, 2) + DaysIn(y, 3);
    assert DaysBeforeMonth(y, 6) == DaysBeforeMonth(y, 4) + 30 + 31;
    assert DaysBeforeMonth(y, 8) == DaysBeforeMonth(y, 6) + 30 + 31;
    assert DaysBeforeMonth(y, 10) == DaysBeforeMonth(y, 8) + 31 + 30;
    assert DaysBeforeMonth(y, 12) == DaysBeforeMonth(y, 10) + 31 + 30;
  }

  /** Stepping day by day agrees with the closed form: `Civil` is the Gregorian calendar. */
  lemma {:induction false} CivilIsGregorian(n: nat)
    ensures DayNumber(Civil(n)) == n + 719163
  {
    if n == 0 {
      FirstDayNumber();
    } else {
      var d := Civil(n - 1);
      CivilIsGregorian(n - 1);
      NextDayCounts(d);
      assert Civil(n) == NextDay(d);
    }
  }

  lemma FirstDayNumber()
    ensures DayNumber(Date(1970, 1, 1)) == 719163
  {
    assert DaysBeforeMonth(1970, 1) == 0;
  }

  /** `YYYY-MM-DD`, the year padded to at least four digits. */
  function Format(d: Date): string
  {
    Pad(4, d.year) + ("-" + (Pad(2, d.month) + ("-" + Pad(2, d.day))))
  }

  /** Text order of dates is calendar order while years have four digits. */
  lemma FormatOrder(a: Date, b: Date)
    requires Valid(a) && Valid(b) && a.year <= 9999 && b.year <= 9999
    ensures Less(Format(a), Format(b)) <==> Before(a, b)
    ensures Format(a) == Format(b) <==> a == b
  {
    assert Pow10(4) == 10000 && Pow10(2) == 100 by {
      assert Pow10(1) == 10;
      assert Pow10(3) == 1000;
    }
    var ya, yb := Pad(4, a.year), Pad(4, b.year);
    var ta, tb := "-" + (Pad(2, a.month) + ("-" + Pad(2, a.day))), "-" + (Pad(2, b.month) + ("-" + Pad(2, b.day)));
    PadOrder(4, a.year, b.year);
    PadWidth(4, a.year);
    PadWidth(4, b.year);
    assert Format(a)[..4] == ya && Format(b)[..4] == yb;
    assert Format(a)[4..] == ta && Format(b)[4..] == tb;
    if a.year == b.year {
      LessAfterPrefix(ya, ta, tb);
      MonthDayOrder(a, b);
    } else {
      LessDecidedByHead(ya, yb, ta, tb);
    }
  }

  lemma MonthDayOrder(a: Date, b: Date)
    requires Valid(a) && Valid(b)
    ensures
      var ta, tb := "-" + (Pad(2, a.month) + ("-" + Pad(2, a.day))), "-" + (Pad(2, b.month) + ("-" + Pad(2, b.day)));
      && (Less(ta, tb) <==> a.month < b.month || (a.month == b.month && a.day < b.day))
      && (ta == tb <==> a.month == b.month && a.day == b.day)
  {
    assert Pow10(2) == 100 by {
      assert Pow10(1) == 10;
    }
    var ma, mb := Pad(2, a.month), Pad(2, b.month);
    var da, db := Pad(2, a.day), Pad(2, b.day);
    PadOrder(2, a.month, b.month);
    PadOrder(2, a.day, b.day);
    PadWidth(2, a.month);
    PadWidth(2, b.month);
    LessAfterPrefix("-", ma + ("-" + da), mb + ("-" + db));
    LessAfterPrefix("-", da, db);
    assert (ma + ("-" + da))[..2] == ma && (mb + ("-" + db))[..2] == mb;
    assert (ma + ("-" + da))[3..] == da && (mb + ("-" + db))[3..] == db;
    assert ("-" + (ma + ("-" + da)))[1..] == ma + ("-" + da) && ("-" + (mb + ("-" + db)))[1..] == mb + ("-" + db);
    if a.month == b.month {
      LessAfterPrefix(ma, "-" + da, "-" + db);
    } else {
      LessDecidedByHead(ma, mb, "-" + da, "-" + db);
    }
  }

  /** With five-digit years the two orders part: the first day of 10000 sorts before the last day of 9999. */
  lemma FormatOrderEndsAt9999()
    ensures Before(Date(9999, 12, 31), Date(10000, 1, 1))
    ensures Less(Format(Date(10000, 1, 1)), Format(Date(9999, 12, 31)))
  {
    assert Pad(4, 10000) == Digits(10) + "000" by {
      assert Pad(3, 1000) == Pad(2, 100) + "0";
      assert Pad(2, 100) == Pad(1, 10) + "0";
    }
    assert Digits(10) == Digits(1) + "0" == "10";
    assert Pad(4, 9999) == "9999" by {
      assert Pad(3, 999) == Pad(2, 99) + "9";
      assert Pad(2, 99) == Pad(1, 9) + "9";
    }
    assert Format(Date(10000, 1, 1))[0] == '1' && Format(Date(9999, 12, 31))[0] == '9';
  }

  /** The date a clock reading (seconds since 1 January 1970) falls on, as text. */
  function DateString(ts: nat): string
  {
    Format(Civil(ts / SECONDS_PER_DAY))
  }

  predicate FourDigitYear(ts: nat)
  {
    Civil(ts / SECONDS_PER_DAY).year <= 9999
  }

  lemma EarlierIsFourDigit(s: nat, t: nat)
    requires s <= t && FourDigitYear(t)
    ensures FourDigitYear(s)
  {
    if s / SECONDS_PER_DAY < t / SECONDS_PER_DAY {
      CivilMonotone(s / SECONDS_PER_DAY, t / SECONDS_PER_DAY);
    }
  }

  /** Later readings never carry a date that sorts earlier. */
  lemma DateStringMonotone(s: nat, t: nat)
    requires s <= t && FourDigitYear(t)
    ensures AtMost(DateString(s), DateString(t))
  {
    EarlierIsFourDigit(s, t);
    if s / SECONDS_PER_DAY < t / SECONDS_PER_DAY {
      CivilMonotone(s / SECONDS_PER_DAY, t / SECONDS_PER_DAY);
      FormatOrder(Civil(s / SECONDS_PER_DAY), Civil(t / SECONDS_PER_DAY));
    }
  }

  /** Leap years and a day count that are known otherwise. */
  lemma KnownDates()
    ensures IsLeap(2000) && IsLeap(2024) && !IsLeap(1900) && !IsLeap(2023)
    ensures DayNumber(Date(2000, 3, 1)) - DayNumber(Date(1970, 1, 1)) == 11017
  {
    assert DaysBeforeMonth(2000, 3) == 60 && DaysBeforeMonth(1970, 1) == 0;
  }

  /** A date text as the message store has it. */
  lemma KnownText()
    ensures Format(Date(2025, 1, 23)) == "2025-01-23"
  {
    assert Pad(1, 2) == "2" && Pad(2, 20) == "20" && Pad(3, 202) == "202" && Pad(4, 2025) == "2025";
    assert Pad(1, 0) == "0" && Pad(2, 1) == "01" && Pad(2, 23) == "23";
  }

  /** The first day ends with its last second. */
  lemma FirstMidnight()
    ensures DateString(86399) == Format(Date(1970, 1, 1)) && DateString(86400) == Format(Date(1970, 1, 2))
  {
    assert Civil(0) == Date(1970, 1, 1) && Civil(1) == Date(1970, 1, 2);
  }
}
