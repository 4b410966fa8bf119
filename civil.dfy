/** Proleptic Gregorian calendar arithmetic on day numbers counted from
    1970-01-01 (day 0), as `datetime.fromtimestamp` needs it: a reference
    day number for every date (`DaysFromCivil`) and its inverse
    (`CivilFromDays`). */
module Civil {

  datatype Date = Date(year: int, month: int, day: int)

  predicate IsLeap(y: int) {
    y % 4 == 0 && (y % 100 != 0 || y % 400 == 0)
  }

  function YearLength(y: int): int {
    if IsLeap(y) then 366 else 365
  }

  /** Leap years in [0, y) for y >= 0, continued below 0 so that each step
      adds one exactly at a leap year. */
  function LeapYearsBefore(y: int): int {
    (y + 3) / 4 - (y + 99) / 100 + (y + 399) / 400
  }

  /** Day number of January 1 of year `y`. */
  function DaysBeforeYear(y: int): int {
    365 * (y - 1970) + LeapYearsBefore(y) - LeapYearsBefore(1970)
  }

  /** Division by each of the three constants steps up exactly at a
      multiple. */
  lemma DivStep(y: int, k: int)
    requires k == 4 || k == 100 || k == 400
    ensures (y + k) / k == (y + k - 1) / k + (if y % k == 0 then 1 else 0)
  {
    if k == 4 {
      assert (y + 4) / 4 == (y + 3) / 4 + (if y % 4 == 0 then 1 else 0);
    } else if k == 100 {
      assert (y + 100) / 100 == (y + 99) / 100 + (if y % 100 == 0 then 1 else 0);
    } else {
      assert (y + 400) / 400 == (y + 399) / 400 + (if y % 400 == 0 then 1 else 0);
    }
  }

  lemma Divisors(y: int)
    ensures y % 100 == 0 ==> y % 4 == 0
    ensures y % 400 == 0 ==> y % 100 == 0
  {
    if y % 100 == 0 {
      var q := y / 100;
      assert y == 4 * (25 * q);
    }
    if y % 400 == 0 {
      var q := y / 400;
      assert y == 100 * (4 * q);
    }
  }

  lemma LeapStep(y: int)
    ensures LeapYearsBefore(y + 1) == LeapYearsBefore(y) + (if IsLeap(y) then 1 else 0)
  {
    DivStep(y, 4);
    DivStep(y, 100);
    DivStep(y, 400);
    Divisors(y);
  }

  lemma NextYear(y: int)
    ensures DaysBeforeYear(y + 1) == DaysBeforeYear(y) + YearLength(y)
  {
    LeapStep(y);
  }

  /** Every year has at least 365 days, so January 1 moves forward. */
  lemma {:induction false} YearsAdvance(a: int, b: int)
    requires a <= b
    ensures DaysBeforeYear(a) + 365 * (b - a) <= DaysBeforeYear(b)
    decreases b - a
  {
    if a < b {
      YearsAdvance(a, b - 1);
      NextYear(b - 1);
    }
  }

  function DaysInMonth(y: int, m: int): int
    requires 1 <= m <= 12
  {
    if m == 2 then (if IsLeap(y) then 29 else 28)
    else if m == 4 || m == 6 || m == 9 || m == 11 then 30
    else 31
  }

  /** Days of year `y` before the first of month `m`; month 13 stands for
      the end of the year. */
  function DaysBeforeMonth(y: int, m: int): int
    requires 1 <= m <= 13
  {
    [0, 31, 59, 90, 120, 151, 181, 212, 243, 273, 304, 334, 365][m - 1]
      + (if m > 2 && IsLeap(y) then 1 else 0)
  }

  lemma MonthTable(y: int, m: int)
    requires 1 <= m <= 12
    ensures DaysBeforeMonth(y, m + 1) == DaysBeforeMonth(y, m) + DaysInMonth(y, m)
    ensures DaysBeforeMonth(y, 1) == 0 && DaysBeforeMonth(y, 13) == YearLength(y)
  {
  }

  lemma MonthsAdvance(y: int, m1: int, m2: int)
    requires 1 <= m1 < m2 <= 13
    ensures DaysBeforeMonth(y, m1 + 1) <= DaysBeforeMonth(y, m2)
  {
  }

  predicate ValidDate(d: Date) {
    1 <= d.month <= 12 && 1 <= d.day <= DaysInMonth(d.year, d.month)
  }

  /** The reference numbering: days from 1970-01-01 to `d`. */
  function DaysFromCivil(d: Date): int
    requires 1 <= d.month <= 12
  {
    DaysBeforeYear(d.year) + DaysBeforeMonth(d.year, d.month) + d.day - 1
  }

  lemma DaysFromCivilInYear(d: Date)
    requires ValidDate(d)
    ensures DaysBeforeYear(d.year) <= DaysFromCivil(d) < DaysBeforeYear(d.year + 1)
  {
    NextYear(d.year);
    MonthTable(d.year, d.month);
    if d.month < 12 {
      MonthsAdvance(d.year, d.month, 12);
      MonthTable(d.year, 12);
    }
  }

  lemma YearUnique(z: int, y1: int, y2: int)
    requires DaysBeforeYear(y1) <= z < DaysBeforeYear(y1 + 1)
    requires DaysBeforeYear(y2) <= z < DaysBeforeYear(y2 + 1)
    ensures y1 == y2
  {
    if y1 < y2 {
      YearsAdvance(y1 + 1, y2);
    } else if y2 < y1 {
      YearsAdvance(y2 + 1, y1);
    }
  }

  function YearUp(z: int, y: int): (r: int)
    requires DaysBeforeYear(y) <= z
    ensures DaysBeforeYear(r) <= z < DaysBeforeYear(r + 1)
    decreases z - DaysBeforeYear(y)
  {
    NextYear(y);
    if z < DaysBeforeYear(y + 1) then y else YearUp(z, y + 1)
  }

  function YearDown(z: int, y: int): (r: int)
    requires z < DaysBeforeYear(y + 1)
    ensures DaysBeforeYear(r) <= z < DaysBeforeYear(r + 1)
    decreases DaysBeforeYear(y + 1) - z
  {
    NextYear(y);
    if DaysBeforeYear(y) <= z then y else YearDown(z, y - 1)
  }

  /** The year that contains day `z`. */
  function YearOf(z: int): (y: int)
    ensures DaysBeforeYear(y) <= z < DaysBeforeYear(y + 1)
  {
    if 0 <= z then YearUp(z, 1970) else YearDown(z, 1969)
  }

  function MonthFrom(y: int, dayOfYear: int, m: int): (r: int)
    requires 1 <= m <= 12
    requires DaysBeforeMonth(y, m) <= dayOfYear < DaysBeforeMonth(y, 13)
    ensures m <= r <= 12
    ensures DaysBeforeMonth(y, r) <= dayOfYear < DaysBeforeMonth(y, r + 1)
    decreases 12 - m
  {
    if dayOfYear < DaysBeforeMonth(y, m + 1) then m else MonthFrom(y, dayOfYear, m + 1)
  }

  /** The date of day number `z`: a valid date whose reference number is `z`. */
  function CivilFromDays(z: int): (d: Date)
    ensures ValidDate(d) && DaysFromCivil(d) == z
  {
    var y := YearOf(z);
    NextYear(y);
    MonthTable(y, 1);
    var m := MonthFrom(y, z - DaysBeforeYear(y), 1);
    MonthTable(y, m);
    Date(y, m, z - DaysBeforeYear(y) - DaysBeforeMonth(y, m) + 1)
  }

  lemma SameYearSameDate(d1: Date, d2: Date)
    requires ValidDate(d1) && ValidDate(d2) && d1.year == d2.year
    requires DaysFromCivil(d1) == DaysFromCivil(d2)
    ensures d1 == d2
  {
    var y := d1.year;
    MonthTable(y, d1.month);
    MonthTable(y, d2.month);
    if d1.month < d2.month {
      MonthsAdvance(y, d1.month, d2.month);
    } else if d2.month < d1.month {
      MonthsAdvance(y, d2.month, d1.month);
    }
  }

  /** Distinct valid dates have distinct numbers. */
  lemma DaysFromCivilInjective(d1: Date, d2: Date)
    requires ValidDate(d1) && ValidDate(d2)
    requires DaysFromCivil(d1) == DaysFromCivil(d2)
    ensures d1 == d2
  {
    YearUnique(DaysFromCivil(d1), d1.year, d2.year) by {
      DaysFromCivilInYear(d1);
      DaysFromCivilInYear(d2);
    }
    SameYearSameDate(d1, d2);
  }

  /** The other direction: numbering a valid date and converting back gives
      the same date, so the two functions are mutual inverses. */
  lemma CivilRoundTrip(d: Date)
    requires ValidDate(d)
    ensures CivilFromDays(DaysFromCivil(d)) == d
  {
    DaysFromCivilInjective(CivilFromDays(DaysFromCivil(d)), d);
  }

  /** Day numbers of 0001-01-01 and 9999-12-31, the first and last days
      `datetime` can represent. */
  const MIN_DAY := -719162
  const MAX_DAY := 2932896

  lemma DayBounds()
    ensures MIN_DAY == DaysFromCivil(Date(1, 1, 1))
    ensures MAX_DAY == DaysFromCivil(Date(9999, 12, 31)) == DaysBeforeYear(10000) - 1
  {
    NextYear(9999);
  }

  lemma LowerDayIff(z: int)
    ensures MIN_DAY <= z <==> 1 <= CivilFromDays(z).year
  {
    var y := CivilFromDays(z).year;
    DaysFromCivilInYear(CivilFromDays(z));
    DayBounds();
    if 1 <= y {
      YearsAdvance(1, y);
    } else {
      YearsAdvance(y + 1, 1);
    }
  }

  lemma UpperDayIff(z: int)
    ensures z <= MAX_DAY <==> CivilFromDays(z).year <= 9999
  {
    var y := CivilFromDays(z).year;
    DaysFromCivilInYear(CivilFromDays(z));
    DayBounds();
    if y <= 9999 {
      YearsAdvance(y + 1, 10000);
    } else {
      YearsAdvance(10000, y);
    }
  }

  /** A day lies between those two days exactly when its year is one of
      1 to 9999. */
  lemma DayInRangeIff(z: int)
    ensures MIN_DAY <= z <= MAX_DAY <==> 1 <= CivilFromDays(z).year <= 9999
  {
    LowerDayIff(z);
    UpperDayIff(z);
  }
}
