/** The months behind the login rewards are those of the Gregorian calendar: the number of days before a
    month by the closed formula of leap years and the table of the year. */
module CalendarLaws {
  import opened Calendar

  // Days before the first of January of a year, counted from year 1.
  function DaysBeforeYear(year: int): int
    requires year >= 1
  {
    (year - 1) * 365 + (year - 1) / 4 - (year - 1) / 100 + (year - 1) / 400
  }

  predicate LeapYear(year: int) { (year % 4 == 0 && year % 100 != 0) || year % 400 == 0 }

  const BEFORE: seq<int> := [0, 31, 59, 90, 120, 151, 181, 212, 243, 273, 304, 334]

  // Days of the year before a month; January is month 0.
  function DaysBeforeMonth(year: int, month: nat): int
    requires month < 12
  {
    BEFORE[month] + if month > 1 && LeapYear(year) then 1 else 0
  }

  lemma FourthYear(n: int)
    requires n >= 1
    ensures n / 4 == (n - 1) / 4 + if n % 4 == 0 then 1 else 0
  {
  }

  lemma Century(n: int)
    requires n >= 1
    ensures n / 100 == (n - 1) / 100 + if n % 100 == 0 then 1 else 0
  {
  }

  lemma FourthCentury(n: int)
    requires n >= 1
    ensures n / 400 == (n - 1) / 400 + if n % 400 == 0 then 1 else 0
  {
  }

  lemma FourHundreds(n: int)
    ensures n % 400 == 0 ==> n % 100 == 0
  {
    if n % 400 == 0 { assert n == 100 * (4 * (n / 400)); }
  }

  lemma Hundreds(n: int)
    ensures n % 100 == 0 ==> n % 4 == 0
  {
  }

  lemma YearLength(year: int)
    requires year >= 1
    ensures DaysBeforeYear(year + 1) == DaysBeforeYear(year) + 365 + if LeapYear(year) then 1 else 0
  {
    FourthYear(year);
    Century(year);
    FourthCentury(year);
    FourHundreds(year);
    Hundreds(year);
  }

  lemma LeapSame(year: nat)
    ensures Leap(year) <==> LeapYear(year)
  {
    FourHundreds(year);
    Hundreds(year);
  }

  // The first of every month is where the calendar puts it.
  lemma {:induction false} FirstIsGregorian(k: nat)
    ensures FirstOf(k) == DaysBeforeYear(2000 + k / 12) + DaysBeforeMonth(2000 + k / 12, k % 12) - DaysBeforeYear(2000)
  {
    hide MonthLength, DaysBeforeYear, DaysBeforeMonth, LeapYear;
    if k == 0 {
      January(2000);
    } else {
      FirstIsGregorian(k - 1);
      var (y, m) := (2000 + (k - 1) / 12, (k - 1) % 12);
      LengthIs(k - 1, y, m);
      NextIndex(k - 1);
      if m == 11 {
        YearLength(y);
        January(y + 1);
      }
    }
  }

  lemma NextIndex(k: nat)
    ensures k % 12 == 11 ==> (k + 1) / 12 == k / 12 + 1 && (k + 1) % 12 == 0
    ensures k % 12 != 11 ==> (k + 1) / 12 == k / 12 && (k + 1) % 12 == k % 12 + 1
  {
  }

  lemma January(year: int)
    ensures DaysBeforeMonth(year, 0) == 0
  {
  }

  lemma LengthIs(k: nat, y: nat, m: nat)
    requires y == 2000 + k / 12 && m == k % 12
    ensures m < 11 ==> MonthLength(k) == DaysBeforeMonth(y, m + 1) - DaysBeforeMonth(y, m)
    ensures m == 11 ==> DaysBeforeMonth(y, m) + MonthLength(k) == 365 + if LeapYear(y) then 1 else 0
  {
    hide Leap, LeapYear;
    LeapSame(y);
  }

  // So a day belongs to the month in which the calendar has it.
  lemma MonthIsGregorian(day: nat, k: nat)
    ensures MonthOf(day) == k <==>
              var first := DaysBeforeYear(2000 + k / 12) + DaysBeforeMonth(2000 + k / 12, k % 12) - DaysBeforeYear(2000);
              first <= day < first + MonthLength(k)
  {
    MonthOfIff(day, k);
    FirstIsGregorian(k);
  }
}
