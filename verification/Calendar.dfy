/** UTC days and months behind the login rewards (backend_utils.award_daily_login_credits).
    Instants are microseconds and day 0 is the first of January 2000. */
module Calendar {

  type Instant = int
  const DAY: int := 86_400_000_000

  predicate Leap(year: nat) { year % 4 == 0 && (year % 100 != 0 || year % 400 == 0) }

  // Length of the k-th month counted from January 2000.
  function MonthLength(k: nat): (days: nat)
    ensures 28 <= days <= 31
  {
    var month := k % 12 + 1;
    if month == 2 then (if Leap(2000 + k / 12) then 29 else 28)
    else if month == 4 || month == 6 || month == 9 || month == 11 then 30
    else 31
  }

  // The day number of the first of month k.
  function FirstOf(k: nat): nat { if k == 0 then 0 else FirstOf(k - 1) + MonthLength(k - 1) }

  // The month that contains a day, searched forward from month k.
  function MonthFrom(k: nat, day: nat): nat
    requires FirstOf(k) <= day
    decreases day - FirstOf(k)
  {
    if day < FirstOf(k + 1) then k else MonthFrom(k + 1, day)
  }

  function MonthOf(day: nat): nat { MonthFrom(0, day) }

  function DayOf(t: Instant): nat
    requires 0 <= t
  {
    t / DAY
  }

  lemma FirstIncreases(j: nat, k: nat)
    requires j < k
    ensures FirstOf(j) + 28 <= FirstOf(k)
    decreases k
  {
    if j < k - 1 { FirstIncreases(j, k - 1); }
  }

  lemma {:induction false} MonthFromBounds(k: nat, day: nat)
    requires FirstOf(k) <= day
    ensures FirstOf(MonthFrom(k, day)) <= day < FirstOf(MonthFrom(k, day) + 1)
    decreases day - FirstOf(k)
  {
    if day >= FirstOf(k + 1) { MonthFromBounds(k + 1, day); }
  }

  // The calendar is a partition: a day is in month k exactly between the two firsts.
  lemma MonthOfIff(day: nat, k: nat)
    ensures MonthOf(day) == k <==> FirstOf(k) <= day < FirstOf(k + 1)
  {
    MonthFromBounds(0, day);
    var m := MonthOf(day);
    if m < k && m + 1 < k { FirstIncreases(m + 1, k); }
    if k < m && k + 1 < m { FirstIncreases(k + 1, m); }
  }

  // ---- the window arithmetic of the handler ----

  // now.replace(day=1, hour=0, ...)
  function StartOfMonth(t: Instant): Instant
    requires 0 <= t
  {
    FirstOf(MonthOf(DayOf(t))) * DAY
  }

  // (month_start + 32 days).replace(day=1) - 1 microsecond
  function EndOfMonth(t: Instant): Instant
    requires 0 <= t
  {
    var later := StartOfMonth(t) + 32 * DAY;
    StartOfMonth(later) - 1
  }

  lemma FirstInstant(k: nat)
    ensures DayOf(FirstOf(k) * DAY) == FirstOf(k)
    ensures DayOf(FirstOf(k) * DAY + 32 * DAY) == FirstOf(k) + 32
  {
  }

  lemma DayIff(t: Instant, d: nat)
    requires 0 <= t
    ensures DayOf(t) < d <==> t < d * DAY
  {
  }

  lemma NextMonth(k: nat)
    ensures FirstOf(k + 1) <= FirstOf(k) + 32 < FirstOf(k + 2)
  {
    assert FirstOf(k + 1) == FirstOf(k) + MonthLength(k);
    assert FirstOf(k + 2) == FirstOf(k + 1) + MonthLength(k + 1);
  }

  // Thirty-two days after a first always fall in the next month, leap year or not.
  lemma WindowEnds(t: Instant)
    requires 0 <= t
    ensures EndOfMonth(t) == FirstOf(MonthOf(DayOf(t)) + 1) * DAY - 1
  {
    hide DayOf, FirstOf, MonthOf;
    var k := MonthOf(DayOf(t));
    FirstInstant(k);
    NextMonth(k);
    MonthOfIff(FirstOf(k) + 32, k + 1);
  }

  // The computed window is exactly the calendar month, to the microsecond.
  lemma WindowIsMonth(now: Instant, t: Instant)
    requires 0 <= now && 0 <= t
    ensures StartOfMonth(now) <= t <= EndOfMonth(now) <==> MonthOf(DayOf(t)) == MonthOf(DayOf(now))
  {
    var k := MonthOf(DayOf(now));
    WindowEnds(now);
    MonthOfIff(DayOf(t), k);
    DayIff(t, FirstOf(k));
    DayIff(t, FirstOf(k + 1));
  }
}
