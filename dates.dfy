/**
 * Civil dates in the proleptic Gregorian calendar, as the JavaScript `Date`
 * object presents them through getFullYear/getMonth/getDate/getDay. Months are
 * numbered 1..12 here (JavaScript's getMonth is 0-based). `DayNumber` counts
 * days from 0001-01-01 and is the abstract day number that booking dates are
 * compared by; `NextDay`/`PrevDay` are `setDate(getDate() +/- 1)`.
 */
module Dates {

  datatype Date = Date(year: int, month: int, day: int)

  predicate IsLeapYear(y: int) {
    y % 4 == 0 && (y % 100 != 0 || y % 400 == 0)
  }

  function DaysInMonth(y: int, m: int): (n: int)
    requires 1 <= m <= 12
    ensures 28 <= n <= 31
    ensures n == 29 <==> m == 2 && IsLeapYear(y)
  {
    if m == 2 then (if IsLeapYear(y) then 29 else 28)
    else if m == 4 || m == 6 || m == 9 || m == 11 then 30
    else 31
  }

  predicate Valid(d: Date) {
    1 <= d.month <= 12 && 1 <= d.day <= DaysInMonth(d.year, d.month)
  }

  /** Days in the months of year `y` before month `m`. */
  function DaysBeforeMonth(y: int, m: int): int
    requires 1 <= m <= 12
  {
    var leap := if IsLeapYear(y) then 1 else 0;
    if m == 1 then 0
    else if m == 2 then 31
    else if m == 3 then 59 + leap
    else if m == 4 then 90 + leap
    else if m == 5 then 120 + leap
    else if m == 6 then 151 + leap
    else if m == 7 then 181 + leap
    else if m == 8 then 212 + leap
    else if m == 9 then 243 + leap
    else if m == 10 then 273 + leap
    else if m == 11 then 304 + leap
    else 334 + leap
  }

  /** Number of leap years among the years 1..n (counted with floor division for n < 1). */
  function LeapYearsThrough(n: int): int {
    n / 4 - n / 100 + n / 400
  }

  /** The day number of January 1st of year `y`. */
  function YearStart(y: int): int {
    365 * (y - 1) + LeapYearsThrough(y - 1)
  }

  /** Days since 0001-01-01 (a Monday); the order of ISO date strings. */
  function DayNumber(d: Date): int
    requires 1 <= d.month <= 12
  {
    YearStart(d.year) + DaysBeforeMonth(d.year, d.month) + d.day - 1
  }

  /** Subtracting the remainder leaves a multiple of seven. */
  lemma Mod7Cancel(x: int)
    ensures (x - x % 7) % 7 == 0
  {
    assert x - x % 7 == 7 * (x / 7);
  }

  /** Adding k to x moves its remainder by k. */
  lemma Mod7Add(x: int, k: int)
    ensures (x + k) % 7 == (x % 7 + k) % 7
  {
    assert x + k == 7 * (x / 7) + (x % 7 + k);
  }

  /** `getDay()`: 0 = Sunday .. 6 = Saturday. */
  function Weekday(d: Date): (w: int)
    requires 1 <= d.month <= 12
    ensures 0 <= w < 7
  {
    (DayNumber(d) + 1) % 7
  }

  function NextDay(d: Date): Date
    requires Valid(d)
  {
    if d.day < DaysInMonth(d.year, d.month) then Date(d.year, d.month, d.day + 1)
    else if d.month < 12 then Date(d.year, d.month + 1, 1)
    else Date(d.year + 1, 1, 1)
  }

  function PrevDay(d: Date): Date
    requires Valid(d)
  {
    if d.day > 1 then Date(d.year, d.month, d.day - 1)
    else if d.month > 1 then Date(d.year, d.month - 1, DaysInMonth(d.year, d.month - 1))
    else Date(d.year - 1, 12, 31)
  }

  /** One more multiple of k is passed going from n - 1 to n exactly when k divides n. */
  lemma DivStep(n: int, k: int)
    requires k == 4 || k == 100 || k == 400
    ensures n / k - (n - 1) / k == if n % k == 0 then 1 else 0
  {
    var q, r := (n - 1) / k, (n - 1) % k;
    assert n - 1 == k * q + r && 0 <= r < k;
    assert n == k * (n / k) + n % k && 0 <= n % k < k;
    if r == k - 1 {
      assert n == k * (q + 1);
    } else {
      assert n == k * q + (r + 1);
    }
  }

  lemma LeapYearStep(y: int)
    ensures LeapYearsThrough(y) - LeapYearsThrough(y - 1) == if IsLeapYear(y) then 1 else 0
  {
    DivStep(y, 4);
    DivStep(y, 100);
    DivStep(y, 400);
    assert y % 400 == 0 ==> y % 100 == 0 by {
      if y % 400 == 0 {
        assert y == 100 * (4 * (y / 400));
      }
    }
    assert y % 100 == 0 ==> y % 4 == 0 by {
      if y % 100 == 0 {
        assert y == 4 * (25 * (y / 100));
      }
    }
  }

  /** Consecutive years start a year's length apart. */
  lemma YearStartStep(y: int)
    ensures YearStart(y + 1) == YearStart(y) + (if IsLeapYear(y) then 366 else 365)
  {
    LeapYearStep(y);
  }

  /** The next day is a valid date one day number later. */
  lemma NextDayNumber(d: Date)
    requires Valid(d)
    ensures Valid(NextDay(d)) && DayNumber(NextDay(d)) == DayNumber(d) + 1
  {
    if d.day == DaysInMonth(d.year, d.month) && d.month == 12 {
      YearStartStep(d.year);
    }
  }

  /** The previous day is a valid date one day number earlier. */
  lemma PrevDayNumber(d: Date)
    requires Valid(d)
    ensures Valid(PrevDay(d)) && DayNumber(PrevDay(d)) == DayNumber(d) - 1
  {
    if d.day == 1 && d.month == 1 {
      YearStartStep(d.year - 1);
    }
  }

  /** Stepping one day forward and one back, in either order, is the identity. */
  lemma PrevNextInverse(d: Date)
    requires Valid(d)
    ensures PrevDay(NextDay(d)) == d
    ensures NextDay(PrevDay(d)) == d
  {
    NextDayNumber(d);
    PrevDayNumber(d);
  }

  /** `k` steps of NextDay. */
  function NextDays(d: Date, k: nat): (r: Date)
    requires Valid(d)
    ensures Valid(r)
    decreases k
  {
    if k == 0 then d
    else
      NextDayNumber(d);
      NextDays(NextDay(d), k - 1)
  }

  /** `k` steps of PrevDay. */
  function PrevDays(d: Date, k: nat): (r: Date)
    requires Valid(d)
    ensures Valid(r)
    decreases k
  {
    if k == 0 then d
    else
      PrevDayNumber(d);
      PrevDays(PrevDay(d), k - 1)
  }

  /** `setDate(getDate() + n)`: moves n days, forward or back. */
  function AddDays(d: Date, n: int): (r: Date)
    requires Valid(d)
    ensures Valid(r)
  {
    if n >= 0 then NextDays(d, n) else PrevDays(d, -n)
  }

  lemma {:induction false} NextDaysNumber(d: Date, k: nat)
    requires Valid(d)
    ensures DayNumber(NextDays(d, k)) == DayNumber(d) + k
    decreases k
  {
    if k > 0 {
      NextDayNumber(d);
      NextDaysNumber(NextDay(d), k - 1);
    }
  }

  lemma {:induction false} PrevDaysNumber(d: Date, k: nat)
    requires Valid(d)
    ensures DayNumber(PrevDays(d, k)) == DayNumber(d) - k
    decreases k
  {
    if k > 0 {
      PrevDayNumber(d);
      PrevDaysNumber(PrevDay(d), k - 1);
    }
  }

  /** Moving n days changes the day number by exactly n. */
  lemma AddDaysNumber(d: Date, n: int)
    requires Valid(d)
    ensures DayNumber(AddDays(d, n)) == DayNumber(d) + n
  {
    if n >= 0 { NextDaysNumber(d, n); } else { PrevDaysNumber(d, -n); }
  }

  lemma {:induction false} NextDaysAdd(d: Date, a: nat, b: nat)
    requires Valid(d)
    ensures NextDays(NextDays(d, a), b) == NextDays(d, a + b)
    decreases a
  {
    if a > 0 {
      NextDaysAdd(NextDay(d), a - 1, b);
    }
  }

  lemma {:induction false} PrevDaysAdd(d: Date, a: nat, b: nat)
    requires Valid(d)
    ensures PrevDays(PrevDays(d, a), b) == PrevDays(d, a + b)
    decreases a
  {
    if a > 0 {
      PrevDaysAdd(PrevDay(d), a - 1, b);
    }
  }

  /** Going k days back undoes going k days forward, and the other way round. */
  lemma {:induction false} NextPrevDaysInverse(d: Date, k: nat)
    requires Valid(d)
    ensures PrevDays(NextDays(d, k), k) == d
    ensures NextDays(PrevDays(d, k), k) == d
    decreases k
  {
    if k > 0 {
      // peel the last step off each walk
      NextDaysAdd(d, k - 1, 1);
      PrevDaysAdd(d, k - 1, 1);
      var f, b := NextDays(d, k - 1), PrevDays(d, k - 1);
      PrevNextInverse(f);
      PrevNextInverse(b);
      assert NextDays(d, k) == NextDay(f);
      assert PrevDays(d, k) == PrevDay(b);
      assert PrevDays(NextDay(f), k) == PrevDays(f, k - 1);
      assert NextDays(PrevDay(b), k) == NextDays(b, k - 1);
      NextPrevDaysInverse(d, k - 1);
    }
  }

  /** Moving a days and then b days is moving a + b days, whatever the signs. */
  lemma AddDaysAdd(d: Date, a: int, b: int)
    requires Valid(d)
    ensures AddDays(AddDays(d, a), b) == AddDays(d, a + b)
  {
    if a >= 0 && b >= 0 {
      NextDaysAdd(d, a, b);
    } else if a < 0 && b < 0 {
      PrevDaysAdd(d, -a, -b);
    } else if a >= 0 {
      // forward a, then back -b
      if a + b >= 0 {
        NextDaysAdd(d, a + b, -b);
        NextPrevDaysInverse(NextDays(d, a + b), -b);
      } else {
        PrevDaysAdd(NextDays(d, a), a, -b - a);
        NextPrevDaysInverse(d, a);
      }
    } else {
      // back -a, then forward b
      if a + b <= 0 {
        PrevDaysAdd(d, -(a + b), b);
        NextPrevDaysInverse(PrevDays(d, -(a + b)), b);
      } else {
        NextDaysAdd(PrevDays(d, -a), -a, a + b);
        NextPrevDaysInverse(d, -a);
      }
    }
  }

  /** Within one month, stepping forward only counts the day up. */
  lemma {:induction false} NextDaysInMonth(d: Date, k: nat)
    requires Valid(d) && d.day + k <= DaysInMonth(d.year, d.month)
    ensures NextDays(d, k) == Date(d.year, d.month, d.day + k)
    decreases k
  {
    if k > 0 {
      NextDaysInMonth(NextDay(d), k - 1);
    }
  }
}
