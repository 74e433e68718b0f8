/**
 * The calendar page: the date range of the day, week and month views,
 * stepping the view back and forth, bucketing bookings by date and by start
 * hour, the seven days of the week view and the padded month grid.
 * The current date is a civil `Date`; a booking's date is matched against a
 * cell by its day number.
 */
module Calendar {
  import opened Wrappers
  import opened Text
  import opened Seqs
  import opened Dates
  import B = Bookings

  datatype ViewMode = DayView | WeekView | MonthView

  datatype Direction = Prev | Next

  /** `getStartDate`: the date itself, the Sunday on or before it, or the first of its month. */
  function RangeStart(mode: ViewMode, current: Date): (r: Date)
    requires Valid(current)
    ensures Valid(r)
  {
    match mode
    case DayView => current
    case WeekView => AddDays(current, -Weekday(current))
    case MonthView => Date(current.year, current.month, 1)
  }

  /** `getEndDate`: the date itself, the Saturday after the range start, or the last day of the month. */
  function RangeEnd(mode: ViewMode, current: Date): (r: Date)
    requires Valid(current)
    ensures Valid(r)
  {
    match mode
    case DayView => current
    case WeekView => AddDays(current, -Weekday(current) + 6)
    case MonthView => Date(current.year, current.month, DaysInMonth(current.year, current.month))
  }

  /**
   * The week view starts on a Sunday, ends six days later, and covers the
   * current date.
   */
  lemma WeekRange(current: Date)
    requires Valid(current)
    ensures Weekday(RangeStart(WeekView, current)) == 0
    ensures RangeEnd(WeekView, current) == NextDays(RangeStart(WeekView, current), 6)
    ensures DayNumber(RangeStart(WeekView, current)) <= DayNumber(current) < DayNumber(RangeStart(WeekView, current)) + 7
  {
    var w := Weekday(current);
    AddDaysNumber(current, -w);
    AddDaysAdd(current, -w, 6);
    Mod7Cancel(DayNumber(current) + 1);
  }

  /**
   * Every view's range covers the current date; the day view's range is that
   * date alone, and the month view's range holds as many days as the month.
   */
  lemma RangeCoversCurrent(mode: ViewMode, current: Date)
    requires Valid(current)
    ensures DayNumber(RangeStart(mode, current)) <= DayNumber(current) <= DayNumber(RangeEnd(mode, current))
    ensures mode == DayView ==> RangeStart(mode, current) == current == RangeEnd(mode, current)
    ensures mode == MonthView ==>
      RangeStart(mode, current).month == RangeEnd(mode, current).month == current.month
      && DayNumber(RangeEnd(mode, current)) - DayNumber(RangeStart(mode, current)) + 1
         == DaysInMonth(current.year, current.month)
  {
    if mode == WeekView {
      WeekRange(current);
      AddDaysNumber(RangeStart(WeekView, current), 6);
    }
  }

  /**
   * `setMonth(getMonth() + delta)`: the same day number in the target month;
   * a day the target month lacks overflows into the month after it.
   */
  function ShiftMonth(current: Date, delta: int): (r: Date)
    requires Valid(current)
    ensures Valid(r)
  {
    var t := current.year * 12 + (current.month - 1) + delta;
    var y, m := t / 12, t % 12 + 1;
    var n := DaysInMonth(y, m);
    if current.day <= n then Date(y, m, current.day)
    else NextDays(Date(y, m, n), current.day - n)
  }

  /** `navigate`: one day, seven days or one month back or forward. */
  function Step(mode: ViewMode, dir: Direction, current: Date): (r: Date)
    requires Valid(current)
    ensures Valid(r)
  {
    var sign := if dir == Next then 1 else -1;
    match mode
    case DayView => AddDays(current, sign)
    case WeekView => AddDays(current, 7 * sign)
    case MonthView => ShiftMonth(current, sign)
  }

  /** Day and week steps move the date by exactly one and seven days. */
  lemma StepDistance(mode: ViewMode, dir: Direction, current: Date)
    requires Valid(current) && mode != MonthView
    ensures DayNumber(Step(mode, dir, current)) - DayNumber(current)
      == (if mode == DayView then 1 else 7) * (if dir == Next then 1 else -1)
  {
    var sign := if dir == Next then 1 else -1;
    AddDaysNumber(current, (if mode == DayView then 1 else 7) * sign);
  }

  /** In the day and week views, "prev" undoes "next" and "next" undoes "prev". */
  lemma StepRoundTrip(mode: ViewMode, current: Date)
    requires Valid(current) && mode != MonthView
    ensures Step(mode, Prev, Step(mode, Next, current)) == current
    ensures Step(mode, Next, Step(mode, Prev, current)) == current
  {
    var n := if mode == DayView then 1 else 7;
    AddDaysAdd(current, n, -n);
    AddDaysAdd(current, -n, n);
  }

  /** A month step keeps the day of month when the target month has it, and lands in the target month. */
  lemma ShiftMonthKeepsDay(current: Date, delta: int)
    requires Valid(current)
    requires current.day <= DaysInMonth((current.year * 12 + current.month - 1 + delta) / 12,
                                        (current.year * 12 + current.month - 1 + delta) % 12 + 1)
    ensures var r := ShiftMonth(current, delta);
      r.day == current.day && r.year * 12 + r.month - 1 == current.year * 12 + current.month - 1 + delta
  {
  }

  /**
   * A day the target month lacks overflows: the result is day (day - length)
   * of the month after the target month.
   */
  lemma ShiftMonthOverflow(current: Date, delta: int)
    requires Valid(current)
    requires current.day > DaysInMonth((current.year * 12 + current.month - 1 + delta) / 12,
                                       (current.year * 12 + current.month - 1 + delta) % 12 + 1)
    ensures var t := current.year * 12 + current.month - 1 + delta;
      var r := ShiftMonth(current, delta);
      r.year * 12 + r.month - 1 == t + 1
      && r.day == current.day - DaysInMonth(t / 12, t % 12 + 1)
  {
    var t := current.year * 12 + current.month - 1 + delta;
    var y, m := t / 12, t % 12 + 1;
    var n := DaysInMonth(y, m);
    var last := Date(y, m, n);
    var first := NextDay(last);
    assert first.day == 1 && first.year * 12 + first.month - 1 == t + 1;
    NextDaysInMonth(first, current.day - n - 1);
  }

  /** In the month view, "prev" undoes "next" (and the other way round) for days 1 to 28. */
  lemma MonthStepRoundTrip(current: Date)
    requires Valid(current) && current.day <= 28
    ensures Step(MonthView, Prev, Step(MonthView, Next, current)) == current
    ensures Step(MonthView, Next, Step(MonthView, Prev, current)) == current
  {
    var t := current.year * 12 + (current.month - 1);
    assert t == 12 * current.year + (current.month - 1);
    assert t / 12 == current.year && t % 12 == current.month - 1;
  }

  /** From January 31st, "next" then "prev" ends on February 3rd (2025 is not a leap year). */
  lemma MonthStepNotRoundTrip()
    ensures Step(MonthView, Next, Date(2025, 1, 31)) == Date(2025, 3, 3)
    ensures Step(MonthView, Prev, Step(MonthView, Next, Date(2025, 1, 31))) == Date(2025, 2, 3)
  {
    ShiftMonthOverflow(Date(2025, 1, 31), 1);
    assert ShiftMonth(Date(2025, 1, 31), 1) == Date(2025, 3, 3);
  }

  function OnDay(n: int): B.Booking -> bool {
    (b: B.Booking) => b.date == n
  }

  /** `getBookingsForDate`: the bookings on that date, in their original order. */
  function BookingsForDate(bs: seq<B.Booking>, d: Date): (r: seq<B.Booking>)
    requires 1 <= d.month <= 12
    ensures forall b :: multiset(r)[b] == if b.date == DayNumber(d) then multiset(bs)[b] else 0
  {
    Filter(bs, OnDay(DayNumber(d)))
  }

  /** The bookings of a date split the same way over any split of the list: the order is kept. */
  lemma BookingsForDateKeepsOrder(xs: seq<B.Booking>, ys: seq<B.Booking>, d: Date)
    requires 1 <= d.month <= 12
    ensures BookingsForDate(xs + ys, d) == BookingsForDate(xs, d) + BookingsForDate(ys, d)
  {
    FilterAppend(xs, ys, OnDay(DayNumber(d)));
  }

  /** `parseInt(start_time.split(':')[0])`: the hour a booking starts in, None for NaN. */
  function HourOf(t: string): Option<nat> {
    ParseLeadingInt(t)
  }

  function Digit(n: nat): char
    requires n < 10
  {
    ('0' as int + n) as char
  }

  /** A row label of the time grid: the hour padded to two digits, then ":00". */
  function SlotLabel(h: nat): string
    requires h < 24
  {
    [Digit(h / 10), Digit(h % 10), ':', '0', '0']
  }

  /** The 24 row labels "00:00" .. "23:00". */
  function TimeSlots(): (r: seq<string>)
    ensures |r| == 24
  {
    seq(24, h requires 0 <= h < 24 => SlotLabel(h))
  }

  /** Reading the hour back from a row label gives the row's hour. */
  lemma SlotLabelHour(h: nat)
    requires h < 24
    ensures HourOf(SlotLabel(h)) == Some(h)
  {
    var s := SlotLabel(h);
    assert LeadingDigits(s[2..]) == [];
    assert LeadingDigits(s[1..]) == [s[1]];
    var ds := LeadingDigits(s);
    assert ds == [s[0], s[1]];
    assert ds[..1] == [s[0]] && [s[0]][..0] == [];
    assert DigitsValue([s[0]]) == h / 10;
    assert DigitsValue(ds) == (h / 10) * 10 + h % 10;
  }

  function StartsInHour(hour: int): B.Booking -> bool {
    (b: B.Booking) => HourOf(b.startTime) == Some(hour)
  }

  /** The bookings of one cell: those of the day whose start hour is the row's hour. */
  function SlotBookings(dayBookings: seq<B.Booking>, hour: int): (r: seq<B.Booking>)
    ensures forall b :: b in r <==> b in dayBookings && HourOf(b.startTime) == Some(hour)
  {
    Filter(dayBookings, StartsInHour(hour))
  }

  /**
   * A booking of the day whose start hour h is below 24 lands in exactly one
   * row of the grid, the row labelled with h; any other booking in none.
   */
  lemma BookingInOneRow(dayBookings: seq<B.Booking>, b: B.Booking)
    requires b in dayBookings
    ensures forall row :: 0 <= row < 24 ==>
      (b in SlotBookings(dayBookings, HourOf(TimeSlots()[row]).value) <==> HourOf(b.startTime) == Some(row))
  {
    forall row | 0 <= row < 24
      ensures HourOf(TimeSlots()[row]) == Some(row)
    {
      SlotLabelHour(row);
    }
  }

  /** The seven columns of the week view. */
  function WeekDays(current: Date): (r: seq<Date>)
    requires Valid(current)
    ensures |r| == 7 && r[0] == RangeStart(WeekView, current)
  {
    var start := RangeStart(WeekView, current);
    seq(7, i requires 0 <= i < 7 => AddDays(start, i))
  }

  /** The week view's columns are seven consecutive days, Sunday to Saturday. */
  lemma WeekDaysConsecutive(current: Date)
    requires Valid(current)
    ensures var r := WeekDays(current);
      (forall i :: 0 <= i < 6 ==> Valid(r[i]) && r[i + 1] == NextDay(r[i]))
      && (forall i :: 0 <= i < 7 ==> Weekday(r[i]) == i)
      && r[6] == RangeEnd(WeekView, current)
  {
    var start := RangeStart(WeekView, current);
    var r := WeekDays(current);
    WeekRange(current);
    forall i | 0 <= i < 6
      ensures r[i + 1] == NextDay(r[i])
    {
      NextDaysAdd(start, i, 1);
    }
    forall i | 0 <= i < 7
      ensures Weekday(r[i]) == i
    {
      AddDaysNumber(start, i);
      Mod7Add(DayNumber(start) + 1, i);
    }
  }

  /**
   * `renderMonthView`'s two loops: as many empty cells as the weekday of the
   * 1st, then every date of the month once, in order.
   */
  method MonthGrid(current: Date) returns (cells: seq<Option<Date>>)
    requires Valid(current)
    ensures var first := Weekday(RangeStart(MonthView, current));
      var n := DaysInMonth(current.year, current.month);
      |cells| == first + n
      && (forall i :: 0 <= i < first ==> cells[i] == None)
      && (forall i :: first <= i < first + n ==> cells[i] == Some(Date(current.year, current.month, i - first + 1)))
  {
    var start := RangeStart(MonthView, current);
    var end := RangeEnd(MonthView, current);
    var n := DaysInMonth(current.year, current.month);
    var firstDay := Weekday(start);
    cells := [];
    var i := 0;
    while i < firstDay
      invariant 0 <= i <= firstDay && |cells| == i
      invariant forall j :: 0 <= j < i ==> cells[j] == None
    {
      cells := cells + [None];
      i := i + 1;
    }
    var d := start;
    var k := 0;
    while DayNumber(d) <= DayNumber(end)
      invariant Valid(d) && 0 <= k <= n
      invariant DayNumber(d) == DayNumber(start) + k
      invariant k < n ==> d == Date(current.year, current.month, k + 1)
      invariant |cells| == firstDay + k
      invariant forall j :: 0 <= j < firstDay ==> cells[j] == None
      invariant forall j :: firstDay <= j < firstDay + k ==> cells[j] == Some(Date(current.year, current.month, j - firstDay + 1))
      decreases DayNumber(end) - DayNumber(d)
    {
      cells := cells + [Some(d)];
      NextDayNumber(d);
      d := NextDay(d);
      k := k + 1;
    }
  }

  /** Each date of the month grid sits in the column of its own weekday. */
  lemma MonthGridColumns(current: Date, k: nat)
    requires Valid(current) && k < DaysInMonth(current.year, current.month)
    ensures Weekday(Date(current.year, current.month, k + 1))
      == (Weekday(RangeStart(MonthView, current)) + k) % 7
  {
    var x := DayNumber(RangeStart(MonthView, current)) + 1;
    assert DayNumber(Date(current.year, current.month, k + 1)) + 1 == x + k;
    Mod7Add(x, k);
  }

  /** What a month cell shows: at most two bookings and, when there are more, "+N more". */
  datatype Preview = Preview(shown: seq<B.Booking>, more: Option<nat>)

  function CellPreview(dayBookings: seq<B.Booking>): (r: Preview)
    ensures |r.shown| <= 2 && |r.shown| <= |dayBookings| && r.shown == dayBookings[..|r.shown|]
    ensures |r.shown| + r.more.GetOr(0) == |dayBookings|
    ensures r.more.Some? ==> r.more.value > 0 && |r.shown| == 2
  {
    var shown := Take(dayBookings, 2);
    Preview(shown, if |dayBookings| > 2 then Some(|dayBookings| - 2) else None)
  }

  /** The calendar page's state: the view mode and the date the view is on. */
  class CalendarPage {
    var viewMode: ViewMode
    var current: Date

    predicate Valid()
      reads this
    {
      Dates.Valid(current)
    }

    constructor(today: Date)
      requires Dates.Valid(today)
      ensures Valid() && viewMode == WeekView && current == today
    {
      viewMode := WeekView;
      current := today;
    }

    /** `navigate(direction)`: one step of the current view. */
    method Navigate(dir: Direction)
      requires Valid()
      modifies this
      ensures Valid() && viewMode == old(viewMode)
      ensures current == Step(viewMode, dir, old(current))
    {
      current := Step(viewMode, dir, current);
    }

    method SetViewMode(mode: ViewMode)
      modifies this
      ensures viewMode == mode && current == old(current)
    {
      viewMode := mode;
    }

    /** `goToToday`. */
    method GoToToday(today: Date)
      requires Dates.Valid(today)
      modifies this
      ensures Valid() && current == today && viewMode == old(viewMode)
    {
      current := today;
    }
  }
}
