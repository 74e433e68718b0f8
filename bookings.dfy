/**
 * The booking list page and the booking details page: the upcoming and past
 * rules, the order of the list, the status badge, the relative date label,
 * the lookup by id, the synthesised patient e-mail and the patient's age.
 * Booking dates are day numbers (the order of their ISO date strings);
 * `startTime` is the "HH:MM" text the list is ordered by within a day.
 */
module Bookings {
  import opened Wrappers
  import opened Text
  import opened Seqs
  import opened Badge
  import Constants
  import Dates

  datatype Booking = Booking(
    id: string, doctorId: string, date: int, startTime: string,
    status: string, patientName: string, notes: Option<string>)

  datatype Tab = All | Upcoming | Past

  /** The "upcoming" tab: on or after today, and still pending or confirmed. */
  predicate IsUpcoming(b: Booking, today: int) {
    b.date >= today && (b.status == "pending" || b.status == "confirmed")
  }

  /** The "past" tab: before today, or completed, cancelled or no_show whatever the date. */
  predicate IsPast(b: Booking, today: int) {
    b.date < today || b.status == "completed" || b.status == "cancelled" || b.status == "no_show"
  }

  /** For a booking with one of the five statuses exactly one of the two tabs lists it. */
  lemma UpcomingXorPast(b: Booking, today: int)
    requires b.status in Constants.BookingStatuses()
    ensures IsUpcoming(b, today) != IsPast(b, today)
  {
  }

  /** A future booking with any other status is on neither tab. */
  lemma UnknownStatusOnNeitherTab(b: Booking, today: int)
    requires b.status !in Constants.BookingStatuses() && b.date >= today
    ensures !IsUpcoming(b, today) && !IsPast(b, today)
  {
  }

  /** The rows the query keeps: the signed-in doctor's, narrowed by the tab. */
  function Selects(userId: string, tab: Tab, today: int): Booking -> bool {
    (b: Booking) => b.doctorId == userId && match tab
      case All => true
      case Upcoming => IsUpcoming(b, today)
      case Past => IsPast(b, today)
  }

  /** `order('date', past ? desc : asc).order('start_time', asc)` as one lexicographic key. */
  function OrderKey(tab: Tab): Booking -> seq<int> {
    (b: Booking) => [if tab == Past then -b.date else b.date] + Codes(b.startTime)
  }

  /** The rows `loadBookings` receives for a signed-in doctor. */
  function Query(userId: string, tab: Tab, today: int, rows: seq<Booking>): (r: seq<Booking>)
    ensures forall b :: multiset(r)[b] == if Selects(userId, tab, today)(b) then multiset(rows)[b] else 0
  {
    SortBy(Filter(rows, Selects(userId, tab, today)), OrderKey(tab))
  }

  /** A booking is listed iff it is the doctor's and passes the tab's rule; "all" adds no rule. */
  lemma QueryMembership(userId: string, tab: Tab, today: int, rows: seq<Booking>, b: Booking)
    ensures b in Query(userId, tab, today, rows) <==>
      b in rows && b.doctorId == userId
      && (tab == Upcoming ==> IsUpcoming(b, today))
      && (tab == Past ==> IsPast(b, today))
  {
    var r := Query(userId, tab, today, rows);
    assert b in r <==> multiset(r)[b] > 0;
    assert b in rows <==> multiset(rows)[b] > 0;
  }

  /**
   * The list is ordered by date, descending on the past tab and ascending
   * otherwise, and bookings of the same date by start time ascending.
   */
  lemma QueryOrder(userId: string, tab: Tab, today: int, rows: seq<Booking>, i: int, j: int)
    requires 0 <= i < j < |Query(userId, tab, today, rows)|
    ensures var r := Query(userId, tab, today, rows);
      (if tab == Past then r[i].date >= r[j].date else r[i].date <= r[j].date)
      && (r[i].date == r[j].date ==> LexLe(Codes(r[i].startTime), Codes(r[j].startTime)))
  {
    var r := Query(userId, tab, today, rows);
    var key := OrderKey(tab);
    SortByIsSorted(Filter(rows, Selects(userId, tab, today)), key);
    assert LexLe(key(r[i]), key(r[j]));
    var di := if tab == Past then -r[i].date else r[i].date;
    var dj := if tab == Past then -r[j].date else r[j].date;
    assert key(r[i]) == [di] + Codes(r[i].startTime);
    assert key(r[j]) == [dj] + Codes(r[j].startTime);
    LexLeHead(di, Codes(r[i].startTime), dj, Codes(r[j].startTime));
  }

  /** The booking list page's state: the active tab, the rows shown and the loading flag. */
  class BookingsPage {
    var activeTab: Tab
    var bookings: seq<Booking>
    var loading: bool

    constructor()
      ensures activeTab == All && bookings == [] && loading
    {
      activeTab := All;
      bookings := [];
      loading := true;
    }

    /**
     * `loadBookings`: nothing without a signed-in user; otherwise the query's
     * rows replace the list (a failed query, `rows == None`, keeps it) and
     * loading ends.
     */
    method Load(user: Option<string>, today: int, rows: Option<seq<Booking>>)
      modifies this
      ensures activeTab == old(activeTab)
      ensures user.None? ==> bookings == old(bookings) && loading == old(loading)
      ensures user.Some? ==> !loading
      ensures user.Some? && rows.Some? ==> bookings == Query(user.value, activeTab, today, rows.value)
      ensures user.Some? && rows.None? ==> bookings == old(bookings)
    {
      if user.None? {
        return;
      }
      loading := true;
      if rows.Some? {
        bookings := Query(user.value, activeTab, today, rows.value);
      }
      loading := false;
    }

    /** Choosing a tab reloads the list under the new tab's rule. */
    method SelectTab(tab: Tab, user: Option<string>, today: int, rows: Option<seq<Booking>>)
      modifies this
      ensures activeTab == tab
      ensures user.Some? ==> !loading
      ensures user.Some? && rows.Some? ==> bookings == Query(user.value, tab, today, rows.value)
      ensures user.Some? && rows.None? ==> bookings == old(bookings)
      ensures user.None? ==> bookings == old(bookings) && loading == old(loading)
    {
      activeTab := tab;
      Load(user, today, rows);
    }
  }

  /**
   * `getStatusVariant` of the booking list and of the booking details page:
   * the badge is coloured exactly for the five booking statuses.
   */
  function StatusVariant(status: string): (v: Variant)
    ensures v != Default <==> status in Constants.BookingStatuses()
    ensures v == Info <==> status == "confirmed"
    ensures v == Success <==> status == "completed"
    ensures v == Warning <==> status == "pending"
    ensures v == Error <==> status == "cancelled" || status == "no_show"
  {
    if status == "confirmed" then Info
    else if status == "completed" then Success
    else if status == "pending" then Warning
    else if status == "cancelled" || status == "no_show" then Error
    else Default
  }

  /** The label `formatDate` gives a booking date. */
  datatype DateLabel = Today | Tomorrow | OnDate(day: int)

  function FormatDate(date: int, today: int): (r: DateLabel)
    ensures r == Today <==> date == today
    ensures r == Tomorrow <==> date == today + 1
    ensures r.OnDate? ==> r.day == date
  {
    if date == today then Today
    else if date == today + 1 then Tomorrow
    else OnDate(date)
  }

  /** `bookings.find(b => b.id === id)`: the first booking with that id, if any. */
  function FindBooking(bs: seq<Booking>, id: string): (r: Option<Booking>)
    ensures r.None? <==> forall b :: b in bs ==> b.id != id
    ensures r.Some? ==> (r.value.id == id
      && exists k :: 0 <= k < |bs| && bs[k] == r.value && forall j :: 0 <= j < k ==> bs[j].id != id)
  {
    if bs == [] then None
    else if bs[0].id == id then
      Some(bs[0])
    else
      var r := FindBooking(bs[1..], id);
      assert forall b :: b in bs ==> b == bs[0] || b in bs[1..];
      if r.Some? then
        var k :| 0 <= k < |bs[1..]| && bs[1..][k] == r.value && forall j :: 0 <= j < k ==> bs[1..][j].id != id;
        assert bs[k + 1] == r.value && forall j :: 0 <= j < k + 1 ==> bs[j].id != id;
        r
      else r
  }

  /** The patient's e-mail: the name lower-cased, its first space turned into a dot, then "@email.com". */
  function PatientEmail(name: string): string {
    ReplaceFirst(ToLower(name), " ", ".") + "@email.com"
  }

  /** A name without a space is only lower-cased. */
  lemma EmailOfOneWordName(name: string)
    requires ' ' !in name
    ensures PatientEmail(name) == ToLower(name) + "@email.com"
  {
    var s := ToLower(name);
    forall j | 0 <= j < |s|
      ensures s[j] != ' '
    {
      assert name[j] in name;
    }
    ContainsChar(s, ' ');
  }

  /** Only the first space becomes a dot: the spaces in the rest of the name are kept. */
  lemma EmailOfSplitName(first: string, rest: string)
    requires ' ' !in first
    ensures PatientEmail(first + " " + rest) == ToLower(first) + "." + ToLower(rest) + "@email.com"
  {
    var name := first + " " + rest;
    var s := ToLower(name);
    var k := |first|;
    forall j | 0 <= j < k
      ensures s[j] != ' '
    {
      assert name[j] == first[j] && first[j] in first;
    }
    assert s[k..k + 1] == " ";
    assert StartsWith(s[k..], " ");
    ContainsAt(s, " ", k);
    var i := IndexOf(s, " ").value;
    assert s[i..i + 1] == " ";
    assert s[i] == ' ';
    assert i == k;
    assert s[..k] == ToLower(first);
    assert s[k + 1..] == ToLower(rest);
  }

  const DemoPhone := "+1 (555) 123-4567"

  /** The booking as the details page shows it, with the synthesised contact fields. */
  datatype Details = Details(booking: Booking, email: string, phone: string)

  /** The booking details page: the booking found, the notes being edited, the loading flag. */
  class BookingDetailsPage {
    var details: Option<Details>
    var notes: string
    var loading: bool

    constructor()
      ensures details == None && notes == "" && loading
    {
      details := None;
      notes := "";
      loading := true;
    }

    /**
     * The effect run for a booking id: a found booking is shown with its
     * synthesised e-mail and the demo phone, and its notes ("" when absent)
     * are loaded; an unknown id changes neither.
     */
    method Open(bookingId: string, sample: seq<Booking>)
      modifies this
      ensures !loading
      ensures FindBooking(sample, bookingId).None? ==> details == old(details) && notes == old(notes)
      ensures FindBooking(sample, bookingId).Some? ==>
        var b := FindBooking(sample, bookingId).value;
        details == Some(Details(b, PatientEmail(b.patientName), DemoPhone)) && notes == b.notes.GetOr("")
    {
      var found := FindBooking(sample, bookingId);
      if found.Some? {
        var b := found.value;
        details := Some(Details(b, PatientEmail(b.patientName), DemoPhone));
        notes := b.notes.GetOr("");
      }
      loading := false;
    }

    /** The "Booking not found" state. */
    predicate ShowsNotFound()
      reads this
    {
      !loading && details.None?
    }
  }

  /** Calendar order on (year, month, day), as the age rule compares dates. */
  predicate OnOrBefore(a: Dates.Date, b: Dates.Date) {
    a.year < b.year || (a.year == b.year && (a.month < b.month || (a.month == b.month && a.day <= b.day)))
  }

  /**
   * `calculateAge`: the number of birthdays passed by today, that is the
   * largest n whose n-th anniversary of the birth date is on or before today.
   */
  method CalculateAge(birth: Dates.Date, today: Dates.Date) returns (age: int)
    ensures age == today.year - birth.year || age == today.year - birth.year - 1
    ensures age == today.year - birth.year <==> OnOrBefore(Dates.Date(today.year, birth.month, birth.day), today)
    ensures OnOrBefore(Dates.Date(birth.year + age, birth.month, birth.day), today)
    ensures !OnOrBefore(Dates.Date(birth.year + age + 1, birth.month, birth.day), today)
  {
    age := today.year - birth.year;
    var monthDiff := today.month - birth.month;
    if monthDiff < 0 || (monthDiff == 0 && today.day < birth.day) {
      age := age - 1;
    }
  }
}
