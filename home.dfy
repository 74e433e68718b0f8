/**
 * The dashboard home page: the next five upcoming bookings, the greeting by
 * hour of day and the name the doctor is greeted by.
 */
module Home {
  import opened Wrappers
  import opened Seqs
  import opened Bookings

  function OnOrAfter(today: int): Booking -> bool {
    (b: Booking) => b.date >= today
  }

  /** The sort key `new Date(b.date).getTime()`: the date alone, so same-day bookings keep their order. */
  function DateKey(): Booking -> seq<int> {
    (b: Booking) => [b.date]
  }

  /** `filter(date >= today).sort(by date).slice(0, 5)`. */
  function UpcomingForHome(bs: seq<Booking>, today: int): (r: seq<Booking>)
    ensures var q := Filter(bs, OnOrAfter(today)); |r| == if |q| <= 5 then |q| else 5
    ensures multiset(r) <= multiset(Filter(bs, OnOrAfter(today)))
    ensures forall b :: b in r ==> b in bs && b.date >= today
  {
    var q := Filter(bs, OnOrAfter(today));
    var sorted := SortBy(q, DateKey());
    var r := Take(sorted, 5);
    assert |r| == if |q| <= 5 then |q| else 5;
    assert r == sorted[..|r|];
    assert sorted == sorted[..|r|] + sorted[|r|..];
    assert multiset(sorted) == multiset(r) + multiset(sorted[|r|..]);
    forall b | b in r
      ensures b in bs && b.date >= today
    {
      var i :| 0 <= i < |r| && r[i] == b;
      assert sorted[i] == b && b in multiset(sorted);
    }
    r
  }

  /** The list runs from the earliest date to the latest. */
  lemma UpcomingSorted(bs: seq<Booking>, today: int)
    ensures var r := UpcomingForHome(bs, today);
      forall i, j :: 0 <= i < j < |r| ==> r[i].date <= r[j].date
  {
    var q := Filter(bs, OnOrAfter(today));
    SortByIsSorted(q, DateKey());
    var sorted := SortBy(q, DateKey());
    var r := UpcomingForHome(bs, today);
    forall i, j | 0 <= i < j < |r|
      ensures r[i].date <= r[j].date
    {
      assert r[i] == sorted[i] && r[j] == sorted[j];
      assert LexLe([r[i].date], [r[j].date]);
    }
  }

  /**
   * The five are the earliest qualifying bookings: any qualifying booking left
   * out is no earlier than every one shown, and with at most five qualifying
   * bookings all of them are shown.
   */
  lemma UpcomingAreEarliest(bs: seq<Booking>, today: int)
    ensures var r := UpcomingForHome(bs, today);
      forall y :: y in bs && y.date >= today && y !in r ==> forall x :: x in r ==> x.date <= y.date
    ensures var q := Filter(bs, OnOrAfter(today));
      |q| <= 5 ==> multiset(UpcomingForHome(bs, today)) == multiset(q)
  {
    var q := Filter(bs, OnOrAfter(today));
    SortByIsSorted(q, DateKey());
    var sorted := SortBy(q, DateKey());
    var r := UpcomingForHome(bs, today);
    assert r == sorted[..|r|];
    forall y, x | y in bs && y.date >= today && y !in r && x in r
      ensures x.date <= y.date
    {
      assert y in q;
      assert y in multiset(sorted);
      var j :| 0 <= j < |sorted| && sorted[j] == y;
      var i :| 0 <= i < |r| && r[i] == x;
      assert forall k :: 0 <= k < |r| ==> sorted[k] == r[k] && r[k] in r;
      assert LexLe(DateKey()(sorted[i]), DateKey()(sorted[j]));
    }
  }

  /** The part of the day `getGreeting` picks by the local hour. */
  datatype DayPart = Morning | Afternoon | Evening

  function GreetingPart(hour: int): (p: DayPart)
    ensures p == Morning <==> hour < 12
    ensures p == Evening <==> hour >= 18
  {
    if hour < 12 then Morning else if hour < 18 then Afternoon else Evening
  }

  function GreetingText(p: DayPart): string {
    match p
    case Morning => "Good morning"
    case Afternoon => "Good afternoon"
    case Evening => "Good evening"
  }

  function PartIndex(p: DayPart): nat {
    match p
    case Morning => 0
    case Afternoon => 1
    case Evening => 2
  }

  /** The greeting only moves forward through the day: morning, then afternoon, then evening. */
  lemma GreetingMonotone(h1: int, h2: int)
    requires h1 <= h2
    ensures PartIndex(GreetingPart(h1)) <= PartIndex(GreetingPart(h2))
  {
  }

  /**
   * `preferred_name || full_name || 'Doctor'`: the first of the two names that
   * is present and non-empty, else "Doctor"; the result is never empty.
   */
  function DisplayName(preferred: Option<string>, full: Option<string>): (r: string)
    ensures r != ""
    ensures preferred.Some? && preferred.value != "" ==> r == preferred.value
    ensures (preferred.None? || preferred.value == "") && full.Some? && full.value != "" ==> r == full.value
    ensures (preferred.None? || preferred.value == "") && (full.None? || full.value == "") ==> r == "Doctor"
  {
    if preferred.Some? && preferred.value != "" then preferred.value
    else if full.Some? && full.value != "" then full.value
    else "Doctor"
  }
}
