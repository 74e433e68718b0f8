/** The enumerations of the dashboard: booking and order statuses, consultation types, weekdays. */
module Constants {
  import opened Wrappers

  /** A table of (key, label) rows, as the `{ key: { label } }` objects and `[{ value, label }]` arrays. */
  type Table = seq<(string, string)>

  function Keys(t: Table): (r: seq<string>)
    ensures |r| == |t| && forall i :: 0 <= i < |t| ==> r[i] == t[i].0
  {
    seq(|t|, i requires 0 <= i < |t| => t[i].0)
  }

  /** `table[key]?.label`: the label of the first row with that key, if any. */
  function Lookup(t: Table, key: string): (r: Option<string>)
    ensures r.Some? <==> key in Keys(t)
    ensures r.Some? ==> exists i :: 0 <= i < |t| && t[i] == (key, r.value)
  {
    if t == [] then None
    else if t[0].0 == key then Some(t[0].1)
    else
      assert Keys(t) == [t[0].0] + Keys(t[1..]);
      var r := Lookup(t[1..], key);
      assert r.Some? ==> exists i :: 0 <= i < |t[1..]| && t[1..][i] == (key, r.value);
      r
  }

  const ConsultationTypes: Table :=
    [("video", "Video Call"), ("chat", "Chat"), ("in_person", "In-Person"), ("audio", "Audio Call")]

  const BookingStatusTable: Table :=
    [("pending", "Pending"), ("confirmed", "Confirmed"), ("completed", "Completed"),
     ("cancelled", "Cancelled"), ("no_show", "No Show")]

  const OrderStatusTable: Table :=
    [("pending", "Pending"), ("confirmed", "Confirmed"), ("shipped", "Shipped"),
     ("delivered", "Delivered"), ("cancelled", "Cancelled")]

  const DaysOfWeek: seq<string> :=
    ["Sunday", "Monday", "Tuesday", "Wednesday", "Thursday", "Friday", "Saturday"]

  /** The booking statuses, in declaration order. */
  function BookingStatuses(): (r: seq<string>)
    ensures r == ["pending", "confirmed", "completed", "cancelled", "no_show"]
  {
    Keys(BookingStatusTable)
  }

  /** The order statuses, in declaration order. */
  function OrderStatuses(): (r: seq<string>)
    ensures r == ["pending", "confirmed", "shipped", "delivered", "cancelled"]
  {
    Keys(OrderStatusTable)
  }

  /** `BOOKING_STATUS[status]?.label`: defined exactly for the five booking statuses. */
  function BookingStatusLabel(status: string): (r: Option<string>)
    ensures r.Some? <==> status in BookingStatuses()
  {
    Lookup(BookingStatusTable, status)
  }

  /** The tables are well formed: seven weekdays from Sunday, and no key used twice. */
  lemma TablesWellFormed()
    ensures |DaysOfWeek| == 7 && DaysOfWeek[0] == "Sunday" && DaysOfWeek[6] == "Saturday"
    ensures Keys(ConsultationTypes) == ["video", "chat", "in_person", "audio"]
    ensures forall i, j :: 0 <= i < j < 5 ==> BookingStatuses()[i] != BookingStatuses()[j]
    ensures forall i, j :: 0 <= i < j < 5 ==> OrderStatuses()[i] != OrderStatuses()[j]
  {
    assert Keys(ConsultationTypes)[3] == "audio";
  }

  /** Every booking status has a label: "No Show" for no_show, the capitalised key otherwise. */
  lemma BookingLabels()
    ensures BookingStatusLabel("pending") == Some("Pending")
    ensures BookingStatusLabel("confirmed") == Some("Confirmed")
    ensures BookingStatusLabel("completed") == Some("Completed")
    ensures BookingStatusLabel("cancelled") == Some("Cancelled")
    ensures BookingStatusLabel("no_show") == Some("No Show")
  {
  }
}
